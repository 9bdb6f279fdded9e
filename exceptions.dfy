/** The board's domain exceptions, as values. Each one is raised by the domain or
    service layer and turned into an HTTP error status by the web framework. */
module Exceptions {

  datatype BoardError =
    | PostNotFound          // no post with the requested id
    | PostNotUpdatable      // the requester is not the post's author
    | PostNotDeletable      // the requester is not the post's author
    | CommentNotUpdatable   // the requester is not the comment's author
}
