/** The board's entities that are edited in place: posts and their comments. Only the
    author of an entity may update it; a rejected update changes nothing. */
module Domain {
  import opened Basics
  import opened Auditing
  import opened Exceptions

  /** What a client asks to change in a post, and who asks. */
  datatype PostUpdateRequest = PostUpdateRequest(title: string, content: string, updatedBy: string)

  /** What a client asks to change in a comment, and who asks. */
  datatype CommentUpdateRequest = CommentUpdateRequest(content: string, updatedBy: string)

  /** The abstract value of a post: its identity, audit fields and editable fields. */
  datatype PostState = PostState(id: Long, audit: AuditRecord, title: string, content: string)

  /** The abstract value of a comment: its identity, audit fields and editable field. */
  datatype CommentState = CommentState(id: Long, audit: AuditRecord, content: string)

  /** Every recorded update, if any, was made by the author. */
  predicate UpdatedOnlyByAuthor(a: AuditRecord)
  {
    a.updatedBy == None || a.updatedBy == Some(a.createdBy)
  }

  // ---------------------------------------------------------------------------
  // Post.update as a specification on values

  /** `Post.update` on the abstract value: refused unless the requester is the author;
      otherwise title and content are overwritten and the author is stamped as updater. */
  function PostUpdated(s: PostState, req: PostUpdateRequest, now: Timestamp)
    : (r: Result<PostState, BoardError>)
    ensures r.Failure? <==> req.updatedBy != s.audit.createdBy
    ensures r.Failure? ==> r.error == PostNotUpdatable
    ensures r.Success? ==>
      && r.value.id == s.id
      && r.value.audit.createdBy == s.audit.createdBy
      && r.value.audit.createdAt == s.audit.createdAt
      && r.value.title == req.title
      && r.value.content == req.content
      && r.value.audit.updatedBy == Some(s.audit.createdBy)
      && r.value.audit.updatedAt == Some(now)
  {
    if req.updatedBy != s.audit.createdBy then Failure(PostNotUpdatable)
    else Success(s.(title := req.title, content := req.content,
                    audit := Stamped(s.audit, req.updatedBy, now)))
  }

  /** The post after a call of `update`, whether it succeeded or threw. */
  function PostAfterUpdate(s: PostState, req: PostUpdateRequest, now: Timestamp): (r: PostState)
  {
    match PostUpdated(s, req, now)
    case Success(t) => t
    case Failure(_) => s
  }

  /** The post after a series of `update` calls, oldest first. */
  function PostAfterUpdates(s: PostState, reqs: seq<(PostUpdateRequest, Timestamp)>): (r: PostState)
    decreases |reqs|
  {
    if reqs == [] then s
    else PostAfterUpdates(PostAfterUpdate(s, reqs[0].0, reqs[0].1), reqs[1..])
  }

  /** The requests of `reqs` made by `author`, in order. */
  function RequestsBy(author: string, reqs: seq<(PostUpdateRequest, Timestamp)>)
    : (r: seq<(PostUpdateRequest, Timestamp)>)
    decreases |reqs|
  {
    if reqs == [] then []
    else if reqs[0].0.updatedBy == author then [reqs[0]] + RequestsBy(author, reqs[1..])
    else RequestsBy(author, reqs[1..])
  }

  /** Applying the same accepted request twice leaves title, content and updater as the
      first application left them; only the update time moves. */
  lemma PostUpdateIdempotent(s: PostState, req: PostUpdateRequest, t1: Timestamp, t2: Timestamp)
    requires PostUpdated(s, req, t1).Success?
    ensures PostUpdated(PostUpdated(s, req, t1).value, req, t2).Success?
    ensures PostUpdated(PostUpdated(s, req, t1).value, req, t2).value ==
            PostUpdated(s, req, t1).value.(audit := PostUpdated(s, req, t1).value.audit.(updatedAt := Some(t2)))
  {
  }

  /** No series of `update` calls changes a post's id, author or creation time, or lets
      anyone but the author appear as its updater. */
  lemma {:induction false} PostUpdatesKeepOwnership(s: PostState, reqs: seq<(PostUpdateRequest, Timestamp)>)
    requires UpdatedOnlyByAuthor(s.audit)
    ensures UpdatedOnlyByAuthor(PostAfterUpdates(s, reqs).audit)
    ensures PostAfterUpdates(s, reqs).id == s.id
    ensures PostAfterUpdates(s, reqs).audit.createdBy == s.audit.createdBy
    ensures PostAfterUpdates(s, reqs).audit.createdAt == s.audit.createdAt
    decreases |reqs|
  {
    if reqs != [] {
      PostUpdatesKeepOwnership(PostAfterUpdate(s, reqs[0].0, reqs[0].1), reqs[1..]);
    }
  }

  /** Requests by anyone but the author have no effect at all: a series of `update`
      calls leaves the post exactly as the author's requests alone would. */
  lemma {:induction false} NonAuthorRequestsIgnored(s: PostState, reqs: seq<(PostUpdateRequest, Timestamp)>)
    ensures PostAfterUpdates(s, reqs) == PostAfterUpdates(s, RequestsBy(s.audit.createdBy, reqs))
    decreases |reqs|
  {
    if reqs != [] {
      var author := s.audit.createdBy;
      var s1 := PostAfterUpdate(s, reqs[0].0, reqs[0].1);
      NonAuthorRequestsIgnored(s1, reqs[1..]);
      if reqs[0].0.updatedBy == author {
        var rest := RequestsBy(author, reqs[1..]);
        assert ([reqs[0]] + rest)[1..] == rest;
      }
    }
  }

  // ---------------------------------------------------------------------------
  // Comment.update as a specification on values

  /** `Comment.update` on the abstract value: refused unless the requester is the author;
      otherwise the content is overwritten and the author is stamped as updater. */
  function CommentUpdated(s: CommentState, req: CommentUpdateRequest, now: Timestamp)
    : (r: Result<CommentState, BoardError>)
    ensures r.Failure? <==> req.updatedBy != s.audit.createdBy
    ensures r.Failure? ==> r.error == CommentNotUpdatable
    ensures r.Success? ==>
      && r.value.id == s.id
      && r.value.audit.createdBy == s.audit.createdBy
      && r.value.audit.createdAt == s.audit.createdAt
      && r.value.content == req.content
      && r.value.audit.updatedBy == Some(s.audit.createdBy)
      && r.value.audit.updatedAt == Some(now)
  {
    if req.updatedBy != s.audit.createdBy then Failure(CommentNotUpdatable)
    else Success(s.(content := req.content, audit := Stamped(s.audit, req.updatedBy, now)))
  }

  /** The comment after a call of `update`, whether it succeeded or threw. */
  function CommentAfterUpdate(s: CommentState, req: CommentUpdateRequest, now: Timestamp): (r: CommentState)
  {
    match CommentUpdated(s, req, now)
    case Success(t) => t
    case Failure(_) => s
  }

  /** Applying the same accepted request twice leaves content and updater as the first
      application left them; only the update time moves. */
  lemma CommentUpdateIdempotent(s: CommentState, req: CommentUpdateRequest, t1: Timestamp, t2: Timestamp)
    requires CommentUpdated(s, req, t1).Success?
    ensures CommentUpdated(CommentUpdated(s, req, t1).value, req, t2).Success?
    ensures CommentUpdated(CommentUpdated(s, req, t1).value, req, t2).value ==
            CommentUpdated(s, req, t1).value.(audit := CommentUpdated(s, req, t1).value.audit.(updatedAt := Some(t2)))
  {
  }

  /** The comment after a series of `update` calls, oldest first. */
  function CommentAfterUpdates(s: CommentState, reqs: seq<(CommentUpdateRequest, Timestamp)>): (r: CommentState)
    decreases |reqs|
  {
    if reqs == [] then s
    else CommentAfterUpdates(CommentAfterUpdate(s, reqs[0].0, reqs[0].1), reqs[1..])
  }

  /** No series of `update` calls changes a comment's id, author or creation time, or lets
      anyone but the author appear as its updater. */
  lemma {:induction false} CommentUpdatesKeepOwnership(s: CommentState, reqs: seq<(CommentUpdateRequest, Timestamp)>)
    requires UpdatedOnlyByAuthor(s.audit)
    ensures UpdatedOnlyByAuthor(CommentAfterUpdates(s, reqs).audit)
    ensures CommentAfterUpdates(s, reqs).id == s.id
    ensures CommentAfterUpdates(s, reqs).audit.createdBy == s.audit.createdBy
    ensures CommentAfterUpdates(s, reqs).audit.createdAt == s.audit.createdAt
    decreases |reqs|
  {
    if reqs != [] {
      CommentUpdatesKeepOwnership(CommentAfterUpdate(s, reqs[0].0, reqs[0].1), reqs[1..]);
    }
  }

  // ---------------------------------------------------------------------------
  // The entities

  /** A board post. Its audit fields live in `base`, the `BaseEntity` part of the object. */
  class Post {
    const base: BaseEntity
    const id: Long
    var title: string
    var content: string
    var comments: seq<Comment>

    /** The `BaseEntity` part belongs to this post alone: no comment of it shares it. */
    ghost predicate Valid()
      reads this, comments
    {
      forall c :: c in comments ==> c.base != base
    }

    ghost function State(): PostState
      reads this, base
    {
      PostState(id, base.Audit(), title, content)
    }

    /** A new, not yet persisted post: id 0, no comments, never updated. */
    constructor (createdBy: string, title: string, content: string, now: Timestamp)
      ensures Valid() && fresh(base)
      ensures State() == PostState(0, AuditRecord(createdBy, now, None, None), title, content)
      ensures comments == []
    {
      base := new BaseEntity(createdBy, now);
      id := 0;
      this.title := title;
      this.content := content;
      comments := [];
    }

    /** Overwrites title and content and stamps the updater, unless the requester is not
        the author, in which case it fails with PostNotUpdatable and changes nothing. The
        comments, their references and their own state are never touched. */
    method Update(req: PostUpdateRequest, now: Timestamp) returns (outcome: Outcome<BoardError>)
      requires Valid()
      modifies this, base
      ensures Valid()
      ensures outcome == if req.updatedBy != base.createdBy then Fail(PostNotUpdatable) else Pass
      ensures State() == PostAfterUpdate(old(State()), req, now)
      ensures comments == old(comments)
      ensures forall c :: c in comments ==> c.post == old(c.post) && c.State() == old(c.State())
    {
      if req.updatedBy != base.createdBy {
        return Fail(PostNotUpdatable);
      }
      title := req.title;
      content := req.content;
      base.UpdatedBy(req.updatedBy, now);
      outcome := Pass;
    }
  }

  /** A comment on a post. Its audit fields live in `base`, the `BaseEntity` part. */
  class Comment {
    const base: BaseEntity
    const id: Long
    var content: string
    var post: Post

    /** The `BaseEntity` part belongs to this comment alone: its post does not share it. */
    ghost predicate Valid()
      reads this, post
    {
      base != post.base
    }

    ghost function State(): CommentState
      reads this, base
    {
      CommentState(id, base.Audit(), content)
    }

    /** A new, not yet persisted comment on `post`: id 0, never updated. */
    constructor (content: string, post: Post, createdBy: string, now: Timestamp)
      ensures Valid() && fresh(base)
      ensures State() == CommentState(0, AuditRecord(createdBy, now, None, None), content)
      ensures this.post == post
    {
      base := new BaseEntity(createdBy, now);
      id := 0;
      this.content := content;
      this.post := post;
    }

    /** Overwrites the content and stamps the updater, unless the requester is not the
        author, in which case it fails with CommentNotUpdatable and changes nothing. The
        owning post, its reference and its state are never touched. */
    method Update(req: CommentUpdateRequest, now: Timestamp) returns (outcome: Outcome<BoardError>)
      requires Valid()
      modifies this, base
      ensures Valid()
      ensures outcome == if req.updatedBy != base.createdBy then Fail(CommentNotUpdatable) else Pass
      ensures State() == CommentAfterUpdate(old(State()), req, now)
      ensures post == old(post) && post.State() == old(post.State())
      ensures post.comments == old(post.comments)
    {
      if req.updatedBy != base.createdBy {
        return Fail(CommentNotUpdatable);
      }
      content := req.content;
      base.UpdatedBy(req.updatedBy, now);
      outcome := Pass;
    }
  }

  /** The update scenario of the service tests: the author's update is applied and
      recorded, a stranger's is refused and leaves the post as it was. */
  method UpdateScenario() returns (accepted: Outcome<BoardError>, refused: Outcome<BoardError>,
                                   after: PostState)
    ensures accepted == Pass
    ensures refused == Fail(PostNotUpdatable)
    ensures after == PostState(0, AuditRecord("whahn", 10, Some("whahn"), Some(20)),
                               "update title", "update content")
  {
    var saved := new Post("whahn", "title", "content", 10);
    accepted := saved.Update(PostUpdateRequest("update title", "update content", "whahn"), 20);
    refused := saved.Update(PostUpdateRequest("other title", "other content", "update whahn"), 30);
    after := PostState(saved.id, AuditRecord(saved.base.createdBy, saved.base.createdAt,
                                             saved.base.updatedBy, saved.base.updatedAt),
                       saved.title, saved.content);
  }
}
