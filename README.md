# fc-board: author-only edits and tag-page summaries, in Dafny

This project models the domain core of the fc-board bulletin-board backend:

- **BaseEntity** (module `Auditing`): the audit fields shared by every entity. `createdBy`
  and `createdAt` are fixed at construction. `updatedBy` and `updatedAt` start out absent.
  They are overwritten by `updatedBy(who)` with the caller and the current time.
- **Post** and **Comment** (module `Domain`): entities edited in place. `update` is refused
  with `PostNotUpdatable` / `CommentNotUpdatable` unless the requester is the entity's
  author. A refused update changes nothing. An accepted one overwrites the editable fields
  (title and content, or content) and stamps the author as updater.
- **Tag page summaries** (module `TagResponse`): a page of tag rows becomes a page of post
  summaries. Each row keeps the post's id, title, author and creation time, takes the tag's
  name as `firstTag`, and takes a like count from an injected counter. Order, the page
  request and the total count are preserved.
- The domain exceptions (module `Exceptions`) are values of `BoardError`. Kotlin's `Long` and
  nullable types are in module `Basics`.

Kotlin's class inheritance (`Post : BaseEntity`) is modelled by composition. Each entity owns
a fresh `BaseEntity` object in its constant field `base`, and `super.updatedBy(..)` becomes
`base.UpdatedBy(..)`. The clock (`LocalDateTime.now()`) is a parameter `now` of every
operation that reads it. `Post` and `Comment` each have a ghost `State()`, and `BaseEntity` a
ghost `Audit()`, that gives the object's abstract value. The methods are specified against pure
functions on that value (`PostUpdated`, `CommentUpdated`, `Stamped`), and the lemmas state the
promised properties about those functions. Because the `BaseEntity` part is a separate object,
`Post` and `Comment` each carry a `Valid()` predicate saying that part is not shared with the
related entity (a post's comments, a comment's post), as it cannot be in the Kotlin class.

## Model

| member | source | states |
|---|---|---|
| Auditing.BaseEntity.constructor | src/main/kotlin/com/fastcampus/fcboard/domain/BaseEntity.kt:7-15 | a new entity records the given author and the clock value as creation fields; updatedBy and updatedAt are absent |
| Auditing.BaseEntity.UpdatedBy | src/main/kotlin/com/fastcampus/fcboard/domain/BaseEntity.kt:17-20 | afterwards updatedBy is the caller and updatedAt is the clock value; creation fields are constants and cannot change |
| Auditing.LastWriterWins | src/main/kotlin/com/fastcampus/fcboard/domain/BaseEntity.kt:17-20 | after any non-empty series of updatedBy calls, only the last caller and time are recorded, and the creation fields are as constructed |
| Domain.PostUpdated | src/main/kotlin/com/fastcampus/fcboard/domain/Post.kt:28-36 | the update fails exactly when the requester is not the author, with PostNotUpdatable; on success title and content are the requested ones, updatedBy is the author, updatedAt is now, and id and creation fields are kept |
| Domain.Post.constructor | src/main/kotlin/com/fastcampus/fcboard/domain/Post.kt:8-26 | a new post has id 0, the given author, title and content, no comments, and has never been updated |
| Domain.Post.Update | src/main/kotlin/com/fastcampus/fcboard/domain/Post.kt:28-36 | returns PostNotUpdatable exactly when the requester is not the author, and then nothing changes; otherwise the new state is PostUpdated's; the comments list, each comment's post reference and each comment's state are never touched |
| Domain.PostUpdateIdempotent | src/main/kotlin/com/fastcampus/fcboard/domain/Post.kt:33-35 | applying an accepted request a second time succeeds again and changes only updatedAt |
| Domain.PostUpdatesKeepOwnership | src/main/kotlin/com/fastcampus/fcboard/domain/Post.kt:28-36 | after any series of update calls the id, author and creation time are unchanged, and the updater, if any, is the author |
| Domain.NonAuthorRequestsIgnored | src/main/kotlin/com/fastcampus/fcboard/domain/Post.kt:29-31 | a series of update calls leaves the post exactly as the author's own requests alone would |
| Domain.UpdateScenario | src/test/kotlin/com/fastcampus/fcboard/service/PostServiceTest.kt:153-197 | the author's update of a new post is accepted and recorded with the author as updater; a later update by someone else is refused with PostNotUpdatable and leaves the post as the author left it |
| Domain.CommentUpdated | src/main/kotlin/com/fastcampus/fcboard/domain/Comment.kt:13-19 | the update fails exactly when the requester is not the author, with CommentNotUpdatable; on success content is the requested one, updatedBy is the author, updatedAt is now, and id and creation fields are kept |
| Domain.Comment.constructor | src/main/kotlin/com/fastcampus/fcboard/domain/Comment.kt:8-31 | a new comment has id 0, the given content, post and author, and has never been updated |
| Domain.Comment.Update | src/main/kotlin/com/fastcampus/fcboard/domain/Comment.kt:13-19 | returns CommentNotUpdatable exactly when the requester is not the author, and then nothing changes; otherwise the new state is CommentUpdated's; the owning post reference, that post's state and its comments list are never changed |
| Domain.CommentUpdatesKeepOwnership | src/main/kotlin/com/fastcampus/fcboard/domain/Comment.kt:13-19 | after any series of update calls the comment's id, author and creation time are unchanged, and the updater, if any, is the author |
| Domain.CommentUpdateIdempotent | src/main/kotlin/com/fastcampus/fcboard/domain/Comment.kt:17-18 | applying an accepted request a second time succeeds again and changes only updatedAt |
| TagResponse.TagToSummary | src/main/kotlin/com/fastcampus/fcboard/service/TagResponseDto.kt:14-21 | the summary carries the tag's post id, title, author and creation time, the tag's name as firstTag, and the counter's value at the post id |
| TagResponse.SummariesOf | src/main/kotlin/com/fastcampus/fcboard/service/TagResponseDto.kt:9 | one summary per tag, in the same order: the i-th summary is built from the i-th tag |
| TagResponse.PageToSummary | src/main/kotlin/com/fastcampus/fcboard/service/TagResponseDto.kt:8-12 | same number of rows; page request and total count passed through; row i carries tag i's post id, title, author and creation time, tag i's name as firstTag, and the counter's value at that post id |
| TagResponse.SummaryDeterminedBy | src/main/kotlin/com/fastcampus/fcboard/service/TagResponseDto.kt:14-21 | two tags give equal summaries if and only if their posts agree on id, title, author and creation time, their names agree, and the counters agree at the post id |
| TagResponse.CounterConsultedOnlyForPagePosts | src/main/kotlin/com/fastcampus/fcboard/service/TagResponseDto.kt:8-21 | two like counters that agree on the ids of the page's posts produce the same page of summaries |
| TagResponse.FirstTagsAreTagNames | src/main/kotlin/com/fastcampus/fcboard/service/TagResponseDto.kt:19 | every summary on the page has first tag n if and only if every tag row on the page is named n |

## Left out

- The post service (creating, deleting, searching posts, replacing tags by diff, aggregating likes) is not modelled. The exceptions it raises, `PostNotFound` and `PostNotDeletable`, are declared in `BoardError` but no modelled operation raises them.
- `Post` has no tags field; the `tags` argument the tests pass is not modelled.
- Persistence: identity generation, cascades, orphan removal and lazy loading. A new entity keeps the id 0 the class gives it; assigning ids is left to the persistence layer.
- The clock is a parameter `now` instead of `LocalDateTime.now()`. Different calls may pass any values; no ordering of clock values is assumed.
- `createdAt.toString()` in the summary is not modelled. A summary carries the creation timestamp itself, and its rendering as text is left out.
- The like counter is an external service. It is a total function parameter `Long -> Long`; how it counts is not modelled.
- Spring's `Page`/`PageImpl` is modelled as the rows plus the page request and the total count. Derived values such as the number of pages are not modelled.
- TagResponse.PageToSummary: passes the total count through unchanged. Spring's `PageImpl` constructor recomputes the total when the content is non-empty and offset plus page size exceeds the given total; the model holds for pages that are already consistent, which every page Spring itself returns is.
- The Tag entity and `CommentNotUpdatableException` are not modelled from code. The tag is a record of its id, name, post and author, and the exception a `BoardError` variant.
- The exception messages are not modelled; only which exception is raised.
- The HTTP controller and the response data holders carry no logic of their own and are not modelled.
- `BaseEntity.updatedBy` is public, so any caller may stamp any updater. "The updater is the author" is therefore proved only for states reached through `update` (PostUpdatesKeepOwnership for posts, CommentUpdatesKeepOwnership for comments). It is not an invariant of the class.
