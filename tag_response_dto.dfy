/** The summary view of a page of tag rows: each tag row becomes the summary of the
    post it is attached to, decorated with that post's like count. */
module TagResponse {
  import opened Basics
  import opened Auditing

  /** The post a tag row is attached to, as loaded through the association. */
  datatype TaggedPost = TaggedPost(
    id: Long,
    title: string,
    content: string,
    createdBy: string,
    createdAt: Timestamp)

  /** A tag row: its name, the post it labels, and who attached it. */
  datatype Tag = Tag(id: Long, name: string, post: TaggedPost, createdBy: string)

  /** Which page was requested: page number and page size. */
  datatype Pageable = Pageable(pageNumber: nat, pageSize: nat)

  /** One page of a larger result: its rows, the request that selected them, and the
      number of rows in the whole result. */
  datatype Page<T> = Page(content: seq<T>, pageable: Pageable, totalElements: Long)

  /** The summary of one post as listed on a page. */
  datatype PostSummary = PostSummary(
    id: Long,
    title: string,
    createdBy: string,
    createdAt: Timestamp,
    firstTag: string,
    likeCount: Long)

  /** `Tag.toSummaryResponseDto`: the summary of the tag's post, with the tag's name as
      its first tag and the like count the counter gives for the post's id. */
  function TagToSummary(tag: Tag, countLike: Long -> Long): (r: PostSummary)
    ensures r.id == tag.post.id && r.title == tag.post.title
    ensures r.createdBy == tag.post.createdBy && r.createdAt == tag.post.createdAt
    ensures r.firstTag == tag.name
    ensures r.likeCount == countLike(tag.post.id)
  {
    PostSummary(tag.post.id, tag.post.title, tag.post.createdBy, tag.post.createdAt,
                tag.name, countLike(tag.post.id))
  }

  /** The summaries of `tags`, one per tag, in the same order. */
  function SummariesOf(tags: seq<Tag>, countLike: Long -> Long): (r: seq<PostSummary>)
    ensures |r| == |tags|
    ensures forall i :: 0 <= i < |tags| ==> r[i] == TagToSummary(tags[i], countLike)
    decreases |tags|
  {
    if tags == [] then []
    else [TagToSummary(tags[0], countLike)] + SummariesOf(tags[1..], countLike)
  }

  /** `Page<Tag>.toSummaryResponseDto`: the page of summaries, one per tag row in the
      same order, with the page request and the total count passed through. */
  function PageToSummary(page: Page<Tag>, countLike: Long -> Long): (r: Page<PostSummary>)
    ensures |r.content| == |page.content|
    ensures r.pageable == page.pageable && r.totalElements == page.totalElements
    ensures forall i :: 0 <= i < |page.content| ==>
      && r.content[i].id == page.content[i].post.id
      && r.content[i].title == page.content[i].post.title
      && r.content[i].createdBy == page.content[i].post.createdBy
      && r.content[i].createdAt == page.content[i].post.createdAt
      && r.content[i].firstTag == page.content[i].name
      && r.content[i].likeCount == countLike(page.content[i].post.id)
  {
    Page(SummariesOf(page.content, countLike), page.pageable, page.totalElements)
  }

  /** Two tag rows give the same summary exactly when they label posts with the same id,
      title, author and creation time, carry the same name, and the counters report the
      same count for that id: the post's content, the tag's own id and author, and every
      other counter value play no part. */
  lemma SummaryDeterminedBy(t1: Tag, c1: Long -> Long, t2: Tag, c2: Long -> Long)
    ensures TagToSummary(t1, c1) == TagToSummary(t2, c2) <==>
      && t1.post.id == t2.post.id
      && t1.post.title == t2.post.title
      && t1.post.createdBy == t2.post.createdBy
      && t1.post.createdAt == t2.post.createdAt
      && t1.name == t2.name
      && c1(t1.post.id) == c2(t2.post.id)
  {
  }

  /** The like counter is consulted only with the ids of the posts on the page: two
      counters that agree on those ids give the same page of summaries. */
  lemma {:induction false} CounterConsultedOnlyForPagePosts(page: Page<Tag>, c1: Long -> Long, c2: Long -> Long)
    requires forall t :: t in page.content ==> c1(t.post.id) == c2(t.post.id)
    ensures PageToSummary(page, c1) == PageToSummary(page, c2)
  {
  }

  /** Every row of the page has the same first tag exactly when every tag row on it has
      that name. */
  lemma FirstTagsAreTagNames(page: Page<Tag>, countLike: Long -> Long, name: string)
    ensures (forall s :: s in PageToSummary(page, countLike).content ==> s.firstTag == name) <==>
            (forall t :: t in page.content ==> t.name == name)
  {
    var r := PageToSummary(page, countLike).content;
    if forall s :: s in r ==> s.firstTag == name {
      forall t | t in page.content ensures t.name == name {
        var i :| 0 <= i < |page.content| && page.content[i] == t;
        assert r[i] in r;
      }
    }
  }
}
