/**
 * The BlogPost schema: the post record with its embedded comments, the
 * defaults a new post receives, and the JSON form in which posts are returned.
 */
module BlogPosts {
  import opened Wrappers
  import opened ObjectIds

  /** An opaque reading of the clock (the comment's `createdAt`). */
  type Timestamp = int

  const AnonymousName := "Anonymous"

  datatype Comment = Comment(id: ObjectId, name: string, text: string, createdAt: Timestamp)

  /** A comment must have text (a required string is a non-empty one). */
  predicate ValidComment(c: Comment) {
    c.text != ""
  }

  /**
   * A stored post document. `version` is the store's version key (`__v`);
   * creation and update timestamps are not modelled.
   */
  datatype PostDoc = PostDoc(
    id: ObjectId,
    version: nat,
    title: string,
    summary: string,
    content: string,
    coverImage: Option<string>,
    tags: seq<string>,
    likes: nat,
    readCount: nat,
    comments: seq<Comment>)

  /** What the schema demands of every stored post: a title and valid comments. */
  predicate ValidPost(p: PostDoc) {
    && p.title != ""
    && forall i :: 0 <= i < |p.comments| ==> ValidComment(p.comments[i])
  }

  /** Appending a comment that has text to a valid post gives a valid post. */
  lemma AppendValidComment(p: PostDoc, c: Comment)
    requires ValidPost(p) && ValidComment(c)
    ensures ValidPost(p.(comments := p.comments + [c]))
  {
  }

  /** A post as JSON: `id` is the string form of `_id`; `_id` and `__v` are gone. */
  datatype PostJson = PostJson(
    id: string,
    title: string,
    summary: string,
    content: string,
    coverImage: Option<string>,
    tags: seq<string>,
    likes: nat,
    readCount: nat,
    comments: seq<Comment>)

  function ToJson(d: PostDoc): (j: PostJson)
    ensures ParseObjectId(j.id) == Some(d.id)
    ensures j.title == d.title && j.summary == d.summary && j.content == d.content
    ensures j.coverImage == d.coverImage && j.tags == d.tags && j.comments == d.comments
    ensures j.likes == d.likes && j.readCount == d.readCount
  {
    PostJson(IdString(d.id), d.title, d.summary, d.content, d.coverImage, d.tags,
             d.likes, d.readCount, d.comments)
  }

  /** Two documents have the same JSON form exactly when they differ at most in their version key. */
  lemma ToJsonDropsOnlyVersion(a: PostDoc, b: PostDoc)
    ensures ToJson(a) == ToJson(b) <==> a == b.(version := a.version)
  {
    IdStringInjective(a.id, b.id);
  }

  /** A comment as returned after it is appended. */
  datatype CommentJson = CommentJson(id: string, name: string, text: string, createdAt: Timestamp)

  function CommentToJson(c: Comment): (j: CommentJson)
    ensures ParseObjectId(j.id) == Some(c.id)
    ensures j.name == c.name && j.text == c.text && j.createdAt == c.createdAt
  {
    CommentJson(IdString(c.id), c.name, c.text, c.createdAt)
  }
}
