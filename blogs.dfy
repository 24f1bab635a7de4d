/**
 * The request handlers of the blog API, each one atomic operation on a store
 * made of the post collection (a map from id to document) and the
 * content-block collection (a sequence of block documents).
 */
module BlogRoutes {
  import opened Wrappers
  import opened ObjectIds
  import opened JsStrings
  import opened StringOrder
  import opened BlogPosts
  import opened ContentBlocks

  const CommentTextRequired := "Comment text is required"
  const TitleRequired := "title is required"
  const ContentOrBlocksRequired := "content or blocks are required"

  /**
   * How a request ends: a body (200, 201 or 204), a refused request (400), an
   * unknown post (404, "Not found"), or a store that refused the update because
   * the post's required title would become empty.
   */
  datatype Outcome<T> = Ok(value: T) | BadRequest(error: string) | NotFound | Rejected

  /** One submitted block; None stands for a `type` or `content` that is missing or not a string. */
  datatype BlockInput = BlockInput(kind: Option<string>, content: Option<string>)

  /** The submitted `tags`: absent or null, some other non-array value, or an array of strings. */
  datatype TagsInput = TagsAbsent | TagsNotArray | TagsArray(items: seq<string>)

  /**
   * The body of a create or update request. In the four string fields None
   * means absent or null; `blocks` is None when it is not an array.
   */
  datatype PostInput = PostInput(
    title: Option<string>,
    summary: Option<string>,
    content: Option<string>,
    coverImage: Option<string>,
    tags: TagsInput,
    blocks: Option<seq<BlockInput>>)

  /** A block list was submitted and it has at least one element. */
  predicate HasBlocks(blocks: Option<seq<BlockInput>>) {
    blocks.Some? && |blocks.value| > 0
  }

  /** The tags a new post gets: the submitted array, or [] for anything else. */
  function CreateTags(tags: TagsInput): seq<string> {
    if tags.TagsArray? then tags.items else []
  }

  // ---------------------------------------------------------------------------
  // Comments

  /** The stored name of a new comment: the trimmed name, or "Anonymous" when it is missing or blank. */
  function CommentName(name: Option<string>): (r: string)
    ensures r != "" && Trim(r) == r
    ensures name.Some? && !IsBlank(name.value) ==> r == Trim(name.value)
    ensures name.None? || IsBlank(name.value) ==> r == AnonymousName
  {
    var given := name.GetOr("");
    TrimEmptyIffBlank(given);
    if name.Some? && Trim(given) != "" then
      TrimIdempotent(given);
      Trim(given)
    else
      AnonymousTrimmed();
      AnonymousName
  }

  lemma AnonymousTrimmed()
    ensures AnonymousName != "" && Trim(AnonymousName) == AnonymousName
  {
    TrimFixpoint(AnonymousName);
  }

  /** The stored text of a new comment, or None when the request must be refused. */
  function CommentText(text: Option<string>): (r: Option<string>)
    ensures r.None? <==> text.None? || IsBlank(text.value)
    ensures r.Some? ==> r.value == Trim(text.value) && r.value != "" && Trim(r.value) == r.value
  {
    TrimEmptyIffBlank(text.GetOr(""));
    TrimIdempotent(text.GetOr(""));
    if text.None? || Trim(text.value) == "" then None else Some(Trim(text.value))
  }

  // ---------------------------------------------------------------------------
  // Blocks

  /** The document stored for the `i`-th submitted block of post `p`. */
  function NormaliseBlock(p: ObjectId, i: nat, b: BlockInput): BlockDoc {
    BlockDoc(p, i, if b.kind == Some(Html) then Html else RichText, b.content.GetOr(""))
  }

  /**
   * The documents written for a submitted block list: one per element, the
   * i-th numbered i, "html" only when "html" was submitted and "richtext"
   * otherwise, a non-string content stored as "".
   */
  function NormaliseBlocks(p: ObjectId, bs: seq<BlockInput>): (r: seq<BlockDoc>)
    ensures |r| == |bs| && Indexed(r)
    ensures forall i :: 0 <= i < |r| ==> r[i].blogId == p && ValidBlock(r[i])
    ensures forall i :: 0 <= i < |r| ==> (r[i].kind == Html <==> bs[i].kind == Some(Html))
    ensures forall i :: 0 <= i < |r| ==> r[i].content == if bs[i].content.Some? then bs[i].content.value else ""
  {
    seq(|bs|, i requires 0 <= i < |bs| => NormaliseBlock(p, i, bs[i]))
  }

  /**
   * Replacing the blocks of `p` (delete all of them, then insert the new list)
   * leaves `p` with exactly the new list and every other post with its own blocks.
   */
  lemma ReplacedBlocks(bs: seq<BlockDoc>, p: ObjectId, ins: seq<BlockInput>, q: ObjectId)
    ensures BlocksOf(WithoutPost(bs, p) + NormaliseBlocks(p, ins), q)
         == if q == p then NormaliseBlocks(p, ins) else BlocksOf(bs, q)
  {
    var written := NormaliseBlocks(p, ins);
    BlocksOfAppend(WithoutPost(bs, p), written, q);
    BlocksOfWithoutPost(bs, p, q);
    BlocksOfOwned(written, p, q);
  }

  /** A block as returned with a post. */
  datatype BlockView = BlockView(kind: string, content: string)

  /** The view `GET /:id` builds of a stored block: its type, "richtext" when the type is empty, and its content. */
  function ReadView(b: BlockDoc): BlockView {
    BlockView(if b.kind == "" then RichText else b.kind, b.content)
  }

  /** The views `GET /:id` builds; for blocks of a valid type they show type and content as stored. */
  function ReadViews(bs: seq<BlockDoc>): (r: seq<BlockView>)
    ensures |r| == |bs|
    ensures forall i :: 0 <= i < |bs| && ValidBlock(bs[i]) ==> r[i] == BlockView(bs[i].kind, bs[i].content)
  {
    seq(|bs|, i requires 0 <= i < |bs| => ReadView(bs[i]))
  }

  /** The views `PUT /:id` builds from the blocks it re-reads: type and content as stored. */
  function StoredViews(bs: seq<BlockDoc>): seq<BlockView> {
    seq(|bs|, i requires 0 <= i < |bs| => BlockView(bs[i].kind, bs[i].content))
  }

  /** On blocks of a valid type, the views `PUT /:id` answers with are the views `GET /:id` shows. */
  lemma StoredViewsAsRead(bs: seq<BlockDoc>)
    requires forall i :: 0 <= i < |bs| ==> ValidBlock(bs[i])
    ensures StoredViews(bs) == ReadViews(bs)
  {
  }

  // ---------------------------------------------------------------------------
  // Responses

  /** `GET /:id`: the post and its blocks in index order. */
  datatype PostView = PostView(post: PostJson, blocks: seq<BlockView>)

  /** `POST /`: the new post and, when blocks were submitted, those blocks as submitted. */
  datatype Created = Created(post: PostJson, blocks: Option<seq<BlockInput>>)

  /** `PUT /:id`: the updated post and, when blocks were replaced, the blocks as now stored. */
  datatype Updated = Updated(post: PostJson, blocks: Option<seq<BlockView>>)

  /** The fields a `PUT` sets; a None field is left untouched. */
  datatype Updates = Updates(
    title: Option<string>,
    summary: Option<string>,
    coverImage: Option<string>,
    tags: Option<seq<string>>,
    content: Option<string>)

  /**
   * `u` holds the fields a `PUT` body sets: each non-null one of title,
   * summary and coverImage; tags when not null, [] when not an array;
   * content "" when blocks are given, else the content when not null.
   */
  predicate UpdatesOf(req: PostInput, u: Updates) {
    && u.title == req.title && u.summary == req.summary && u.coverImage == req.coverImage
    && u.tags == (match req.tags
                  case TagsAbsent => None
                  case TagsNotArray => Some([])
                  case TagsArray(t) => Some(t))
    && u.content == (if HasBlocks(req.blocks) then Some("") else req.content)
  }

  /** The update object of `PUT /:id`, built field by field. */
  method BuildUpdates(req: PostInput) returns (u: Updates)
    ensures UpdatesOf(req, u)
  {
    u := Updates(None, None, None, None, None);
    if req.title.Some? {
      u := u.(title := req.title);
    }
    if req.summary.Some? {
      u := u.(summary := req.summary);
    }
    if req.coverImage.Some? {
      u := u.(coverImage := req.coverImage);
    }
    if !req.tags.TagsAbsent? {
      u := u.(tags := Some(if req.tags.TagsArray? then req.tags.items else []));
    }
    if HasBlocks(req.blocks) {
      u := u.(content := Some(""));
    } else if req.content.Some? {
      u := u.(content := req.content);
    }
  }

  /** The document after the store sets the given fields; nothing else changes. */
  function ApplyUpdates(d: PostDoc, u: Updates): PostDoc {
    d.(title := u.title.GetOr(d.title),
       summary := u.summary.GetOr(d.summary),
       coverImage := if u.coverImage.Some? then u.coverImage else d.coverImage,
       tags := u.tags.GetOr(d.tags),
       content := u.content.GetOr(d.content))
  }

  /**
   * `after` is `before` with a `PUT` body applied: title, summary and
   * coverImage set when given; tags set when given, [] when not an array;
   * content "" when blocks are given, else set when given; counters,
   * comments, id and version kept.
   */
  predicate PatchedBy(before: PostDoc, after: PostDoc, req: PostInput) {
    && after.title == req.title.GetOr(before.title)
    && after.summary == req.summary.GetOr(before.summary)
    && after.coverImage == (if req.coverImage.Some? then req.coverImage else before.coverImage)
    && after.tags == (match req.tags
                      case TagsAbsent => before.tags
                      case TagsNotArray => []
                      case TagsArray(t) => t)
    && after.content == (if HasBlocks(req.blocks) then "" else req.content.GetOr(before.content))
    && after.id == before.id && after.version == before.version
    && after.likes == before.likes && after.readCount == before.readCount
    && after.comments == before.comments
  }

  /** Sending the same `PUT` body twice leaves the post as the first one did. */
  lemma PatchIdempotent(a: PostDoc, b: PostDoc, c: PostDoc, req: PostInput)
    requires PatchedBy(a, b, req) && PatchedBy(b, c, req)
    ensures c == b
  {
  }

  /** Setting the fields built from a `PUT` body patches the post as that body says, and keeps it valid. */
  lemma ApplyUpdatesPatches(d: PostDoc, req: PostInput, u: Updates)
    requires UpdatesOf(req, u)
    ensures PatchedBy(d, ApplyUpdates(d, u), req)
    ensures ValidPost(d) && u.title != Some("") ==> ValidPost(ApplyUpdates(d, u))
  {
  }

  /** Between two states of the post collection, counters never fall and comments are only appended. */
  ghost predicate Grows(before: map<ObjectId, PostDoc>, after: map<ObjectId, PostDoc>) {
    forall id :: id in before && id in after ==>
      && before[id].likes <= after[id].likes
      && before[id].readCount <= after[id].readCount
      && before[id].comments <= after[id].comments
  }

  /** Replacing one post by a version with no smaller counters and more comments at the end is growth. */
  lemma GrowsByEdit(posts: map<ObjectId, PostDoc>, id: ObjectId, doc: PostDoc)
    requires id in posts
    requires posts[id].likes <= doc.likes && posts[id].readCount <= doc.readCount
    requires posts[id].comments <= doc.comments
    ensures Grows(posts, posts[id := doc])
  {
  }

  // ---------------------------------------------------------------------------
  // The store invariant

  /** Every post is stored under its own id and satisfies its schema. */
  ghost predicate PostsValid(posts: map<ObjectId, PostDoc>) {
    forall id :: id in posts ==> posts[id].id == id && ValidPost(posts[id])
  }

  /** Every block has a valid type and belongs to a stored post. */
  ghost predicate BlocksBelong(posts: map<ObjectId, PostDoc>, blocks: seq<BlockDoc>) {
    forall b :: b in blocks ==> ValidBlock(b) && b.blogId in posts
  }

  /** The blocks of each post are numbered 0, 1, 2, ... in collection order. */
  ghost predicate BlocksNumbered(posts: map<ObjectId, PostDoc>, blocks: seq<BlockDoc>) {
    forall id :: id in posts ==> Indexed(BlocksOf(blocks, id))
  }

  ghost predicate StoreValid(posts: map<ObjectId, PostDoc>, blocks: seq<BlockDoc>) {
    PostsValid(posts) && BlocksBelong(posts, blocks) && BlocksNumbered(posts, blocks)
  }

  /** A post that is not stored has no blocks, so removing its blocks changes nothing. */
  lemma AbsentPostHasNoBlocks(posts: map<ObjectId, PostDoc>, blocks: seq<BlockDoc>, id: ObjectId)
    requires BlocksBelong(posts, blocks) && id !in posts
    ensures BlocksOf(blocks, id) == [] && WithoutPost(blocks, id) == blocks
  {
    assert forall i :: 0 <= i < |blocks| ==> blocks[i] in blocks && blocks[i].blogId != id;
    WithoutAbsentPost(blocks, id);
    BlocksOfWithoutPost(blocks, id, id);
  }

  /** Changing one stored post, keeping its id and schema, keeps the invariant. */
  lemma ValidAfterPostEdit(posts: map<ObjectId, PostDoc>, blocks: seq<BlockDoc>, id: ObjectId, doc: PostDoc)
    requires StoreValid(posts, blocks) && id in posts && doc.id == id && ValidPost(doc)
    ensures StoreValid(posts[id := doc], blocks)
  {
  }

  /** Adding a new post, with no blocks yet, keeps the invariant. */
  lemma ValidAfterInsert(posts: map<ObjectId, PostDoc>, blocks: seq<BlockDoc>, id: ObjectId, doc: PostDoc)
    requires StoreValid(posts, blocks) && id !in posts && doc.id == id && ValidPost(doc)
    ensures StoreValid(posts[id := doc], blocks)
  {
    var after := posts[id := doc];
    AbsentPostHasNoBlocks(posts, blocks, id);
    assert PostsValid(after);
    assert BlocksBelong(after, blocks);
    forall q | q in after ensures Indexed(BlocksOf(blocks, q)) {
      if q == id {
        assert BlocksOf(blocks, q) == [];
      }
    }
  }

  /** Replacing the blocks of a stored post by a normalised list keeps the invariant. */
  lemma ValidAfterReplace(posts: map<ObjectId, PostDoc>, blocks: seq<BlockDoc>, id: ObjectId, ins: seq<BlockInput>)
    requires StoreValid(posts, blocks) && id in posts
    ensures StoreValid(posts, WithoutPost(blocks, id) + NormaliseBlocks(id, ins))
  {
    var after := WithoutPost(blocks, id) + NormaliseBlocks(id, ins);
    InWithoutPost(blocks, id);
    forall q | q in posts ensures Indexed(BlocksOf(after, q)) {
      ReplacedBlocks(blocks, id, ins, q);
    }
  }

  /** Deleting a post together with its blocks keeps the invariant. */
  lemma ValidAfterDelete(posts: map<ObjectId, PostDoc>, blocks: seq<BlockDoc>, id: ObjectId)
    requires StoreValid(posts, blocks)
    ensures StoreValid(posts - {id}, WithoutPost(blocks, id))
  {
    InWithoutPost(blocks, id);
    forall q | q in posts - {id} ensures Indexed(BlocksOf(WithoutPost(blocks, id), q)) {
      BlocksOfWithoutPost(blocks, id, q);
    }
  }

  /**
   * In a valid store the blocks of a post are already in index order, have
   * valid types, and each sits at the position its index names.
   */
  lemma StoredBlocksInOrder(posts: map<ObjectId, PostDoc>, blocks: seq<BlockDoc>, id: ObjectId)
    requires StoreValid(posts, blocks) && id in posts
    ensures SortByIndex(BlocksOf(blocks, id)) == BlocksOf(blocks, id)
    ensures forall k :: 0 <= k < |BlocksOf(blocks, id)| ==> ValidBlock(BlocksOf(blocks, id)[k])
    ensures forall b :: b in blocks && b.blogId == id ==>
      0 <= b.index < |BlocksOf(blocks, id)| && BlocksOf(blocks, id)[b.index] == b
  {
    SortByIndexOfAscending(BlocksOf(blocks, id));
    IndexedPlacement(blocks, id);
    InBlocksOf(blocks, id);
  }

  // ---------------------------------------------------------------------------
  // The store

  class BlogStore {
    var posts: map<ObjectId, PostDoc>
    var blocks: seq<BlockDoc>

    ghost predicate Valid()
      reads this
    {
      StoreValid(posts, blocks)
    }

    constructor ()
      ensures Valid() && posts == map[] && blocks == []
    {
      posts := map[];
      blocks := [];
    }

    /** The post write shared by like, read, comment and update: one stored post replaced. */
    method SetPost(id: ObjectId, doc: PostDoc)
      requires Valid() && id in posts && doc.id == id && ValidPost(doc)
      modifies this
      ensures Valid() && blocks == old(blocks)
      ensures posts == old(posts)[id := doc]
    {
      ValidAfterPostEdit(posts, blocks, id, doc);
      posts := posts[id := doc];
    }

    /**
     * The block write shared by create and update: delete every block of the
     * post, then insert one normalised block per submitted element.
     */
    method ReplaceBlocks(id: ObjectId, ins: seq<BlockInput>)
      requires Valid() && id in posts
      modifies this
      ensures Valid() && posts == old(posts)
      ensures blocks == WithoutPost(old(blocks), id) + NormaliseBlocks(id, ins)
      ensures BlocksOf(blocks, id) == NormaliseBlocks(id, ins)
      ensures forall q :: q != id ==> BlocksOf(blocks, q) == BlocksOf(old(blocks), q)
    {
      ghost var before := blocks;
      ValidAfterReplace(posts, blocks, id, ins);
      blocks := WithoutPost(blocks, id);
      blocks := blocks + NormaliseBlocks(id, ins);
      forall q ensures BlocksOf(blocks, q) == if q == id then NormaliseBlocks(id, ins) else BlocksOf(before, q) {
        ReplacedBlocks(before, id, ins, q);
      }
    }

    /** `POST /:id/like` */
    method Like(id: ObjectId) returns (r: Outcome<nat>)
      requires Valid()
      modifies this
      ensures Valid() && Grows(old(posts), posts) && blocks == old(blocks)
      ensures id !in old(posts) ==> r == NotFound && posts == old(posts)
      ensures id in old(posts) ==>
        && posts == old(posts)[id := old(posts)[id].(likes := old(posts)[id].likes + 1)]
        && r == Ok(old(posts)[id].likes + 1)
    {
      if id !in posts {
        return NotFound;
      }
      var doc := posts[id];
      doc := doc.(likes := doc.likes + 1);
      GrowsByEdit(posts, id, doc);
      SetPost(id, doc);
      r := Ok(doc.likes);
    }

    /** `POST /:id/read` */
    method Read(id: ObjectId) returns (r: Outcome<nat>)
      requires Valid()
      modifies this
      ensures Valid() && Grows(old(posts), posts) && blocks == old(blocks)
      ensures id !in old(posts) ==> r == NotFound && posts == old(posts)
      ensures id in old(posts) ==>
        && posts == old(posts)[id := old(posts)[id].(readCount := old(posts)[id].readCount + 1)]
        && r == Ok(old(posts)[id].readCount + 1)
    {
      if id !in posts {
        return NotFound;
      }
      var doc := posts[id];
      doc := doc.(readCount := doc.readCount + 1);
      GrowsByEdit(posts, id, doc);
      SetPost(id, doc);
      r := Ok(doc.readCount);
    }

    /** `POST /:id/comments`, with the new comment's id and the clock reading supplied. */
    method AddComment(id: ObjectId, name: Option<string>, text: Option<string>, commentId: ObjectId, now: Timestamp)
      returns (r: Outcome<CommentJson>)
      requires Valid()
      modifies this
      ensures Valid() && Grows(old(posts), posts) && blocks == old(blocks)
      ensures text.None? || IsBlank(text.value) ==> r == BadRequest(CommentTextRequired) && posts == old(posts)
      ensures text.Some? && !IsBlank(text.value) && id !in old(posts) ==> r == NotFound && posts == old(posts)
      ensures text.Some? && !IsBlank(text.value) && id in old(posts) ==>
        var c := Comment(commentId, CommentName(name), Trim(text.value), now);
        && posts == old(posts)[id := old(posts)[id].(comments := old(posts)[id].comments + [c])]
        && r == Ok(CommentToJson(c))
    {
      var checked := CommentText(text);
      if checked.None? {
        return BadRequest(CommentTextRequired);
      }
      var comment := Comment(commentId, CommentName(name), checked.value, now);
      if id !in posts {
        return NotFound;
      }
      var before := posts[id];
      var doc := before.(comments := before.comments + [comment]);
      AppendValidComment(before, comment);
      GrowsByEdit(posts, id, doc);
      SetPost(id, doc);
      var added := doc.comments[|doc.comments| - 1];
      r := Ok(CommentToJson(added));
    }

    /** `GET /:id`: the post and its blocks, found by post id and sorted by index. */
    function Get(id: ObjectId): (r: Outcome<PostView>)
      reads this
      requires Valid()
      ensures r.Ok? <==> id in posts
      ensures !r.Ok? ==> r == NotFound
      ensures r.Ok? ==> r.value.post == ToJson(posts[id])
      ensures r.Ok? ==> |r.value.blocks| == |BlocksOf(blocks, id)|
      ensures r.Ok? ==> forall b :: b in blocks && b.blogId == id ==>
        0 <= b.index < |r.value.blocks| && r.value.blocks[b.index] == BlockView(b.kind, b.content)
    {
      if id !in posts then NotFound
      else
        var sorted := SortByIndex(BlocksOf(blocks, id));
        StoredBlocksInOrder(posts, blocks, id);
        Ok(PostView(ToJson(posts[id]), ReadViews(sorted)))
    }

    /** `POST /`, with the new post's id supplied. */
    method Create(id: ObjectId, req: PostInput) returns (r: Outcome<Created>)
      requires Valid() && id !in posts
      modifies this
      ensures Valid() && Grows(old(posts), posts)
      ensures req.title.None? || req.title.value == "" ==>
        r == BadRequest(TitleRequired) && posts == old(posts) && blocks == old(blocks)
      ensures req.title.Some? && req.title.value != "" && !HasBlocks(req.blocks)
              && (req.content.None? || req.content.value == "") ==>
        r == BadRequest(ContentOrBlocksRequired) && posts == old(posts) && blocks == old(blocks)
      ensures r.Ok? <==> req.title.Some? && req.title.value != ""
                         && (HasBlocks(req.blocks) || (req.content.Some? && req.content.value != ""))
      ensures r.Ok? ==>
        && id in posts && posts == old(posts)[id := posts[id]]
        && posts[id].id == id && posts[id].version == 0 && posts[id].title == req.title.value
        && posts[id].summary == req.summary.GetOr("")
        && posts[id].content == (if HasBlocks(req.blocks) then "" else req.content.value)
        && posts[id].coverImage == req.coverImage && posts[id].tags == CreateTags(req.tags)
        && posts[id].likes == 0 && posts[id].readCount == 0 && posts[id].comments == []
        && r.value == Created(ToJson(posts[id]), if HasBlocks(req.blocks) then req.blocks else None)
      ensures r.Ok? && HasBlocks(req.blocks) ==>
        && blocks == old(blocks) + NormaliseBlocks(id, req.blocks.value)
        && BlocksOf(blocks, id) == NormaliseBlocks(id, req.blocks.value)
      ensures r.Ok? && !HasBlocks(req.blocks) ==> blocks == old(blocks) && BlocksOf(blocks, id) == []
      ensures forall q :: q != id ==> BlocksOf(blocks, q) == BlocksOf(old(blocks), q)
    {
      if req.title.None? || req.title.value == "" {
        return BadRequest(TitleRequired);
      }
      var hasBlocks := HasBlocks(req.blocks);
      if !hasBlocks && (req.content.None? || req.content.value == "") {
        return BadRequest(ContentOrBlocksRequired);
      }
      // The handler supplies summary and content itself; the counters and
      // the comment list take the schema's defaults.
      var doc := PostDoc(id, 0, req.title.value, req.summary.GetOr(""),
                         if hasBlocks then "" else req.content.GetOr(""),
                         req.coverImage, CreateTags(req.tags), 0, 0, []);
      ghost var before := blocks;
      AbsentPostHasNoBlocks(posts, blocks, id);
      ValidAfterInsert(posts, blocks, id, doc);
      posts := posts[id := doc];
      if hasBlocks {
        ReplaceBlocks(id, req.blocks.value);
      }
      r := Ok(Created(ToJson(doc), if hasBlocks then req.blocks else None));
    }

    /**
     * The write half of `PUT /:id` for a stored post: set the post, replace
     * its blocks when a non-empty list is given, and answer with the post and
     * the blocks as re-read in index order.
     */
    method WriteUpdate(id: ObjectId, doc: PostDoc, ins: Option<seq<BlockInput>>) returns (r: Updated)
      requires Valid() && id in posts && doc.id == id && ValidPost(doc)
      modifies this
      ensures Valid() && posts == old(posts)[id := doc] && r.post == ToJson(doc)
      ensures HasBlocks(ins) ==>
        && blocks == WithoutPost(old(blocks), id) + NormaliseBlocks(id, ins.value)
        && BlocksOf(blocks, id) == NormaliseBlocks(id, ins.value)
        && r.blocks == Some(StoredViews(NormaliseBlocks(id, ins.value)))
        && Get(id) == Ok(PostView(r.post, r.blocks.value))
      ensures !HasBlocks(ins) ==> blocks == old(blocks) && r.blocks == None
      ensures Get(id).Ok? && Get(id).value.post == r.post
      ensures forall q :: q != id ==> BlocksOf(blocks, q) == BlocksOf(old(blocks), q)
    {
      SetPost(id, doc);
      var out := ToJson(doc);
      if HasBlocks(ins) {
        ReplaceBlocks(id, ins.value);
        StoredBlocksInOrder(posts, blocks, id);
        var stored := SortByIndex(BlocksOf(blocks, id));
        StoredViewsAsRead(stored);
        r := Updated(out, Some(StoredViews(stored)));
      } else {
        r := Updated(out, None);
      }
    }

    /** `PUT /:id` */
    method Update(id: ObjectId, req: PostInput) returns (r: Outcome<Updated>)
      requires Valid()
      modifies this
      ensures Valid() && Grows(old(posts), posts)
      ensures req.title == Some("") ==> r == Rejected
      ensures req.title != Some("") && id !in old(posts) ==> r == NotFound
      ensures !r.Ok? ==> posts == old(posts) && blocks == old(blocks)
      ensures r.Ok? <==> req.title != Some("") && id in old(posts)
      ensures r.Ok? ==>
        && posts.Keys == old(posts).Keys
        && (forall q :: q in posts && q != id ==> posts[q] == old(posts)[q])
        && PatchedBy(old(posts)[id], posts[id], req)
        && r.value.post == ToJson(posts[id])
      ensures r.Ok? && HasBlocks(req.blocks) ==>
        && blocks == WithoutPost(old(blocks), id) + NormaliseBlocks(id, req.blocks.value)
        && BlocksOf(blocks, id) == NormaliseBlocks(id, req.blocks.value)
        && r.value.blocks == Some(StoredViews(NormaliseBlocks(id, req.blocks.value)))
        && Get(id) == Ok(PostView(r.value.post, r.value.blocks.value))
      ensures r.Ok? && !HasBlocks(req.blocks) ==> blocks == old(blocks) && r.value.blocks == None
      ensures r.Ok? ==> Get(id).Ok? && Get(id).value.post == r.value.post
      ensures forall q :: q != id ==> BlocksOf(blocks, q) == BlocksOf(old(blocks), q)
    {
      var updates := BuildUpdates(req);
      // The store validates the update first: a title that is set must not be empty.
      if updates.title == Some("") {
        return Rejected;
      }
      if id !in posts {
        return NotFound;
      }
      var doc := ApplyUpdates(posts[id], updates);
      ApplyUpdatesPatches(posts[id], req, updates);
      GrowsByEdit(posts, id, doc);
      var out := WriteUpdate(id, doc, req.blocks);
      r := Ok(out);
    }

    /** `DELETE /:id`: the post, then every block that belongs to it. */
    method Delete(id: ObjectId) returns (r: Outcome<()>)
      requires Valid()
      modifies this
      ensures Valid() && Grows(old(posts), posts)
      ensures id !in old(posts) ==> r == NotFound && posts == old(posts) && blocks == old(blocks)
      ensures id in old(posts) ==> r == Ok(()) && posts == old(posts) - {id} && blocks == WithoutPost(old(blocks), id)
      ensures BlocksOf(blocks, id) == []
      ensures forall q :: q != id ==> BlocksOf(blocks, q) == BlocksOf(old(blocks), q)
    {
      if id !in posts {
        AbsentPostHasNoBlocks(posts, blocks, id);
        return NotFound;
      }
      ghost var before := blocks;
      ValidAfterDelete(posts, blocks, id);
      posts := posts - {id};
      blocks := WithoutPost(blocks, id);
      forall q ensures BlocksOf(blocks, q) == if q == id then [] else BlocksOf(before, q) {
        BlocksOfWithoutPost(before, id, q);
      }
      r := Ok(());
    }

    /** `GET /tags`: every non-empty tag of any post, once, in ascending order. */
    ghost function Tags(): (r: seq<string>)
      reads this
      ensures Ascending(r)
      ensures forall i, j :: 0 <= i < j < |r| ==> r[i] != r[j]
      ensures forall t :: t in r <==> t != "" && exists id :: id in posts && t in posts[id].tags
    {
      // The distinct tags of all posts, less the empty one.
      var distinct := (set id, t | id in posts && t in posts[id].tags :: t) - {""};
      var r := SortSet(distinct);
      AscendingNoRepeats(r);
      r
    }
  }
}
