/**
 * The ContentBlock schema and the queries the routes run on that collection:
 * the blocks of one post (`find({blogId})`), everything else
 * (`deleteMany({blogId})`), and ordering by `index`.
 */
module ContentBlocks {
  import opened ObjectIds

  const RichText := "richtext"
  const Html := "html"

  /** One stored block; `kind` is the schema's `type` field. */
  datatype BlockDoc = BlockDoc(blogId: ObjectId, index: int, kind: string, content: string)

  /** The block type is one of the schema's enumeration. */
  predicate ValidBlock(b: BlockDoc) {
    b.kind == RichText || b.kind == Html
  }

  /** The blocks of post `p`, in collection order. */
  function BlocksOf(bs: seq<BlockDoc>, p: ObjectId): seq<BlockDoc> {
    if bs == [] then []
    else (if bs[0].blogId == p then [bs[0]] else []) + BlocksOf(bs[1..], p)
  }

  /** The collection after removing every block of post `p`. */
  function WithoutPost(bs: seq<BlockDoc>, p: ObjectId): seq<BlockDoc> {
    if bs == [] then []
    else (if bs[0].blogId != p then [bs[0]] else []) + WithoutPost(bs[1..], p)
  }

  /** `find({blogId: p})` returns exactly the stored blocks of `p`. */
  lemma {:induction false} InBlocksOf(bs: seq<BlockDoc>, p: ObjectId)
    ensures forall i :: 0 <= i < |BlocksOf(bs, p)| ==> BlocksOf(bs, p)[i] in bs && BlocksOf(bs, p)[i].blogId == p
    ensures forall b :: b in BlocksOf(bs, p) <==> b in bs && b.blogId == p
  {
    if bs != [] {
      InBlocksOf(bs[1..], p);
      assert bs == [bs[0]] + bs[1..];
    }
  }

  /** `deleteMany({blogId: p})` keeps exactly the blocks of other posts. */
  lemma {:induction false} InWithoutPost(bs: seq<BlockDoc>, p: ObjectId)
    ensures forall b :: b in WithoutPost(bs, p) <==> b in bs && b.blogId != p
  {
    if bs != [] {
      InWithoutPost(bs[1..], p);
      assert bs == [bs[0]] + bs[1..];
    }
  }

  lemma {:induction false} BlocksOfAppend(a: seq<BlockDoc>, b: seq<BlockDoc>, p: ObjectId)
    ensures BlocksOf(a + b, p) == BlocksOf(a, p) + BlocksOf(b, p)
  {
    if a != [] {
      assert (a + b)[0] == a[0] && (a + b)[1..] == a[1..] + b;
      BlocksOfAppend(a[1..], b, p);
      var head := if a[0].blogId == p then [a[0]] else [];
      assert BlocksOf(a + b, p) == head + (BlocksOf(a[1..], p) + BlocksOf(b, p));
    } else {
      assert a + b == b;
    }
  }

  /** After `deleteMany` for `p`, post `p` has no blocks and every other post keeps its own. */
  lemma {:induction false} BlocksOfWithoutPost(bs: seq<BlockDoc>, p: ObjectId, q: ObjectId)
    ensures BlocksOf(WithoutPost(bs, p), q) == if q == p then [] else BlocksOf(bs, q)
  {
    if bs != [] {
      BlocksOfWithoutPost(bs[1..], p, q);
      var rest := WithoutPost(bs[1..], p);
      if bs[0].blogId != p {
        assert WithoutPost(bs, p) == [bs[0]] + rest;
        assert ([bs[0]] + rest)[0] == bs[0] && ([bs[0]] + rest)[1..] == rest;
        assert BlocksOf(WithoutPost(bs, p), q)
            == (if bs[0].blogId == q then [bs[0]] else []) + BlocksOf(rest, q);
      } else {
        assert WithoutPost(bs, p) == rest;
      }
    }
  }

  /** Removing the blocks of a post that has none changes nothing. */
  lemma {:induction false} WithoutAbsentPost(bs: seq<BlockDoc>, p: ObjectId)
    requires forall i :: 0 <= i < |bs| ==> bs[i].blogId != p
    ensures WithoutPost(bs, p) == bs
  {
    if bs != [] {
      WithoutAbsentPost(bs[1..], p);
    }
  }

  /** A run of blocks all belonging to `p`: they are `p`'s blocks and nobody else's. */
  lemma {:induction false} BlocksOfOwned(bs: seq<BlockDoc>, p: ObjectId, q: ObjectId)
    requires forall i :: 0 <= i < |bs| ==> bs[i].blogId == p
    ensures BlocksOf(bs, q) == if q == p then bs else []
  {
    if bs != [] {
      BlocksOfOwned(bs[1..], p, q);
    }
  }

  /** Blocks numbered 0, 1, 2, ... in order. */
  predicate Indexed(bs: seq<BlockDoc>) {
    forall i :: 0 <= i < |bs| ==> bs[i].index == i
  }

  /** When the blocks of `p` are numbered 0, 1, 2, ..., each of them sits at the position its index names. */
  lemma IndexedPlacement(bs: seq<BlockDoc>, p: ObjectId)
    requires Indexed(BlocksOf(bs, p))
    ensures forall b :: b in bs && b.blogId == p ==>
      0 <= b.index < |BlocksOf(bs, p)| && BlocksOf(bs, p)[b.index] == b
  {
    InBlocksOf(bs, p);
    var own := BlocksOf(bs, p);
    forall b | b in bs && b.blogId == p
      ensures 0 <= b.index < |own| && own[b.index] == b
    {
      assert b in own;
      var k :| 0 <= k < |own| && own[k] == b;
    }
  }

  /** Each block's index is at most the next one's. */
  predicate IndexAscending(bs: seq<BlockDoc>) {
    forall i :: 0 < i < |bs| ==> bs[i - 1].index <= bs[i].index
  }

  /** `b` placed before the first element of `sorted` whose index is not below its own. */
  function InsertByIndex(b: BlockDoc, sorted: seq<BlockDoc>): (r: seq<BlockDoc>)
    ensures |r| == |sorted| + 1
    ensures multiset(r) == multiset(sorted) + multiset{b}
    ensures r[0] == b || (sorted != [] && r[0] == sorted[0])
  {
    if sorted == [] || b.index <= sorted[0].index then [b] + sorted
    else
      var tail := sorted[1..];
      assert sorted == [sorted[0]] + tail;
      [sorted[0]] + InsertByIndex(b, tail)
  }

  /** Inserting into blocks in index order keeps them in index order. */
  lemma {:induction false} InsertAscending(b: BlockDoc, sorted: seq<BlockDoc>)
    requires IndexAscending(sorted)
    ensures IndexAscending(InsertByIndex(b, sorted))
  {
    if sorted != [] && b.index > sorted[0].index {
      var tail := sorted[1..];
      InsertAscending(b, tail);
      var rest := InsertByIndex(b, tail);
      var r := [sorted[0]] + rest;
      assert r == InsertByIndex(b, sorted);
      forall i | 0 < i < |r|
        ensures r[i - 1].index <= r[i].index
      {
        if i > 1 {
          assert r[i - 1] == rest[i - 2] && r[i] == rest[i - 1];
        }
      }
    }
  }

  /** The blocks ordered by ascending `index`, as the lookup's sort on `index` returns them. */
  function SortByIndex(bs: seq<BlockDoc>): (r: seq<BlockDoc>)
    ensures IndexAscending(r)
    ensures multiset(r) == multiset(bs)
  {
    if bs == [] then []
    else
      assert bs == [bs[0]] + bs[1..];
      var sorted := SortByIndex(bs[1..]);
      InsertAscending(bs[0], sorted);
      InsertByIndex(bs[0], sorted)
  }

  /** Sorting blocks that are already in index order leaves them as they are. */
  lemma {:induction false} SortByIndexOfAscending(bs: seq<BlockDoc>)
    requires IndexAscending(bs)
    ensures SortByIndex(bs) == bs
  {
    if bs != [] {
      SortByIndexOfAscending(bs[1..]);
    }
  }
}
