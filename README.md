# Blog API store — a Dafny model

This project models the request handlers of a small blog backend. Posts live
in a post collection and their content blocks in a separate block collection.
It also models the two record schemas the handlers rely on: posts with their
embedded comments, and content blocks.

Each route handler of `src/routes/blogs.js` is one atomic operation on a
`BlogStore` object with two fields:
- `posts`, a map from post id to post document;
- `blocks`, the block collection as a sequence.

The operations are like, read, add comment, get by id, create, update,
delete and list tags. Each one except the tag listing ends in an `Outcome`
(the listing fails only with a store error, which is not modelled):
- `Ok`, carrying the response body;
- `BadRequest`, carrying the error message the handler sends;
- `NotFound`;
- `Rejected`, for the update the store refuses because it would empty a post's
  required title.

The pure parts of the handlers are functions:
- the trimming of comment name and text (ECMAScript `String.prototype.trim`
  whitespace set);
- the normalisation of submitted blocks;
- applying the field set a `PUT` builds (`ApplyUpdates`, specified by `UpdatesOf` and `PatchedBy`); the field set itself is built field by field in the method `BuildUpdates`, as the handler does;
- the tag listing's filter and sort.

Every method keeps a store invariant (`BlogRoutes.StoreValid`):
- every post is stored under its own id;
- every post has a non-empty title, and every comment a non-empty text;
- every block has type `"richtext"` or `"html"` and belongs to a stored post;
- the blocks of each post are numbered 0, 1, 2, … in collection order.

Every handler method (`Like`, `Read`, `AddComment`, `Create`, `Update`,
`Delete`) also ensures the growth relation `BlogRoutes.Grows`: likes and read
counts never fall, and comments are only appended. The internal write helpers
`SetPost`, `ReplaceBlocks` and `WriteUpdate` do not promise it, because they
accept any valid document.

Modules:
- `Wrappers`: Option.
- `ObjectIds`: 96-bit object ids, their 24-digit lower-case hex form and its parser.
- `JsStrings`: ECMAScript whitespace and `trim`.
- `StringOrder`: lexicographic order, and sorting a finite set of strings.
- `BlogPosts`: `src/models/BlogPost.js`.
- `ContentBlocks`: `src/models/ContentBlock.js`, together with the block-collection queries the handlers perform.
- `BlogRoutes`: `src/routes/blogs.js`.

## Model

| member | source | states |
|---|---|---|
| BlogRoutes.BlogStore.Like | src/routes/blogs.js:45-57 | missing id: NotFound and no change; otherwise the post's `likes` rises by exactly one, the new count is returned, and no other field, post or block changes |
| BlogRoutes.BlogStore.Read | src/routes/blogs.js:60-72 | missing id: NotFound and no change; otherwise the post's `readCount` rises by exactly one, the new count is returned, and nothing else changes |
| BlogRoutes.BlogStore.AddComment | src/routes/blogs.js:75-102 | absent or blank text: BadRequest "Comment text is required" before any change; otherwise a missing post gives NotFound with no change. Otherwise exactly one comment is appended, holding the trimmed text and the normalised name, and earlier comments are kept. The response is that last comment |
| BlogRoutes.CommentText | src/routes/blogs.js:78-83 | None exactly when the text is absent or whitespace only; otherwise the trimmed text, which is non-empty and trim-stable |
| BlogRoutes.CommentName | src/routes/blogs.js:82 | the trimmed name when a non-blank name is given, "Anonymous" otherwise; never empty and trim-stable |
| BlogRoutes.BlogStore.Get | src/routes/blogs.js:105-119 | Ok exactly when the id is stored, NotFound otherwise; the post is its JSON form. There is one view per block of the post, and each block appears, as type and content, at the position its index names |
| BlogRoutes.BlogStore.Create | src/routes/blogs.js:122-154 | BadRequest "title is required" for an absent or empty title. BadRequest "content or blocks are required" when there is no non-empty block list and the content is null or empty. Ok exactly otherwise: the new post has the given title, the summary or "" when it is null, the content or "" when blocks are given, the given coverImage, the tags array or [], likes and read count 0, no comments and version key 0; nothing else in the post collection changes. The blocks are exactly the normalised list, and the response echoes the submitted blocks. The blocks of other posts are unchanged |
| BlogRoutes.BuildUpdates | src/routes/blogs.js:160-167 | the update object is `UpdatesOf` the body: only non-null title, summary and coverImage are set. Tags are set when not null, as [] when not an array. Content is "" when a non-empty block list is given, else set when not null |
| BlogRoutes.ApplyUpdatesPatches | src/routes/blogs.js:160-172 | setting the fields built from a body patches the post exactly as the body says (`PatchedBy`: given fields set, tags [] for a non-array, content "" when blocks are given, counters, comments, id and version kept), and keeps a valid post valid when the title is not set to "" |
| BlogRoutes.PatchIdempotent | src/routes/blogs.js:160-172 | applying the same update body twice leaves the post as one application did |
| BlogRoutes.BlogStore.Update | src/routes/blogs.js:157-195 | a title set to "" is Rejected; otherwise a missing id gives NotFound. Neither changes anything. Ok exactly otherwise: the post is patched as the body says and other posts are unchanged. With a non-empty block list the post's blocks are replaced by exactly the normalised list, which is returned as re-read; without one the blocks are untouched. The response matches what a following `GET /:id` returns: the same post and, when blocks were replaced, the same block views |
| BlogRoutes.BlogStore.WriteUpdate | src/routes/blogs.js:169-191 | the post is set, its blocks are replaced only when a non-empty list is given, and the response carries the post's JSON form and the stored blocks in index order, equal to what `Get` then returns |
| BlogRoutes.StoredViewsAsRead | src/routes/blogs.js:111-114 | on blocks of a valid type the `{type, content}` views the update answers with are the views the get-by-id handler builds |
| BlogRoutes.BlogStore.ReplaceBlocks | src/routes/blogs.js:175-184 | after deleting the post's blocks and inserting the normalised list, the post has exactly that list and every other post keeps its own blocks |
| BlogRoutes.NormaliseBlocks | src/routes/blogs.js:140-145 | one document per submitted element, the i-th with index i and the post's id. Its type is "html" exactly when "html" was submitted, "richtext" otherwise. A non-string content becomes "" |
| BlogRoutes.ReplacedBlocks | src/routes/blogs.js:138-146 | delete-then-insert on the collection gives the replaced post exactly the new list and leaves every other post's blocks as they were |
| BlogRoutes.BlogStore.Delete | src/routes/blogs.js:198-207 | missing id: NotFound and no change; otherwise the post is removed with every block whose `blogId` is that post, and other posts and their blocks are unchanged |
| BlogRoutes.BlogStore.Tags | src/routes/blogs.js:35-42 | each non-empty tag of any post appears, in strictly ascending order and with no repeats, and nothing else appears |
| StringOrder.AscendingNoRepeats | src/routes/blogs.js:37-38 | a strictly ascending sequence holds no string twice, so `distinct` followed by `sort` lists each tag once |
| BlogRoutes.GrowsByEdit | src/routes/blogs.js:47-51 | replacing a post by one with no smaller counters and its comments extended at the end is growth |
| BlogRoutes.AbsentPostHasNoBlocks | src/routes/blogs.js:200-202 | in a valid store a post that is not stored owns no block, so deleting its blocks changes nothing |
| BlogRoutes.ValidAfterPostEdit | src/models/BlogPost.js:13 | changing a stored post while keeping its id and a non-empty title keeps the store invariant |
| BlogRoutes.ValidAfterInsert | src/routes/blogs.js:130-136 | adding a new valid post keeps the store invariant |
| BlogRoutes.ValidAfterReplace | src/routes/blogs.js:175-184 | replacing a stored post's blocks by a normalised list keeps the store invariant |
| BlogRoutes.ValidAfterDelete | src/routes/blogs.js:200-202 | removing a post together with its blocks keeps the store invariant |
| BlogRoutes.StoredBlocksInOrder | src/routes/blogs.js:110 | in a valid store a post's blocks are already in index order and have valid types, and each sits at the position its index names |
| BlogPosts.AppendValidComment | src/models/BlogPost.js:20 | appending a valid comment to a valid post gives a valid post |
| BlogPosts.ToJson | src/models/BlogPost.js:25-31 | the `id` field parses back to the document's id and every other returned field equals the stored one; no version key appears |
| BlogPosts.ToJsonDropsOnlyVersion | src/models/BlogPost.js:25-31 | two documents have the same JSON form exactly when they differ at most in their version key |
| ObjectIds.IdString | src/models/BlogPost.js:27 | 24 characters that parse back to the id |
| ObjectIds.IdStringInjective | src/models/BlogPost.js:27 | distinct ids have distinct strings |
| ObjectIds.DecodeEncode | src/models/BlogPost.js:27 | hex encoding of a number that fits the width decodes back to it |
| ContentBlocks.InBlocksOf | src/models/ContentBlock.js:5 | the blocks found for a post are exactly the collection's blocks whose `blogId` is that post |
| ContentBlocks.InWithoutPost | src/routes/blogs.js:202 | after deleting by post id, exactly the blocks of other posts remain |
| ContentBlocks.BlocksOfWithoutPost | src/routes/blogs.js:202 | deleting one post's blocks empties that post's lookup and leaves every other post's lookup unchanged |
| ContentBlocks.BlocksOfAppend | src/routes/blogs.js:139 | looking up after an insert gives the old blocks followed by the inserted ones, for each post |
| ContentBlocks.IndexedPlacement | src/models/ContentBlock.js:6 | when a post's blocks are numbered 0..n-1, each of its blocks sits at the position its index names |
| ContentBlocks.InsertAscending | src/models/ContentBlock.js:13 | inserting by index into blocks in index order keeps them in index order |
| ContentBlocks.SortByIndex | src/routes/blogs.js:110 | the result is in ascending index order and is a permutation of the input |
| ContentBlocks.SortByIndexOfAscending | src/routes/blogs.js:110 | sorting blocks already in index order returns them unchanged |
| JsStrings.TrimEmptyIffBlank | src/routes/blogs.js:78 | the trimmed string is empty exactly when the string is whitespace only |
| JsStrings.TrimIdempotent | src/routes/blogs.js:82-83 | trimming twice is trimming once |
| JsStrings.TrimIsInfix | src/routes/blogs.js:82-83 | the trimmed string is a contiguous part of the input, and what was cut from each end is whitespace |
| StringOrder.SortSet | src/routes/blogs.js:38 | a strictly ascending sequence with exactly the elements of the set |
| StringOrder.BelowTransitive | src/routes/blogs.js:38 | the order `sort()` uses is transitive |
| StringOrder.BelowTotal | src/routes/blogs.js:38 | any two distinct strings are ordered one way or the other |

## Left out

- Listing (`GET /` with `search` and `tag`, src/routes/blogs.js:8-32) is not modelled. Its search builds JavaScript regular expressions from user input, and its order is by creation time, which is not modelled.
- Timestamps are not modelled. `createdAt` and `updatedAt` on posts are left out. A comment's `createdAt` is the clock reading `now`, passed to `AddComment` as a parameter.
- Fresh ids are parameters. The id of a new post (`Create`, which requires that it is not stored yet) and of a new comment (`AddComment`) are passed in. Path ids are `ObjectId`-typed, so a path id that is not a well-formed object id (which the store answers with a 500) is not modelled.
- Failures of the store (the 500 answers) are not modelled. The exception is the update validator that refuses an empty title: it is `Rejected`. The handler reports it as a 500 like any other store error, and the model gives it its own outcome so that no post ever loses its title. The model follows the code, where `runValidators: true` applies the schema's `required` title.
- JSON values of a wrong type in string fields are not modelled. Title, summary, content, coverImage and comment name and text are strings or absent/null. A non-string block `type` or `content` is modelled: it behaves like a missing one. So is `tags` of a non-array type. The create response holds the submitted blocks as the model reads them (`BlockInput`), whereas the handler sends back the raw array: extra keys and non-string `type` or `content` values are not reproduced in the model's response. Elements of `blocks` that are null are not modelled: on them the handler fails with a 500, and it fails only after earlier writes have taken effect. On create, the new post is already stored, with content "" and no blocks (src/routes/blogs.js:130-140). On update, the post is already patched, with content "", and all of its old blocks are already deleted (src/routes/blogs.js:169-178).
- Concurrency and non-atomicity are not modelled: each handler is one atomic step. This includes the window between deleting and inserting blocks, and between deleting a post and deleting its blocks.
- Block `_id`s and block fields beyond blogId, index, type and content are not modelled. The `content` default of the block schema is not modelled separately, because every write supplies a string.
- Serialisation of embedded comments inside the post's JSON form is not modelled: comments appear as records. The version key `__v` is the `version` field, which the JSON form drops.
- BlogRoutes.BlogStore.Tags: orders strings by Unicode code point, where JavaScript's default `sort()` compares UTF-16 code units. The two orders differ only for characters outside the Basic Multilingual Plane. `Tags` is a ghost function, because sorting a set is specified rather than computed.
- The schema defaults for a comment's name ("Anonymous") and for a post's summary and content ("") are never reached through these handlers and are not modelled separately. The comment handler always supplies a name, already "Anonymous" when it is blank (`CommentName`). The create handler always supplies summary and content itself. The defaults that take effect, likes and read count 0 and no comments, are stated by `Create`.
- Counters are unbounded naturals. JavaScript numbers lose precision above 2^53, which the model does not capture.
- HTTP status codes, headers and the Express framework are not modelled. `src/db.js` (connection retries) and `src/index.js` (server wiring) are not part of this model.
