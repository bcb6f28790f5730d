# Cache-aside coordinator of the posts/users server

The server keeps a local copy of records from a remote provider. It has two tables, `users` and `posts`. Each handler first checks the local table. Only on a miss does it fetch from the remote provider. It then writes the result locally, so a later request is served without a fetch.

This project models the four handlers that carry that logic:

- **Populate posts** (`POST /api/addPost/:userId?company=...`). If any `posts` row belongs to the key, the reply is `{ exists: true }`. Otherwise the remote collection for the key is fetched. One row `(key, title, body, company)` is inserted per fetched post, where `company` is the caller's query parameter. The reply is `{ exists: false }`.
- **Ensure user cached** (`POST /api/addUser/:id`). If the user row exists, the reply is `{ exists: true }`. Otherwise the remote user is fetched and flattened (`address.city` becomes `city`, `company.name` becomes `company`). It is inserted under the remote record's own `id`.
- **User detail** (`GET /user/:userId`). This only looks up the cached user; it never populates. The reply pairs the cached user with posts fetched live. The post cache is never consulted.
- **Export** (`GET /api/downloadExcel/:userId`). This selects the key's `posts` rows in insertion order. The attachment is named `posts_<key>.xlsx`.

Layout:

- `records.dfy` (module `Records`): the remote and stored record shapes, and the flattening of a remote user.
- `decimal.dfy` (module `Decimal`): how an integer key is rendered into the file name, and how it is read back.
- `cache.dfy` (module `CacheAside`): each handler as a pure function on a `Tables` value. This module also holds the lemmas about those functions.
- `store.dfy` (module `CacheStore`): the store as a class `Store`. Its fields are `users: map<int, User>` and `posts: seq<PostRow>`. Each handler is a method whose postcondition ties the new tables and the reply to the `CacheAside` function. `AddPost` appends rows one at a time in a loop, as the prepared statement does.
- `Store.Valid()` bundles two invariants:
  - `KeyedById`: every user row sits under its own id.
  - `AllOrNothing`: for every key, the stored posts are either none or exactly the tagged collection fetched when the key was populated. A ghost map `populated` records that collection.

Remote answers are parameters of type `Remote<T> = Ok(T) | Fail`; no network is modelled. The `company` query parameter may be missing, in which case SQLite stores NULL. It is therefore `Option<string>`.

Three behaviours of the code are worth stating on their own terms:

- A failed user fetch gives a 500 error, not "not found". A key the remote provider does not know also gives a 500 error, because its empty body has no `address` to read.
- The export returns rows in insertion order, the order in which a scan of the `posts` table yields them.
- In the populate-posts handler, a failed fetch on a miss writes nothing and sends no reply at all, because its promise chain has no `catch`. `CacheAside.PopulatePostsAsWritten` models that handler as written. `CacheAside.PopulatePosts` and `CacheStore.Store.AddPost` model the corrected handler, which answers with a 500 error. `CacheAside.AsWrittenLeavesFailureUnanswered` proves that the two write the same tables and differ only in that reply. See Findings.

## Model

| member | source | states |
|---|---|---|
| `Records.Flatten` | app.js:141-143 | Computes the users row for a fetched user: id, name, email, phone and website are copied, and the nested `address.city` and `company.name` become the flat `city` and `company`. Its contract is the round trip: the remote record is rebuilt from the row plus the dropped fields. |
| `Decimal.IntToString` | app.js:110 | Renders a key as `${key}` renders an integral number: a minus sign before the digits of the magnitude. The result is non-empty, and it starts with `-` exactly when the key is negative. |
| `CacheAside.HasPosts` | app.js:72 | The existence probe `SELECT * FROM posts WHERE userId = ?` run through `db.get`: true when some stored row belongs to the key. `HasPostsIffSelected` relates it to the selection. |
| `CacheAside.TagPosts` | app.js:85-86 | Computes the rows the prepared statement inserts for a fetched list: one `TagRow` per post, in the list's order. There are as many rows as posts, and each carries the requested key and the caller's `company`. |
| `CacheAside.TagRow` | app.js:86 | The row for one fetched post: `(key, post.title, post.body, company)`. The key is the requested one, not the post's own `userId`. `TagPostsAt` states it pointwise. |
| `CacheAside.PopulatePostsAsWritten` | app.js:67-93 | The populate-posts handler as written. It writes exactly the tables of `PopulatePosts`, and it sends no reply exactly when a miss meets a failed fetch. |
| `CacheAside.PopulatePosts` | app.js:67-93 | The corrected populate-posts handler. The users table is unchanged. The reply is `exists: true` exactly on a hit, and `exists: false` exactly on a miss with a successful fetch. Only the latter changes the tables. |
| `CacheAside.EnsureUser` | app.js:126-160 | The ensure-user handler. The posts table is unchanged. The reply is `exists: true` exactly when the key is cached. A change is always the insertion of `Flatten(u)` under `u.id` with reply `exists: false`. Every row stays under its own id. |
| `CacheAside.ExportFileName` | app.js:110 | Computes `posts_<key>.xlsx`. Its contract: the key is read back from the name. |
| `CacheAside.ExportSelection` | app.js:100-110 | Computes the download: the file name and the key's rows in insertion order. The name reads back as the key, every row is a stored row of the key, and the rows are empty exactly when the key has no stored post. |
| `Records.ExpandFlatten` | app.js:141-143 | Flattening a remote user loses only the fields the users table does not keep. The remote record can be rebuilt from its row plus the dropped fields. |
| `Records.FlattenExpand` | app.js:143 | Every row is the flattening of some remote record: `city` is read from `address.city` and `company` from `company.name`. id, name, email, phone and website are carried over unchanged. |
| `Decimal.NatToString` | app.js:110 | A rendered non-negative key is a non-empty string of digits, with no leading zero unless the key is 0. |
| `Decimal.ParseIntegerOfIntToString` | app.js:110 | Reading a rendered key back gives the key, negative keys included. |
| `Decimal.IntToStringInjective` | app.js:110 | Different keys render as different strings. |
| `CacheAside.PostRowsFor` | app.js:100 | The selection for a key is no longer than the table. Every selected row belongs to the key and is a stored row. |
| `CacheAside.SelectionOfAppend` | app.js:100 | Selection distributes over appending rows, so it keeps insertion order. |
| `CacheAside.SelectionMembers` | app.js:100 | A row is selected for a key if and only if it is stored and belongs to that key. |
| `CacheAside.HasPostsIffSelected` | app.js:72 | The existence probe finds a row if and only if the selection for the key is non-empty. |
| `CacheAside.TagPostsAt` | app.js:85-86 | There is one inserted row per fetched post, in the fetched order. Each row carries the requested key, the post's title and body, and the caller's annotation. |
| `CacheAside.SelectionOfTagged` | app.js:85-86 | Freshly tagged rows are all selected for the requested key and none for any other key. |
| `CacheAside.AsWrittenLeavesFailureUnanswered` | app.js:81-90 | The handler as written and the corrected one write the same tables. Their replies differ exactly when a miss meets a failed fetch: the handler as written then sends no reply. |
| `CacheAside.PopulatePostsHit` | app.js:72-78 | If some row of the key exists, the reply is `exists: true` and both tables are unchanged, whatever the remote would answer. |
| `CacheAside.PopulatePostsMiss` | app.js:79-89 | On a miss with a fetched list L, posts become the old rows followed by L tagged, in L's order, and users are unchanged. The key's rows are then exactly L tagged. The reply is `exists: false`. |
| `CacheAside.PopulatePostsTagging` | app.js:86 | After a miss, every stored row of the key carries that key and exactly the caller's annotation. |
| `CacheAside.PopulatePostsFrame` | app.js:85-86 | Populating a key never changes the users table or the selection of any other key. |
| `CacheAside.PopulatePostsRemoteFailure` | app.js:81-90 | A failed fetch writes nothing: a later existence probe for the key still finds no row. |
| `CacheAside.PopulatePostsIdempotent` | app.js:72-89 | After populating with a non-empty list, the next request for the key is a hit and changes nothing, whatever its annotation or remote answer. |
| `CacheAside.PopulatePostsEmptyRefetches` | app.js:72-89 | Populating with an empty list changes nothing and replies `exists: false`. The next request is a miss again and fetches anew. |
| `CacheAside.AllOrNothingInitially` | app.js:27-34 | The empty posts table satisfies the all-or-nothing invariant. |
| `CacheAside.PopulatePostsKeepsAllOrNothing` | app.js:67-93 | Every population keeps each key either uncached or holding the complete tagged collection of its one successful fetch. |
| `CacheAside.CachedKeyIsComplete` | app.js:72-78 | Under the invariant, a key with any stored row holds the complete collection of its population. So the existence probe may treat one row as "the whole set is cached". |
| `CacheAside.EnsureUserCases` | app.js:129-157 | A hit replies `exists: true` with no change. A failed fetch, or an insert whose primary key `u.id` is already taken, replies with an error and no change. Otherwise `Flatten(u)` is stored under `u.id` and the reply is `exists: false`. Posts are never touched. |
| `CacheAside.EnsureUserKeepsKeyedById` | app.js:141-143 | Inserting under the remote record's own id keeps every user row under its own id. |
| `CacheAside.EnsureUserIdempotent` | app.js:129-149 | Suppose the remote record carries the requested id. Then two requests reply `exists: false` and then `exists: true`, and the stored row after both is the flattened record. |
| `CacheAside.EnsureUserStoresUnderRemoteId` | app.js:138-143 | A remote record with a different id is stored under that id. The requested key stays uncached. |
| `CacheAside.LookupDetail` | app.js:48-57 | The reply is NotFound if and only if the user is not cached. It is Found if and only if the user is cached and the live fetch succeeded. A Found reply pairs the stored user with exactly the live posts. |
| `CacheAside.DetailIgnoresPostCache` | app.js:48-58 | The detail reply does not depend on the posts table at all. |
| `CacheAside.FileNameNamesKey` | app.js:110 | The key can be read back from `posts_<key>.xlsx`, so different keys get different file names. |
| `CacheAside.ExportExact` | app.js:100-108 | Exactly the stored rows of the key are exported. An uncached key exports an empty sheet, not an error. |
| `CacheAside.ExportAfterPopulate` | app.js:85-106 | Right after populating a key with N posts, the export has exactly N rows: the fetched posts, tagged, in order. |
| `CacheStore.Store.constructor` | app.js:12-35 | Both tables start empty and the invariants hold. |
| `CacheStore.Store.AddPost` | app.js:67-93 | The existence probe, then one INSERT per fetched post in a loop. The new tables and the reply are those of `PopulatePosts`. The invariants are kept. |
| `CacheStore.Store.AddUser` | app.js:126-160 | The new tables and the reply are those of `EnsureUser`. The invariants are kept. |
| `CacheStore.Store.UserDetail` | app.js:44-64 | Changes nothing. The reply is that of `LookupDetail`, and it is NotFound if and only if the user is not cached. |
| `CacheStore.Store.DownloadExcel` | app.js:96-115 | Changes nothing. The returned name and rows are those of `ExportSelection`, and a row is returned if and only if it is stored under the key. |
| `CacheStore.AddUserTwice` | app.js:126-160 | On the store, two requests for a user whose remote record carries the requested id reply `exists: false` and then `exists: true`. The users table gains exactly that one flattened row. |
| `CacheStore.DetailAfterPopulate` | app.js:44-93 | After populating a key's posts, its detail page shows the live posts while its export shows the cached ones. The two sources are not conflated. |

## Left out

- HTTP plumbing is not modelled: routing, status codes, headers, `sendFile`, static files and `listen`. Replies are abstracted to `{ exists }`, a 500 error, 404, or no reply.
- Failures of the database engine are not modelled:
  - a read error in `db.get` or `db.all` (app.js:73-75, 101-103, 130-132, and the `err ||` of app.js:49);
  - insert errors other than a duplicate primary key, such as a type mismatch, or a NULL id for which SQLite would assign a rowid.
  The store is an in-memory map plus a sequence, which can fail only on a duplicate primary key.
- The prepared statement lifecycle is modelled only as "append these rows in order". `stmt.run` is asynchronous and has no error callback, so its failures cannot be observed.
- Network fetches and JSON parsing are not modelled. Each fetch result is an input `Remote<T>`.
- The `/api/users` passthrough is not modelled: it has no local logic.
- CacheAside.PopulatePostsKeepsAllOrNothing: fetched post lists are assumed to hold objects only. A `null` element is not representable in `seq<RemotePost>`. With such an element, `post.title` throws inside `forEach` after the rows for the earlier elements have been issued. Those rows stay written, no reply is sent, and the next request for the key is a hit on a partial set. So the all-or-nothing invariant, and `CachedKeyIsComplete` with it, holds only for lists whose every element is an object. A non-null element without `title` or `body` is stored with NULL fields and does not throw; that case is also not modelled.
- The spreadsheet serialisation is not modelled, because the workbook library is not part of this model. Only the rows given to the sheet and the file name are modelled.
- Concurrency is not modelled: two simultaneous misses for the same key can both insert.
- Keys are `int`. Not modelled: `parseInt` giving NaN, the `/api/addUser/:id` key being the raw path string, and integers beyond 2^53 or 10^21 (which JavaScript renders in exponent form).
- `address.geo` of the remote user is not modelled. A post field missing from the remote body, which would be stored as NULL, is not modelled either.
- SQLite does not promise an order for a query without ORDER BY. The model fixes insertion order, which is what a scan of this table gives.
- Logging is not modelled.

## Findings

| source | as written | input that shows it | evidently intended | confidence | as-written member | corrected member |
|---|---|---|---|---|---|---|
| app.js:81-90 | The fetch chain of the populate-posts handler has no `catch`. When the fetch or its JSON parsing fails on a miss, nothing is written and no reply is ever sent. The rejection is also unhandled. Since Node 15 an unhandled rejection ends the process by default, which would also lose the in-memory database of app.js:12. So "no reply, tables unchanged", as modelled, is the best case. | A key with no stored posts, and a remote answer `Fail` | Answer a 500 error, as the other three handlers do on a failed fetch or read | medium, not executed | `CacheAside.PopulatePostsAsWritten`, shown by `CacheAside.AsWrittenLeavesFailureUnanswered` | `CacheAside.PopulatePosts`, with `CacheAside.PopulatePostsRemoteFailure`; `CacheStore.Store.AddPost` follows it |
