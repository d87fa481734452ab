# Shorty shortlink store — a Dafny model

Shorty is a URL shortener. It maps short keys to long target URLs, serves
redirects, and offers create/read/update/delete over an HTTP API. The
shortlinks are kept in one MongoDB collection with a unique index on `short`.
This project models the core of that service: the two record types, the
store operations on the collection, and the validation and status-code
decisions of the HTTP handlers.

- `options.dfy` (module `Options`): the `Option` type.
- `entity.dfy` (module `Entity`): the `Shortlink` and `ShortlinkUpdate`
  records. It also holds the field names each record carries in the database
  (BSON tags) and in the API (JSON tags), and the decoding the driver and the
  JSON binder apply to them. `SetAppliesUpdate` shows that the driver's `$set`
  of an update payload on a stored document is exactly `ApplyUpdate`, which
  keeps the id, the access count and the creation time.
- `table.dfy` (module `Table`): the collection as a sequence of documents in
  natural order, with the unique index as the predicate `UniqueShorts`. The
  driver calls the store makes are pure functions over it: `InsertOne`,
  `FindOne`, `FindOneAndSet` (find-one-and-update with `$set`, no upsert),
  `FindOneAndIncrement` (find-one-and-update with `$inc access_count`, no
  upsert) and `DeleteMany`. Each write states its error cases, that it
  preserves the unique index, its effect on the multiset of documents, and
  what `FindOne` answers afterwards, for the short it touched and for every
  other short. For `InsertOne`, `FindOneAndSet` and `FindOneAndIncrement`
  these are the function's own postconditions. For `DeleteMany` the multiset
  and unique-index facts are the lemmas `DeleteManyKeepsCopies` and
  `DeleteManyUnique`.
  Lemmas follow the behaviour the service's tests check: a redirect count
  survives a rename, a rename frees the old short, and the timestamps stay
  ordered.
- `db.dfy` (module `Db`): class `Collection`, the shared collection, with one
  method per store function. Each mutating method says what the new `docs`
  is in terms of the `Table` functions. Timeouts and network failures come in
  as a `Conn` parameter. `Failing(message)` is a failure before the server
  applied the call: the call returns `Unexpected(message)` and writes
  nothing. `Lost(message)` is a failure after the server applied it, such as
  a deadline that expires while the reply is on its way: the call returns
  `Unexpected(message)`, but its write stands. The three error kinds (`NotFound`,
  `Duplicate`, `Unexpected`) stand for the source's `isNotFundError` /
  `isDuplicateError` classification.
- `validation.dfy` (module `Validation`): `InvalidShort` is the anchored
  pattern `^[a-zA-Z0-9\-_]+$`. It is written as a one-or-more matcher and
  proved equal to "empty, or some character outside the class".
  `InvalidUrl(input, parse)` holds when the parse fails or gives an empty
  scheme or host (main.go:189-197). The URL parser is a parameter.
- `handlers.dfy` (module `Handlers`): one method per route, over a
  `Collection`. Each returns a `Response` (status and body). Each states the
  order of its guards, that a rejected request leaves the store unchanged,
  and how each store outcome maps to a status. The create and update
  handlers, and the delete and redirect handlers, keep the invariant that
  every stored short and long URL passes validation (`WellFormed`). A 500
  leaves the store unchanged only when the store call failed before the
  server applied it.

Two behaviours of the code worth noting:
- Create keeps the `access_count` from the request body. The handler binds
  the body into the full `Shortlink` record, and `Create` overwrites only the
  id and the two timestamps (main.go:61-62, db.go:158-160). A new shortlink
  therefore starts at 0 only when the body carries no `access_count`
  (`Entity.CreateBodyDefaults`).
- The untagged `ID` field is stored under the driver's default key `id`, not
  under MongoDB's own `_id`.

## Model

| member | source | states |
|---|---|---|
| `Entity.DocumentRoundTrip` | shortlink.go:10-18 | decoding the stored document of a shortlink gives back that shortlink |
| `Entity.SetAppliesUpdate` | shortlink.go:21-26 | the update payload's stored keys are exactly short, long, descr and updated_at, all of them fields of the stored document. So `$set` adds no field, leaves id, access_count and created_at, and reads back as `ApplyUpdate`, which keeps the id, the count and the creation time |
| `Entity.JsonShape` | shortlink.go:11-17 | the entity's JSON has exactly the keys short, long, descr, access_count, created_at, updated_at in that order; `id` is not among them and the id does not change the rendering |
| `Entity.JsonRoundTrip` | shortlink.go:10-18 | binding an entity's JSON back into a Shortlink recovers every field except the id, which comes back as the nil ObjectID |
| `Entity.CreateBodyDefaults` | main.go:61-62 | a create body carrying only short, long, descr and updated_at binds to a shortlink with access_count 0 and a zero created_at |
| `Entity.UpdateJsonRoundTrip` | main.go:96-97 | binding an update payload's JSON gives back that payload |
| `Table.IndexOf` | db.go:143-145 | the first position holding the short, with no earlier one holding it; none exactly when no document holds it |
| `Table.FindOne` | db.go:137-153 | none exactly when no document holds the short; otherwise the result is x exactly when x is stored with that short, so it is the only such document |
| `Table.InsertOne` | db.go:162-170 | Duplicate exactly when the short is taken; otherwise the index stays unique, exactly the document is added, FindOne returns it, and every other short is found as before |
| `Table.FindOneAndSet` | db.go:178-194 | NotFound exactly when the old short is absent; Duplicate exactly when the new short is held by a different document; otherwise the matched document becomes `ApplyUpdate` of it and is returned. The multiset of documents changes by that one swap and the index stays unique. The document is found under the new short, the old short is free after a rename, and other shorts are found as before |
| `Table.FindOneAndIncrement` | db.go:218-234 | NotFound exactly when the short is absent; otherwise the document's access_count goes up by exactly 1 and nothing else of it changes, updated_at included. Its long URL is returned and other shorts are found as before |
| `Table.DeleteMany` | db.go:200-212 | keeps exactly the documents with another short, so no document holds the short afterwards. It returns how many it removed: the count plus the remaining size is the old size |
| `Table.DeleteManyKeepsCopies` | db.go:200-205 | every document with another short is kept exactly as often as it was stored, and none with the short is kept |
| `Table.DeleteManyUnique` | db.go:197-213 | under the unique index the result keeps the index unique, the count is 1 when the short was held and 0 otherwise, and every other short is found as before |
| `Table.RedirectCountSurvivesRename` | main_test.go:316-351 | create, two redirects, then a rename: the document under the new short has access_count two higher and the same id and created_at |
| `Table.RenameFreesOldShort` | db.go:175-195 | after renaming a to a free b, a is not found and a new shortlink can be created under a |
| `Table.UpdateKeepsTimesOrdered` | db.go:180-183 | an update keeps created_at; with a clock that has not gone back, updated_at does not decrease and created_at ≤ updated_at stays true for every document |
| `Table.InsertKeepsTimesOrdered` | db.go:158-160 | inserting a shortlink stamped from two successive clock readings keeps created_at ≤ updated_at for every document |
| `Table.IncrementKeepsTimesOrdered` | db.go:223-225 | counting a redirect keeps created_at ≤ updated_at for every document |
| `Db.Collection.constructor` | db.go:90-97 | a new collection is empty and satisfies the unique index |
| `Db.Collection.GetAllShortlinks` | db.go:113-135 | every stored shortlink in natural order (an empty list when there are none), or Unexpected when the connection fails |
| `Db.Collection.GetShortlinkByShort` | db.go:137-153 | NotFound exactly when the short is absent; otherwise a stored document with that short; Unexpected when the connection fails |
| `Db.Collection.Create` | db.go:155-173 | stamps the caller's record with the new id and the two clock readings, keeping short, long, descr and access_count. The new state is `InsertOne` of it: Duplicate with no change, or the record added. A connection failure gives Unexpected; the record is added anyway when the failure came after the insert. The unique index is kept |
| `Db.Collection.Update` | db.go:175-195 | sets updated_at to the clock, then the new state and result are `FindOneAndSet`'s: NotFound or Duplicate with no change, or the post-update document. A connection failure gives Unexpected, with `FindOneAndSet`'s state when it came after the write |
| `Db.Collection.Delete` | db.go:197-213 | the new state and the count are `DeleteMany`'s; an absent short gives 0, not an error. A connection failure gives Unexpected, with `DeleteMany`'s state when it came after the write |
| `Db.Collection.GetRedirect` | db.go:215-235 | the new state and the returned long URL are `FindOneAndIncrement`'s; NotFound with no change when absent. A connection failure gives Unexpected, with the access counted when it came after the write |
| `Db.Collection.IsFree` | db.go:237-254 | true exactly when no document has the short (not-found is absorbed), without changing the collection |
| `Validation.ShortPatternIff` | main.go:199-201 | the anchored one-or-more matcher accepts exactly the non-empty strings made only of `[a-zA-Z0-9\-_]` |
| `Validation.InvalidShort` | main.go:200-208 | a short is rejected exactly when it is empty or has a character outside A-Z, a-z, 0-9, '-', '_' |
| `Validation.InvalidUrl` | main.go:189-197 | a redirect URL is accepted exactly when the parser gives a URL with a non-empty scheme and a non-empty host; a parse error rejects it |
| `Validation.RejectedShortExamples` | main_test.go:84-188 | the malformed shorts the tests send ("asdf 77 / 324", "some.thing", "45+3/223?", "käse") are rejected |
| `Validation.AcceptedShortExamples` | main_test.go:133-439 | the shorts the tests store ("ex", "excom", "newshort", "newurl") are accepted |
| `Validation.AcceptedPathShortExamples` | main_test.go:220-290 | the shorts the tests only look up ("something", "somewhere") are accepted |
| `Handlers.HandleGetShortlinks` | main.go:21-28 | 200 with every shortlink, or 500 with the store's message when the connection fails |
| `Handlers.HandleGetShortlink` | main.go:34-53 | 400 with the fixed message on a bad short before any store call; 404 "shortlink not found" when absent; 200 with the stored entity; 500 with the store's message when the connection fails |
| `Handlers.HandleCreateShortlink` | main.go:60-82 | 400 for a body that does not bind, then a bad short, then a bad URL (one 400 only), all with the store unchanged. 409 "shortlink already exists" when the short is taken; 201 with exactly the stamped record added. A connection failure gives 500; the store is unchanged when it came before the insert and holds the record when it came after. Every stored short and URL stays valid |
| `Handlers.HandleUpdateShortlink` | main.go:91-120 | checks in the order old short, body, new short, URL, and a rejection leaves the store unchanged. Then 409 on Duplicate, 404 on NotFound, or 200 with the updated entity and `FindOneAndSet`'s new state. A connection failure gives 500, with the store unchanged or updated depending on whether it came before or after the write. Every stored short and URL stays valid |
| `Handlers.HandleDeleteShortlink` | main.go:127-139 | 400 on a bad short with no change; otherwise 200 with `DeleteMany`'s count, even 0. A connection failure gives 500, with the deletion applied when it came after the write. Every stored short and URL stays valid |
| `Handlers.HandleRedirect` | main.go:145-161 | 400 on a bad short with no change; 404 "no redirect for <short>" when absent; otherwise 307 to the stored long URL, with the count incremented. A connection failure gives 500, with the access counted when it came after the write. Every stored short and URL stays valid |
| `Handlers.HandleCheck` | main.go:168-180 | 400 on a bad short; otherwise 200 with `free` equal to whether the short is unheld; 500 when the connection fails |
| `Handlers.DeleteKeepsWellFormed` | main.go:127-139 | deleting keeps every stored short and long URL valid |
| `Handlers.RedirectKeepsWellFormed` | main.go:145-161 | counting a redirect keeps every stored short and long URL valid |

## Left out

- Connecting to the database (db.go:36-107) is not modelled: environment variables, client creation, ping, the SIGTERM/SIGINT disconnect goroutine and `os.Exit` are I/O and process control. Creating the unique index is kept only as the class invariant `Collection.Valid()`.
- `TimedContext` and `UnboundContext` (db.go:260-268): a deadline is one way a call fails. It is the `Conn` parameter: `Failing` when the call failed before the server applied it, `Lost` when it failed after. Either gives `Unexpected` and then status 500. Which of the two happens is up to the network and the server, so the model leaves the choice to the caller.
- Concurrency: the model is sequential and each store call is one atomic step. Claims about concurrent requests, such as no lost increments under concurrent redirects, are not stated.
- The MongoDB driver's internals (cursors, projection, wire protocol) are replaced by the `Table` functions. The driver stores times at millisecond precision; that truncation is not modelled.
- `url.ParseRequestURI` is a parameter of type `UrlParser`. So the test URLs ("example com", "http://example.com") cannot be judged in the model, and `InvalidUrl` is stated only relative to the parser.
- The `regexp` engine is replaced by a direct matcher for the one constant pattern. Its compile-error branch (`e != nil`) cannot occur for that pattern and is not modelled.
- gin routing (`setupRoutes`), static swagger serving, logging and `main` are not modelled. The 307 response's HTML body is reduced to the redirect target.
- JSON binding in the handlers is a `Bind` value: bound, or failed with a message. encoding/json's case-insensitive key matching, RFC 3339 timestamp text and its error texts are not modelled.
- `time.Now()` and `primitive.NewObjectID()` are parameters (`createdAt`/`updatedAt`/`now`, `newId`). Id uniqueness is not assumed, because nothing in the source relies on it.
- `Entity.Shortlink.accessCount` is an unbounded integer; the 64-bit overflow of Go's `int` is not modelled.
- main_test.go's harness is not modelled; its assertions appear only as the properties above.
