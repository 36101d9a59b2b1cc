# mankeli-chat node core, modelled in Dafny

mankeli-chat is a peer-to-peer mail node. Each node keeps its identity, its
friends, an outgoing mail queue and an inbox in a local SQLite database.
Two background pollers reconcile that state with other nodes over HTTP.
One poller pulls mail from every accepted friend. The other pushes every
friend row whose status has not yet been delivered.

This project models the logic of that core:

- `labels.dfy` (module `Labels`): decoding of the integer status column
  into a relationship state (`status_enum`) and into a wire label
  (`status_str`).
- `api.dfy` (module `Api`): the records exchanged between nodes, the
  endpoint error type `ApiError`, and its mapping to an HTTP status with a
  `{"error": msg}` JSON body.
- `db.dfy` (module `Db`): the store. The four tables `user`, `friends`,
  `outgoing` and `inbox` are sequences of rows, each with an auto-increment
  id counter. Selects are pure functions of the table they read. Inserts,
  updates and deletes are methods of the `Store` class. Each method's
  postcondition gives the whole new state, in terms of a pure function of
  the old tables. The invariant `Store.Valid` says that ids are unique and
  below their counter, and that usernames are unique in `user` and in
  `friends`. Every method preserves it.
- `comms.dfy` (module `Comms`): the single-peer steps of the two pollers.
  Each step takes the peer's answer as an input, `NetworkError | Status(code,
  body)`. It also returns the request it built, so the contract can say
  what is sent.
- `scenarios.dfy` (module `Scenarios`): scenarios modelled on the
  repository's tests, written as client code. Each one uses only the
  contracts above.
- `wrappers.dfy` (module `Wrappers`): `Option` and `Result`.

## Model

| member | source | states |
|---|---|---|
| `Labels.StatusEnum` | src/lib.rs:12-20 | each of codes 0, 1, 2 decodes to InviteSent, InviteReceived, Accepted respectively, and only that code does; Rejected is the state of code 3 and of every code outside 0..3, negative codes included |
| `Labels.Code` | src/lib.rs:13-17 | the code of a state lies in 0..3 and decodes back to that state |
| `Labels.CodeOfStatusEnum` | src/lib.rs:13-17 | on the codes 0..3 the code of the decoded state is the code itself |
| `Labels.StatusEnumInjective` | src/lib.rs:13-17 | two codes in 0..3 that decode to the same state are equal |
| `Labels.Label` | src/lib.rs:24-27 | the label of a state is never "unknown" |
| `Labels.LabelInjective` | src/lib.rs:24-27 | different states have different labels |
| `Labels.StatusStr` | src/lib.rs:22-30 | the wire label is "unknown" exactly for codes outside 0..3; for codes 0..3 it is the label of the decoded state |
| `Labels.RejectedLabelOnlyForThree` | src/lib.rs:17-28 | `status_str` gives "rejected" iff the code is 3; outside 0..3 the two decodings part ways (Rejected against "unknown") |
| `Api.IntoResponse` | src/api/mod.rs:32-47 | InvalidInput, NotFound and InternalServerError become 400, 404 and 500, and each of those statuses comes from that variant only; the body is a JSON object with the single key "error" holding the message unchanged |
| `Api.FromResponse` | src/api/mod.rs:34-44 | an error read back from a reply maps to that same reply |
| `Api.FromIntoResponse` | src/api/mod.rs:34-44 | reading a reply back gives the original error: the mapping loses nothing |
| `Api.IntoResponseInjective` | src/api/mod.rs:34-44 | two errors with the same reply are the same error |
| `Db.Filter` | src/db/mod.rs:171-175 | a WHERE clause returns exactly the rows that satisfy it, each as many times as it occurs in the table (the multiset of the table restricted to the clause); when every row satisfies it, the whole table |
| `Db.FilterAppend` | src/db/mod.rs:169-179 | selecting from a table that grew by an append gives the old selection followed by the selection from the new rows |
| `Db.RetrUser` | src/db/mod.rs:80-85 | succeeds iff the user table is non-empty, with its first row; otherwise RowNotFound |
| `Db.FetchUsers` | src/db/mod.rs:87-95 | every friends row, in table order |
| `Db.FetchInbox` | src/db/mod.rs:97-105 | every inbox row, in table order |
| `Db.FetchOutgoing` | src/db/mod.rs:107-115 | every outgoing row, in table order |
| `Db.FetchMessagesForUser` | src/db/mod.rs:165-182 | exactly the outgoing rows whose recipient is the given user, whatever their sent flag, each as often as in the table |
| `Db.FetchActiveFriends` | src/db/mod.rs:185-200 | exactly the friends whose status decodes to Accepted, each as often as in the table |
| `Db.UnsentFriends` | src/db/mod.rs:209-220 | exactly the friends whose sent flag is false, each as often as in the table |
| `Db.FetchUnsentFriendUpdt` | src/db/mod.rs:204-223 | fails with RowNotFound iff there is no user row; otherwise the first user's username together with exactly the unsent friends, each as often as in the table |
| `Db.FriendAddress` | src/db/mod.rs:120-124 | succeeds iff some friend has the username, with the address of such a friend; otherwise RowNotFound |
| `Db.FriendAddressOfUnique` | src/db/mod.rs:120-124 | with unique usernames, the address found is the address of the one friend of that name |
| `Db.SetupUsers` | src/db/mod.rs:59-78 | after `setup_db` the username is present and the old rows are kept; when a row already has that username the table is unchanged, otherwise exactly one row is appended, with the next id and the given username and address |
| `Db.CountNamedOfDistinct` | src/db/mod.rs:59-78 | with unique usernames, at most one row of table `user` carries any username |
| `Db.SetupDbTwice` | src/db/mod.rs:59-78 | on a table with unique usernames, as the store keeps it, a second `setup_db` with the same user changes nothing, and exactly one row carries that username |
| `Db.QueuedRow` | src/db/mod.rs:117-138 | fails with RowNotFound iff there is no user row or no friend named `send_to`; otherwise the row has the next id, the stored user as sender, `send_to` as recipient, a friend's current address, the subject, the content as body, and sent false |
| `Db.QueuedRowAddress` | src/db/mod.rs:120-130 | with unique usernames, the queued row snapshots the address of that very friend |
| `Db.InvitedRow` | src/db/mod.rs:140-149 | fails with a UNIQUE violation iff a friend with that username exists; otherwise the row has the next id, the given username and address, and the schema defaults for status and sent |
| `Db.InviteKeepsNamesDistinct` | src/db/mod.rs:140-149 | appending the invited row keeps friend usernames unique |
| `Db.DeleteInboxRow` | src/db/mod.rs:151-156 | exactly the rows with another id remain, each as often as before; when no row has the id, the table is unchanged |
| `Db.DeleteFriendRow` | src/db/mod.rs:158-163 | exactly the rows with another id remain, each as often as before; when no row has the id, the table is unchanged |
| `Db.FilterKeepsDistinct` | src/db/mod.rs:151-163 | a delete keeps ids and usernames unique |
| `Db.MarkSent` | src/db/mod.rs:229-234 | same number of rows; the rows of that username get sent = true and every other row is left as it was |
| `Db.MarkSentLeavesUnsent` | src/comms/mod.rs:143-147 | after marking, the next unsent select no longer returns that friend, and still returns every other unsent friend |
| `Db.InboxRows` | src/db/mod.rs:225-227 | one inbox row per received message, in order, numbered from the next id, carrying sender, subject and body |
| `Db.QueuedIsFetchable` | src/api/tests.rs:27-41 | after a row is queued, the recipient's select returns what it returned before followed by that row |
| `Db.Store.SetupDb` | src/db/mod.rs:59-78 | always Ok; the user table becomes `SetupUsers` of the old one, and the user counter advances iff a row was added; all else unchanged |
| `Db.Store.SendMessageToQue` | src/db/mod.rs:117-138 | on success one outgoing row (`QueuedRow`) is appended and that counter advances; on failure the error of the failed lookup is returned and the store is unchanged |
| `Db.Store.SendInvite` | src/db/mod.rs:140-149 | on success one friend row (`InvitedRow`) is appended; on a duplicate username the UNIQUE violation is returned and the store is unchanged |
| `Db.Store.DeleteMessage` | src/db/mod.rs:151-156 | always Ok; only the inbox changes, to `DeleteInboxRow` |
| `Db.Store.DeleteUser` | src/db/mod.rs:158-163 | always Ok; only the friends table changes, to `DeleteFriendRow` |
| `Db.Store.UpdateFriendStatusAsSent` | src/db/mod.rs:229-234 | always Ok; only the friends table changes, to `MarkSent` |
| `Db.Store.BatchIngest` | src/db/mod.rs:225-227 | always Ok; the inbox gains `InboxRows` of the batch at its end and the inbox counter advances by the batch size |
| `Comms.TargetUrl` | src/comms/mod.rs:134 | the URL is "http://", then the peer's address, then the endpoint path |
| `Comms.TargetUrlInjective` | src/comms/mod.rs:134 | different addresses give different URLs for the same endpoint |
| `Comms.FetchMessagesRequest` | src/comms/mod.rs:32-37 | the pull goes to the friend's "/fetch_messages" and carries our own username and address |
| `Comms.FriendRequestFor` | src/comms/mod.rs:128-134 | the push goes to the friend's "/friend_request" and carries the friend's username, our username as hostname, and the decoded status of the row |
| `Comms.RequestsTargetDifferentEndpoints` | src/comms/mod.rs:32-134 | the pull and the push for one friend go to different URLs |
| `Comms.ProcessFriendMessages` | src/comms/mod.rs:25-62 | sends `FetchMessagesRequest`; no reply, a non-2xx status or an unreadable body give that error and leave the store unchanged; otherwise Ok, with the received messages appended to the inbox in order, and nothing changed when the list is empty |
| `Comms.SendFriendRequest` | src/comms/mod.rs:122-151 | sends `FriendRequestFor`; Ok iff the reply has a 2xx status, and then only the friend's rows are marked sent; no reply or another status give that error and leave the store, and the sent flag, unchanged |
| `Comms.PushThenSelect` | src/comms/mod.rs:153-187 | one push followed by the next round's select: Ok iff the reply is 2xx, and then only that friend's rows are marked sent, otherwise the store is unchanged; the next round selects `UnsentFriends` of the new table, which after a success no longer holds the friend and after a failure still does |

## Left out

- The outer poller loops `message_fetcher` and `friend_fetcher`
  (src/comms/mod.rs:64-120, 153-192). They run forever, sleep on the
  wall clock and fan out concurrently. Only the single-peer step that each
  one runs is modelled. `Comms.PushThenSelect` shows two rounds for one
  friend.
- The interactive console, src/main.rs. It is terminal input and output.
- HTTP and JSON transport: reqwest, axum and serde. The peer's answer is an
  input to each step. An unreadable body is `Status(code, None)`.
- The text of the steps' error strings ("Request error: …", "Non-200
  response: …") is not modelled. `Comms.SyncError` records only the kind
  of failure, plus the transport's detail or the status code.
- Store I/O failures (disk, locking, a broken connection). Each write here
  fails only for a logical reason: a missing row or a UNIQUE violation.
  Therefore the steps' "DB error" branches cannot arise in the model.
- `batch_ingest` and `update_friend_status_as_sent` are `todo!()` in the
  source. They are modelled by the behaviour their callers rely on: an
  inbox append (`Db.Store.BatchIngest`), and setting `sent` on that
  username's rows (`Db.Store.UpdateFriendStatusAsSent`).
- `fetch_messages_handler` (src/api/mod.rs) is `todo!()` and is not
  modelled. No code marks mail as delivered when it is fetched.
- src/api/mod.rs has no handler for inbound friend requests, so no
  transition between friend states is modelled.
- `setup_db` skips the insert only for a username already present. A
  second call under another username adds a second `user` row, and
  `retr_user` keeps returning the first. The model does the same; it does
  not make the identity a single row.
- The delivered flag of both `outgoing` and `friends` is the column `sent`.
- `batch_ingest` is declared over `Vec<db::Message>`, the
  send_to/subject/content record (src/db/mod.rs:48-52, 225). Its only
  caller passes `Vec<api::Message>`, the sender/subject/body record
  (src/comms/mod.rs:56). `Db.Store.BatchIngest` takes the caller's type,
  so each inbox row gets the message's sender, subject and body.
- The timestamp columns `added_at`, `queued_at` and `received_at`. The
  database fills them in.
- The defaults of `friends.status` and `friends.sent` come from migrations
  that are not part of this model. They are the `Store` constructor's
  parameters `defaultStatus` and `defaultSent`. The outgoing `sent` default
  is false, as in src/db/tests.rs:64.
- The nullable column `outgoing.sent` (`Option<bool>` in Rust) is a plain
  bool. Every row the core writes gets the default.
- The Rust `Friend` struct has no `sent` field. The model's friend row keeps
  the column, and the selects return whole rows.
- Ids are unbounded integers. SQLite's 64-bit rowid limit is not modelled.
- Id reuse: the inbox schema in view (src/db/tests.rs:10) declares
  `id INTEGER PRIMARY KEY` without AUTOINCREMENT, so SQLite may hand out
  again the id of a deleted last row. The model's counters never reuse an
  id.
- The SQL selects have no ORDER BY. The model chooses insertion order for
  their results; the multiset of rows returned does not depend on that
  choice.
