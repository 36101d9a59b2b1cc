/**
 * The node's local store (src/db/mod.rs): four tables held as sequences of
 * rows, each with its own auto-increment id counter. Selects are pure
 * functions of the table they read; inserts, updates and deletes are
 * methods of the Store class, each tied to a pure function of the old tables.
 */
module Db {
  import opened Wrappers
  import Api
  import opened Labels

  /** The store's logical failures: a row that `fetch_one` needs is missing, or an insert breaks a UNIQUE column. */
  datatype DbError = RowNotFound | UniqueViolation(column: string)

  type DbResult<T> = Result<T, DbError>

  /** A row of table `user`: the node's own identity. */
  datatype User = User(id: int, username: string, address: string)

  /** A row of table `friends`; `sent` says whether the row's status has been pushed to that peer. */
  datatype Friend = Friend(id: int, username: string, address: string, status: I64, sent: bool)

  /** A row of table `inbox`. */
  datatype InboxMessage = InboxMessage(id: int, sender: string, subject: string, message: string)

  /** A row of table `outgoing`; `recipientAddress` is the friend's address when the row was queued. */
  datatype Outgoing = Outgoing(
    id: int, sender: string, recipient: string, recipientAddress: string,
    subject: string, body: string, sent: bool)

  /** A mail item the local user asks to send. */
  datatype Message = Message(sendTo: string, subject: string, content: string)

  /** A local invitation: whom to add, and where that node is reached. */
  datatype FriendRequest = FriendRequest(username: string, address: string)

  function UserId(u: User): int { u.id }
  function UserName(u: User): string { u.username }
  function FriendId(f: Friend): int { f.id }
  function FriendName(f: Friend): string { f.username }
  function OutgoingId(m: Outgoing): int { m.id }
  function InboxId(m: InboxMessage): int { m.id }

  // ---------------------------------------------------------------------------
  // Table helpers

  /** The rows a `WHERE` clause selects, in table order. */
  function Filter<T(!new)>(rows: seq<T>, keep: T -> bool): (r: seq<T>)
    ensures |r| <= |rows|
    ensures forall x :: x in r <==> x in rows && keep(x)
    ensures forall x :: multiset(r)[x] == if keep(x) then multiset(rows)[x] else 0
    ensures (forall x :: x in rows ==> keep(x)) ==> r == rows
  {
    if rows == [] then []
    else
      assert rows == [rows[0]] + rows[1..];
      if keep(rows[0]) then [rows[0]] + Filter(rows[1..], keep)
      else Filter(rows[1..], keep)
  }

  /** Selecting from a table that grew by appending selects from each part. */
  lemma {:induction false} FilterAppend<T(!new)>(a: seq<T>, b: seq<T>, keep: T -> bool)
    ensures Filter(a + b, keep) == Filter(a, keep) + Filter(b, keep)
  {
    if a == [] {
      assert a + b == b;
    } else {
      assert (a + b)[0] == a[0];
      assert (a + b)[1..] == a[1..] + b;
      FilterAppend(a[1..], b, keep);
    }
  }

  /** No two rows of the table agree on `key`. */
  ghost predicate Distinct<T, K>(rows: seq<T>, key: T -> K)
  {
    forall i, j :: 0 <= i < |rows| && 0 <= j < |rows| && i != j ==> key(rows[i]) != key(rows[j])
  }

  /** Every id in the table was handed out by the counter, which starts at 1. */
  ghost predicate IdsBelow<T>(rows: seq<T>, id: T -> int, next: int)
  {
    1 <= next && forall x :: x in rows ==> 1 <= id(x) < next
  }

  lemma {:induction false} FilterKeepsDistinct<T(!new), K>(rows: seq<T>, keep: T -> bool, key: T -> K)
    requires Distinct(rows, key)
    ensures Distinct(Filter(rows, keep), key)
  {
    if rows != [] {
      var tail := rows[1..];
      assert Distinct(tail, key) by {
        forall i, j | 0 <= i < |tail| && 0 <= j < |tail| && i != j
          ensures key(tail[i]) != key(tail[j])
        {
          assert tail[i] == rows[i + 1] && tail[j] == rows[j + 1];
        }
      }
      FilterKeepsDistinct(tail, keep, key);
      if keep(rows[0]) {
        var rest := Filter(tail, keep);
        forall x | x in rest ensures key(x) != key(rows[0]) {
          var k :| 0 <= k < |tail| && tail[k] == x;
          assert rows[k + 1] == x;
        }
        DistinctCons(rows[0], rest, key);
      }
    }
  }

  lemma DistinctCons<T, K>(x: T, rows: seq<T>, key: T -> K)
    requires Distinct(rows, key)
    requires forall y :: y in rows ==> key(y) != key(x)
    ensures Distinct([x] + rows, key)
  {
  }

  lemma DistinctSnoc<T, K>(rows: seq<T>, x: T, key: T -> K)
    requires Distinct(rows, key)
    requires forall y :: y in rows ==> key(y) != key(x)
    ensures Distinct(rows + [x], key)
  {
  }

  // ---------------------------------------------------------------------------
  // Selects

  /** `retr_user`: the first row of table `user`; `fetch_one` fails on an empty table. */
  function RetrUser(users: seq<User>): (r: DbResult<User>)
    ensures r.Ok? <==> |users| > 0
    ensures r.Ok? ==> r.value == users[0]
    ensures r.Err? ==> r.error == RowNotFound
  {
    if |users| == 0 then Err(RowNotFound) else Ok(users[0])
  }

  /** `fetch_users`: every friend row, in table order. */
  function FetchUsers(friends: seq<Friend>): (r: seq<Friend>)
    ensures |r| == |friends| && forall i :: 0 <= i < |r| ==> r[i] == friends[i]
  {
    friends
  }

  /** `fetch_inbox`: every inbox row, in table order. */
  function FetchInbox(inbox: seq<InboxMessage>): (r: seq<InboxMessage>)
    ensures |r| == |inbox| && forall i :: 0 <= i < |r| ==> r[i] == inbox[i]
  {
    inbox
  }

  /** `fetch_outgoing`: every outgoing row, in table order. */
  function FetchOutgoing(outgoing: seq<Outgoing>): (r: seq<Outgoing>)
    ensures |r| == |outgoing| && forall i :: 0 <= i < |r| ==> r[i] == outgoing[i]
  {
    outgoing
  }

  /** `fetch_messages_for_user`: the outgoing rows addressed to `username`, delivered or not. */
  function FetchMessagesForUser(outgoing: seq<Outgoing>, username: string): (r: seq<Outgoing>)
    ensures forall m :: m in r <==> m in outgoing && m.recipient == username
    ensures forall m :: multiset(r)[m] == if m.recipient == username then multiset(outgoing)[m] else 0
  {
    Filter(outgoing, (m: Outgoing) => m.recipient == username)
  }

  /** `fetch_active_friends`: the friends whose status column holds 2, the code of Accepted. */
  function FetchActiveFriends(friends: seq<Friend>): (r: seq<Friend>)
    ensures forall f :: f in r <==> f in friends && StatusEnum(f.status) == Api.Accepted
    ensures forall f :: multiset(r)[f] == if StatusEnum(f.status) == Api.Accepted then multiset(friends)[f] else 0
  {
    Filter(friends, (f: Friend) => f.status == 2)
  }

  /** The friends whose current status has not yet been pushed to the peer. */
  function UnsentFriends(friends: seq<Friend>): (r: seq<Friend>)
    ensures forall f :: f in r <==> f in friends && !f.sent
    ensures forall f :: multiset(r)[f] == if !f.sent then multiset(friends)[f] else 0
  {
    Filter(friends, (f: Friend) => !f.sent)
  }

  /**
   * `fetch_unsent_friend_updt`: the local username together with the unsent
   * friends; fails, as `retr_user` does, when there is no user row.
   */
  function FetchUnsentFriendUpdt(users: seq<User>, friends: seq<Friend>): (r: DbResult<(string, seq<Friend>)>)
    ensures r.Ok? <==> |users| > 0
    ensures r.Err? ==> r.error == RowNotFound
    ensures r.Ok? ==> r.value.0 == users[0].username
    ensures r.Ok? ==> forall f :: f in r.value.1 <==> f in friends && !f.sent
    ensures r.Ok? ==> forall f :: multiset(r.value.1)[f] == if !f.sent then multiset(friends)[f] else 0
  {
    match RetrUser(users)
    case Err(e) => Err(e)
    case Ok(user) => Ok((user.username, UnsentFriends(friends)))
  }

  /** `SELECT address FROM friends WHERE username = ?` with `fetch_one`: the first match, or RowNotFound. */
  function FriendAddress(friends: seq<Friend>, username: string): (r: DbResult<string>)
    ensures r.Ok? <==> exists f :: f in friends && f.username == username
    ensures r.Ok? ==> exists f :: f in friends && f.username == username && f.address == r.value
    ensures r.Err? ==> r.error == RowNotFound
  {
    if friends == [] then Err(RowNotFound)
    else if friends[0].username == username then Ok(friends[0].address)
    else
      assert forall f :: f in friends && f != friends[0] ==> f in friends[1..];
      FriendAddress(friends[1..], username)
  }

  /** With usernames unique, the address found is the address of the one friend of that name. */
  lemma {:induction false} FriendAddressOfUnique(friends: seq<Friend>, f: Friend)
    requires Distinct(friends, FriendName)
    requires f in friends
    ensures FriendAddress(friends, f.username) == Ok(f.address)
  {
  }

  // ---------------------------------------------------------------------------
  // What the writes do, as functions of the old tables

  /** Some row of table `user` has this username. */
  predicate HasUser(users: seq<User>, username: string)
  {
    exists u :: u in users && u.username == username
  }

  /**
   * Table `user` after `setup_db`: the initial user is inserted, under the
   * next id (its own id is ignored), only when no row has that username yet.
   */
  function SetupUsers(users: seq<User>, nextId: int, initial: User): (r: seq<User>)
    ensures HasUser(r, initial.username)
    ensures |users| <= |r| && r[..|users|] == users
    ensures |r| == |users| + 1 <==> !HasUser(users, initial.username)
    ensures |r| == |users| + 1 ==> r[|users|] == User(nextId, initial.username, initial.address)
    ensures HasUser(users, initial.username) ==> r == users
    ensures !HasUser(users, initial.username) ==> r == users + [User(nextId, initial.username, initial.address)]
  {
    if HasUser(users, initial.username) then users
    else users + [User(nextId, initial.username, initial.address)]
  }

  /** How many rows of table `user` carry this username. */
  function CountNamed(users: seq<User>, username: string): (n: nat)
    ensures n <= |users|
  {
    if users == [] then 0
    else (if users[0].username == username then 1 else 0) + CountNamed(users[1..], username)
  }

  lemma {:induction false} CountNamedPositive(users: seq<User>, username: string)
    ensures CountNamed(users, username) > 0 <==> HasUser(users, username)
  {
    if users != [] {
      CountNamedPositive(users[1..], username);
      assert forall u :: u in users && u != users[0] ==> u in users[1..];
    }
  }

  lemma {:induction false} CountNamedSnoc(users: seq<User>, u: User, username: string)
    ensures CountNamed(users + [u], username) == CountNamed(users, username) + (if u.username == username then 1 else 0)
  {
    if users == [] {
      assert [] + [u] == [u];
    } else {
      assert (users + [u])[1..] == users[1..] + [u];
      CountNamedSnoc(users[1..], u, username);
    }
  }

  /** With usernames unique, at most one row carries any given username. */
  lemma {:induction false} CountNamedOfDistinct(users: seq<User>, username: string)
    requires Distinct(users, UserName)
    ensures CountNamed(users, username) <= 1
  {
    if users != [] {
      var tail := users[1..];
      assert Distinct(tail, UserName) by {
        forall i, j | 0 <= i < |tail| && 0 <= j < |tail| && i != j
          ensures UserName(tail[i]) != UserName(tail[j])
        {
          assert tail[i] == users[i + 1] && tail[j] == users[j + 1];
        }
      }
      CountNamedOfDistinct(tail, username);
      if users[0].username == username {
        forall u | u in tail ensures u.username != username {
          var k :| 0 <= k < |tail| && tail[k] == u;
          assert users[k + 1] == u;
        }
        CountNamedPositive(tail, username);
      }
    }
  }

  /**
   * Running `setup_db` twice with the same user is the same as running it
   * once, and leaves exactly one row with that username, given the unique
   * usernames the store's invariant keeps.
   */
  lemma SetupDbTwice(users: seq<User>, n1: int, n2: int, initial: User)
    requires Distinct(users, UserName)
    ensures SetupUsers(SetupUsers(users, n1, initial), n2, initial) == SetupUsers(users, n1, initial)
    ensures CountNamed(SetupUsers(users, n1, initial), initial.username) == 1
  {
    CountNamedOfDistinct(users, initial.username);
    CountNamedPositive(users, initial.username);
    if !HasUser(users, initial.username) {
      CountNamedSnoc(users, User(n1, initial.username, initial.address), initial.username);
    }
  }

  /**
   * The row `send_message_to_que` inserts: sender is the stored user, the
   * address is the friend's at this moment, and the row starts unsent.
   * Fails with no store change when there is no user row or no friend of
   * that name.
   */
  function QueuedRow(users: seq<User>, friends: seq<Friend>, nextId: int, m: Message): (r: DbResult<Outgoing>)
    ensures r.Ok? <==> |users| > 0 && exists f :: f in friends && f.username == m.sendTo
    ensures r.Err? ==> r.error == RowNotFound
    ensures r.Ok? ==> r.value.id == nextId && r.value.sender == users[0].username
    ensures r.Ok? ==> r.value.recipient == m.sendTo && r.value.subject == m.subject && r.value.body == m.content
    ensures r.Ok? ==> !r.value.sent
    ensures r.Ok? ==> exists f :: f in friends && f.username == m.sendTo && f.address == r.value.recipientAddress
  {
    match RetrUser(users)
    case Err(e) => Err(e)
    case Ok(sender) =>
      match FriendAddress(friends, m.sendTo)
      case Err(e) => Err(e)
      case Ok(address) => Ok(Outgoing(nextId, sender.username, m.sendTo, address, m.subject, m.content, false))
  }

  /** With usernames unique, the queued row snapshots the address of that very friend. */
  lemma QueuedRowAddress(users: seq<User>, friends: seq<Friend>, nextId: int, m: Message, f: Friend)
    requires Distinct(friends, FriendName)
    requires |users| > 0 && f in friends && f.username == m.sendTo
    ensures QueuedRow(users, friends, nextId, m).Ok?
    ensures QueuedRow(users, friends, nextId, m).value.recipientAddress == f.address
  {
  }

  /**
   * The row `send_invite` inserts, under the next id and with the schema's
   * defaults for status and sent; UNIQUE(username) refuses a second row of
   * the same name.
   */
  function InvitedRow(friends: seq<Friend>, nextId: int, req: FriendRequest, status: I64, sent: bool): (r: DbResult<Friend>)
    ensures r.Err? <==> exists f :: f in friends && f.username == req.username
    ensures r.Err? ==> r.error == UniqueViolation("friends.username")
    ensures r.Ok? ==> r.value.id == nextId && r.value.username == req.username && r.value.address == req.address
    ensures r.Ok? ==> r.value.status == status && r.value.sent == sent
  {
    if exists f :: f in friends && f.username == req.username then Err(UniqueViolation("friends.username"))
    else Ok(Friend(nextId, req.username, req.address, status, sent))
  }

  /** Inserting the invited row keeps usernames unique. */
  lemma InviteKeepsNamesDistinct(friends: seq<Friend>, nextId: int, req: FriendRequest, status: I64, sent: bool)
    requires Distinct(friends, FriendName)
    requires InvitedRow(friends, nextId, req, status, sent).Ok?
    ensures Distinct(friends + [InvitedRow(friends, nextId, req, status, sent).value], FriendName)
  {
  }

  /** Table `inbox` after `DELETE FROM inbox WHERE id = ?`. */
  function DeleteInboxRow(inbox: seq<InboxMessage>, id: int): (r: seq<InboxMessage>)
    ensures forall m :: m in r <==> m in inbox && m.id != id
    ensures forall m :: multiset(r)[m] == if m.id != id then multiset(inbox)[m] else 0
    ensures (forall m :: m in inbox ==> m.id != id) ==> r == inbox
  {
    Filter(inbox, (m: InboxMessage) => m.id != id)
  }

  /** Table `friends` after `DELETE FROM Friends WHERE id = ?`. */
  function DeleteFriendRow(friends: seq<Friend>, id: int): (r: seq<Friend>)
    ensures forall f :: f in r <==> f in friends && f.id != id
    ensures forall f :: multiset(r)[f] == if f.id != id then multiset(friends)[f] else 0
    ensures (forall f :: f in friends ==> f.id != id) ==> r == friends
  {
    Filter(friends, (f: Friend) => f.id != id)
  }

  /** Table `friends` after marking the rows of `username` as sent; every other row is left as it was. */
  function MarkSent(friends: seq<Friend>, username: string): (r: seq<Friend>)
    ensures |r| == |friends|
    ensures forall i :: 0 <= i < |r| ==>
      r[i] == if friends[i].username == username then friends[i].(sent := true) else friends[i]
  {
    if friends == [] then []
    else
      var head := if friends[0].username == username then friends[0].(sent := true) else friends[0];
      [head] + MarkSent(friends[1..], username)
  }

  /**
   * After marking a friend as sent, the next select of unsent friends no
   * longer returns that friend and still returns every other unsent one.
   */
  lemma MarkSentLeavesUnsent(friends: seq<Friend>, username: string)
    ensures forall f :: f in UnsentFriends(MarkSent(friends, username)) ==> f.username != username
    ensures forall f :: f in UnsentFriends(friends) && f.username != username ==>
      f in UnsentFriends(MarkSent(friends, username))
  {
  }

  /** Inbox rows for a batch of received messages, numbered from `firstId` in order. */
  function InboxRows(messages: seq<Api.Message>, firstId: int): (r: seq<InboxMessage>)
    ensures |r| == |messages|
    ensures forall i :: 0 <= i < |r| ==>
      r[i] == InboxMessage(firstId + i, messages[i].sender, messages[i].subject, messages[i].body)
  {
    if messages == [] then []
    else
      var head := InboxMessage(firstId, messages[0].sender, messages[0].subject, messages[0].body);
      [head] + InboxRows(messages[1..], firstId + 1)
  }

  /** A message just queued for `recipient` is among what that recipient's fetch selects, after all earlier ones. */
  lemma QueuedIsFetchable(outgoing: seq<Outgoing>, row: Outgoing, username: string)
    ensures FetchMessagesForUser(outgoing + [row], username)
      == FetchMessagesForUser(outgoing, username) + (if row.recipient == username then [row] else [])
  {
    var keep := (m: Outgoing) => m.recipient == username;
    FilterAppend(outgoing, [row], keep);
    assert Filter([row], keep) == (if row.recipient == username then [row] else []) by {
      assert [row][1..] == [];
    }
  }

  // ---------------------------------------------------------------------------
  // The store

  /** A snapshot of every table and counter, to say in one line what a write leaves alone. */
  datatype Tables = Tables(
    users: seq<User>, friends: seq<Friend>, outgoing: seq<Outgoing>, inbox: seq<InboxMessage>,
    nextUserId: int, nextFriendId: int, nextOutgoingId: int, nextInboxId: int)

  class Store {
    var users: seq<User>
    var friends: seq<Friend>
    var outgoing: seq<Outgoing>
    var inbox: seq<InboxMessage>
    var nextUserId: int
    var nextFriendId: int
    var nextOutgoingId: int
    var nextInboxId: int
    /** Column defaults of `friends.status` and `friends.sent`, set by the schema. */
    const defaultStatus: I64
    const defaultSent: bool

    /** Ids are unique and below their counter; usernames are unique in `user` and in `friends`. */
    ghost predicate Valid()
      reads this
    {
      && IdsBelow(users, UserId, nextUserId) && Distinct(users, UserId)
      && IdsBelow(friends, FriendId, nextFriendId) && Distinct(friends, FriendId)
      && IdsBelow(outgoing, OutgoingId, nextOutgoingId) && Distinct(outgoing, OutgoingId)
      && IdsBelow(inbox, InboxId, nextInboxId) && Distinct(inbox, InboxId)
      && Distinct(users, UserName)
      && Distinct(friends, FriendName)
    }

    ghost function State(): Tables
      reads this
    {
      Tables(users, friends, outgoing, inbox, nextUserId, nextFriendId, nextOutgoingId, nextInboxId)
    }

    /** A freshly migrated, empty database. */
    constructor (defaultStatus: I64, defaultSent: bool)
      ensures Valid()
      ensures State() == Tables([], [], [], [], 1, 1, 1, 1)
      ensures this.defaultStatus == defaultStatus && this.defaultSent == defaultSent
    {
      users, friends, outgoing, inbox := [], [], [], [];
      nextUserId, nextFriendId, nextOutgoingId, nextInboxId := 1, 1, 1, 1;
      this.defaultStatus := defaultStatus;
      this.defaultSent := defaultSent;
    }

    /** `setup_db`: insert the initial user unless a row with that username exists. */
    method SetupDb(initial: User) returns (r: DbResult<()>)
      requires Valid()
      modifies this
      ensures Valid() && r == Ok(())
      ensures State() == old(State()).(
        users := SetupUsers(old(users), old(nextUserId), initial),
        nextUserId := if HasUser(old(users), initial.username) then old(nextUserId) else old(nextUserId) + 1)
    {
      var found := HasUser(users, initial.username);
      if !found {
        var row := User(nextUserId, initial.username, initial.address);
        DistinctSnoc(users, row, UserId);
        DistinctSnoc(users, row, UserName);
        users := users + [row];
        nextUserId := nextUserId + 1;
      }
      r := Ok(());
    }

    /**
     * `send_message_to_que`: look up the sender and the friend's address,
     * then queue one unsent row; on a failed lookup nothing changes.
     */
    method SendMessageToQue(m: Message) returns (r: DbResult<()>)
      requires Valid()
      modifies this
      ensures Valid()
      ensures var q := QueuedRow(old(users), old(friends), old(nextOutgoingId), m);
        && r.Ok? == q.Ok?
        && (q.Ok? ==> State() == old(State()).(outgoing := old(outgoing) + [q.value], nextOutgoingId := old(nextOutgoingId) + 1))
        && (q.Err? ==> r == Err(q.error) && State() == old(State()))
    {
      var sender := RetrUser(users);
      if sender.Err? {
        return Err(sender.error);
      }
      var address := FriendAddress(friends, m.sendTo);
      if address.Err? {
        return Err(address.error);
      }
      var row := Outgoing(nextOutgoingId, sender.value.username, m.sendTo, address.value, m.subject, m.content, false);
      DistinctSnoc(outgoing, row, OutgoingId);
      outgoing := outgoing + [row];
      nextOutgoingId := nextOutgoingId + 1;
      r := Ok(());
    }

    /** `send_invite`: insert a friend row, refused when the username is already present. */
    method SendInvite(req: FriendRequest) returns (r: DbResult<()>)
      requires Valid()
      modifies this
      ensures Valid()
      ensures var q := InvitedRow(old(friends), old(nextFriendId), req, defaultStatus, defaultSent);
        && r.Ok? == q.Ok?
        && (q.Ok? ==> State() == old(State()).(friends := old(friends) + [q.value], nextFriendId := old(nextFriendId) + 1))
        && (q.Err? ==> r == Err(q.error) && State() == old(State()))
    {
      var q := InvitedRow(friends, nextFriendId, req, defaultStatus, defaultSent);
      if q.Err? {
        return Err(q.error);
      }
      InviteKeepsNamesDistinct(friends, nextFriendId, req, defaultStatus, defaultSent);
      DistinctSnoc(friends, q.value, FriendId);
      friends := friends + [q.value];
      nextFriendId := nextFriendId + 1;
      r := Ok(());
    }

    /** `delete_message`: drop the inbox rows with this id; succeeds whether or not one matched. */
    method DeleteMessage(id: int) returns (r: DbResult<()>)
      requires Valid()
      modifies this
      ensures Valid() && r == Ok(())
      ensures State() == old(State()).(inbox := DeleteInboxRow(old(inbox), id))
    {
      FilterKeepsDistinct(inbox, (m: InboxMessage) => m.id != id, InboxId);
      inbox := DeleteInboxRow(inbox, id);
      r := Ok(());
    }

    /** `delete_user`: drop the friend rows with this id; succeeds whether or not one matched. */
    method DeleteUser(id: int) returns (r: DbResult<()>)
      requires Valid()
      modifies this
      ensures Valid() && r == Ok(())
      ensures State() == old(State()).(friends := DeleteFriendRow(old(friends), id))
    {
      FilterKeepsDistinct(friends, (f: Friend) => f.id != id, FriendId);
      FilterKeepsDistinct(friends, (f: Friend) => f.id != id, FriendName);
      friends := DeleteFriendRow(friends, id);
      r := Ok(());
    }

    /** `update_friend_status_as_sent`: set `sent` on the rows of that username. */
    method UpdateFriendStatusAsSent(username: string) returns (r: DbResult<()>)
      requires Valid()
      modifies this
      ensures Valid() && r == Ok(())
      ensures State() == old(State()).(friends := MarkSent(old(friends), username))
    {
      var marked := MarkSent(friends, username);
      forall i | 0 <= i < |marked|
        ensures marked[i].id == friends[i].id && marked[i].username == friends[i].username
      {
      }
      forall f | f in marked ensures 1 <= f.id < nextFriendId {
        var k :| 0 <= k < |marked| && marked[k] == f;
        assert friends[k] in friends;
      }
      assert Distinct(marked, FriendId) && Distinct(marked, FriendName);
      friends := marked;
      r := Ok(());
    }

    /** `batch_ingest`: append one inbox row per received message, in order. */
    method BatchIngest(messages: seq<Api.Message>) returns (r: DbResult<()>)
      requires Valid()
      modifies this
      ensures Valid() && r == Ok(())
      ensures State() == old(State()).(
        inbox := old(inbox) + InboxRows(messages, old(nextInboxId)),
        nextInboxId := old(nextInboxId) + |messages|)
    {
      var rows := InboxRows(messages, nextInboxId);
      var all := inbox + rows;
      forall i, j | 0 <= i < |all| && 0 <= j < |all| && i != j ensures InboxId(all[i]) != InboxId(all[j]) {
        if i < |inbox| { assert all[i] == inbox[i] && all[i] in inbox; }
        if j < |inbox| { assert all[j] == inbox[j] && all[j] in inbox; }
      }
      inbox := all;
      nextInboxId := nextInboxId + |messages|;
      r := Ok(());
    }
  }
}
