/**
 * The repository's own test scenarios, replayed against the model's
 * contracts: what a caller can conclude from them alone.
 */
module Scenarios {
  import opened Wrappers
  import Api
  import Db
  import Comms
  import Labels

  /**
   * A user "testuser" queues a message for friend "user3"; selecting the
   * outgoing rows for "user3" then returns that one message, sent by
   * "testuser", with its subject and body.
   */
  method QueueThenFetch(defaultStatus: Labels.I64, defaultSent: bool)
  {
    var store := new Db.Store(defaultStatus, defaultSent);
    var _ := store.SetupDb(Db.User(0, "testuser", "127.0.0.1"));
    var invited := store.SendInvite(Db.FriendRequest("user3", "3.3.3.3"));
    assert invited.Ok?;
    var f := store.friends[0];
    assert f in store.friends && f.username == "user3";
    var queued := store.SendMessageToQue(Db.Message("user3", "test message", "Hello world!"));
    assert queued.Ok?;
    Db.QueuedIsFetchable([], store.outgoing[0], "user3");
    assert [] + [store.outgoing[0]] == store.outgoing;
    var fetched := Db.FetchMessagesForUser(store.outgoing, "user3");
    assert |fetched| == 1;
    assert fetched[0].sender == "testuser";
    assert fetched[0].subject == "test message" && fetched[0].body == "Hello world!";
    assert fetched[0].recipientAddress == "3.3.3.3" && !fetched[0].sent;
  }

  /** Queuing mail for someone who is not a friend fails and queues nothing. */
  method QueueForStranger(defaultStatus: Labels.I64, defaultSent: bool)
  {
    var store := new Db.Store(defaultStatus, defaultSent);
    var _ := store.SetupDb(Db.User(0, "testuser", "127.0.0.1"));
    var queued := store.SendMessageToQue(Db.Message("nobody", "s", "b"));
    assert queued == Err(Db.RowNotFound);
    assert store.outgoing == [];
  }

  /** A second invitation of the same username is refused and leaves one row. */
  method InviteTwice(defaultStatus: Labels.I64, defaultSent: bool)
  {
    var store := new Db.Store(defaultStatus, defaultSent);
    var first := store.SendInvite(Db.FriendRequest("alice", "alice@example.com"));
    var second := store.SendInvite(Db.FriendRequest("alice", "elsewhere"));
    assert first.Ok?;
    assert store.friends[0].username == "alice";
    assert second == Err(Db.UniqueViolation("friends.username"));
    assert |store.friends| == 1 && store.friends[0].address == "alice@example.com";
  }

  /** A 200 reply with one message ends the pull with Ok and puts the message in the inbox. */
  method PullOneMessage(store: Db.Store, friend: Db.Friend)
    requires store.Valid() && store.inbox == []
    modifies store
  {
    var reply := Api.FetchMessageResponse([Api.Message("alice", "hi", "hello")]);
    var sent, r := Comms.ProcessFriendMessages(store, "bob", "1.2.3.4", friend, Comms.Status(200, Some(reply)));
    assert r.Ok?;
    assert sent.body == Api.FetchMessageInput("bob", "1.2.3.4");
    assert |store.inbox| == 1 && store.inbox[0].sender == "alice" && store.inbox[0].message == "hello";
  }

  /** Pushing a row whose status code is 1 sends InviteReceived; a 200 reply marks the row sent. */
  method PushInviteReceived(store: Db.Store)
    requires store.Valid()
    modifies store
  {
    var carol := Db.Friend(2, "carol", "mock", 1, false);
    var sent, r := Comms.SendFriendRequest(store, "bob", carol, Comms.Status(200, ()));
    assert r.Ok?;
    assert sent.body == Api.FriendInput("carol", "bob", Api.InviteReceived);
  }
}
