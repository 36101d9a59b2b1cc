/**
 * The per-peer steps of the two background pollers (src/comms/mod.rs):
 * pulling a friend's mail, and pushing a friend row's status to that peer.
 * The network is not modelled; what the peer answered is an input.
 */
module Comms {
  import opened Wrappers
  import Api
  import Db
  import Labels

  /** What the transport reports for one POST: no reply at all, or a status code and a body. */
  datatype Transport<B> = NetworkError(detail: string) | Status(code: int, body: B)

  /** A POST of a JSON body to a URL. */
  datatype Request<B> = Post(url: string, body: B)

  /**
   * Why a step gave up. Each kind stands for one of the source's error
   * strings: "Request error"/"Network error" for no reply, "Bad status"/
   * "Non-200 response" for a non-2xx status, "Parse error" for a body that
   * is not a FetchMessageResponse.
   */
  datatype SyncError = NoReply(detail: string) | BadStatus(code: int) | ParseError

  /** reqwest's `StatusCode::is_success`: the 2xx range. */
  predicate IsSuccess(code: int)
  {
    200 <= code < 300
  }

  const FetchMessagesPath: string := "/fetch_messages"
  const FriendRequestPath: string := "/friend_request"

  /** `format!("http://{}{path}", address)`. */
  function TargetUrl(address: string, path: string): (url: string)
    ensures |url| == 7 + |address| + |path|
    ensures url[..7] == "http://"
    ensures url[7..7 + |address|] == address
    ensures url[7 + |address|..] == path
  {
    "http://" + address + path
  }

  /** Different peers are reached at different URLs for the same endpoint. */
  lemma TargetUrlInjective(a: string, b: string, path: string)
    requires TargetUrl(a, path) == TargetUrl(b, path)
    ensures a == b
  {
  }

  /** The pull that `process_friend_messages` sends: our own identity, to the friend's fetch endpoint. */
  function FetchMessagesRequest(ourUsername: string, ourAddress: string, friend: Db.Friend): (req: Request<Api.FetchMessageInput>)
    ensures req.url == TargetUrl(friend.address, FetchMessagesPath)
    ensures req.body.username == ourUsername && req.body.address == ourAddress
  {
    Post(TargetUrl(friend.address, FetchMessagesPath), Api.FetchMessageInput(ourUsername, ourAddress))
  }

  /**
   * The push that `send_friend_request` sends: the friend's username, our
   * username as hostname, and the row's status decoded to a state.
   */
  function FriendRequestFor(ourUsername: string, friend: Db.Friend): (req: Request<Api.FriendInput>)
    ensures req.url == TargetUrl(friend.address, FriendRequestPath)
    ensures req.body.username == friend.username && req.body.hostname == ourUsername
    ensures req.body.reqType == Labels.StatusEnum(friend.status)
  {
    Post(TargetUrl(friend.address, FriendRequestPath),
         Api.FriendInput(friend.username, ourUsername, Labels.StatusEnum(friend.status)))
  }

  /** The two steps address two different endpoints of the same peer. */
  lemma RequestsTargetDifferentEndpoints(ourUsername: string, ourAddress: string, friend: Db.Friend)
    ensures FetchMessagesRequest(ourUsername, ourAddress, friend).url != FriendRequestFor(ourUsername, friend).url
  {
  }

  /**
   * `process_friend_messages`: pull the friend's mail. No reply, a non-2xx
   * status or an unreadable body end the step with an error and leave the
   * store as it was; otherwise the messages received, in order, are
   * appended to the inbox (an empty list changes nothing).
   */
  method ProcessFriendMessages(
    store: Db.Store, ourUsername: string, ourAddress: string, friend: Db.Friend,
    transport: Transport<Option<Api.FetchMessageResponse>>)
    returns (sent: Request<Api.FetchMessageInput>, r: Result<(), SyncError>)
    requires store.Valid()
    modifies store
    ensures store.Valid()
    ensures sent == FetchMessagesRequest(ourUsername, ourAddress, friend)
    ensures transport.NetworkError? ==> r == Err(NoReply(transport.detail))
    ensures transport.Status? && !IsSuccess(transport.code) ==> r == Err(BadStatus(transport.code))
    ensures transport.Status? && IsSuccess(transport.code) && transport.body.None? ==> r == Err(ParseError)
    ensures r.Ok? <==> transport.Status? && IsSuccess(transport.code) && transport.body.Some?
    ensures r.Err? ==> store.State() == old(store.State())
    ensures r.Ok? ==>
      var received := transport.body.value.messages;
      && (received == [] ==> store.State() == old(store.State()))
      && store.State() == old(store.State()).(
        inbox := old(store.inbox) + Db.InboxRows(received, old(store.nextInboxId)),
        nextInboxId := old(store.nextInboxId) + |received|)
  {
    sent := FetchMessagesRequest(ourUsername, ourAddress, friend);
    match transport {
      case NetworkError(detail) =>
        return sent, Err(NoReply(detail));
      case Status(code, body) =>
        if !IsSuccess(code) {
          return sent, Err(BadStatus(code));
        }
        if body.None? {
          return sent, Err(ParseError);
        }
        var received := body.value.messages;
        if received != [] {
          var _ := store.BatchIngest(received);
        } else {
          assert Db.InboxRows(received, store.nextInboxId) == [];
          assert store.inbox + [] == store.inbox;
        }
        r := Ok(());
    }
  }

  /**
   * `send_friend_request`: push the friend row's status to that peer. Only
   * a 2xx reply marks the row as sent; no reply or any other status leaves
   * the store, and so the row's unsent flag, as it was.
   */
  method SendFriendRequest(store: Db.Store, ourUsername: string, friend: Db.Friend, transport: Transport<()>)
    returns (sent: Request<Api.FriendInput>, r: Result<(), SyncError>)
    requires store.Valid()
    modifies store
    ensures store.Valid()
    ensures sent == FriendRequestFor(ourUsername, friend)
    ensures transport.NetworkError? ==> r == Err(NoReply(transport.detail))
    ensures transport.Status? && !IsSuccess(transport.code) ==> r == Err(BadStatus(transport.code))
    ensures r.Ok? <==> transport.Status? && IsSuccess(transport.code)
    ensures r.Err? ==> store.State() == old(store.State())
    ensures r.Ok? ==> store.State() == old(store.State()).(friends := Db.MarkSent(old(store.friends), friend.username))
  {
    sent := FriendRequestFor(ourUsername, friend);
    match transport {
      case NetworkError(detail) =>
        return sent, Err(NoReply(detail));
      case Status(code, _) =>
        if IsSuccess(code) {
          var _ := store.UpdateFriendStatusAsSent(friend.username);
          r := Ok(());
        } else {
          r := Err(BadStatus(code));
        }
    }
  }

  /**
   * A successful push takes the friend out of the next round's unsent
   * selection, so the poller does not push it again; a failed push keeps it in.
   */
  method PushThenSelect(store: Db.Store, ourUsername: string, friend: Db.Friend, transport: Transport<()>)
    returns (r: Result<(), SyncError>, next: seq<Db.Friend>)
    requires store.Valid()
    requires friend in store.friends && !friend.sent
    modifies store
    ensures store.Valid()
    ensures r.Ok? <==> transport.Status? && IsSuccess(transport.code)
    ensures r.Err? ==> store.State() == old(store.State())
    ensures r.Ok? ==> store.State() == old(store.State()).(friends := Db.MarkSent(old(store.friends), friend.username))
    ensures next == Db.UnsentFriends(store.friends)
    ensures r.Ok? ==> forall f :: f in next ==> f.username != friend.username
    ensures r.Err? ==> friend in next
  {
    var _, res := SendFriendRequest(store, ourUsername, friend, transport);
    r := res;
    if r.Ok? {
      Db.MarkSentLeavesUnsent(old(store.friends), friend.username);
    }
    next := Db.UnsentFriends(store.friends);
  }
}
