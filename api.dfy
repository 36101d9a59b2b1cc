/**
 * The records exchanged between nodes and the error type of the inbound
 * endpoints (src/api/mod.rs), with the mapping of an error to its HTTP reply.
 */
module Api {
  import opened Wrappers

  /** The relationship states a friend row can be in; imported by the rest of the crate from here. */
  datatype FriendRequestStatus = InviteSent | InviteReceived | Accepted | Rejected

  /** Body of a POST to a peer's fetch-messages endpoint. */
  datatype FetchMessageInput = FetchMessageInput(username: string, address: string)

  /** One mail item as it travels between nodes. */
  datatype Message = Message(sender: string, subject: string, body: string)

  /** Reply of the fetch-messages endpoint. */
  datatype FetchMessageResponse = FetchMessageResponse(messages: seq<Message>)

  /** Body of a POST to a peer's friend-request endpoint. */
  datatype FriendInput = FriendInput(username: string, hostname: string, reqType: FriendRequestStatus)

  /** The errors an inbound endpoint may answer with; each carries a human-readable message. */
  datatype ApiError =
    | InvalidInput(msg: string)
    | NotFound(msg: string)
    | InternalServerError(msg: string)

  /** The JSON values an error reply is made of. */
  datatype Json = JString(str: string) | JObject(members: map<string, Json>)

  /** An HTTP reply: a status code and a JSON body. */
  datatype Response = Response(status: int, body: Json)

  const BadRequest: int := 400
  const NotFoundCode: int := 404
  const InternalError: int := 500

  /** The JSON object `{"error": msg}`. */
  function ErrorBody(msg: string): Json
  {
    JObject(map["error" := JString(msg)])
  }

  /**
   * An error becomes a reply whose status tells the three kinds apart and
   * whose body carries the error's message, unchanged, under the single key "error".
   */
  function IntoResponse(e: ApiError): (r: Response)
    ensures e.InvalidInput? <==> r.status == BadRequest
    ensures e.NotFound? <==> r.status == NotFoundCode
    ensures e.InternalServerError? <==> r.status == InternalError
    ensures r.body.JObject? && r.body.members.Keys == {"error"}
    ensures r.body.members["error"] == JString(e.msg)
  {
    match e
    case InvalidInput(msg) => Response(BadRequest, ErrorBody(msg))
    case NotFound(msg) => Response(NotFoundCode, ErrorBody(msg))
    case InternalServerError(msg) => Response(InternalError, ErrorBody(msg))
  }

  /**
   * Reads an error back from a reply, as a client of the endpoint would:
   * the status picks the kind, the "error" member the message.
   */
  function FromResponse(r: Response): (e: Option<ApiError>)
    ensures e.Some? ==> IntoResponse(e.value) == r
  {
    if r.body.JObject? && r.body.members.Keys == {"error"} && r.body.members["error"].JString? then
      var msg := r.body.members["error"].str;
      assert r.body == ErrorBody(msg);
      if r.status == BadRequest then Some(InvalidInput(msg))
      else if r.status == NotFoundCode then Some(NotFound(msg))
      else if r.status == InternalError then Some(InternalServerError(msg))
      else None
    else None
  }

  /** No information is lost by turning an error into a reply. */
  lemma FromIntoResponse(e: ApiError)
    ensures FromResponse(IntoResponse(e)) == Some(e)
  {
  }

  /** Two errors give the same reply only when they are the same error. */
  lemma IntoResponseInjective(a: ApiError, b: ApiError)
    requires IntoResponse(a) == IntoResponse(b)
    ensures a == b
  {
  }
}
