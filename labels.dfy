/**
 * Decoding of the integer status column of the friends table (src/lib.rs):
 * `StatusEnum` gives the relationship state, `StatusStr` the wire label.
 */
module Labels {
  import opened Api

  /** Rust's `i64`, the type of the status column. */
  type I64 = x: int | -0x8000_0000_0000_0000 <= x < 0x8000_0000_0000_0000

  /** The codes 0 to 3 are the ones with a meaning of their own. */
  predicate Known(code: I64)
  {
    0 <= code <= 3
  }

  /**
   * The state a status code stands for. Code 3 and every code without a
   * meaning of its own, negative ones included, fall back to Rejected.
   */
  function StatusEnum(code: I64): (s: FriendRequestStatus)
    ensures s == InviteSent <==> code == 0
    ensures s == InviteReceived <==> code == 1
    ensures s == Accepted <==> code == 2
    ensures s == Rejected <==> code == 3 || !Known(code)
  {
    match code
    case 0 => InviteSent
    case 1 => InviteReceived
    case 2 => Accepted
    case 3 => Rejected
    case _ => Rejected
  }

  /** The code a state is stored under: the inverse of StatusEnum on the known codes. */
  function Code(s: FriendRequestStatus): (code: I64)
    ensures Known(code)
    ensures StatusEnum(code) == s
  {
    match s
    case InviteSent => 0
    case InviteReceived => 1
    case Accepted => 2
    case Rejected => 3
  }

  /** The snake_case label of a state. */
  function Label(s: FriendRequestStatus): (r: string)
    ensures r != "unknown"
  {
    match s
    case InviteSent => "invite_sent"
    case InviteReceived => "invite_received"
    case Accepted => "accepted"
    case Rejected => "rejected"
  }

  /**
   * The wire label of a status code: the label of its state for the known
   * codes, and "unknown" exactly for all others.
   */
  function StatusStr(code: I64): (r: string)
    ensures r == "unknown" <==> !Known(code)
    ensures Known(code) ==> r == Label(StatusEnum(code))
  {
    match code
    case 0 => "invite_sent"
    case 1 => "invite_received"
    case 2 => "accepted"
    case 3 => "rejected"
    case _ => "unknown"
  }

  /** The four known codes decode to four different states. */
  lemma StatusEnumInjective(a: I64, b: I64)
    requires Known(a) && Known(b)
    requires StatusEnum(a) == StatusEnum(b)
    ensures a == b
  {
  }

  /** On the known codes Code undoes StatusEnum. */
  lemma CodeOfStatusEnum(code: I64)
    requires Known(code)
    ensures Code(StatusEnum(code)) == code
  {
  }

  /** The four labels are pairwise different. */
  lemma LabelInjective(s: FriendRequestStatus, t: FriendRequestStatus)
    requires Label(s) == Label(t)
    ensures s == t
  {
  }

  /**
   * The two decodings part ways outside 0..3: StatusEnum says Rejected while
   * StatusStr says "unknown", so only code 3 is labelled "rejected".
   */
  lemma RejectedLabelOnlyForThree(code: I64)
    ensures StatusStr(code) == "rejected" <==> code == 3
    ensures !Known(code) ==> StatusEnum(code) == Rejected && StatusStr(code) != Label(Rejected)
  {
  }
}
