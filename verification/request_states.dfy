/**
 * The closed enumeration of request states (`stateConsts` in the controller)
 * and the integer status ids they are stored as.
 */
module RequestStates {
  import opened Options

  datatype State = Pending | Approved | Rejected | Delivered

  const PENDING: int := 0
  const APPROVED: int := 1
  const REJECTED: int := 2
  const DELIVERED: int := 3

  /** The status id a state is stored as. */
  function StatusId(st: State): (c: int)
    ensures 0 <= c <= 3
  {
    match st
    case Pending => PENDING
    case Approved => APPROVED
    case Rejected => REJECTED
    case Delivered => DELIVERED
  }

  /** The state a stored status id names; ids outside 0..3 name none. */
  function StateOf(c: int): (r: Option<State>)
    ensures r.Some? <==> 0 <= c <= 3
    ensures r.Some? ==> StatusId(r.value) == c
  {
    if c == PENDING then Some(Pending)
    else if c == APPROVED then Some(Approved)
    else if c == REJECTED then Some(Rejected)
    else if c == DELIVERED then Some(Delivered)
    else None
  }

  /** A status id the controller knows how to classify. */
  predicate IsKnown(c: int) {
    StateOf(c).Some?
  }

  /** Distinct states are stored as distinct ids, and decoding an id recovers its state. */
  lemma StatusIdRoundTrip(st: State, other: State)
    ensures StateOf(StatusId(st)) == Some(st)
    ensures StatusId(st) == StatusId(other) ==> st == other
  {
  }
}
