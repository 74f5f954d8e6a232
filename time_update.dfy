/**
 * The Reference Time Update vocabulary shared by time/server.c and the two
 * time providers: the Time Update State pair and the control-point opcodes.
 * time/server.h, which defines them in the repository, is not part of this
 * model; the byte values follow section 3 of the Bluetooth Reference Time
 * Update Service specification.
 */
module TimeUpdate {
  import opened CTypes
  import opened Wrappers

  /** UPDATE_STATE_*: the Current State field of Time Update State. */
  datatype UpdateState = Idle | Pending

  /** UPDATE_RESULT_*: the Result field of Time Update State. */
  datatype UpdateResult = Successful | Canceled | NoConn | Error | Timeout | NotAttempted

  /** GET_REFERENCE_UPDATE and CANCEL_REFERENCE_UPDATE, the Time Update Control Point opcodes. */
  const GET_REFERENCE_UPDATE: int := 1
  const CANCEL_REFERENCE_UPDATE: int := 2

  function StateCode(s: UpdateState): u8
  {
    match s
    case Idle => 0
    case Pending => 1
  }

  function ResultCode(r: UpdateResult): u8
  {
    match r
    case Successful => 0
    case Canceled => 1
    case NoConn => 2
    case Error => 3
    case Timeout => 4
    case NotAttempted => 5
  }

  /** How a client reads the two status bytes back. */
  function DecodeState(b: u8): Option<UpdateState>
  {
    if b == 0 then Some(Idle) else if b == 1 then Some(Pending) else None
  }

  function DecodeResult(b: u8): Option<UpdateResult>
  {
    match b
    case 0 => Some(Successful)
    case 1 => Some(Canceled)
    case 2 => Some(NoConn)
    case 3 => Some(Error)
    case 4 => Some(Timeout)
    case 5 => Some(NotAttempted)
    case _ => None
  }

  /** The codes are distinct: each state and result is recovered from its byte. */
  lemma CodesRoundTrip(s: UpdateState, r: UpdateResult)
    ensures DecodeState(StateCode(s)) == Some(s)
    ensures DecodeResult(ResultCode(r)) == Some(r)
  {
  }
}
