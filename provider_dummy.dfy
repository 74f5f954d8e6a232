/**
 * time/provider-dummy.c: the stateless time provider used when timed is not
 * available. It answers with constants; the lemmas compare it with the timed
 * provider.
 */
module ProviderDummy {
  import opened CTypes
  import opened TimeUpdate
  import ProviderTimed

  /** time_provider_init: initialisation never fails. */
  function Init(): (r: int)
    ensures r == 0
  {
    0
  }

  /** time_provider_status: always idle, never attempted. */
  function Status(): (r: (UpdateState, UpdateResult))
    ensures r == (Idle, NotAttempted)
  {
    (Idle, NotAttempted)
  }

  /** time_provider_control: every opcode is accepted and ignored. */
  function Control(op: int): (r: u8)
    ensures r == 0
  {
    0
  }

  /** The dummy reports what the timed provider reports before anything has happened. */
  lemma StatusIsTimedInitial()
    ensures Status() == (ProviderTimed.Initial.state, ProviderTimed.Initial.result)
  {
  }

  /** The dummy's answers agree with the timed provider's on every run of control writes with
      unrecognised opcodes: the same 0 reply and the same status. */
  lemma AgreesWithTimedOnOtherOpcodes(events: seq<ProviderTimed.Event>, op: int)
    requires forall k :: 0 <= k < |events| ==> events[k].ControlPoint?
    requires forall k :: 0 <= k < |events| ==>
      events[k].op != GET_REFERENCE_UPDATE && events[k].op != CANCEL_REFERENCE_UPDATE
    ensures var s := ProviderTimed.Run(ProviderTimed.Initial, events);
      Status() == (s.state, s.result) && Control(op) == 0
  {
    ProviderTimed.OtherOpcodesRun(ProviderTimed.Initial, events);
  }

  /** Unlike the dummy, the timed provider reacts to a Get: its status leaves Not Attempted. */
  lemma TimedDiffersAfterGet()
    ensures ProviderTimed.ControlEffect(ProviderTimed.Initial, GET_REFERENCE_UPDATE).result
         != Status().1
  {
  }
}
