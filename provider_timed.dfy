/**
 * time/provider-timed.c: the time provider backed by the timed daemon.
 * Its module state (source_online, update_state, update_result) is a class;
 * the effect of each entry point on that state is also given as a pure
 * function on a Snapshot, so that properties of whole runs can be proved.
 */
module ProviderTimed {
  import opened CTypes
  import opened TimeUpdate

  /** The three module variables at one moment. */
  datatype Snapshot = Snapshot(sourceOnline: bool, state: UpdateState, result: UpdateResult)

  /** The settings_changed D-Bus signal once its arguments are walked: a signature that is not
      a struct holding a boolean, or the online flag it carries. */
  datatype Settings = Malformed | Online(online: bool)

  /** The static initialisers of the module variables. */
  const Initial: Snapshot := Snapshot(false, Idle, NotAttempted)

  /** What time_provider_control(op) does to the state. */
  function ControlEffect(s: Snapshot, op: int): Snapshot
  {
    if op == GET_REFERENCE_UPDATE then
      if s.state == Pending then s
      else if !s.sourceOnline then s.(state := Idle, result := NoConn)
      else s.(state := Idle, result := Successful)
    else if op == CANCEL_REFERENCE_UPDATE then
      s.(state := Idle, result := Canceled)
    else s
  }

  /** What settings_changed(msg) does to the state. */
  function SettingsEffect(s: Snapshot, msg: Settings): Snapshot
  {
    match msg
    case Malformed => s.(state := Idle, result := Error)
    case Online(b) => Snapshot(b, Idle, if b then Successful else NoConn)
  }

  /** An input the provider reacts to: a control-point write or a timed signal. */
  datatype Event = ControlPoint(op: int) | SettingsSignal(msg: Settings)

  function Step(s: Snapshot, e: Event): Snapshot
  {
    match e
    case ControlPoint(op) => ControlEffect(s, op)
    case SettingsSignal(msg) => SettingsEffect(s, msg)
  }

  /** The state after the events, applied first to last. */
  function Run(s: Snapshot, events: seq<Event>): Snapshot
  {
    if events == [] then s else Step(Run(s, events[..|events| - 1]), events[|events| - 1])
  }

  lemma GetWhilePendingChangesNothing(s: Snapshot)
    requires s.state == Pending
    ensures ControlEffect(s, GET_REFERENCE_UPDATE) == s
  {
  }

  lemma GetWhenNotPending(s: Snapshot)
    requires s.state != Pending
    ensures ControlEffect(s, GET_REFERENCE_UPDATE)
         == Snapshot(s.sourceOnline, Idle, if s.sourceOnline then Successful else NoConn)
  {
  }

  lemma CancelAlwaysCancels(s: Snapshot)
    ensures ControlEffect(s, CANCEL_REFERENCE_UPDATE) == s.(state := Idle, result := Canceled)
  {
  }

  lemma OtherOpcodesChangeNothing(s: Snapshot, op: int)
    requires op != GET_REFERENCE_UPDATE && op != CANCEL_REFERENCE_UPDATE
    ensures ControlEffect(s, op) == s
  {
  }

  /** A signal always leaves the machine idle; a malformed one keeps source_online. */
  lemma SettingsEffectCases(s: Snapshot, msg: Settings)
    ensures SettingsEffect(s, msg).state == Idle
    ensures msg.Malformed? ==> SettingsEffect(s, msg) == s.(state := Idle, result := Error)
    ensures msg.Online? ==> SettingsEffect(s, msg).sourceOnline == msg.online
    ensures msg.Online? ==> SettingsEffect(s, msg).result == (if msg.online then Successful else NoConn)
  {
  }

  /** No statement assigns UPDATE_STATE_PENDING: from an idle state every run stays idle. */
  lemma {:induction false} RunStaysIdle(s: Snapshot, events: seq<Event>)
    requires s.state == Idle
    ensures Run(s, events).state == Idle
  {
    if events != [] {
      RunStaysIdle(s, events[..|events| - 1]);
    }
  }

  /** Hence the pending guard of GET_REFERENCE_UPDATE never fires from the initial state:
      a Get always reports the connectivity of the time source. */
  lemma PendingGuardIsDead(events: seq<Event>)
    ensures var s := Run(Initial, events);
      ControlEffect(s, GET_REFERENCE_UPDATE)
      == Snapshot(s.sourceOnline, Idle, if s.sourceOnline then Successful else NoConn)
  {
    RunStaysIdle(Initial, events);
  }

  /** Unrecognised opcodes never move the machine, however many arrive. */
  lemma {:induction false} OtherOpcodesRun(s: Snapshot, events: seq<Event>)
    requires forall k :: 0 <= k < |events| ==> events[k].ControlPoint?
    requires forall k :: 0 <= k < |events| ==>
      events[k].op != GET_REFERENCE_UPDATE && events[k].op != CANCEL_REFERENCE_UPDATE
    ensures Run(s, events) == s
  {
    if events != [] {
      OtherOpcodesRun(s, events[..|events| - 1]);
    }
  }

  class TimedProvider {
    var sourceOnline: bool
    var updateState: UpdateState
    var updateResult: UpdateResult

    function Current(): Snapshot
      reads this
    {
      Snapshot(sourceOnline, updateState, updateResult)
    }

    /** The values the module variables hold when the plugin is loaded. */
    constructor ()
      ensures Current() == Initial
    {
      sourceOnline := false;
      updateState := Idle;
      updateResult := NotAttempted;
    }

    /** time_provider_control: reacts to a control-point opcode; always answers 0. */
    method Control(op: int) returns (r: u8)
      modifies this
      ensures r == 0
      ensures Current() == ControlEffect(old(Current()), op)
    {
      if op == GET_REFERENCE_UPDATE {
        if updateState == Pending {
          return 0;
        }
        if !sourceOnline {
          updateState := Idle;
          updateResult := NoConn;
          return 0;
        }
        updateState := Idle;
        updateResult := Successful;
      } else if op == CANCEL_REFERENCE_UPDATE {
        updateState := Idle;
        updateResult := Canceled;
      }
      return 0;
    }

    /** time_provider_status: reports the pair and changes nothing. */
    method Status() returns (state: UpdateState, result: UpdateResult)
      ensures state == updateState && result == updateResult
    {
      state := updateState;
      result := updateResult;
    }

    /** settings_changed: the signal handler; always returns TRUE so the watch stays. */
    method SettingsChanged(msg: Settings) returns (keep: bool)
      modifies this
      ensures keep
      ensures Current() == SettingsEffect(old(Current()), msg)
    {
      updateState := Idle;
      if msg.Malformed? {
        updateResult := Error;
        return true;
      }
      sourceOnline := msg.online;
      if !sourceOnline {
        updateResult := NoConn;
        return true;
      }
      updateResult := Successful;
      return true;
    }
  }
}
