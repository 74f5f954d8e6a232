/**
 * test/phone-agent.py: the Phone Alert Status agent. Its module globals are
 * the fields of a class; the D-Bus calls it makes (profiled's set_value and
 * the PhoneAlert NotifyAlertStatus / NotifyRingerSetting calls) are appended
 * to an output log. Each handler's effect is also a pure function on an
 * AgentState, and the properties are proved about those functions.
 */
module PhoneAgent {
  import opened Wrappers

  const STATE_INCOMING: int := 0
  const STATE_ACTIVE: int := 3
  const STATE_ENDED: int := 6

  /** Bit 0 of Alert Status, Ringer State (section 3.1 of the Phone Alert Status Service
      specification). */
  const ALERT_RINGER_STATE: bv8 := 1

  const SILENT: string := "Silent"
  const RINGER_KEY: string := "ringing.alert.type"

  /** A D-Bus call the agent makes. */
  datatype Output =
    | ProfiledSetValue(value: string)
    | NotifyAlertStatus(status: bv8)
    | NotifyRingerSetting(setting: string)

  /** An element of the call-state list: something other than a dictionary, or a dictionary
      whose "state" entry is missing or None, or holds a value. */
  datatype CallItem = NotDictionary | Dictionary(state: Option<int>)

  /** An element of the profile_changed list: a key and its new value. */
  datatype ProfileItem = ProfileItem(key: string, value: string)

  /** The module globals and the calls made so far. */
  datatype AgentState = AgentState(
    onCall: bool, ringer: Option<string>, saved: Option<string>,
    silentMode: bool, alertStatus: bv8, log: seq<Output>)

  /** The globals as the module defines them. */
  const InitialState: AgentState := AgentState(false, None, None, false, 0x00, [])

  /** Python truthiness of a string variable that may be None. */
  predicate Truthy(v: Option<string>)
  {
    v.Some? && v.value != ""
  }

  /** The condition set_alert_status tests. */
  predicate RingerActive(s: AgentState)
  {
    s.onCall && s.ringer != Some(SILENT)
  }

  /** The Ringer State bit agrees with the call and the ringer setting. */
  predicate AlertConsistent(s: AgentState)
  {
    (s.alertStatus & ALERT_RINGER_STATE == ALERT_RINGER_STATE) == RingerActive(s)
  }

  function SetRingerEffect(s: AgentState, value: string): AgentState
  {
    s.(ringer := Some(value), log := s.log + [ProfiledSetValue(value)])
  }

  function SetAlertStatusEffect(s: AgentState): AgentState
  {
    var a := if RingerActive(s) then s.alertStatus | ALERT_RINGER_STATE
             else s.alertStatus & !ALERT_RINGER_STATE;
    s.(alertStatus := a, log := s.log + if a != s.alertStatus then [NotifyAlertStatus(a)] else [])
  }

  function SilenceRingerEffect(s: AgentState): AgentState
  {
    SetRingerEffect(s.(saved := s.ringer), SILENT)
  }

  function RestoreRingerEffect(s: AgentState): AgentState
  {
    if Truthy(s.saved) then SetRingerEffect(s, s.saved.value).(saved := None) else s
  }

  function CallItemEffect(s: AgentState, item: CallItem): AgentState
  {
    if item.NotDictionary? || item.state.None? then s
    else if item.state.value == STATE_INCOMING then
      SetAlertStatusEffect(s.(onCall := true))
    else if item.state.value == STATE_ACTIVE || item.state.value == STATE_ENDED then
      var t := SetAlertStatusEffect(s.(onCall := false));
      if !t.silentMode then RestoreRingerEffect(t) else t
    else s
  }

  /** call_state_changed: the items in list order. */
  function CallStateChangedEffect(s: AgentState, items: seq<CallItem>): AgentState
  {
    if items == [] then s
    else CallItemEffect(CallStateChangedEffect(s, items[..|items| - 1]), items[|items| - 1])
  }

  /** One item of profile_changed. The assignment to saved_ringer_setting on line 84 binds a
      local (only ringer_setting is declared global), so the saved setting is untouched. */
  function ProfileItemEffect(s: AgentState, item: ProfileItem): AgentState
  {
    if item.key != RINGER_KEY then s
    else if Some(item.value) != s.ringer || s.silentMode then
      s.(ringer := Some(item.value), log := s.log + [NotifyRingerSetting(item.value)])
    else s
  }

  /** profile_changed: the items in list order. */
  function ProfileChangedEffect(s: AgentState, items: seq<ProfileItem>): AgentState
  {
    if items == [] then s
    else ProfileItemEffect(ProfileChangedEffect(s, items[..|items| - 1]), items[|items| - 1])
  }

  function MuteOnceEffect(s: AgentState): AgentState
  {
    if s.silentMode || !s.onCall || s.ringer == Some(SILENT) then s else SilenceRingerEffect(s)
  }

  function SetSilentModeEffect(s: AgentState): AgentState
  {
    if s.silentMode then s else SilenceRingerEffect(s).(silentMode := true)
  }

  function CancelSilentModeEffect(s: AgentState): AgentState
  {
    if !s.silentMode then s else RestoreRingerEffect(s.(silentMode := false))
  }

  /** The start-up in `__main__`: the ringer as profiled reports it, then the alert status. */
  function StartEffect(s: AgentState, ringer: string): AgentState
  {
    SetAlertStatusEffect(s.(ringer := Some(ringer)))
  }

  // ---------------------------------------------------------------------
  // Properties
  // ---------------------------------------------------------------------

  /** set_alert_status sets bit 0 to the ringer condition, keeps the other bits, and calls
      NotifyAlertStatus exactly when the status changed. */
  lemma SetAlertStatusSpec(s: AgentState)
    ensures var t := SetAlertStatusEffect(s);
      && AlertConsistent(t)
      && t.alertStatus & !ALERT_RINGER_STATE == s.alertStatus & !ALERT_RINGER_STATE
      && t.log == s.log + (if t.alertStatus != s.alertStatus then [NotifyAlertStatus(t.alertStatus)] else [])
      && t == s.(alertStatus := t.alertStatus, log := t.log)
  {
  }

  /** restore_ringer acts only on a truthy saved setting, which it puts back and forgets. */
  lemma RestoreRingerSpec(s: AgentState)
    ensures !Truthy(s.saved) ==> RestoreRingerEffect(s) == s
    ensures Truthy(s.saved) ==>
      RestoreRingerEffect(s)
      == s.(ringer := s.saved, saved := None, log := s.log + [ProfiledSetValue(s.saved.value)])
  {
  }

  /** MuteOnce never touches the alert status; it does nothing in silent mode, off a call or
      with the ringer already silent, and otherwise saves the ringer and silences it. */
  lemma MuteOnceSpec(s: AgentState)
    ensures MuteOnceEffect(s).alertStatus == s.alertStatus
    ensures s.silentMode || !s.onCall || s.ringer == Some(SILENT) ==> MuteOnceEffect(s) == s
    ensures !(s.silentMode || !s.onCall || s.ringer == Some(SILENT)) ==>
      MuteOnceEffect(s) == s.(saved := s.ringer, ringer := Some(SILENT), log := s.log + [ProfiledSetValue(SILENT)])
  {
  }

  /** Since MuteOnce does not update the alert status, muting any consistent, ringing,
      unsilenced call leaves the Ringer State bit set while the ringer is silent. */
  lemma MuteOnceLeavesBitStale(s: AgentState)
    requires AlertConsistent(s) && s.onCall && !s.silentMode && s.ringer != Some(SILENT)
    ensures !AlertConsistent(MuteOnceEffect(s))
  {
  }

  /** SetSilentMode saves the ringer and silences it the first time, and is idempotent. */
  lemma SetSilentModeSpec(s: AgentState)
    ensures SetSilentModeEffect(SetSilentModeEffect(s)) == SetSilentModeEffect(s)
    ensures s.silentMode ==> SetSilentModeEffect(s) == s
    ensures !s.silentMode ==>
      SetSilentModeEffect(s)
      == s.(saved := s.ringer, ringer := Some(SILENT), silentMode := true, log := s.log + [ProfiledSetValue(SILENT)])
  {
  }

  /** CancelSilentMode does nothing outside silent mode; otherwise it leaves silent mode and
      restores the ringer. */
  lemma CancelSilentModeSpec(s: AgentState)
    ensures !s.silentMode ==> CancelSilentModeEffect(s) == s
    ensures s.silentMode ==>
      CancelSilentModeEffect(s) == RestoreRingerEffect(s.(silentMode := false))
      && !CancelSilentModeEffect(s).silentMode
  {
  }

  /** Entering and leaving silent mode gives back a truthy ringer setting. */
  lemma SilentModeRoundTrip(s: AgentState)
    requires !s.silentMode && Truthy(s.ringer)
    ensures var t := CancelSilentModeEffect(SetSilentModeEffect(s));
      t.ringer == s.ringer && t.saved == None && !t.silentMode
      && t.onCall == s.onCall && t.alertStatus == s.alertStatus
  {
  }

  /** With a ringer that is None or "", restore_ringer's truthiness test makes the round trip
      leave the ringer "Silent", while the saved setting keeps the falsy value. */
  lemma SilentModeRoundTripFalsyRinger(s: AgentState)
    requires !s.silentMode && !Truthy(s.ringer)
    ensures var t := CancelSilentModeEffect(SetSilentModeEffect(s));
      t.ringer == Some(SILENT) && t.saved == s.ringer && !t.silentMode
  {
  }

  /** Items are handled in order: a split list is the first part, then the rest. */
  lemma {:induction false} CallStateChangedAppend(s: AgentState, a: seq<CallItem>, b: seq<CallItem>)
    ensures CallStateChangedEffect(s, a + b) == CallStateChangedEffect(CallStateChangedEffect(s, a), b)
  {
    if b == [] {
      assert a + b == a;
    } else {
      assert (a + b)[..|a + b| - 1] == a + b[..|b| - 1];
      CallStateChangedAppend(s, a, b[..|b| - 1]);
    }
  }

  /** The effect of one call item: non-dictionaries, items without a state and unknown states
      are skipped; Incoming sets on_call; Active and Ended clear it and, outside silent mode,
      restore the ringer; the alert status is updated in both cases. */
  lemma CallItemSpec(s: AgentState, item: CallItem)
    ensures item.NotDictionary? || item.state.None? ==> CallItemEffect(s, item) == s
    ensures item.Dictionary? && item.state == Some(STATE_INCOMING) ==>
      CallItemEffect(s, item) == SetAlertStatusEffect(s.(onCall := true))
    ensures item.Dictionary? && item.state.Some? && item.state.value in {STATE_ACTIVE, STATE_ENDED} ==>
      var t := SetAlertStatusEffect(s.(onCall := false));
      CallItemEffect(s, item) == (if s.silentMode then t else RestoreRingerEffect(t))
    ensures item.Dictionary? && item.state.Some? && item.state.value !in {STATE_INCOMING, STATE_ACTIVE, STATE_ENDED} ==>
      CallItemEffect(s, item) == s
  {
  }

  /** A call-state change keeps the Ringer State bit consistent with the call and the ringer. */
  lemma {:induction false} CallStateChangedKeepsConsistent(s: AgentState, items: seq<CallItem>)
    requires AlertConsistent(s)
    ensures AlertConsistent(CallStateChangedEffect(s, items))
    ensures CallStateChangedEffect(s, items).silentMode == s.silentMode
  {
    if items != [] {
      var init := items[..|items| - 1];
      CallStateChangedKeepsConsistent(s, init);
      var t := CallStateChangedEffect(s, init);
      var item := items[|items| - 1];
      if item.Dictionary? && item.state.Some? {
        SetAlertStatusSpec(t.(onCall := true));
        SetAlertStatusSpec(t.(onCall := false));
      }
    }
  }

  /** One profile item: only the ringer key matters; the ringer is updated and announced iff
      the value differs or silent mode holds. */
  lemma ProfileItemSpec(s: AgentState, item: ProfileItem)
    ensures item.key != RINGER_KEY ==> ProfileItemEffect(s, item) == s
    ensures item.key == RINGER_KEY ==>
      && ProfileItemEffect(s, item).ringer == Some(item.value)
      && (ProfileItemEffect(s, item).log != s.log <==> Some(item.value) != s.ringer || s.silentMode)
      && (ProfileItemEffect(s, item).log == s.log || ProfileItemEffect(s, item).log == s.log + [NotifyRingerSetting(item.value)])
  {
  }

  /** The value of the last ringer item of a profile_changed list, if any. */
  function LastRingerValue(items: seq<ProfileItem>): Option<string>
  {
    if items == [] then None
    else if items[|items| - 1].key == RINGER_KEY then Some(items[|items| - 1].value)
    else LastRingerValue(items[..|items| - 1])
  }

  /** After profile_changed the ringer is the last value reported for the ringer key, and the
      call, silent-mode, alert and saved-setting globals are as before. */
  lemma {:induction false} ProfileChangedSpec(s: AgentState, items: seq<ProfileItem>)
    ensures var t := ProfileChangedEffect(s, items);
      && t.ringer == (if LastRingerValue(items).Some? then LastRingerValue(items) else s.ringer)
      && t.saved == s.saved && t.onCall == s.onCall
      && t.silentMode == s.silentMode && t.alertStatus == s.alertStatus
  {
    if items != [] {
      ProfileChangedSpec(s, items[..|items| - 1]);
    }
  }

  /** The agent as the script's module globals. */
  class Agent {
    var onCall: bool
    var ringerSetting: Option<string>
    var savedRingerSetting: Option<string>
    var silentMode: bool
    var alertStatus: bv8
    var log: seq<Output>

    function State(): AgentState
      reads this
    {
      AgentState(onCall, ringerSetting, savedRingerSetting, silentMode, alertStatus, log)
    }

    constructor ()
      ensures State() == InitialState
    {
      onCall := false;
      savedRingerSetting := None;
      ringerSetting := None;
      silentMode := false;
      alertStatus := 0x00;
      log := [];
    }

    /** set_ringer */
    method SetRinger(value: string)
      modifies this
      ensures State() == SetRingerEffect(old(State()), value)
    {
      ringerSetting := Some(value);
      log := log + [ProfiledSetValue(value)];
    }

    /** set_alert_status */
    method SetAlertStatus()
      modifies this
      ensures State() == SetAlertStatusEffect(old(State()))
    {
      var oldAlertStatus := alertStatus;
      if onCall && ringerSetting != Some(SILENT) {
        alertStatus := alertStatus | ALERT_RINGER_STATE;
      } else {
        alertStatus := alertStatus & !ALERT_RINGER_STATE;
      }
      if oldAlertStatus != alertStatus {
        log := log + [NotifyAlertStatus(alertStatus)];
      }
    }

    /** silence_ringer */
    method SilenceRinger()
      modifies this
      ensures State() == SilenceRingerEffect(old(State()))
    {
      savedRingerSetting := ringerSetting;
      SetRinger(SILENT);
    }

    /** restore_ringer */
    method RestoreRinger()
      modifies this
      ensures State() == RestoreRingerEffect(old(State()))
    {
      if savedRingerSetting.Some? && savedRingerSetting.value != "" {
        SetRinger(savedRingerSetting.value);
        savedRingerSetting := None;
      }
    }

    /** call_state_changed, on its first argument. */
    method CallStateChanged(items: seq<CallItem>)
      modifies this
      ensures State() == CallStateChangedEffect(old(State()), items)
    {
      var i := 0;
      while i < |items|
        invariant 0 <= i <= |items|
        invariant State() == CallStateChangedEffect(old(State()), items[..i])
      {
        assert items[..i + 1][..i] == items[..i];
        var item := items[i];
        if item.Dictionary? && item.state.Some? {
          if item.state.value == STATE_INCOMING {
            onCall := true;
            SetAlertStatus();
          } else if item.state.value == STATE_ACTIVE || item.state.value == STATE_ENDED {
            onCall := false;
            SetAlertStatus();
            if !silentMode {
              RestoreRinger();
            }
          }
        }
        i := i + 1;
      }
      assert items[..i] == items;
    }

    /** profile_changed, on its fourth argument. */
    method ProfileChanged(items: seq<ProfileItem>)
      modifies this
      ensures State() == ProfileChangedEffect(old(State()), items)
    {
      var i := 0;
      while i < |items|
        invariant 0 <= i <= |items|
        invariant State() == ProfileChangedEffect(old(State()), items[..i])
      {
        assert items[..i + 1][..i] == items[..i];
        var item := items[i];
        if item.key == RINGER_KEY {
          if Some(item.value) != ringerSetting || silentMode {
            ringerSetting := Some(item.value);
            log := log + [NotifyRingerSetting(item.value)];
          }
        }
        i := i + 1;
      }
      assert items[..i] == items;
    }

    /** PhoneAgent.MuteOnce */
    method MuteOnce()
      modifies this
      ensures State() == MuteOnceEffect(old(State()))
    {
      if silentMode {
        return;
      }
      if !onCall {
        return;
      }
      if ringerSetting == Some(SILENT) {
        return;
      }
      SilenceRinger();
    }

    /** PhoneAgent.SetSilentMode */
    method SetSilentMode()
      modifies this
      ensures State() == SetSilentModeEffect(old(State()))
    {
      if silentMode {
        return;
      }
      SilenceRinger();
      silentMode := true;
    }

    /** PhoneAgent.CancelSilentMode */
    method CancelSilentMode()
      modifies this
      ensures State() == CancelSilentModeEffect(old(State()))
    {
      if !silentMode {
        return;
      }
      silentMode := false;
      RestoreRinger();
    }

    /** PhoneAgent.GetSilentMode: despite its name it answers the ringer setting. */
    method GetSilentMode() returns (r: Option<string>)
      ensures r == ringerSetting
    {
      return ringerSetting;
    }

    /** PhoneAgent.GetAlertStatus */
    method GetAlertStatus() returns (r: bv8)
      ensures r == alertStatus
    {
      return alertStatus;
    }

    /** The start-up in `__main__`, given the ringer setting profiled reports. */
    method Start(ringer: string)
      modifies this
      ensures State() == StartEffect(old(State()), ringer)
    {
      ringerSetting := Some(ringer);
      SetAlertStatus();
    }
  }

  /** Right after start-up nothing is on call, so the Ringer State bit is clear and no
      NotifyAlertStatus call is made. */
  lemma StartSpec(ringer: string)
    ensures var t := StartEffect(InitialState, ringer);
      t.alertStatus == 0 && t.log == [] && AlertConsistent(t)
  {
  }
}
