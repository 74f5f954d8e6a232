# BlueZ time, battery, system-ops and phone-alert plugins in Dafny

This project models five small pieces of BlueZ's profile code and proves properties about them:

- **Time profile server** (`time/server.c`, module `TimeServer`):
  - the 10-byte Current Time value: Exact Time 256 followed by Adjust Reason, per section 3.1 of the Bluetooth Current Time Service specification;
  - the 2-byte Local Time Information value (section 3.2);
  - the filter that picks the peers whose Client Characteristic Configuration (CCC) has notifications enabled;
  - the one-byte length guard on the Time Update Control Point;
  - the Time Update State read;
  - service registration at start-up.
- **Time providers** (`time/provider-timed.c`, `time/provider-dummy.c`):
  - `ProviderTimed` is the reference-time update state machine, a class over `source_online`, `update_state` and `update_result`;
  - `ProviderDummy` is the stateless stub. Lemmas compare it with the timed machine.
- **System ops registry** (`src/system.c`, module `SystemOps`): a priority-ordered list whose head is the ops in use.
- **Battery registry** (`profiles/battery/battery.c`, module `Battery`): per-device records, and the device reference counts that move with them.
- **Phone alert agent** (`test/phone-agent.py`, module `PhoneAgent`):
  - the Ringer State bit (bit 0) of Alert Status, per section 3.1 of the Phone Alert Status Service specification;
  - the mute and silent-mode rules;
  - the D-Bus calls the agent makes, recorded as an output log.

Helper modules:

- `CTypes`: C's conversions to `uint8_t`/`uint16_t`, truncating division, the little-endian 16-bit put and errno codes.
- `GList`: the contents-level meaning of `g_slist_remove` and `g_slist_find_custom`.
- `TimeUpdate`: the Reference Time Update state, result and opcode vocabulary.
- `Wrappers`: `Option`.

This project models the plugin code itself. The attribute-protocol engine and GATT service registry that the files call into (`attrib_db_update`, `gatt_service_add`, `g_attrib_send`, the attio callbacks) are not part of it.

Inputs that stand for the environment:

- `clock_gettime` and `localtime_r` results (`Clock`, a `localtime` function);
- the `daylight` and `timezone` globals;
- the parsed lines of the adapter's `configs` storage file (`CccEntry`);
- `adapter_find_device` (a function from address to optional device);
- `time_provider_init`'s return value, for `time_server_init`;
- the `lock()`/`unlock()` callbacks of a `struct system_ops`;
- the decoded `settings_changed` signal (`Malformed` or `Online(flag)`);
- the ringer value profiled reports at start-up.

Constants:

- `time/server.h` is not part of this model. The `UPDATE_STATE_*` and `UPDATE_RESULT_*` values are symbolic datatypes (`TimeUpdate`); their bytes follow section 3 of the Reference Time Update Service specification.
- The control-point opcodes `GET_REFERENCE_UPDATE` and `CANCEL_REFERENCE_UPDATE` are the integers 1 and 2, from the same specification; `TimeUpdateControl` depends on these values.
- `ATT_ECODE_IO` is 0x80, as in BlueZ's `att.h`.

Modelling choices:

- Stateful components are classes: `ProviderTimed.TimedProvider`, `SystemOps.Registry`, `Battery.Registry` with `Battery.Device` and `Battery.BatteryRecord`, and `PhoneAgent.Agent`.
- Each mutating method's `ensures` gives its whole new state.
- Where a run of several calls matters, the methods are tied to pure effect functions on a snapshot. The lemmas are stated about those functions: `ProviderTimed.ControlEffect`, `PhoneAgent.CallStateChangedEffect`, and so on.
- `SystemOps.Registry.SystemDisableAlert` has no `modifies` clause, so it cannot change the registry, matching the C function, which has no effect.

## Model

| member | source | states |
|---|---|---|
| CTypes.ToU8 | time/server.c:87-97 | storing an int into a `uint8_t` keeps it modulo 256, and unchanged when it is in 0..255 |
| CTypes.ToU16 | time/server.c:129 | narrowing to `uint16_t` keeps the value modulo 65536, and unchanged when in range |
| CTypes.CDiv | time/server.c:214 | C division by a positive divisor truncates toward zero: the quotient's bounds for either sign of the dividend |
| CTypes.PutLe16 | time/server.c:86 | `att_put_u16` writes two bytes, least significant first, that add up to the value |
| CTypes.GetPutLe16 | time/server.c:86 | reading the two bytes back little-endian gives the 16-bit value |
| GList.FindCustom | profiles/battery/battery.c:81 | `g_slist_find_custom` yields the first position whose comparison is 0, and None exactly when no element compares 0 |
| GList.RemoveAbsent | src/system.c:84 | `g_slist_remove` of an absent element leaves the list unchanged |
| GList.RemoveAtFirst | src/system.c:84 | `g_slist_remove` cuts out exactly the first occurrence and keeps the order of the rest |
| GList.RemoveMultiset | src/system.c:84 | `g_slist_remove` takes away one occurrence when present (length drops by one), else none |
| TimeUpdate.CodesRoundTrip | time/server.c:262 | the state and result bytes are distinct: a client decodes each back to the symbolic value |
| TimeServer.CurrentTimeValue | time/server.c:86-97 | the Current Time value is 10 bytes and the Adjust Reason byte is 0 |
| TimeServer.EncodeCurrentTime | time/server.c:70-100 | encoding succeeds iff both clock_gettime and localtime_r succeed; the value is then exactly CurrentTimeValue of the broken-down time and the nanoseconds (laid out as CurrentTimeRoundTrip states); a clock_gettime failure returns -errno of that call, a localtime_r failure -errno of that call |
| TimeServer.CurrentTimeRoundTrip | time/server.c:86-97 | for a valid struct tm a client decodes year 1900+tm_year, month tm_mon+1, day, hours, minutes, seconds unchanged, the day of week, tv_nsec/3906250 as Fractions256 (at most 255) and Adjust Reason 0; the day of week is in 1..7 |
| TimeServer.DayOfWeekIsMondayBased | time/server.c:92 | mapping tm_wday 0 to 7 turns the Sunday-based count into Bluetooth's 1 = Monday .. 7 = Sunday |
| TimeServer.FractionsAreSixteenthsOfSixteenths | time/server.c:93-96 | tv_nsec / 3906250 equals the number of whole 1/256 s, tv_nsec * 256 / 10^9 |
| TimeServer.CurrentTimeRead | time/server.c:102-114 | the read succeeds (status 0) iff encoding succeeds and then stores the encoded 10 bytes; otherwise it returns ATT_ECODE_IO and the stored value is untouched |
| TimeServer.LocalTimeInfoValue | time/server.c:206-214 | 2 bytes; byte 0 is 0xff iff daylight is nonzero, else 0 |
| TimeServer.LocalTimeInfoRead | time/server.c:200-219 | the read always returns 0 and stores exactly the 2-byte Local Time Information value (DST byte, then the quarter-hour offset) |
| TimeServer.LocalTimeOffset | time/server.c:212-214 | read as a signed byte the offset is -timezone/900 under C division, rounded toward zero, and exact for whole quarter hours |
| TimeServer.LocalTimeOffsetTruncates | time/server.c:214 | 450 s west of UTC gives offset byte 0, where floor division would give 0xff |
| TimeServer.DevicesToNotify | time/server.c:116-155 | the loop over the storage entries returns exactly the notify list of the entries, never longer than the entry list |
| TimeServer.NotifyListAppend | time/server.c:137 | appending keeps storage order: the list for a+b is the list for a followed by the list for b |
| TimeServer.NotifyListMembers | time/server.c:124-137 | a device is listed iff some entry has the target CCC handle, bit 0x0001 set in its uint16 value, and an address the adapter resolves to that device |
| TimeServer.TimeUpdateControl | time/server.c:244-254 | a write whose length is not 1 returns 0 and leaves the provider untouched; a one-byte write applies the provider's control to data[0] and returns its answer 0 |
| TimeServer.TimeUpdateStatus | time/server.c:256-267 | returns 0 and stores two bytes from which the provider's current state and result decode |
| TimeServer.TimeUpdateStatusDummy | time/server.c:256-267 | with the dummy provider the stored bytes decode to Idle and Not Attempted |
| TimeServer.TimeServerInit | time/server.c:221-299 | always returns 0 and registers the Current Time service first; the Reference Time Update service is registered iff time_provider_init() >= 0; exactly two services are registered then, otherwise exactly one |
| TimeServer.DummyServerRegistersBoth | time/provider-dummy.c:30-35 | with the dummy provider both services are registered |
| ProviderTimed.TimedProvider.constructor | time/provider-timed.c:48-50 | initial state source_online false, Idle, Not Attempted |
| ProviderTimed.TimedProvider.Control | time/provider-timed.c:52-77 | the new state is the control effect of the opcode on the old one, and the result is 0 for every opcode |
| ProviderTimed.TimedProvider.Status | time/provider-timed.c:79-83 | reports the current (state, result) pair and modifies nothing |
| ProviderTimed.TimedProvider.SettingsChanged | time/provider-timed.c:85-118 | returns TRUE and the new state is the settings effect of the message |
| ProviderTimed.GetWhilePendingChangesNothing | time/provider-timed.c:55-57 | Get Reference Update while Pending changes nothing |
| ProviderTimed.GetWhenNotPending | time/provider-timed.c:59-67 | Get Reference Update when not pending sets (Idle, No Connection) offline and (Idle, Successful) online; source_online unchanged |
| ProviderTimed.CancelAlwaysCancels | time/provider-timed.c:68-71 | Cancel Reference Update sets (Idle, Canceled) from any state |
| ProviderTimed.OtherOpcodesChangeNothing | time/provider-timed.c:72-76 | any other opcode changes no state |
| ProviderTimed.SettingsEffectCases | time/provider-timed.c:90-117 | a signal always sets Idle; a malformed one sets Error and keeps source_online; a well-formed one sets source_online to its flag and the result to Successful or No Connection |
| ProviderTimed.RunStaysIdle | time/provider-timed.c:49-118 | no statement assigns Pending: from an idle state every sequence of control writes and signals stays Idle |
| ProviderTimed.PendingGuardIsDead | time/provider-timed.c:54-67 | after any run from the initial state a Get reports the source's connectivity, so the pending guard never fires |
| ProviderTimed.OtherOpcodesRun | time/provider-timed.c:72-76 | any number of unrecognised opcodes leaves the state as it was |
| ProviderDummy.Init | time/provider-dummy.c:30-35 | always returns 0 |
| ProviderDummy.Status | time/provider-dummy.c:43-47 | always reports state Idle and result Not Attempted |
| ProviderDummy.Control | time/provider-dummy.c:49-54 | answers 0 for every opcode |
| ProviderDummy.StatusIsTimedInitial | time/provider-dummy.c:43-47 | the dummy always reports Idle / Not Attempted, the timed provider's initial pair |
| ProviderDummy.AgreesWithTimedOnOtherOpcodes | time/provider-dummy.c:43-54 | the dummy's answers (control 0, constant status) equal the timed provider's after any run of unrecognised opcodes |
| ProviderDummy.TimedDiffersAfterGet | time/provider-dummy.c:43-47 | a Get moves the timed provider's result away from the dummy's constant Not Attempted |
| SystemOps.Registry.constructor | src/system.c:35-37 | both globals start empty/NULL, and the invariant holds |
| SystemOps.Registry.RegisterSystemOps | src/system.c:69-80 | priority prepends (ops becomes current), otherwise appends (current unchanged if the list was non-empty); the list grows by one, no de-duplication, returns 0, invariant kept |
| SystemOps.Registry.UnregisterSystemOps | src/system.c:82-87 | removes only the first occurrence; an absent ops leaves the list unchanged; current is re-read from the head |
| SystemOps.Registry.SystemLock | src/system.c:39-45 | -EINVAL with nothing registered, else the current ops' lock() result |
| SystemOps.Registry.SystemUnlock | src/system.c:47-53 | -EINVAL with nothing registered, else the current ops' unlock() result |
| SystemOps.Registry.SystemEnableAlert | src/system.c:55-61 | -EINVAL with nothing registered, else 0, whatever the arguments |
| SystemOps.Registry.SystemDisableAlert | src/system.c:63-67 | has no effect: no result and no modifies clause, so the registry is unchanged |
| SystemOps.RegisterThenUnregister | src/system.c:69-87 | registering then unregistering an ops restores the list when it was prepended or not already present |
| Battery.CmpDevice | profiles/battery/battery.c:44-53 | 0 exactly when the record's device pointer is the queried device, -1 otherwise |
| Battery.CountAppend | profiles/battery/battery.c:71 | the records a device holds in a joined list are those of both parts |
| Battery.CountCut | profiles/battery/battery.c:86 | removing a record lowers only its own device's record count, by one |
| Battery.RemoveFoundRecord | profiles/battery/battery.c:81-86 | removing the found record by pointer cuts the list exactly at the first match |
| Battery.NoRecordNoCount | profiles/battery/battery.c:81-83 | when no record compares equal, the device holds no records |
| Battery.RegisterThenUnregister | profiles/battery/battery.c:64-89 | a freshly prepended record is the first match, and unregistering it gives back the previous list |
| Battery.Device.constructor | profiles/battery/battery.c:39 | a device with the given reference count |
| Battery.BatteryRecord.constructor | profiles/battery/battery.c:68-69 | a record bound to its device |
| Battery.Registry.constructor | profiles/battery/battery.c:42 | the list starts empty |
| Battery.Registry.BatteryRegister | profiles/battery/battery.c:64-74 | returns 0; a fresh record for the device goes to the head, the rest unchanged; duplicates allowed; the device's refcount and record count each rise by one |
| Battery.Registry.BatteryFree | profiles/battery/battery.c:55-61 | the record's device loses one reference |
| Battery.Registry.BatteryUnregister | profiles/battery/battery.c:76-89 | no record: nothing changes; otherwise the first match is removed, others keep their order, and the device's refcount and record count each drop by exactly one |
| PhoneAgent.SetAlertStatusSpec | test/phone-agent.py:28-39 | bit 0 becomes (on_call and ringer != "Silent"), the other bits are kept, only alert_status changes, and NotifyAlertStatus is logged iff the status changed |
| PhoneAgent.RestoreRingerSpec | test/phone-agent.py:47-52 | acts only for a truthy saved setting: sets the ringer to it (logging set_value) and resets the saved setting to None |
| PhoneAgent.MuteOnceSpec | test/phone-agent.py:89-107 | never touches alert_status; no-op in silent mode, off a call or with the ringer already Silent; otherwise saves the ringer and sets Silent |
| PhoneAgent.MuteOnceLeavesBitStale | test/phone-agent.py:89-107 | from any consistent state on a call, outside silent mode and with the ringer not already Silent, MuteOnce leaves the alert bit inconsistent: the Ringer State bit stays set while the ringer is Silent |
| PhoneAgent.SetSilentModeSpec | test/phone-agent.py:111-119 | idempotent; the first call saves the ringer, sets Silent and enters silent mode; later calls change nothing |
| PhoneAgent.CancelSilentModeSpec | test/phone-agent.py:123-131 | no-op outside silent mode; otherwise clears silent_mode and runs restore_ringer |
| PhoneAgent.SilentModeRoundTrip | test/phone-agent.py:111-131 | entering then leaving silent mode gives back a truthy ringer with nothing saved |
| PhoneAgent.SilentModeRoundTripFalsyRinger | test/phone-agent.py:47-52 | with a ringer of None or "", entering then leaving silent mode leaves the ringer "Silent", since restore_ringer skips a falsy saved value |
| PhoneAgent.CallItemSpec | test/phone-agent.py:57-69 | non-dictionaries, items without a state, and unknown states are skipped; Incoming sets on_call and updates the alert status; Active or Ended clear it, update the status and restore the ringer unless in silent mode |
| PhoneAgent.CallStateChangedAppend | test/phone-agent.py:57 | items are processed in list order: a split list acts as its first part, then the rest |
| PhoneAgent.CallStateChangedKeepsConsistent | test/phone-agent.py:54-69 | a call-state change keeps the Ringer State bit consistent with on_call and the ringer, and silent_mode unchanged |
| PhoneAgent.ProfileItemSpec | test/phone-agent.py:74-81 | only the ringer key matters; the ringer ends at the new value, and NotifyRingerSetting is logged iff the value differs or silent_mode holds |
| PhoneAgent.ProfileChangedSpec | test/phone-agent.py:71-84 | the ringer ends as the last reported ringer value; on_call, silent_mode, alert_status and saved_ringer_setting are unchanged (line 84 binds a local) |
| PhoneAgent.StartSpec | test/phone-agent.py:168-170 | after start-up the alert status is 0 and no notification was sent |
| PhoneAgent.Agent.constructor | test/phone-agent.py:14-18 | the initial globals |
| PhoneAgent.Agent.SetRinger | test/phone-agent.py:20-23 | sets the ringer and logs profiled's set_value |
| PhoneAgent.Agent.SetAlertStatus | test/phone-agent.py:28-39 | new state is the set_alert_status effect |
| PhoneAgent.Agent.SilenceRinger | test/phone-agent.py:41-45 | new state is the silence_ringer effect |
| PhoneAgent.Agent.RestoreRinger | test/phone-agent.py:47-52 | new state is the restore_ringer effect |
| PhoneAgent.Agent.CallStateChanged | test/phone-agent.py:54-69 | the loop's new state is the item-by-item call-state effect |
| PhoneAgent.Agent.ProfileChanged | test/phone-agent.py:71-84 | the loop's new state is the item-by-item profile effect |
| PhoneAgent.Agent.MuteOnce | test/phone-agent.py:89-107 | new state is the MuteOnce effect |
| PhoneAgent.Agent.SetSilentMode | test/phone-agent.py:111-119 | new state is the SetSilentMode effect |
| PhoneAgent.Agent.CancelSilentMode | test/phone-agent.py:123-131 | new state is the CancelSilentMode effect |
| PhoneAgent.Agent.GetSilentMode | test/phone-agent.py:135-139 | despite its name, answers ringer_setting |
| PhoneAgent.Agent.GetAlertStatus | test/phone-agent.py:143-147 | answers alert_status |
| PhoneAgent.Agent.Start | test/phone-agent.py:168-170 | the ringer from profiled, then set_alert_status |

## Left out

- `alert/server.c`: it registers through `gatt_service_add`, which is not part of this model, and its two callbacks only log and return 0.
- `profiles/battery/manager.c`: one-line wrappers around `battery_register`/`battery_unregister` and `btd_profile_register`/`unregister`, which are not part of this model.
- `src/gatt.h`: declarations only.
- `current_time_updated` and `send_notification` (`time/server.c:157-198`): they go through `btd_device_add_attio_callback`, `enc_notification` and `g_attrib_send`, which are foreign code.
- `time_server_exit`, and `time_provider_init`/`time_provider_exit` of the timed provider: D-Bus connection and signal-watch set-up. `time_server_init` takes the init result as an input instead.
- `attrib_db_update` is modelled only as the value left stored for the attribute.
- `devices_to_notify` itself is not modelled at the file level. The storage file name (`create_name`), `textfile_foreach` and the `sscanf`/`strtol` parsing are replaced by already-parsed entries. The unchecked `sscanf` failure, which leaves the handle uninitialised, is not modelled.
- `TimeServer.CurrentTimeRead`: libc's errno is taken as positive on failure, as POSIX specifies. With errno 0 the source's `err < 0` test would store an uninitialised buffer; that case is not modelled.
- `TimeServer.TimeUpdateControl` is modelled with the timed provider linked in. With the dummy provider, the control call always answers 0 and changes nothing (`ProviderDummy.Control`).
- `SystemOps.Registry`: `system_ops` is an exported global. Writes to it from outside `src/system.c` are not modelled, so the head invariant is proved only for this file's own operations. The `lock()`/`unlock()` bodies are foreign callbacks and are given as functions.
- `SystemOps.Registry.RegisterSystemOps`: a NULL `ops` is not modelled (`OpsRef` has no NULL). The source accepts one, and it would leave `system_ops` NULL on a non-empty list, outside `Valid()`.
- `Battery.Registry`: the record's `g_free` is not modelled, and neither is the freeing of a device whose count reaches zero (`btd_device_unref`). The reference count is a plain integer.
- `PhoneAgent`:
  - `print` output is not modelled.
  - The D-Bus main-loop and proxy set-up in `__main__` is not modelled; `get_ringer` is an input of `Start`.
  - Python's dynamic typing is narrowed: a call state is an integer or absent, and a profile item is a key/value pair of strings.
  - The alert status is a byte, which is all `dbus.Byte` carries and all the script ever sets.
