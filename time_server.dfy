/**
 * time/server.c: the Current Time and Reference Time Update services of the
 * time profile server. The clock, the local-time conversion, the timezone
 * globals and the per-adapter storage entries are inputs; the attribute
 * database write of a read callback is the value it leaves stored.
 */
module TimeServer {
  import opened CTypes
  import opened Wrappers
  import opened TimeUpdate
  import ProviderTimed
  import ProviderDummy

  /** ATT_ECODE_IO, the application error a read callback returns (BlueZ att.h). */
  const ATT_ECODE_IO: u8 := 0x80

  const CURRENT_TIME_SVC_UUID: u16 := 0x1805
  const REF_TIME_UPDATE_SVC_UUID: u16 := 0x1806
  const LOCAL_TIME_INFO_CHR_UUID: u16 := 0x2A0F
  const TIME_UPDATE_CTRL_CHR_UUID: u16 := 0x2A16
  const TIME_UPDATE_STAT_CHR_UUID: u16 := 0x2A17
  const CT_TIME_CHR_UUID: u16 := 0x2A2B

  /** Nanoseconds in a 1/256 fraction of a second. */
  const NSEC_PER_FRACTION256: int := 3906250

  // ---------------------------------------------------------------------
  // Current Time (section 3.1 of the Current Time Service specification)
  // ---------------------------------------------------------------------

  /** struct timespec as clock_gettime fills it. */
  datatype Timespec = Timespec(sec: int, nsec: int)

  /** struct tm as localtime_r fills it. */
  datatype Tm = Tm(year: int, mon: int, mday: int, hour: int, min: int, sec: int, wday: int)

  /** The result of clock_gettime(CLOCK_REALTIME). */
  datatype Clock = ClockOk(tp: Timespec) | ClockFailed(clockErrno: Errno)

  /** The result of localtime_r. */
  datatype LocalTime = LocalOk(tm: Tm) | LocalFailed(localErrno: Errno)

  /** encode_current_time's outcome: the 10 bytes, or the negative errno it returns. */
  datatype Encoded = Encoded(value: seq<u8>) | EncodeFailed(err: int)

  /** The ranges POSIX gives the fields of a struct tm, and a year that fits the 16-bit field. */
  predicate ValidTm(tm: Tm)
  {
    && 0 <= 1900 + tm.year < 0x1_0000
    && 0 <= tm.mon <= 11 && 1 <= tm.mday <= 31
    && 0 <= tm.hour <= 23 && 0 <= tm.min <= 59 && 0 <= tm.sec <= 60
    && 0 <= tm.wday <= 6
  }

  /** Exact Time 256 followed by Adjust Reason, as a peer decodes it. */
  datatype CurrentTime = CurrentTime(
    year: int, month: int, day: int, hours: int, minutes: int, seconds: int,
    dayOfWeek: int, fractions256: int, adjustReason: int)

  /** The day-of-week byte is written from tm_wday (0 = Sunday); Bluetooth counts
      1 = Monday to 7 = Sunday. */
  function DayOfWeek(wday: int): int
  {
    if wday == 0 then 7 else wday
  }

  /** The ten bytes time/server.c writes for a broken-down time and its nanoseconds. */
  function CurrentTimeValue(tm: Tm, nsec: int): (v: seq<u8>)
    ensures |v| == 10 && v[9] == 0
  {
    PutLe16(ToU16(1900 + tm.year))
      + [ToU8(tm.mon + 1), ToU8(tm.mday), ToU8(tm.hour), ToU8(tm.min), ToU8(tm.sec),
         ToU8(DayOfWeek(tm.wday)), ToU8(CDiv(nsec, NSEC_PER_FRACTION256)), 0]
  }

  /** encode_current_time: fails with -errno when either libc call fails. */
  function EncodeCurrentTime(clock: Clock, localtime: int -> LocalTime): (r: Encoded)
    ensures r.Encoded? <==> clock.ClockOk? && localtime(clock.tp.sec).LocalOk?
    ensures r.Encoded? ==> |r.value| == 10
    ensures r.Encoded? ==> r.value == CurrentTimeValue(localtime(clock.tp.sec).tm, clock.tp.nsec)
    ensures clock.ClockFailed? ==> r == EncodeFailed(-(clock.clockErrno as int))
    ensures clock.ClockOk? && localtime(clock.tp.sec).LocalFailed? ==>
      r == EncodeFailed(-(localtime(clock.tp.sec).localErrno as int))
    ensures r.EncodeFailed? ==> r.err < 0
  {
    match clock
    case ClockFailed(e) => EncodeFailed(-(e as int))
    case ClockOk(tp) =>
      match localtime(tp.sec)
      case LocalFailed(e) => EncodeFailed(-(e as int))
      case LocalOk(tm) => Encoded(CurrentTimeValue(tm, tp.nsec))
  }

  /** How a Current Time client reads the ten bytes. */
  function DecodeCurrentTime(v: seq<u8>): CurrentTime
    requires |v| == 10
  {
    CurrentTime(GetLe16(v[0], v[1]) as int, v[2] as int, v[3] as int, v[4] as int,
      v[5] as int, v[6] as int, v[7] as int, v[8] as int, v[9] as int)
  }

  /** The layout: every field of a valid broken-down time arrives unchanged apart from
      the offsets of year and month, the day of week lies in 1..7, the fraction is
      tv_nsec / 3906250 and at most 255, and the adjust reason is 0. */
  lemma CurrentTimeRoundTrip(tm: Tm, nsec: int)
    requires ValidTm(tm) && 0 <= nsec < 1_000_000_000
    ensures DecodeCurrentTime(CurrentTimeValue(tm, nsec))
         == CurrentTime(1900 + tm.year, tm.mon + 1, tm.mday, tm.hour, tm.min, tm.sec,
                        DayOfWeek(tm.wday), nsec / NSEC_PER_FRACTION256, 0)
    ensures 1 <= DayOfWeek(tm.wday) <= 7
    ensures 0 <= nsec / NSEC_PER_FRACTION256 <= 255
  {
    var v := CurrentTimeValue(tm, nsec);
    GetPutLe16(ToU16(1900 + tm.year));
    assert v[..2] == PutLe16(ToU16(1900 + tm.year));
  }

  /** tm_wday counts from Sunday; the byte names the same day counted from Monday. */
  lemma DayOfWeekIsMondayBased(wday: int)
    requires 0 <= wday <= 6
    ensures DayOfWeek(wday) == (wday + 6) % 7 + 1
  {
  }

  /** Dividing by 3906250 is the number of whole 1/256 seconds in tv_nsec. */
  lemma FractionsAreSixteenthsOfSixteenths(nsec: int)
    requires 0 <= nsec < 1_000_000_000
    ensures nsec / NSEC_PER_FRACTION256 == (nsec * 256) / 1_000_000_000
  {
    var q := nsec / NSEC_PER_FRACTION256;
    assert q * NSEC_PER_FRACTION256 <= nsec < q * NSEC_PER_FRACTION256 + NSEC_PER_FRACTION256;
    assert q * 1_000_000_000 <= nsec * 256 < q * 1_000_000_000 + 1_000_000_000;
  }

  /** A read callback's reply: the ATT status and the value left stored for the attribute. */
  datatype ReadReply = ReadReply(status: u8, stored: seq<u8>)

  /** current_time_read: on an encoding failure the stored value is kept and ATT_ECODE_IO
      returned; otherwise the fresh ten bytes are stored and 0 returned. */
  function CurrentTimeRead(clock: Clock, localtime: int -> LocalTime, stored: seq<u8>): (r: ReadReply)
    ensures r.status == 0 <==> clock.ClockOk? && localtime(clock.tp.sec).LocalOk?
    ensures r.status != 0 ==> r == ReadReply(ATT_ECODE_IO, stored)
    ensures r.status == 0 ==>
      r.stored == CurrentTimeValue(localtime(clock.tp.sec).tm, clock.tp.nsec)
  {
    // The source tests err < 0; EncodeCurrentTime's failures are always negative.
    match EncodeCurrentTime(clock, localtime)
    case EncodeFailed(_) => ReadReply(ATT_ECODE_IO, stored)
    case Encoded(value) => ReadReply(0, value)
  }

  // ---------------------------------------------------------------------
  // Local Time Information (section 3.2 of the Current Time Service specification)
  // ---------------------------------------------------------------------

  /** The two bytes of local_time_info_read for the POSIX `daylight` and `timezone`
      (seconds west of UTC): DST 0xff ("unknown") or 0, then the offset in 15-minute
      steps, computed with C division and truncated to a byte. */
  function LocalTimeInfoValue(daylight: int, timezone: int): (v: seq<u8>)
    ensures |v| == 2
    ensures v[0] == 0xff <==> daylight != 0
    ensures v[0] == 0xff || v[0] == 0
  {
    [if daylight != 0 then 0xff else 0x00, ToU8(CDiv(-1 * timezone, 60 * 15))]
  }

  /** local_time_info_read stores the value and always succeeds. */
  function LocalTimeInfoRead(daylight: int, timezone: int): (r: ReadReply)
    ensures r.status == 0 && |r.stored| == 2
    ensures r.stored[0] == 0xff <==> daylight != 0
    ensures r.stored == LocalTimeInfoValue(daylight, timezone)
  {
    ReadReply(0, LocalTimeInfoValue(daylight, timezone))
  }

  /** Read as a signed byte, the offset is -timezone / 900 rounded toward zero (toward
      UTC), and exactly -timezone / 900 for a whole number of quarter hours. */
  lemma LocalTimeOffset(daylight: int, timezone: int)
    requires -127 * 900 <= timezone <= 128 * 900
    ensures var off := ToInt8(LocalTimeInfoValue(daylight, timezone)[1]);
      && off == CDiv(-timezone, 900)
      && (timezone <= 0 ==> 0 <= off && off * 900 <= -timezone < off * 900 + 900)
      && (timezone > 0 ==> off <= 0 && off * 900 - 900 < -timezone <= off * 900)
      && (timezone % 900 == 0 ==> off * 900 == -timezone)
  {
    var q := CDiv(-timezone, 900);
    assert -128 <= q < 128;
    ToInt8OfToU8(q);
  }

  /** The truncation is C's, not flooring: 450 s west of UTC gives offset 0, where
      flooring would give -1 (the byte 0xff). */
  lemma LocalTimeOffsetTruncates()
    ensures LocalTimeInfoValue(0, 450)[1] == 0
    ensures ToU8(-450 / 900) == 0xff
  {
  }

  // ---------------------------------------------------------------------
  // Devices to notify (Client Characteristic Configuration, Bluetooth Core
  // Specification Vol 3, Part G, section 3.3.3.3)
  // ---------------------------------------------------------------------

  /** One line of the adapter's "configs" storage file, parsed: the peer address and the
      handle from the key, and the strtol value of the hex configuration string. */
  datatype CccEntry = CccEntry(addr: string, handle: u16, value: int)

  /** The entry configures the target descriptor and has the notification bit (0x0001) set
      once the value is narrowed to uint16_t. */
  predicate Subscribed(e: CccEntry, cccHandle: u16)
  {
    e.handle == cccHandle && ToU16(e.value) % 2 == 1
  }

  /** The devices filter_devices_notify appends for the entries, first to last;
      `findDevice` is adapter_find_device on the adapter. */
  function NotifyList<D>(entries: seq<CccEntry>, cccHandle: u16, findDevice: string -> Option<D>): seq<D>
  {
    if entries == [] then []
    else
      var e := entries[|entries| - 1];
      NotifyList(entries[..|entries| - 1], cccHandle, findDevice)
        + (if Subscribed(e, cccHandle) && findDevice(e.addr).Some? then [findDevice(e.addr).value] else [])
  }

  /** devices_to_notify: textfile_foreach runs filter_devices_notify on each entry and
      the matches accumulate in ccc->devices. */
  method DevicesToNotify<D>(entries: seq<CccEntry>, cccHandle: u16, findDevice: string -> Option<D>)
    returns (devices: seq<D>)
    ensures devices == NotifyList(entries, cccHandle, findDevice)
    ensures |devices| <= |entries|
  {
    devices := [];
    var i := 0;
    while i < |entries|
      invariant 0 <= i <= |entries|
      invariant devices == NotifyList(entries[..i], cccHandle, findDevice)
      invariant |devices| <= i
    {
      var e := entries[i];
      assert entries[..i + 1][..i] == entries[..i];
      if e.handle == cccHandle {
        var cccVal := ToU16(e.value);
        if cccVal % 2 == 1 {
          var device := findDevice(e.addr);
          if device.Some? {
            devices := devices + [device.value];
          }
        }
      }
      i := i + 1;
    }
    assert entries[..i] == entries;
  }

  /** The notify list follows storage order: the entries of a prefix come first. */
  lemma {:induction false} NotifyListAppend<D>(a: seq<CccEntry>, b: seq<CccEntry>, h: u16, findDevice: string -> Option<D>)
    ensures NotifyList(a + b, h, findDevice) == NotifyList(a, h, findDevice) + NotifyList(b, h, findDevice)
  {
    if b != [] {
      var b' := b[..|b| - 1];
      assert (a + b)[..|a + b| - 1] == a + b';
      NotifyListAppend(a, b', h, findDevice);
    } else {
      assert a + b == a;
    }
  }

  /** A device is listed iff some entry for the target handle has the notification bit
      set and its address resolves to that device. */
  lemma {:induction false} NotifyListMembers<D>(entries: seq<CccEntry>, h: u16, findDevice: string -> Option<D>, d: D)
    ensures d in NotifyList(entries, h, findDevice) <==>
      exists i :: 0 <= i < |entries| && Subscribed(entries[i], h) && findDevice(entries[i].addr) == Some(d)
  {
    if entries != [] {
      var n := |entries| - 1;
      var init := entries[..n];
      NotifyListMembers(init, h, findDevice, d);
      if d in NotifyList(init, h, findDevice) {
        var i :| 0 <= i < |init| && Subscribed(init[i], h) && findDevice(init[i].addr) == Some(d);
        assert entries[i] == init[i];
      }
      if exists i :: 0 <= i < |entries| && Subscribed(entries[i], h) && findDevice(entries[i].addr) == Some(d) {
        var i :| 0 <= i < |entries| && Subscribed(entries[i], h) && findDevice(entries[i].addr) == Some(d);
        if i < n {
          assert init[i] == entries[i];
        }
      }
    }
  }

  // ---------------------------------------------------------------------
  // Reference Time Update service and server start-up
  // ---------------------------------------------------------------------

  /** time_update_control with the timed provider linked in: a write of any length other
      than one byte is ignored without consulting the provider; a one-byte write is the
      provider's opcode and its answer is returned. */
  method TimeUpdateControl(p: ProviderTimed.TimedProvider, data: seq<u8>) returns (r: u8)
    modifies p
    ensures r == 0
    ensures |data| != 1 ==> p.Current() == old(p.Current())
    ensures |data| == 1 ==> p.Current() == ProviderTimed.ControlEffect(old(p.Current()), data[0] as int)
  {
    if |data| != 1 {
      return 0;
    }
    r := p.Control(data[0] as int);
  }

  /** time_update_status with the timed provider: stores the state and result bytes,
      from which a client recovers the provider's pair, and returns 0. */
  method TimeUpdateStatus(p: ProviderTimed.TimedProvider) returns (r: ReadReply)
    ensures r.status == 0 && |r.stored| == 2
    ensures DecodeState(r.stored[0]) == Some(p.updateState)
    ensures DecodeResult(r.stored[1]) == Some(p.updateResult)
  {
    var state, result := p.Status();
    r := ReadReply(0, [StateCode(state), ResultCode(result)]);
  }

  /** time_update_status with the dummy provider. */
  function TimeUpdateStatusDummy(): (r: ReadReply)
    ensures r.status == 0 && |r.stored| == 2
    ensures DecodeState(r.stored[0]) == Some(Idle)
    ensures DecodeResult(r.stored[1]) == Some(NotAttempted)
  {
    var (state, result) := ProviderDummy.Status();
    ReadReply(0, [StateCode(state), ResultCode(result)])
  }

  /** The characteristic properties the services declare. */
  datatype Property = Read | WriteWithoutResponse | Notify

  /** The callback a characteristic value is bound to. */
  datatype Callback = CurrentTimeReadCb | LocalTimeInfoReadCb | TimeUpdateControlCb | TimeUpdateStatusCb

  datatype Characteristic = Characteristic(uuid: u16, props: set<Property>, callback: Callback)

  /** A primary service handed to gatt_service_add. */
  datatype Service = Service(uuid: u16, chars: seq<Characteristic>)

  const CurrentTimeService: Service :=
    Service(CURRENT_TIME_SVC_UUID, [
      Characteristic(CT_TIME_CHR_UUID, {Read, Notify}, CurrentTimeReadCb),
      Characteristic(LOCAL_TIME_INFO_CHR_UUID, {Read}, LocalTimeInfoReadCb)])

  const ReferenceTimeUpdateService: Service :=
    Service(REF_TIME_UPDATE_SVC_UUID, [
      Characteristic(TIME_UPDATE_CTRL_CHR_UUID, {WriteWithoutResponse}, TimeUpdateControlCb),
      Characteristic(TIME_UPDATE_STAT_CHR_UUID, {Read}, TimeUpdateStatusCb)])

  datatype InitOutcome = InitOutcome(ret: int, registered: seq<Service>)

  /** time_server_init given what time_provider_init returned: the Current Time service is
      always registered, the Reference Time Update service only when the provider started,
      and the result is 0 either way. */
  function TimeServerInit(providerInit: int): (r: InitOutcome)
    ensures r.ret == 0
    ensures |r.registered| >= 1 && r.registered[0] == CurrentTimeService
    ensures ReferenceTimeUpdateService in r.registered <==> providerInit >= 0
    ensures |r.registered| == (if providerInit >= 0 then 2 else 1)
  {
    if providerInit < 0 then InitOutcome(0, [CurrentTimeService])
    else InitOutcome(0, [CurrentTimeService, ReferenceTimeUpdateService])
  }

  /** With the dummy provider both services are always registered. */
  lemma DummyServerRegistersBoth()
    ensures TimeServerInit(ProviderDummy.Init()).registered == [CurrentTimeService, ReferenceTimeUpdateService]
  {
  }
}
