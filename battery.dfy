/**
 * profiles/battery/battery.c: the per-device battery records. Each record
 * holds a reference on its device; registration prepends a record,
 * unregistration removes the first record of the device and drops that
 * reference.
 */
module Battery {
  import opened Wrappers
  import GList

  /** struct btd_device, with the reference count btd_device_ref/unref maintain. */
  class Device {
    var refs: int

    constructor (refs: int)
      ensures this.refs == refs
    {
      this.refs := refs;
    }
  }

  /** struct battery */
  class BatteryRecord {
    const dev: Device

    constructor (dev: Device)
      ensures this.dev == dev
    {
      this.dev := dev;
    }
  }

  /** cmp_device: 0 when the record belongs to the device, -1 otherwise. */
  function CmpDevice(batt: BatteryRecord, dev: Device): (r: int)
    ensures r == 0 <==> batt.dev == dev
    ensures r == 0 || r == -1
  {
    if dev == batt.dev then 0 else -1
  }

  /** The number of records in `servers` that belong to `dev`. */
  function Count(servers: seq<BatteryRecord>, dev: Device): nat
  {
    if servers == [] then 0
    else Count(servers[..|servers| - 1], dev) + (if servers[|servers| - 1].dev == dev then 1 else 0)
  }

  lemma {:induction false} CountAppend(a: seq<BatteryRecord>, b: seq<BatteryRecord>, dev: Device)
    ensures Count(a + b, dev) == Count(a, dev) + Count(b, dev)
  {
    if b == [] {
      assert a + b == a;
    } else {
      assert (a + b)[..|a + b| - 1] == a + b[..|b| - 1];
      CountAppend(a, b[..|b| - 1], dev);
    }
  }

  /** Cutting out one record lowers its device's count by one and leaves every other
      device's count alone. */
  lemma CountCut(s: seq<BatteryRecord>, i: nat, dev: Device)
    requires i < |s|
    ensures Count(s[..i] + s[i + 1..], dev) == Count(s, dev) - (if s[i].dev == dev then 1 else 0)
  {
    assert s == s[..i] + [s[i]] + s[i + 1..];
    CountAppend(s[..i] + [s[i]], s[i + 1..], dev);
    CountAppend(s[..i], [s[i]], dev);
    CountAppend(s[..i], s[i + 1..], dev);
    assert [s[i]][..0] == [];
  }

  /** battery_unregister removes the very record g_slist_find_custom found: there is no
      earlier occurrence of that record, since it would belong to the device as well. */
  lemma {:induction false} RemoveFoundRecord(servers: seq<BatteryRecord>, dev: Device, i: nat)
    requires GList.FindCustom(servers, dev, CmpDevice) == Some(i)
    ensures i < |servers|
    ensures GList.Remove(servers, servers[i]) == servers[..i] + servers[i + 1..]
  {
    var batt := servers[i];
    forall j | 0 <= j < i
      ensures servers[j] != batt
    {
      assert CmpDevice(servers[j], dev) != 0;
    }
    GList.RemoveAtFirst(servers, batt, i);
  }

  class Registry {
    /** servers */
    var servers: seq<BatteryRecord>

    /** The list starts empty. */
    constructor ()
      ensures servers == []
    {
      servers := [];
    }

    /** battery_register: a new record referencing the device goes to the head of the list,
        even when the device already has one, and the device gains a reference. */
    method BatteryRegister(device: Device) returns (r: int)
      modifies this, device
      ensures r == 0
      ensures |servers| == |old(servers)| + 1 && servers[1..] == old(servers)
      ensures fresh(servers[0]) && servers[0].dev == device
      ensures device.refs == old(device.refs) + 1
      ensures Count(servers, device) == Count(old(servers), device) + 1
    {
      device.refs := device.refs + 1;
      var batt := new BatteryRecord(device);
      servers := [batt] + servers;
      CountAppend([batt], old(servers), device);
      assert [batt][..0] == [];
      return 0;
    }

    /** battery_free: drops the record's device reference (the record's memory is not modelled). */
    static method BatteryFree(batt: BatteryRecord)
      modifies batt.dev
      ensures batt.dev.refs == old(batt.dev.refs) - 1
    {
      batt.dev.refs := batt.dev.refs - 1;
    }

    /** battery_unregister: with no record for the device nothing changes; otherwise the
        first record of the device, the most recently registered one, is removed, the
        others keep their order and the device loses exactly one reference. */
    method BatteryUnregister(device: Device)
      modifies this, device
      ensures var found := GList.FindCustom(old(servers), device, CmpDevice);
        if found.None? then
          servers == old(servers) && device.refs == old(device.refs)
        else
          && found.value < |old(servers)|
          && servers == old(servers)[..found.value] + old(servers)[found.value + 1..]
          && device.refs == old(device.refs) - 1
      ensures Count(old(servers), device) == 0 ==> servers == old(servers) && device.refs == old(device.refs)
      ensures Count(old(servers), device) > 0 ==>
        Count(servers, device) == Count(old(servers), device) - 1 && device.refs == old(device.refs) - 1
    {
      var l := GList.FindCustom(servers, device, CmpDevice);
      if l.None? {
        NoRecordNoCount(servers, device);
        return;
      }
      var batt := servers[l.value];
      RemoveFoundRecord(servers, device, l.value);
      CountCut(servers, l.value, device);
      servers := GList.Remove(servers, batt);
      BatteryFree(batt);
    }
  }

  lemma {:induction false} NoRecordNoCount(servers: seq<BatteryRecord>, dev: Device)
    requires forall j :: 0 <= j < |servers| ==> CmpDevice(servers[j], dev) != 0
    ensures Count(servers, dev) == 0
  {
    if servers != [] {
      NoRecordNoCount(servers[..|servers| - 1], dev);
    }
  }

  /** Registering then unregistering a device gives back the same list: the new record is
      the first match. */
  lemma RegisterThenUnregister(servers: seq<BatteryRecord>, batt: BatteryRecord)
    ensures GList.FindCustom([batt] + servers, batt.dev, CmpDevice) == Some(0)
    ensures GList.Remove([batt] + servers, batt) == servers
  {
  }
}
