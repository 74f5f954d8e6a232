/**
 * src/system.c: the registry of platform "system ops" (lock, unlock, alert).
 * Registration keeps a list; the first entry is the one in use and is cached
 * in the global `system_ops`.
 */
module SystemOps {
  import opened CTypes
  import opened Wrappers
  import GList

  /** A struct system_ops, known only by its address. */
  type OpsRef = nat

  class Registry {
    /** system_ops_list */
    var opsList: seq<OpsRef>
    /** system_ops, NULL being None */
    var current: Option<OpsRef>

    /** The cached pointer is NULL exactly when the list is empty, and the head otherwise. */
    ghost predicate Valid()
      reads this
    {
      current == (if opsList == [] then None else Some(opsList[0]))
    }

    /** Both globals start NULL. */
    constructor ()
      ensures Valid() && opsList == [] && current == None
    {
      opsList := [];
      current := None;
    }

    /** btd_register_system_ops: a priority entry goes first and so becomes the one in use;
        any other goes last. There is no de-duplication and the result is always 0. */
    method RegisterSystemOps(ops: OpsRef, priority: bool) returns (r: int)
      modifies this
      ensures Valid()
      ensures r == 0
      ensures opsList == if priority then [ops] + old(opsList) else old(opsList) + [ops]
      ensures |opsList| == |old(opsList)| + 1
      ensures priority ==> current == Some(ops)
      ensures !priority && old(opsList) != [] ==> current == Some(old(opsList)[0])
    {
      if priority {
        opsList := [ops] + opsList;
      } else {
        opsList := opsList + [ops];
      }
      current := Some(opsList[0]);
      return 0;
    }

    /** btd_unregister_system_ops: drops the first occurrence of ops and re-reads the head. */
    method UnregisterSystemOps(ops: OpsRef)
      modifies this
      ensures Valid()
      ensures opsList == GList.Remove(old(opsList), ops)
      ensures ops !in old(opsList) ==> opsList == old(opsList)
      ensures multiset(opsList) == multiset(old(opsList)) - multiset{ops}
    {
      GList.RemoveMultiset(opsList, ops);
      if ops !in opsList {
        GList.RemoveAbsent(opsList, ops);
      }
      opsList := GList.Remove(opsList, ops);
      current := if opsList != [] then Some(opsList[0]) else None;
    }

    /** btd_system_lock: -EINVAL with nothing registered, else what the current ops'
        lock() answers (`lockCb` stands for those callbacks). */
    method SystemLock(lockCb: OpsRef -> int) returns (r: int)
      requires Valid()
      ensures opsList == [] ==> r == -EINVAL
      ensures opsList != [] ==> r == lockCb(opsList[0])
    {
      if current.None? {
        return -EINVAL;
      }
      return lockCb(current.value);
    }

    /** btd_system_unlock: as SystemLock, with the unlock() callback. */
    method SystemUnlock(unlockCb: OpsRef -> int) returns (r: int)
      requires Valid()
      ensures opsList == [] ==> r == -EINVAL
      ensures opsList != [] ==> r == unlockCb(opsList[0])
    {
      if current.None? {
        return -EINVAL;
      }
      return unlockCb(current.value);
    }

    /** btd_system_enable_alert: only whether some ops is registered matters. */
    method SystemEnableAlert(interval: int, vibrate: bool) returns (r: int)
      requires Valid()
      ensures r == (if opsList == [] then -EINVAL else 0)
    {
      if current.None? {
        return -EINVAL;
      }
      return 0;
    }

    /** btd_system_disable_alert: it returns nothing and changes nothing (no modifies clause). */
    method SystemDisableAlert()
      requires Valid()
      ensures Valid()
    {
      if current.None? {
        return;
      }
    }
  }

  /** Registering and then unregistering the same ops restores the list when it was
      registered with priority, or was not yet present. */
  lemma RegisterThenUnregister(list: seq<OpsRef>, ops: OpsRef, priority: bool)
    requires priority || ops !in list
    ensures GList.Remove(if priority then [ops] + list else list + [ops], ops) == list
  {
    if !priority {
      GList.RemoveAtFirst(list + [ops], ops, |list|);
      assert (list + [ops])[..|list|] == list;
    }
  }
}
