/**
 * The GLib singly-linked-list operations the core uses, on the list's
 * contents: g_slist_prepend and g_slist_append are `[x] + s` and `s + [x]`;
 * g_slist_remove and g_slist_find_custom are defined here.
 */
module GList {
  import opened Wrappers

  /** g_slist_remove: drops the first element equal to x; the list is unchanged when x is absent. */
  function Remove<T(==)>(s: seq<T>, x: T): (r: seq<T>)
  {
    if s == [] then []
    else if s[0] == x then s[1..]
    else [s[0]] + Remove(s[1..], x)
  }

  /** g_slist_find_custom: the position of the first element e with cmp(e, data) == 0. */
  function FindCustom<T, U>(s: seq<T>, data: U, cmp: (T, U) -> int): (r: Option<nat>)
    ensures r.Some? ==> r.value < |s| && cmp(s[r.value], data) == 0
    ensures r.Some? ==> forall j :: 0 <= j < r.value ==> cmp(s[j], data) != 0
    ensures r.None? <==> forall j :: 0 <= j < |s| ==> cmp(s[j], data) != 0
  {
    if s == [] then None
    else if cmp(s[0], data) == 0 then Some(0)
    else match FindCustom(s[1..], data, cmp)
      case None => None
      case Some(i) => Some(i + 1)
  }

  lemma {:induction false} RemoveAbsent<T>(s: seq<T>, x: T)
    requires x !in s
    ensures Remove(s, x) == s
  {
    if s != [] {
      RemoveAbsent(s[1..], x);
    }
  }

  /** Removing x cuts the list exactly at the first position that holds x. */
  lemma {:induction false} RemoveAtFirst<T>(s: seq<T>, x: T, i: nat)
    requires i < |s| && s[i] == x
    requires forall j :: 0 <= j < i ==> s[j] != x
    ensures Remove(s, x) == s[..i] + s[i + 1..]
  {
    if i > 0 {
      RemoveAtFirst(s[1..], x, i - 1);
      assert s[1..][..i - 1] == s[1..i];
      assert s[1..][i..] == s[i + 1..];
      assert s[..i] == [s[0]] + s[1..i];
    }
  }

  /** Remove takes away exactly one occurrence of x when there is one, and nothing else. */
  lemma {:induction false} RemoveMultiset<T>(s: seq<T>, x: T)
    ensures multiset(Remove(s, x)) == multiset(s) - multiset{x}
    ensures x in s ==> |Remove(s, x)| == |s| - 1
    ensures x !in s ==> |Remove(s, x)| == |s|
  {
    if s != [] {
      RemoveMultiset(s[1..], x);
      assert s == [s[0]] + s[1..];
    }
  }
}
