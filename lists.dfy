/**
 * The `java.util.List` operations the schedulers rely on, over sequences:
 * removal by position and by object (`List.remove(Object)` drops the first
 * occurrence), and the facts about lists without duplicates that make the
 * retirement of one layer well defined.
 */
module Lists {
  import opened Wrappers

  /** The set of a list's entries; for a list of objects, what a frame over the list names. */
  function Elements<T>(s: seq<T>): set<T>
  {
    set x | x in s
  }

  function RemoveAt<T>(s: seq<T>, i: nat): (r: seq<T>)
    requires i < |s|
    ensures |r| == |s| - 1
    ensures forall k :: 0 <= k < i ==> r[k] == s[k]
    ensures forall k :: i <= k < |r| ==> r[k] == s[k + 1]
  {
    s[..i] + s[i + 1..]
  }

  /** The position at which `List.remove(Object)` finds `x`: its first occurrence. */
  function IndexOf<T(==)>(s: seq<T>, x: T): (i: nat)
    requires x in s
    ensures i < |s| && s[i] == x && x !in s[..i]
    decreases |s|
  {
    if s[0] == x then 0
    else
      assert x in s[1..];
      var j := IndexOf(s[1..], x);
      assert s[..j + 1] == [s[0]] + s[1..][..j];
      j + 1
  }

  /** `List.remove(Object)`: drop the first occurrence of `x`, if there is one. */
  function RemoveFirst<T(==)>(s: seq<T>, x: T): (r: seq<T>)
    ensures x in s ==> |r| == |s| - 1 && r == s[..IndexOf(s, x)] + s[IndexOf(s, x) + 1..]
    ensures x !in s ==> r == s
  {
    if x in s then RemoveAt(s, IndexOf(s, x)) else s
  }

  predicate Distinct<T(==)>(s: seq<T>)
  {
    forall i, j :: 0 <= i < j < |s| ==> s[i] != s[j]
  }

  /** Putting a new element in front keeps a list free of duplicates. */
  lemma PrependDistinct<T>(x: T, s: seq<T>)
    requires Distinct(s) && x !in s
    ensures Distinct([x] + s)
  {
    var r := [x] + s;
    forall a, b | 0 <= a < b < |r|
      ensures r[a] != r[b]
    {
      assert r[b] == s[b - 1];
      if a > 0 {
        assert r[a] == s[a - 1];
      }
    }
  }

  /** In a list without duplicates, the first occurrence of an element is its only position. */
  lemma IndexOfDistinct<T>(s: seq<T>, i: nat)
    requires Distinct(s) && i < |s|
    ensures IndexOf(s, s[i]) == i
  {
    var k := IndexOf(s, s[i]);
    assert s[..k + 1][k] == s[i];
  }

  /** Removing an element keeps a list free of duplicates and drops exactly that element. */
  lemma RemoveAtDistinct<T>(s: seq<T>, i: nat)
    requires Distinct(s) && i < |s|
    ensures Distinct(RemoveAt(s, i))
    ensures forall x :: x in RemoveAt(s, i) <==> x in s && x != s[i]
  {
    var r := RemoveAt(s, i);
    forall x | x in s && x != s[i]
      ensures x in r
    {
      var k :| 0 <= k < |s| && s[k] == x;
      if k < i {
        assert r[k] == x;
      } else {
        assert r[k - 1] == x;
      }
    }
  }

  /**
   * Retiring an old layer from behind the spawns: in the combined list, its
   * first occurrence is its own position shifted by the spawns, and removing
   * it keeps the spawns in front of exactly the survivors, without duplicates.
   */
  lemma RetireBehindSpawns<T>(spawned: seq<T>, ls: seq<T>, gone: Option<nat>)
    requires Distinct(spawned) && Distinct(ls)
    requires forall a, b :: 0 <= a < |spawned| && 0 <= b < |ls| ==> spawned[a] != ls[b]
    requires gone.Some? ==> gone.value < |ls|
    ensures Distinct(spawned + ls)
    ensures gone.Some? ==>
              var all := spawned + ls;
              && IndexOf(all, ls[gone.value]) == |spawned| + gone.value
              && Distinct(RemoveFirst(all, ls[gone.value]))
              && RemoveFirst(all, ls[gone.value]) == spawned + Survivors(ls, gone)
  {
    var all := spawned + ls;
    assert Distinct(all) by {
      forall a, b | 0 <= a < b < |all|
        ensures all[a] != all[b]
      {
        if b < |spawned| {
          assert all[a] == spawned[a] && all[b] == spawned[b];
        } else if a < |spawned| {
          assert all[a] == spawned[a] && all[b] == ls[b - |spawned|];
        } else {
          assert all[a] == ls[a - |spawned|] && all[b] == ls[b - |spawned|];
        }
      }
    }
    if gone.Some? {
      var j := gone.value;
      assert all[|spawned| + j] == ls[j];
      IndexOfDistinct(all, |spawned| + j);
      RemoveAtDistinct(all, |spawned| + j);
      assert ls[j] in all;
      assert RemoveAt(all, |spawned| + j) == spawned + RemoveAt(ls, j);
    }
  }

  /** The layers that survive a retirement. */
  function Survivors<T>(s: seq<T>, gone: Option<nat>): (r: seq<T>)
    requires gone.Some? ==> gone.value < |s|
    ensures |r| == |s| - (if gone.Some? then 1 else 0)
    ensures gone.None? ==> r == s
  {
    match gone
    case None => s
    case Some(i) => RemoveAt(s, i)
  }

  /** Entry `k` of the survivors is the entry of `s` at `k`, or at `k + 1` once past the retired one. */
  lemma SurvivorAt<T>(s: seq<T>, gone: Option<nat>, k: nat)
    requires gone.Some? ==> gone.value < |s|
    requires k < |Survivors(s, gone)|
    ensures gone.None? || k < gone.value ==> Survivors(s, gone)[k] == s[k]
    ensures gone.Some? && k >= gone.value ==> k + 1 < |s| && Survivors(s, gone)[k] == s[k + 1]
  {
  }

  /** Two lists without duplicates and without a common element join into one without duplicates. */
  lemma AppendDistinct<T>(s: seq<T>, t: seq<T>)
    requires Distinct(s) && Distinct(t)
    requires forall a, b :: 0 <= a < |s| && 0 <= b < |t| ==> s[a] != t[b]
    ensures Distinct(s + t)
  {
    var all := s + t;
    forall a, b | 0 <= a < b < |all|
      ensures all[a] != all[b]
    {
      if b < |s| {
        assert all[a] == s[a] && all[b] == s[b];
      } else if a < |s| {
        assert all[a] == s[a] && all[b] == t[b - |s|];
      } else {
        assert all[a] == t[a - |s|] && all[b] == t[b - |s|];
      }
    }
  }

  /**
   * Retiring an old element from in front of appended ones: its first
   * occurrence in the combined list is its own position, and removing it
   * leaves the survivors followed by the appended elements, without duplicates.
   */
  lemma RetireBeforeAppends<T>(ls: seq<T>, appended: seq<T>, gone: Option<nat>)
    requires Distinct(ls) && Distinct(appended)
    requires forall a, b :: 0 <= a < |ls| && 0 <= b < |appended| ==> ls[a] != appended[b]
    requires gone.Some? ==> gone.value < |ls|
    ensures Distinct(ls + appended)
    ensures gone.Some? ==>
              var all := ls + appended;
              && IndexOf(all, ls[gone.value]) == gone.value
              && Distinct(RemoveFirst(all, ls[gone.value]))
              && RemoveFirst(all, ls[gone.value]) == Survivors(ls, gone) + appended
  {
    var all := ls + appended;
    AppendDistinct(ls, appended);
    if gone.Some? {
      var j := gone.value;
      assert all[j] == ls[j];
      IndexOfDistinct(all, j);
      RemoveAtDistinct(all, j);
      assert ls[j] in all;
      assert RemoveAt(all, j) == RemoveAt(ls, j) + appended;
    }
  }
}
