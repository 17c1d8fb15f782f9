/** Query results ordered by an instant and then by identifier. */
module Ordering {
  import opened Tables

  predicate Before(m: map<Id, Time>, a: Id, b: Id)
    requires a in m && b in m
  {
    m[a] < m[b] || (m[a] == m[b] && a <= b)
  }

  predicate IsFirst(m: map<Id, Time>, k: Id) {
    k in m && forall j :: j in m ==> Before(m, k, j)
  }

  lemma {:induction false} FirstExists(m: map<Id, Time>)
    requires m != map[]
    ensures exists k :: IsFirst(m, k)
    decreases |m|
  {
    var k :| k in m;
    var rest := m - {k};
    if rest == map[] {
      forall j | j in m
        ensures Before(m, k, j)
      {
        assert j in rest || j == k;
      }
      assert IsFirst(m, k);
    } else {
      FirstExists(rest);
      var f :| IsFirst(rest, f);
      var best := if Before(m, k, f) then k else f;
      forall j | j in m
        ensures Before(m, best, j)
      {
        if j != k { assert j in rest && Before(rest, f, j); }
      }
      assert IsFirst(m, best);
    }
  }

  function First(m: map<Id, Time>): (k: Id)
    requires m != map[]
    ensures IsFirst(m, k)
  {
    FirstExists(m);
    assert forall a, b :: IsFirst(m, a) && IsFirst(m, b) ==> Before(m, a, b) && Before(m, b, a);
    var k :| IsFirst(m, k);
    k
  }

  function Sorted(m: map<Id, Time>): seq<Id>
    decreases |m|
  {
    if m == map[] then []
    else
      var k := First(m);
      [k] + Sorted(m - {k})
  }

  ghost predicate Distinct(ids: seq<Id>) {
    forall i, j :: 0 <= i < j < |ids| ==> ids[i] != ids[j]
  }

  ghost function Elements(ids: seq<Id>): set<Id> {
    set id | id in ids
  }

  lemma {:induction false} SortedMembers(m: map<Id, Time>)
    ensures forall id :: id in Sorted(m) <==> id in m
    decreases |m|
  {
    if m != map[] {
      SortedMembers(m - {First(m)});
    }
  }

  lemma {:induction false} SortedDistinct(m: map<Id, Time>)
    ensures Distinct(Sorted(m))
    decreases |m|
  {
    if m != map[] {
      var k := First(m);
      SortedMembers(m - {k});
      SortedDistinct(m - {k});
    }
  }

  ghost predicate InOrder(m: map<Id, Time>, ids: seq<Id>)
    requires forall id :: id in ids ==> id in m
  {
    forall i, j :: 0 <= i < j < |ids| ==> Before(m, ids[i], ids[j])
  }

  lemma {:induction false} SortedInOrder(m: map<Id, Time>)
    ensures forall id :: id in Sorted(m) ==> id in m
    ensures InOrder(m, Sorted(m))
    decreases |m|
  {
    SortedMembers(m);
    if m != map[] {
      var k := First(m);
      var rest := m - {k};
      SortedMembers(rest);
      SortedInOrder(rest);
      FirstInOrder(m, k, Sorted(rest));
    }
  }

  lemma FirstInOrder(m: map<Id, Time>, k: Id, rest: seq<Id>)
    requires IsFirst(m, k) && forall id :: id in rest ==> id in m - {k}
    requires InOrder(m - {k}, rest)
    ensures forall id :: id in [k] + rest ==> id in m
    ensures InOrder(m, [k] + rest)
  {
    var s := [k] + rest;
    forall i, j | 0 <= i < j < |s|
      ensures Before(m, s[i], s[j])
    {
      assert s[j] == rest[j - 1];
      if i > 0 { assert s[i] == rest[i - 1] && Before(m - {k}, rest[i - 1], rest[j - 1]); }
    }
  }

  /** The query returns every key once, in order. */
  lemma SortedIsOrdered(m: map<Id, Time>)
    ensures forall id :: id in Sorted(m) <==> id in m
    ensures Distinct(Sorted(m))
    ensures forall i, j :: 0 <= i < j < |Sorted(m)| ==> Before(m, Sorted(m)[i], Sorted(m)[j])
  {
    SortedMembers(m);
    SortedDistinct(m);
    SortedInOrder(m);
  }

  /** What a query with a limit returns. */
  function FirstOf(ids: seq<Id>, limit: int): seq<Id> {
    if limit < 0 then [] else if limit < |ids| then ids[..limit] else ids
  }

  lemma FirstOfSorted(m: map<Id, Time>, limit: int)
    ensures
      var ids := FirstOf(Sorted(m), limit);
      Distinct(ids) && forall id :: id in ids ==> id in m
  {
    var all, ids := Sorted(m), FirstOf(Sorted(m), limit);
    SortedMembers(m);
    SortedDistinct(m);
    assert forall i :: 0 <= i < |ids| ==> i < |all| && ids[i] == all[i];
  }

  /** One key comes strictly before another: at an earlier instant, or at the same one with a smaller identifier. */
  predicate Precedes(m: map<Id, Time>, a: Id, b: Id)
    requires a in m && b in m
  {
    m[a] < m[b] || (m[a] == m[b] && a < b)
  }

  /** A query with a limit returns so many of the first keys, in order, and whatever it leaves out comes after them. */
  lemma FirstAreFirst(m: map<Id, Time>, limit: int)
    requires limit >= 0
    ensures
      var ids := FirstOf(Sorted(m), limit);
      && (forall id :: id in ids ==> id in m)
      && |ids| == (if limit < |m| then limit else |m|)
      && (forall i, j :: 0 <= i < j < |ids| ==> Precedes(m, ids[i], ids[j]))
      && (forall i, id :: 0 <= i < |ids| && id in m && id !in ids ==> Precedes(m, ids[i], id))
  {
    SortedIsOrdered(m);
    SortedSize(m);
    FirstOfSorted(m, limit);
    FrontFirst(m, Sorted(m), FirstOf(Sorted(m), limit));
  }

  /** A front part of an ordered list comes before the rest. */
  lemma FrontFirst(m: map<Id, Time>, all: seq<Id>, ids: seq<Id>)
    requires ids <= all && Distinct(all) && (forall id :: id in all <==> id in m) && InOrder(m, all)
    ensures forall i, j :: 0 <= i < j < |ids| ==> Precedes(m, ids[i], ids[j])
    ensures forall i, id :: 0 <= i < |ids| && id in m && id !in ids ==> Precedes(m, ids[i], id)
  {
    assert forall i :: 0 <= i < |ids| ==> ids[i] == all[i] && ids[i] in all;
    forall i, id | 0 <= i < |ids| && id in m && id !in ids
      ensures Precedes(m, ids[i], id)
    {
      var j :| 0 <= j < |all| && all[j] == id;
      assert i < j;
    }
  }

  lemma {:induction false} SortedSize(m: map<Id, Time>)
    ensures |Sorted(m)| == |m|
    decreases |m|
  {
    if m != map[] {
      var rest := m - {First(m)};
      SortedSize(rest);
      assert m.Keys == rest.Keys + {First(m)};
    }
  }

  /** Taking away the first results leaves the others, still in order. */
  lemma {:induction false} SortedAfter(m: map<Id, Time>, k: nat)
    requires k <= |Sorted(m)|
    ensures Sorted(m - Elements(Sorted(m)[..k])) == Sorted(m)[k..]
    decreases k
  {
    if k == 0 {
      assert m - Elements(Sorted(m)[..0]) == m;
    } else {
      var f := First(m);
      var rest := m - {f};
      assert Sorted(m) == [f] + Sorted(rest);
      assert Sorted(m)[..k] == [f] + Sorted(rest)[..k - 1];
      SortedAfter(rest, k - 1);
      assert rest - Elements(Sorted(rest)[..k - 1]) == m - Elements(Sorted(m)[..k]);
    }
  }
}
