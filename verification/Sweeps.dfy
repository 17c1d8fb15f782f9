/** Bounded expiry sweeps add up to one unbounded sweep. */
module Sweeps {
  import opened Wrappers
  import opened Domain
  import opened Tables
  import opened Ordering
  import opened Payments
  import opened Confirmations
  import opened Invariants
  import opened CoreRuns

  /** Waiting past its deadline with no receipt that stands to pay it. */
  predicate Overdue(t: Tables, id: Id, now: Time) {
    && id in t.payments
    && t.payments[id].status == AwaitingPayment
    && t.payments[id].expiresAt.Some? && t.payments[id].expiresAt.value <= now
    && !Protected(t, t.payments[id])
  }

  /** The deadline is earlier than the other one, or the same with a smaller identifier. */
  predicate EndsBefore(t: Tables, a: Id, b: Id) {
    && a in t.payments && t.payments[a].expiresAt.Some? && b in t.payments && t.payments[b].expiresAt.Some?
    && var x, y := t.payments[a].expiresAt.value, t.payments[b].expiresAt.value; x < y || (x == y && a < b)
  }

  /** A sweep succeeds exactly for a limit of 1 to 1000, and else leaves everything as it is. */
  lemma SweepAnswers(t: Tables, now: Time, limit: int)
    requires CoreInv(t)
    ensures 1 <= limit <= 1000 <==> ExpireDue(t, now, limit).result.Ok?
    ensures !(1 <= limit <= 1000) <==> ExpireDue(t, now, limit) == SweepResult(t, Err(LimitOutOfRange))
  {
    if 1 <= limit <= 1000 { SweepEffect(t, now, limit, FirstOf(Sorted(Due(t, now)), limit)); }
  }

  /** It answers with up to its limit of the overdue payments, those with the first deadlines, in that order. */
  lemma FirstDeadlinesFirst(t: Tables, now: Time, limit: int, ids: seq<Id>)
    requires CoreInv(t) && ExpireDue(t, now, limit).result == Ok(ids)
    ensures
      var overdue := set id | id in t.payments && Overdue(t, id, now);
      && (forall id :: id in ids ==> id in overdue)
      && |ids| == (if limit < |overdue| then limit else |overdue|)
      && (forall i, j :: 0 <= i < j < |ids| ==> EndsBefore(t, ids[i], ids[j]))
      && (forall i, id :: 0 <= i < |ids| && id in overdue && id !in ids ==> EndsBefore(t, ids[i], id))
  {
    SweepAnswers(t, now, limit);
    SweepEffect(t, now, limit, FirstOf(Sorted(Due(t, now)), limit));
    FirstOfDue(t, now, limit);
  }

  lemma FirstOfDue(t: Tables, now: Time, limit: int)
    requires limit >= 0
    ensures
      var ids := FirstOf(Sorted(Due(t, now)), limit);
      var overdue := set id | id in t.payments && Overdue(t, id, now);
      && (forall id :: id in ids ==> id in overdue)
      && |ids| == (if limit < |overdue| then limit else |overdue|)
      && (forall i, j :: 0 <= i < j < |ids| ==> EndsBefore(t, ids[i], ids[j]))
      && (forall i, id :: 0 <= i < |ids| && id in overdue && id !in ids ==> EndsBefore(t, ids[i], id))
  {
    var due := Due(t, now);
    FirstAreFirst(due, limit);
    assert due.Keys == set id | id in t.payments && Overdue(t, id, now);
    assert forall a, b :: a in due && b in due && Precedes(due, a, b) ==> EndsBefore(t, a, b);
  }

  /** A sweep as large as it needs to be. */
  function UnboundedSweep(t: Tables, now: Time): Result<Tables, Error> {
    SortedMembers(Due(t, now));
    ExpireAll(t, Sorted(Due(t, now)), now)
  }

  datatype Swept = Swept(tables: Tables, expired: seq<Id>)

  /** Sweeps at one instant, one for each limit, with their results concatenated. */
  ghost function Repeated(t: Tables, now: Time, limits: seq<int>): Swept
    decreases |limits|
  {
    if limits == [] then Swept(t, [])
    else
      match ExpireDue(t, now, limits[0])
      case SweepResult(_, Err(_)) => Swept(t, [])
      case SweepResult(next, Ok(ids)) =>
        var rest := Repeated(next, now, limits[1..]);
        Swept(rest.tables, ids + rest.expired)
  }

  function Sum(limits: seq<int>): int {
    if limits == [] then 0 else limits[0] + Sum(limits[1..])
  }

  function Shorter(n: int, ids: seq<Id>): int {
    if n < |ids| then n else |ids|
  }

  lemma {:induction false} ExpireAllAppend(t: Tables, a: seq<Id>, b: seq<Id>, now: Time)
    requires CoreInv(t) && Distinct(a + b)
    requires forall id :: id in a + b ==> id in t.payments && t.payments[id].status == AwaitingPayment
    ensures forall id :: id in a ==> id in t.payments
    ensures ExpireAll(t, a, now).Ok?
    ensures CoreInv(ExpireAll(t, a, now).value)
    ensures forall id :: id in b ==> id in ExpireAll(t, a, now).value.payments
    ensures forall id :: id in b ==> Awaits(ExpireAll(t, a, now).value, id)
    ensures ExpireAll(t, a + b, now) == ExpireAll(ExpireAll(t, a, now).value, b, now)
    decreases |a|
  {
    assert forall id :: id in a || id in b <==> id in a + b;
    if a == [] {
      assert a + b == b;
    } else {
      var id := a[0];
      ExpireOneKeepsCore(t, id, now);
      assert (a + b)[1..] == a[1..] + b;
      assert (a + b)[0] == id;
      assert forall other :: other in a[1..] + b ==> other in a + b && other != id;
      ExpireAllAppend(StageExpiry(t, t.payments[id], now).value, a[1..], b, now);
    }
  }

  /** What is due after a sweep is what was due before, less what the sweep expired. */
  lemma DueAfter(t: Tables, t': Tables, now: Time, ids: seq<Id>)
    requires t'.payments == ExpiredPayments(t.payments, ids, now) && t'.receipts == t.receipts
    ensures Due(t', now) == Due(t, now) - Elements(ids)
  {
    forall id | id in t.payments && id !in ids
      ensures IsDue(t', t'.payments[id], now) <==> IsDue(t, t.payments[id], now)
    {
      assert Protected(t', t.payments[id]) <==> Protected(t, t.payments[id]);
    }
  }

  lemma OneSweep(t: Tables, now: Time, limit: int) returns (ids: seq<Id>)
    requires CoreInv(t) && 1 <= limit <= MAX_EXPIRY_BATCH_SIZE
    ensures
      var all := Sorted(Due(t, now));
      var next := ExpireDue(t, now, limit);
      && next.result == Ok(ids) && |ids| == Shorter(limit, all)
      && CoreInv(next.tables)
      && ids + Sorted(Due(next.tables, now)) == all
      && UnboundedSweep(t, now) == UnboundedSweep(next.tables, now)
  {
    var all := Sorted(Due(t, now));
    var k := Shorter(limit, all);
    ids := all[..k];
    assert FirstOf(all, limit) == ids;
    SweepEffect(t, now, limit, ids);
    RestStaysDue(t, now, ids, k);
  }

  lemma RestStaysDue(t: Tables, now: Time, ids: seq<Id>, k: nat)
    requires CoreInv(t) && k <= |Sorted(Due(t, now))| && ids == Sorted(Due(t, now))[..k]
    requires Distinct(ids) && forall id :: id in ids ==> id in t.payments && Waiting(t.payments, id)
    requires ExpireAll(t, ids, now).Ok?
    ensures ids + Sorted(Due(ExpireAll(t, ids, now).value, now)) == Sorted(Due(t, now))
    ensures UnboundedSweep(t, now) == UnboundedSweep(ExpireAll(t, ids, now).value, now)
  {
    var all := Sorted(Due(t, now));
    RemainderDue(t, now, k);
    assert ids + all[k..] == all;
    SweepThenRest(t, now, ids, all[k..]);
  }

  lemma SweepEffect(t: Tables, now: Time, limit: int, ids: seq<Id>)
    requires CoreInv(t) && 1 <= limit <= MAX_EXPIRY_BATCH_SIZE && ids == FirstOf(Sorted(Due(t, now)), limit)
    ensures Distinct(ids) && forall id :: id in ids ==> id in t.payments && Waiting(t.payments, id)
    ensures ExpireAll(t, ids, now).Ok? && CoreInv(ExpireAll(t, ids, now).value)
    ensures ExpireDue(t, now, limit) == SweepResult(ExpireAll(t, ids, now).value, Ok(ids))
  {
    DueIdsAwait(t, now, limit);
    ExpireAllKeepsCore(t, ids, now);
  }

  lemma SweepThenRest(t: Tables, now: Time, ids: seq<Id>, rest: seq<Id>)
    requires CoreInv(t) && Sorted(Due(t, now)) == ids + rest
    requires forall id :: id in ids ==> id in t.payments
    requires ExpireAll(t, ids, now).Ok? && Sorted(Due(ExpireAll(t, ids, now).value, now)) == rest
    ensures UnboundedSweep(t, now) == UnboundedSweep(ExpireAll(t, ids, now).value, now)
  {
    SortedIsOrdered(Due(t, now));
    ExpireAllAppend(t, ids, rest, now);
  }

  lemma RemainderDue(t: Tables, now: Time, k: nat)
    requires k <= |Sorted(Due(t, now))|
    requires Distinct(Sorted(Due(t, now))[..k])
    requires forall id :: id in Sorted(Due(t, now))[..k] ==> id in t.payments && Waiting(t.payments, id)
    ensures ExpireAll(t, Sorted(Due(t, now))[..k], now).Ok?
    ensures Sorted(Due(ExpireAll(t, Sorted(Due(t, now))[..k], now).value, now)) == Sorted(Due(t, now))[k..]
  {
    var ids := Sorted(Due(t, now))[..k];
    ExpireAllEffect(t, ids, now);
    DueAfter(t, ExpireAll(t, ids, now).value, now, ids);
    SortedAfter(Due(t, now), k);
  }

  /**
   * However the batches are cut, the results concatenate to the front of the full due list in deadline order,
   * the rest stays due, and sweeping on from there is sweeping everything at once.
   */
  lemma {:induction false} SweepsAddUp(t: Tables, now: Time, limits: seq<int>)
    requires CoreInv(t) && forall i :: 0 <= i < |limits| ==> 1 <= limits[i] <= MAX_EXPIRY_BATCH_SIZE
    ensures
      var done := Repeated(t, now, limits);
      && CoreInv(done.tables)
      && done.expired + Sorted(Due(done.tables, now)) == Sorted(Due(t, now))
      && |done.expired| == Shorter(Sum(limits), Sorted(Due(t, now)))
      && UnboundedSweep(done.tables, now) == UnboundedSweep(t, now)
    decreases |limits|
  {
    if limits != [] {
      var ids := OneSweep(t, now, limits[0]);
      var next := ExpireDue(t, now, limits[0]).tables;
      SweepsAddUp(next, now, limits[1..]);
      var rest := Repeated(next, now, limits[1..]);
      FirstThenRest(t, now, limits, ids);
      LimitsCount(limits[1..]);
      Joined(ids, rest.expired, Sorted(Due(rest.tables, now)), limits[0], Sum(limits[1..]));
    }
  }

  lemma FirstThenRest(t: Tables, now: Time, limits: seq<int>, ids: seq<Id>)
    requires limits != [] && ExpireDue(t, now, limits[0]).result == Ok(ids)
    ensures
      var rest := Repeated(ExpireDue(t, now, limits[0]).tables, now, limits[1..]);
      Repeated(t, now, limits) == Swept(rest.tables, ids + rest.expired)
  {
  }

  /** Two batches in a row are one batch of both sizes. */
  lemma Joined(a: seq<Id>, b: seq<Id>, c: seq<Id>, m: int, n: int)
    requires |a| == Shorter(m, a + (b + c)) && |b| == Shorter(n, b + c) && n >= 0
    ensures (a + b) + c == a + (b + c)
    ensures |a + b| == Shorter(m + n, a + (b + c))
  {
  }

  lemma {:induction false} LimitsCount(limits: seq<int>)
    requires forall i :: 0 <= i < |limits| ==> 1 <= limits[i]
    ensures Sum(limits) >= |limits|
  {
    if limits != [] {
      LimitsCount(limits[1..]);
    }
  }

  /**
   * Repeating the sweep ends: after at most as many sweeps as there are due payments, whatever the limits, every
   * due and unprotected payment has been expired, in deadline order, the store is that of one unbounded
   * sweep, and a further sweep finds nothing.
   */
  lemma RepeatedSweepsFinish(t: Tables, now: Time, limits: seq<int>, limit: int)
    requires CoreInv(t) && forall i :: 0 <= i < |limits| ==> 1 <= limits[i] <= MAX_EXPIRY_BATCH_SIZE
    requires |limits| >= |Sorted(Due(t, now))| && 1 <= limit <= MAX_EXPIRY_BATCH_SIZE
    ensures Repeated(t, now, limits).expired == Sorted(Due(t, now))
    ensures UnboundedSweep(t, now) == Ok(Repeated(t, now, limits).tables)
    ensures ExpireDue(Repeated(t, now, limits).tables, now, limit)
            == SweepResult(Repeated(t, now, limits).tables, Ok([]))
  {
    LimitsCount(limits);
    SweepsAddUp(t, now, limits);
    var done := Repeated(t, now, limits);
    assert |Sorted(Due(done.tables, now))| == 0;
    var ids := OneSweep(done.tables, now, limit);
    assert done.expired + [] == done.expired;
  }
}
