/** Bounded recoveries after a crash add up to one pass over all pending receipts, oldest first. */
module Recoveries {
  import opened Domain
  import opened Tables
  import opened Ledger
  import opened Ordering
  import opened Payments
  import opened Confirmations
  import opened CoreRuns
  import opened Evidence
  import opened Draining
  import opened Sweeps

  /** What a recovery of at most this many receipts completes. */
  function Oldest(t: Tables, limit: int): seq<Id> {
    FirstOf(Sorted(Pending(t)), limit)
  }

  /** The receipt came before the other one, or at the same instant with a smaller identifier. */
  predicate CameBefore(t: Tables, a: Id, b: Id) {
    && a in t.receipts && b in t.receipts
    && var x, y := t.receipts[a].receivedAt, t.receipts[b].receivedAt; x < y || (x == y && a < b)
  }

  /** A recovery takes up to its limit of the unresolved receipts, those that came first, in the order they came. */
  lemma OldestFirst(t: Tables, limit: int)
    requires limit >= 0
    ensures
      var ids := Oldest(t, limit);
      var unresolved := set c | c in t.receipts && !t.receipts[c].completed;
      && (forall c :: c in ids ==> c in unresolved)
      && |ids| == (if limit < |unresolved| then limit else |unresolved|)
      && (forall i, j :: 0 <= i < j < |ids| ==> CameBefore(t, ids[i], ids[j]))
      && (forall i, c :: 0 <= i < |ids| && c in unresolved && c !in ids ==> CameBefore(t, ids[i], c))
  {
    FirstAreFirst(Pending(t), limit);
    assert Pending(t).Keys == set c | c in t.receipts && !t.receipts[c].completed;
    assert forall a, b :: a in Pending(t) && b in Pending(t) && Precedes(Pending(t), a, b) ==> CameBefore(t, a, b);
  }

  datatype Recovered = Recovered(tables: Tables, ids: seq<Id>)

  /** Recoveries one after the other, one for each limit, with their results concatenated. */
  ghost function RecoverRepeatedly(t: Tables, limits: seq<int>): Recovered
    decreases |limits|
  {
    if limits == [] then Recovered(t, [])
    else
      var ids := Oldest(t, limits[0]);
      var rest := RecoverRepeatedly(CompleteAll(t, ids), limits[1..]);
      Recovered(rest.tables, ids + rest.ids)
  }

  /** Completing a pending receipt takes it, and only it, out of the pending ones. */
  lemma OneLessPending(t: Tables, id: Id)
    requires Inv(t) && id in Pending(t)
    ensures Inv(Complete(t, id).tables)
    ensures Pending(Complete(t, id).tables) == Pending(t) - {id}
  {
    assert ReceiptOk(t, id);
    CompleteKeepsCore(t, id);
    CompleteKeepsEvidence(t, id);
    var k, staged, q, entries, eventType := CompletionCommit(t, id);
    assert staged.receipts == t.receipts;
  }

  lemma {:induction false} PendingAfter(t: Tables, ids: seq<Id>)
    requires Inv(t) && Distinct(ids) && forall id :: id in ids ==> id in Pending(t)
    ensures Inv(CompleteAll(t, ids))
    ensures Pending(CompleteAll(t, ids)) == Pending(t) - Elements(ids)
    decreases |ids|
  {
    if ids == [] {
      assert Pending(t) - Elements(ids) == Pending(t);
    } else {
      var next := Complete(t, ids[0]).tables;
      OneLessPending(t, ids[0]);
      assert forall id :: id in ids <==> id == ids[0] || id in ids[1..];
      assert ids[0] !in ids[1..];
      PendingAfter(next, ids[1..]);
      assert Pending(t) - {ids[0]} - Elements(ids[1..]) == Pending(t) - Elements(ids);
    }
  }

  lemma {:induction false} CompleteAllAppend(t: Tables, a: seq<Id>, b: seq<Id>)
    ensures CompleteAll(t, a + b) == CompleteAll(CompleteAll(t, a), b)
    decreases |a|
  {
    if a == [] {
      assert a + b == b;
    } else {
      assert (a + b)[1..] == a[1..] + b;
      CompleteAllAppend(Complete(t, a[0]).tables, a[1..], b);
    }
  }

  /** One recovery takes the front of the pending list and leaves the rest in its order. */
  lemma OneRecovery(t: Tables, limit: int) returns (ids: seq<Id>)
    requires Inv(t) && 1 <= limit <= MAX_RECOVERY_BATCH_SIZE
    ensures ids == Oldest(t, limit) && |ids| == Shorter(limit, Sorted(Pending(t)))
    ensures Inv(CompleteAll(t, ids))
    ensures ids + Sorted(Pending(CompleteAll(t, ids))) == Sorted(Pending(t))
  {
    var all := Sorted(Pending(t));
    var k := Shorter(limit, all);
    ids := all[..k];
    assert FirstOf(all, limit) == ids;
    FirstOfSorted(Pending(t), limit);
    PendingAfter(t, ids);
    SortedAfter(Pending(t), k);
    assert ids + all[k..] == all;
  }

  /**
   * However the batches are cut, the results concatenate to the front of the pending list, the rest stays pending,
   * and the store is the one of a single pass over what was completed.
   */
  lemma {:induction false} RecoveriesAddUp(t: Tables, limits: seq<int>)
    requires Inv(t) && forall i :: 0 <= i < |limits| ==> 1 <= limits[i] <= MAX_RECOVERY_BATCH_SIZE
    ensures
      var done := RecoverRepeatedly(t, limits);
      && Inv(done.tables)
      && done.ids + Sorted(Pending(done.tables)) == Sorted(Pending(t))
      && |done.ids| == Shorter(Sum(limits), Sorted(Pending(t)))
      && done.tables == CompleteAll(t, done.ids)
    decreases |limits|
  {
    if limits != [] {
      var ids := OneRecovery(t, limits[0]);
      var next := CompleteAll(t, ids);
      RecoveriesAddUp(next, limits[1..]);
      var rest := RecoverRepeatedly(next, limits[1..]);
      LimitsCount(limits[1..]);
      Joined(ids, rest.ids, Sorted(Pending(rest.tables)), limits[0], Sum(limits[1..]));
      CompleteAllAppend(t, ids, rest.ids);
    }
  }

  /**
   * Repeating the recovery ends: after at most as many recoveries as there are pending receipts, whatever the
   * limits, nothing is pending, the receipts were completed oldest first, each once, and the store is that of one
   * pass over the whole list.
   */
  lemma RepeatedRecoveriesFinish(t: Tables, limits: seq<int>)
    requires Inv(t) && forall i :: 0 <= i < |limits| ==> 1 <= limits[i] <= MAX_RECOVERY_BATCH_SIZE
    requires |limits| >= |Sorted(Pending(t))|
    ensures
      var done := RecoverRepeatedly(t, limits);
      && done.ids == Sorted(Pending(t))
      && done.tables == CompleteAll(t, Sorted(Pending(t)))
      && Pending(done.tables) == map[]
  {
    LimitsCount(limits);
    RecoveriesAddUp(t, limits);
    var done := RecoverRepeatedly(t, limits);
    assert |Sorted(Pending(done.tables))| == 0;
    assert done.ids + [] == done.ids;
    SortedMembers(Pending(done.tables));
  }

  /**
   * Recovery decides every waiting payment: paid in full exactly when one of its pending receipts matched on time,
   * expired exactly when none did and one was late, with one ledger effect and one applied record or none.
   */
  lemma RecoveryDecides(t: Tables, limits: seq<int>, id: Id)
    requires Inv(t) && forall i :: 0 <= i < |limits| ==> 1 <= limits[i] <= MAX_RECOVERY_BATCH_SIZE
    requires |limits| >= |Sorted(Pending(t))|
    requires id in t.payments && t.payments[id].status == AwaitingPayment
    ensures
      var p, t' := t.payments[id], RecoverRepeatedly(t, limits).tables;
      && id in t'.payments
      && (t'.payments[id].status == Captured <==> Protected(t, p))
      && (t'.payments[id].status == Expired <==> !Protected(t, p) && AnyLate(t, p, Sorted(Pending(t))))
      && |AppliedTo(t', id)| == CountOf(EntriesOf(t'.ledger, id), ConfirmationCaptureEntry)
         == (if Protected(t, p) then 1 else 0)
  {
    RepeatedRecoveriesFinish(t, limits);
    SortedMembers(Pending(t));
    FullDrain(t, Sorted(Pending(t)), id);
  }
}
