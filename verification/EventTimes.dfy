/**
 * Runs whose clock never goes back and whose new payment references no receipt names yet: the versions of a payment
 * are in time order, and the applied record is dated as the captured version.
 */
module EventTimes {
  import opened Wrappers
  import opened Domain
  import opened Tables
  import opened Ordering
  import opened Confirmations
  import opened Runs
  import opened Invariants
  import opened CoreRuns
  import opened Evidence
  import opened Clocks

  /** No receipt names the reference a new payment is given. */
  ghost predicate FreshReference(t: Tables, s: Step) {
    s.AuthorizeStep? ==> forall c :: c in t.receipts ==> t.receipts[c].command.reference != s.freshReference
  }

  /** Receipts are dated under the writer lock as well; authorizations and sweeps may be dated back. */
  ghost predicate Timely(t: Tables, clock: Time, s: Step) {
    && OnClock(t, clock, s)
    && FreshReference(t, s)
    && (s.AcceptStep? && Apply(t, s) != t ==> clock <= s.now)
  }

  ghost predicate TimelyRun(t: Tables, clock: Time, steps: seq<Step>)
    decreases |steps|
  {
    steps == []
    || (Timely(t, clock, steps[0]) && TimelyRun(Apply(t, steps[0]), Advance(t, clock, steps[0]), steps[1..]))
  }

  ghost predicate EventsInOrder(events: seq<Event>) {
    forall i, j :: 0 <= i < j < |events| ==> events[i].createdAt <= events[j].createdAt
  }

  /** An expiry may be dated later than any clock reading; no version comes after it. */
  ghost predicate PaymentTimes(t: Tables, clock: Time, id: Id)
    requires id in t.payments
  {
    var p := t.payments[id];
    && EventsInOrder(EventsOf(t.outbox, id))
    && p.createdAt <= clock
    && (p.status != Expired ==> p.updatedAt <= clock)
    && (forall c :: c in t.receipts && p.reference == Some(t.receipts[c].command.reference)
                    ==> p.createdAt <= t.receipts[c].receivedAt)
  }

  /** The applied record carries the instant of the captured version. */
  ghost predicate AppliedDated(t: Tables, id: Id) {
    var events := EventsOf(t.outbox, id);
    forall c :: c in AppliedTo(t, id) ==>
      && |events| >= 2
      && events[1].snapshot.status == Captured
      && events[1].createdAt == t.confirmations[c].receivedAt
  }

  ghost predicate TimeInv(t: Tables, clock: Time) {
    && ReceiptsDated(t, clock)
    && (forall id {:trigger PaymentTimes(t, clock, id)} :: id in t.payments ==> PaymentTimes(t, clock, id))
    && (forall id {:trigger AppliedDated(t, id)} :: id in t.payments ==> AppliedDated(t, id))
  }

  /** A waiting payment is as it was created. */
  lemma WaitingIsNew(t: Tables, id: Id)
    requires id in t.payments && PaymentOk(t, id) && t.payments[id].status == AwaitingPayment
    ensures t.payments[id].version == 1 && t.payments[id].updatedAt == t.payments[id].createdAt
  {
    var events := EventsOf(t.outbox, id);
    if |events| > 1 {
      NeverWaitsAgain(events[|events| - 2].snapshot, events[|events| - 1].snapshot);
    }
  }

  lemma NeverWaitsAgain(before: Payment, after: Payment)
    requires Follows(before, after)
    ensures after.status != AwaitingPayment
  {
    var a :| Legal(before, a, after);
  }

  lemma LaterClock(t: Tables, clock: Time, later: Time)
    requires TimeInv(t, clock) && clock <= later
    ensures TimeInv(t, later)
  {
    forall id | id in t.payments
      ensures PaymentTimes(t, later, id)
    {
      assert PaymentTimes(t, clock, id);
    }
  }

  lemma StagedEventTimes(outbox: seq<Event>, p: Payment, q: Payment, eventType: EventType)
    requires History(EventsOf(outbox, q.id), p) && EventsInOrder(EventsOf(outbox, q.id)) && p.updatedAt <= q.updatedAt
    ensures EventsInOrder(EventsOf(outbox + [OutboxEvent(|outbox|, q, eventType)], q.id))
  {
    var events, e := EventsOf(outbox, q.id), OutboxEvent(|outbox|, q, eventType);
    EventsAppend(outbox, e, q.id);
    assert events[|events| - 1].createdAt <= e.createdAt by { assert EventFits(events[|events| - 1], |events|, p.id); }
    OrderExtends(events, e);
  }

  lemma OrderExtends(events: seq<Event>, e: Event)
    requires EventsInOrder(events) && events != [] && events[|events| - 1].createdAt <= e.createdAt
    ensures EventsInOrder(events + [e])
  {
  }

  /** Writing a payment at an instant no earlier than its last version keeps its times in order. */
  lemma StagedTimes(t: Tables, clock: Time, q: Payment, entries: seq<LedgerEntry>, eventType: EventType)
    requires q.id in t.payments && PaymentOk(t, q.id) && PaymentTimes(t, clock, q.id) && AppliedDated(t, q.id)
    requires q.reference == t.payments[q.id].reference && q.createdAt == t.payments[q.id].createdAt
    requires t.payments[q.id].updatedAt <= q.updatedAt && (q.status != Expired ==> q.updatedAt <= clock)
    ensures PaymentTimes(StageRow(t, q, entries, eventType), clock, q.id)
    ensures AppliedDated(StageRow(t, q, entries, eventType), q.id)
  {
    StagedEventTimes(t.outbox, t.payments[q.id], q, eventType);
    EventsAppend(t.outbox, OutboxEvent(|t.outbox|, q, eventType), q.id);
  }

  lemma StageKeepsTimes(t: Tables, clock: Time, q: Payment, entries: seq<LedgerEntry>, eventType: EventType)
    requires TimeInv(t, clock)
    requires PaymentTimes(StageRow(t, q, entries, eventType), clock, q.id)
    requires AppliedDated(StageRow(t, q, entries, eventType), q.id)
    ensures TimeInv(StageRow(t, q, entries, eventType), clock)
  {
    var t' := StageRow(t, q, entries, eventType);
    forall id | id in t'.payments
      ensures PaymentTimes(t', clock, id) && AppliedDated(t', id)
    {
      if id != q.id {
        assert PaymentTimes(t, clock, id) && AppliedDated(t, id);
      }
    }
  }

  lemma CreatedTimes(t: Tables, clock: Time, q: Payment, entries: seq<LedgerEntry>, eventType: EventType)
    requires EvidenceInv(t) && Linked(t) && q.id !in t.payments && q.updatedAt == q.createdAt <= clock
    requires forall c :: c in t.receipts ==> q.reference != Some(t.receipts[c].command.reference)
    ensures PaymentTimes(StageRow(t, q, entries, eventType), clock, q.id)
    ensures AppliedDated(StageRow(t, q, entries, eventType), q.id)
  {
    var t' := StageRow(t, q, entries, eventType);
    NothingYet(t, q.id);
    EventsAppend(t.outbox, OutboxEvent(|t.outbox|, q, eventType), q.id);
    NothingAppliedTo(t, q.id);
    assert AppliedTo(t', q.id) == AppliedTo(t, q.id);
  }

  lemma NothingAppliedTo(t: Tables, id: Id)
    requires EvidenceInv(t) && id !in t.payments
    ensures AppliedTo(t, id) == {}
  {
    forall c | c in t.confirmations
      ensures c !in AppliedTo(t, id)
    {
      assert ConfirmationOk(t, c);
    }
  }

  lemma RequestKeepsTimes(t: Tables, clock: Time, s: Step)
    requires Inv(t) && TimeInv(t, clock) && Timely(t, clock, s) && s.IsRequest()
    ensures TimeInv(Apply(t, s), Advance(t, clock, s))
  {
    var t', latest := Apply(t, s), Advance(t, clock, s);
    if t' != t {
      LaterClock(t, clock, latest);
      var q, entries, eventType := RequestCommit(t, s);
      if s.AuthorizeStep? {
        CreatedTimes(t, latest, q, entries, eventType);
      } else {
        assert PaymentOk(t, q.id) && PaymentTimes(t, clock, q.id) && PaymentTimes(t, latest, q.id);
        assert AppliedDated(t, q.id);
        StagedTimes(t, latest, q, entries, eventType);
      }
      StageKeepsTimes(t, latest, q, entries, eventType);
      SameTimes(StageRow(t, q, entries, eventType), t', latest);
    }
  }

  lemma SameTimes(t: Tables, t': Tables, clock: Time)
    requires TimeInv(t, clock)
    requires t'.payments == t.payments && t'.outbox == t.outbox
    requires t'.receipts == t.receipts && t'.confirmations == t.confirmations
    ensures TimeInv(t', clock)
  {
    forall id | id in t'.payments
      ensures PaymentTimes(t', clock, id) && AppliedDated(t', id)
    {
      assert PaymentTimes(t, clock, id) && AppliedDated(t, id);
      assert AppliedTo(t', id) == AppliedTo(t, id);
    }
  }

  lemma AcceptKeepsTimes(t: Tables, clock: Time, command: ConfirmationCommand, now: Time)
    requires TimeInv(t, clock) && Timely(t, clock, AcceptStep(command, now))
    ensures TimeInv(Accept(t, command, now).tables, Advance(t, clock, AcceptStep(command, now)))
  {
    var t' := Accept(t, command, now).tables;
    if t' != t {
      LaterClock(t, clock, now);
      forall id | id in t'.payments
        ensures PaymentTimes(t', now, id) && AppliedDated(t', id)
      {
        assert PaymentTimes(t, now, id) && AppliedDated(t, id);
        ReceiptKeepsPaymentTimes(t, t', now, id);
      }
    }
  }

  /** A receipt that arrives now arrives after every payment was created. */
  lemma ReceiptKeepsPaymentTimes(t: Tables, t': Tables, now: Time, id: Id)
    requires id in t.payments && PaymentTimes(t, now, id) && AppliedDated(t, id)
    requires t' == t.(receipts := t'.receipts)
    requires forall c :: c in t'.receipts ==>
               (c in t.receipts && t'.receipts[c] == t.receipts[c]) || t'.receipts[c].receivedAt == now
    ensures PaymentTimes(t', now, id) && AppliedDated(t', id)
  {
    assert AppliedTo(t', id) == AppliedTo(t, id);
  }

  /** Every version of a payment has the same identity. */
  lemma {:induction false} IdentityKept(events: seq<Event>, p: Payment, i: nat)
    requires History(events, p) && i < |events|
    ensures Continues(events[0].snapshot, events[i].snapshot)
    decreases i
  {
    if i > 0 {
      IdentityKept(events, p, i - 1);
      assert EventFits(events[i - 1], i, p.id) && Follows(events[i - 1].snapshot, events[i].snapshot);
      var a :| Legal(events[i - 1].snapshot, a, events[i].snapshot);
      LegalContinues(events[i - 1].snapshot, a, events[i].snapshot);
    }
  }

  lemma ResolvedTimes(staged: Tables, clock: Time, id: Id, k: Confirmation)
    requires TimeInv(staged, clock) && id in staged.receipts && id !in staged.confirmations
    requires k.receivedAt == staged.receipts[id].receivedAt
    requires k.disposition == Applied && k.paymentId.Some? ==>
               var events := EventsOf(staged.outbox, k.paymentId.value);
               |events| >= 2 && events[1].snapshot.status == Captured && events[1].createdAt == k.receivedAt
    ensures TimeInv(Resolved(staged, id, k), clock)
  {
    var t' := Resolved(staged, id, k);
    forall p | p in t'.payments
      ensures PaymentTimes(t', clock, p) && AppliedDated(t', p)
    {
      assert PaymentTimes(staged, clock, p) && AppliedDated(staged, p);
      forall c | c in AppliedTo(t', p) && c != id
        ensures c in AppliedTo(staged, p)
      {
      }
    }
  }

  lemma CompleteKeepsTimes(t: Tables, clock: Time, id: Id)
    requires Inv(t) && TimeInv(t, clock)
    ensures TimeInv(Complete(t, id).tables, clock)
  {
    if id in t.receipts && id !in t.confirmations {
      var k, staged, q, entries, eventType := CompletionCommit(t, id);
      if q.Some? {
        var row := q.value;
        FoundByReference(t, k.command.reference);
        ResolvingTimes(t, clock, id, row, entries, eventType);
      }
      ResolvedTimes(staged, clock, id, k);
    }
  }

  /** The first change of a waiting payment, dated by the receipt that causes it. */
  lemma ResolvingTimes(t: Tables, clock: Time, id: Id, row: Payment, entries: seq<LedgerEntry>, eventType: EventType)
    requires TimeInv(t, clock) && row.id in t.payments && PaymentOk(t, row.id)
    requires t.payments[row.id].status == AwaitingPayment
    requires row.reference == t.payments[row.id].reference && row.createdAt == t.payments[row.id].createdAt
    requires id in t.receipts && row.reference == Some(t.receipts[id].command.reference)
    requires row.updatedAt == t.receipts[id].receivedAt
    ensures TimeInv(StageRow(t, row, entries, eventType), clock)
    ensures var events := EventsOf(StageRow(t, row, entries, eventType).outbox, row.id);
            |events| == 2 && events[1].snapshot == row && events[1].createdAt == row.updatedAt
  {
    assert PaymentTimes(t, clock, row.id) && AppliedDated(t, row.id);
    WaitingIsNew(t, row.id);
    StagedTimes(t, clock, row, entries, eventType);
    StageKeepsTimes(t, clock, row, entries, eventType);
    EventsAppend(t.outbox, OutboxEvent(|t.outbox|, row, eventType), row.id);
  }

  /** A sweep expires a payment after its deadline, which is later than its creation. */
  lemma ExpireOneKeepsTimes(t: Tables, clock: Time, id: Id, now: Time)
    requires CoreInv(t) && TimeInv(t, clock) && id in t.payments && t.payments[id].status == AwaitingPayment
    requires t.payments[id].expiresAt.Some? && t.payments[id].expiresAt.value <= now
    ensures StageExpiry(t, t.payments[id], now).Ok? && TimeInv(StageExpiry(t, t.payments[id], now).value, clock)
  {
    var p := t.payments[id];
    assert PaymentOk(t, id) && PaymentTimes(t, clock, id) && AppliedDated(t, id);
    WaitingIsNew(t, id);
    var row := ExpiredRow(p, now).value;
    StagedTimes(t, clock, row, [], ExpiredEvent);
    StageKeepsTimes(t, clock, row, [], ExpiredEvent);
  }

  lemma {:induction false} ExpireAllKeepsTimes(t: Tables, clock: Time, ids: seq<Id>, now: Time)
    requires CoreInv(t) && TimeInv(t, clock) && Distinct(ids)
    requires forall id :: id in ids ==> id in t.payments && Overdue(t.payments[id], now)
    ensures ExpireAll(t, ids, now).Ok? && TimeInv(ExpireAll(t, ids, now).value, clock)
    decreases |ids|
  {
    if ids != [] {
      var id := ids[0];
      ExpireOneKeepsCore(t, id, now);
      ExpireOneKeepsTimes(t, clock, id, now);
      assert forall other :: other in ids <==> other == id || other in ids[1..];
      assert id !in ids[1..];
      ExpireAllKeepsTimes(StageExpiry(t, t.payments[id], now).value, clock, ids[1..], now);
    }
  }

  predicate Overdue(p: Payment, now: Time) {
    p.status == AwaitingPayment && p.expiresAt.Some? && p.expiresAt.value <= now
  }

  lemma SweepKeepsTimes(t: Tables, clock: Time, now: Time, limit: int)
    requires CoreInv(t) && TimeInv(t, clock)
    ensures TimeInv(ExpireDue(t, now, limit).tables, clock)
  {
    DueIdsAwait(t, now, limit);
    ExpireAllKeepsTimes(t, clock, FirstOf(Sorted(Due(t, now)), limit), now);
  }

  lemma StepKeepsTimes(t: Tables, clock: Time, s: Step)
    requires Inv(t) && TimeInv(t, clock) && Timely(t, clock, s)
    ensures TimeInv(Apply(t, s), Advance(t, clock, s))
  {
    match s
    case AcceptStep(command, now) => AcceptKeepsTimes(t, clock, command, now);
    case CompleteStep(id) => CompleteKeepsTimes(t, clock, id);
    case SweepStep(now, limit) => SweepKeepsTimes(t, clock, now, limit);
    case _ => RequestKeepsTimes(t, clock, s);
  }

  lemma {:induction false} RunsKeepTimes(t: Tables, clock: Time, steps: seq<Step>)
    requires Inv(t) && ClockInv(t, clock) && TimeInv(t, clock) && TimelyRun(t, clock, steps)
    ensures Inv(Run(t, steps)) && ClockInv(Run(t, steps), LastInstant(t, clock, steps))
    ensures TimeInv(Run(t, steps), LastInstant(t, clock, steps))
    decreases |steps|
  {
    if steps != [] {
      StepKeepsCore(t, steps[0]);
      StepKeepsEvidence(t, steps[0]);
      StepKeepsClock(t, clock, steps[0]);
      StepKeepsTimes(t, clock, steps[0]);
      RunsKeepTimes(Apply(t, steps[0]), Advance(t, clock, steps[0]), steps[1..]);
    }
  }
}
