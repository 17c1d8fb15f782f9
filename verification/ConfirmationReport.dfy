/** The confirmation section of a settlement report: what it counts through a cutoff. */
module ConfirmationReport {
  import opened Wrappers
  import opened Domain
  import opened Tables
  import opened Runs
  import opened Invariants
  import opened Evidence
  import opened Clocks
  import opened EventTimes

  datatype DelayedOutcome = StillPending | ConfirmedOnTime | ExpiredUnconfirmed | CancelledUnconfirmed

  const OUTCOMES: set<DelayedOutcome> := {StillPending, ConfirmedOnTime, ExpiredUnconfirmed, CancelledUnconfirmed}

  const DISPOSITIONS: set<Disposition> :=
    {Applied, Late, AmountMismatch, CurrencyMismatch, UnknownReference, AlreadyResolved}

  datatype AnomalyKey = AnomalyKey(currency: Currency, disposition: Disposition)

  datatype Anomaly = Anomaly(count: nat, amount: int)

  datatype Section = Section(
    cutoff: Time,
    generatedAt: Time,
    paymentCount: nat,
    outcomes: map<DelayedOutcome, nat>,
    dispositions: map<Disposition, nat>,
    pendingReceipts: nat,
    anomalies: map<AnomalyKey, Anomaly>)

  // ----- what is counted --------------------------------------------------------------------------------------

  /** A version of the payment with one of these statuses was created no later than the cutoff. */
  predicate Reached(events: seq<Event>, statuses: set<PaymentStatus>, cutoff: Time) {
    exists e :: e in events && e.createdAt <= cutoff && e.snapshot.status in statuses
  }

  function OutcomeOf(events: seq<Event>, cutoff: Time): DelayedOutcome {
    if Reached(events, {Captured, PartiallyRefunded, Refunded}, cutoff) then ConfirmedOnTime
    else if Reached(events, {Cancelled}, cutoff) then CancelledUnconfirmed
    else if Reached(events, {Expired}, cutoff) then ExpiredUnconfirmed
    else StillPending
  }

  predicate Eligible(p: Payment, cutoff: Time) {
    p.flow == AsynchronousConfirmation && p.createdAt <= cutoff
  }

  /** The outcome of every delayed payment created by the cutoff. */
  function OutcomesBy(t: Tables, cutoff: Time): map<Id, DelayedOutcome> {
    map id | id in t.payments && Eligible(t.payments[id], cutoff) :: OutcomeOf(EventsOf(t.outbox, id), cutoff)
  }

  /** The final records of the receipts received by the cutoff. */
  function RecordsBy(t: Tables, cutoff: Time): map<Id, Confirmation> {
    map c | c in t.confirmations && t.confirmations[c].receivedAt <= cutoff :: t.confirmations[c]
  }

  /** The receipts received by the cutoff and not resolved yet. */
  function PendingBy(t: Tables, cutoff: Time): set<Id> {
    set c | c in t.receipts && t.receipts[c].receivedAt <= cutoff && !t.receipts[c].completed
  }

  function With<K(==)>(m: map<Id, K>, k: K): set<Id> {
    set id | id in m && m[id] == k
  }

  function DispositionsOf(records: map<Id, Confirmation>): map<Id, Disposition> {
    map c | c in records :: records[c].disposition
  }

  function KeyOf(k: Confirmation): AnomalyKey {
    AnomalyKey(k.command.currency, k.disposition)
  }

  /** The records in one anomaly bucket. */
  function Bucket(records: map<Id, Confirmation>, key: AnomalyKey): set<Id> {
    set c | c in records && records[c].disposition != Applied && KeyOf(records[c]) == key
  }

  function AnomalyKeys(records: map<Id, Confirmation>): set<AnomalyKey> {
    set c | c in records && records[c].disposition != Applied :: KeyOf(records[c])
  }

  ghost function AmountOf(records: map<Id, Confirmation>, ids: set<Id>): int
    requires ids <= records.Keys
    decreases ids
  {
    if ids == {} then 0
    else
      var c :| c in ids;
      records[c].command.amount + AmountOf(records, ids - {c})
  }

  ghost function BucketOf(records: map<Id, Confirmation>, key: AnomalyKey): Anomaly {
    Anomaly(|Bucket(records, key)|, AmountOf(records, Bucket(records, key)))
  }

  /** The section as it is computed from what is stored now. */
  ghost function FreshSection(t: Tables, cutoff: Time, generatedAt: Time): Section {
    var outcomes, records := OutcomesBy(t, cutoff), RecordsBy(t, cutoff);
    Section(
      cutoff,
      generatedAt,
      |outcomes|,
      map k | k in OUTCOMES :: |With(outcomes, k)|,
      map d | d in DISPOSITIONS :: |With(DispositionsOf(records), d)|,
      |PendingBy(t, cutoff)|,
      map key | key in AnomalyKeys(records) :: BucketOf(records, key))
  }

  lemma {:induction false} AmountWithout(records: map<Id, Confirmation>, ids: set<Id>, c: Id)
    requires ids <= records.Keys && c in ids
    ensures AmountOf(records, ids) == records[c].command.amount + AmountOf(records, ids - {c})
    decreases ids
  {
    var d :| d in ids && AmountOf(records, ids) == records[d].command.amount + AmountOf(records, ids - {d});
    if d != c {
      AmountWithout(records, ids - {d}, c);
      AmountWithout(records, ids - {c}, d);
      assert ids - {d} - {c} == ids - {c} - {d};
    }
  }

  lemma {:induction false} AmountDependsOnMembers(a: map<Id, Confirmation>, b: map<Id, Confirmation>, ids: set<Id>)
    requires ids <= a.Keys && ids <= b.Keys && forall c :: c in ids ==> a[c] == b[c]
    ensures AmountOf(a, ids) == AmountOf(b, ids)
    decreases ids
  {
    if ids != {} {
      var c :| c in ids;
      AmountWithout(a, ids, c);
      AmountWithout(b, ids, c);
      AmountDependsOnMembers(a, b, ids - {c});
    }
  }

  // ----- conservation -----------------------------------------------------------------------------------------

  /**
   * Disposition counts and the pending count add up to the receipts received by the cutoff, and the four outcome
   * counts to the eligible payments.
   */
  lemma ReportConserves(t: Tables, cutoff: Time, generatedAt: Time)
    requires EvidenceInv(t)
    ensures
      var s := FreshSection(t, cutoff, generatedAt);
      var received := set c | c in t.receipts && t.receipts[c].receivedAt <= cutoff;
      && s.dispositions[Applied] + s.dispositions[Late] + s.dispositions[AmountMismatch]
         + s.dispositions[CurrencyMismatch] + s.dispositions[UnknownReference] + s.dispositions[AlreadyResolved]
         + s.pendingReceipts == |received|
      && s.outcomes[StillPending] + s.outcomes[ConfirmedOnTime] + s.outcomes[ExpiredUnconfirmed]
         + s.outcomes[CancelledUnconfirmed] == s.paymentCount
         == |set id | id in t.payments && Eligible(t.payments[id], cutoff)|
  {
    ReceivedSplit(t, cutoff);
    SixWays(DispositionsOf(RecordsBy(t, cutoff)));
    assert DispositionsOf(RecordsBy(t, cutoff)).Keys == RecordsBy(t, cutoff).Keys;
    FourWays(OutcomesBy(t, cutoff));
    assert OutcomesBy(t, cutoff).Keys == set id | id in t.payments && Eligible(t.payments[id], cutoff);
  }

  /** Every receipt received by the cutoff has its final record or is still pending. */
  lemma ReceivedSplit(t: Tables, cutoff: Time)
    requires EvidenceInv(t)
    ensures |set c | c in t.receipts && t.receipts[c].receivedAt <= cutoff|
            == |RecordsBy(t, cutoff).Keys| + |PendingBy(t, cutoff)|
  {
    var received := set c | c in t.receipts && t.receipts[c].receivedAt <= cutoff;
    forall c | c in t.receipts || c in t.confirmations
      ensures c in t.confirmations <==> c in t.receipts && t.receipts[c].completed
      ensures c in t.confirmations ==> t.confirmations[c].receivedAt == t.receipts[c].receivedAt
    {
      if c in t.receipts { assert ReceiptOk(t, c); }
      if c in t.confirmations { assert ConfirmationOk(t, c); }
    }
    assert received == RecordsBy(t, cutoff).Keys + PendingBy(t, cutoff);
    assert RecordsBy(t, cutoff).Keys !! PendingBy(t, cutoff);
  }

  lemma FourWays(m: map<Id, DelayedOutcome>)
    ensures |m| == |With(m, StillPending)| + |With(m, ConfirmedOnTime)| + |With(m, ExpiredUnconfirmed)|
                   + |With(m, CancelledUnconfirmed)|
  {
    forall id | id in m
      ensures id in With(m, StillPending) + With(m, ConfirmedOnTime) + With(m, ExpiredUnconfirmed)
                    + With(m, CancelledUnconfirmed)
    {
      match m[id] case StillPending => case ConfirmedOnTime => case ExpiredUnconfirmed => case CancelledUnconfirmed =>
    }
    assert m.Keys == With(m, StillPending) + With(m, ConfirmedOnTime) + With(m, ExpiredUnconfirmed)
                     + With(m, CancelledUnconfirmed);
  }

  lemma SixWays(m: map<Id, Disposition>)
    ensures |m.Keys| == |With(m, Applied)| + |With(m, Late)| + |With(m, AmountMismatch)| + |With(m, CurrencyMismatch)|
                        + |With(m, UnknownReference)| + |With(m, AlreadyResolved)|
  {
    forall id | id in m
      ensures id in With(m, Applied) + With(m, Late) + With(m, AmountMismatch) + With(m, CurrencyMismatch)
                    + With(m, UnknownReference) + With(m, AlreadyResolved)
    {
      match m[id]
      case Applied => case Late => case AmountMismatch =>
      case CurrencyMismatch => case UnknownReference => case AlreadyResolved =>
    }
    assert m.Keys == With(m, Applied) + With(m, Late) + With(m, AmountMismatch) + With(m, CurrencyMismatch)
                     + With(m, UnknownReference) + With(m, AlreadyResolved);
  }

  // ----- histories of delayed payments ------------------------------------------------------------------------

  /** A delayed payment waits first; then it is paid for good, or cancelled or expired with no version after. */
  lemma {:induction false} DelayedHistory(events: seq<Event>, p: Payment, i: nat)
    requires History(events, p) && p.flow == AsynchronousConfirmation && i < |events|
    ensures i == 0 ==> events[i].snapshot.status == AwaitingPayment
    ensures i > 0 ==> events[i].snapshot.status != AwaitingPayment && events[i].snapshot.status != Authorized
    ensures i >= 1 && events[1].snapshot.status == Captured ==> Paid(events[i].snapshot.status)
    ensures i >= 1 && events[1].snapshot.status != Captured ==>
              i == 1 && |events| == 2 && events[1].snapshot.status in {Cancelled, Expired}
    decreases i
  {
    IdentityKept(events, p, |events| - 1);
    assert EventFits(events[0], 1, p.id);
    if i > 0 {
      DelayedHistory(events, p, i - 1);
      assert EventFits(events[i - 1], i, p.id) && EventFits(events[i], i + 1, p.id);
      var a :| Legal(events[i - 1].snapshot, a, events[i].snapshot);
      DelayedStep(events[i - 1].snapshot, a, events[i].snapshot);
      if i == 1 && |events| > 2 {
        assert Follows(events[1].snapshot, events[2].snapshot);
        var b :| Legal(events[1].snapshot, b, events[2].snapshot);
        DelayedStep(events[1].snapshot, b, events[2].snapshot);
      }
    }
  }

  lemma DelayedStep(before: Payment, a: Action, after: Payment)
    requires WellFormed(before) && Legal(before, a, after)
    ensures before.status == AwaitingPayment || before.status == Authorized || Paid(before.status)
    ensures before.status == AwaitingPayment ==> after.status in {Captured, Cancelled, Expired}
    ensures Paid(before.status) ==> Paid(after.status)
  {
  }

  /** The order in which the outcomes are looked for hides nothing: at most one of the three can be reached. */
  lemma OutcomesExclude(events: seq<Event>, p: Payment, cutoff: Time)
    requires History(events, p) && p.flow == AsynchronousConfirmation
    ensures !(Reached(events, {Captured, PartiallyRefunded, Refunded}, cutoff) && Reached(events, {Cancelled}, cutoff))
    ensures !(Reached(events, {Captured, PartiallyRefunded, Refunded}, cutoff) && Reached(events, {Expired}, cutoff))
    ensures !(Reached(events, {Cancelled}, cutoff) && Reached(events, {Expired}, cutoff))
  {
    forall i | 0 <= i < |events|
      ensures i == 0 ==> events[i].snapshot.status == AwaitingPayment
      ensures i >= 1 && events[1].snapshot.status == Captured ==> Paid(events[i].snapshot.status)
      ensures i >= 1 && events[1].snapshot.status != Captured ==> i == 1
    {
      DelayedHistory(events, p, i);
    }
  }

  // ----- on-time confirmations equal applied records ------------------------------------------------------------

  lemma {:induction false} SameSize<T>(a: set<Id>, b: set<T>, f: map<Id, T>)
    requires a <= f.Keys && forall x, y :: x in a && y in a && f[x] == f[y] ==> x == y
    requires forall x :: x in a ==> f[x] in b
    requires forall y :: y in b ==> exists x :: x in a && f[x] == y
    ensures |a| == |b|
    decreases |a|
  {
    if a == {} {
      assert b == {};
    } else {
      var x :| x in a;
      SameSize(a - {x}, b - {f[x]}, f);
    }
  }

  /** The payment counts as confirmed on time exactly when its applied record was received by the cutoff. */
  lemma ConfirmedMeansApplied(t: Tables, clock: Time, id: Id, cutoff: Time)
    requires Inv(t) && TimeInv(t, clock) && id in t.payments && t.payments[id].flow == AsynchronousConfirmation
    ensures (exists c :: c in AppliedTo(t, id) && t.confirmations[c].receivedAt <= cutoff)
            <==> Reached(EventsOf(t.outbox, id), {Captured, PartiallyRefunded, Refunded}, cutoff)
  {
    assert PaymentOk(t, id) && AppliedOk(t, id);
    if PaidByConfirmation(t.payments[id]) {
      PaidWhenApplied(t, clock, id, cutoff);
    } else {
      NeverPaid(EventsOf(t.outbox, id), t.payments[id], cutoff);
      assert AppliedTo(t, id) == {};
    }
  }

  /** No version of an unpaid payment was ever paid. */
  lemma NeverPaid(events: seq<Event>, p: Payment, cutoff: Time)
    requires History(events, p) && p.flow == AsynchronousConfirmation && !Paid(p.status)
    ensures !Reached(events, {Captured, PartiallyRefunded, Refunded}, cutoff)
  {
    DelayedHistory(events, p, |events| - 1);
    forall i | 0 <= i < |events|
      ensures !Paid(events[i].snapshot.status)
    {
      DelayedHistory(events, p, i);
    }
  }

  /** The first paid version of a payment is its second one. */
  lemma PaidFromSecond(events: seq<Event>, p: Payment)
    requires History(events, p) && p.flow == AsynchronousConfirmation && Paid(p.status) && EventsInOrder(events)
    ensures |events| >= 2 && events[1].snapshot.status == Captured && events[1] in events
    ensures forall e :: e in events && e.snapshot.status in {Captured, PartiallyRefunded, Refunded} ==>
                          events[1].createdAt <= e.createdAt
  {
    DelayedHistory(events, p, |events| - 1);
    forall e | e in events && e.snapshot.status in {Captured, PartiallyRefunded, Refunded}
      ensures events[1].createdAt <= e.createdAt
    {
      var i :| 0 <= i < |events| && events[i] == e;
      DelayedHistory(events, p, i);
    }
  }

  lemma PaidWhenApplied(t: Tables, clock: Time, id: Id, cutoff: Time)
    requires id in t.payments && PaymentOk(t, id) && AppliedOk(t, id) && TimeInv(t, clock)
    requires PaidByConfirmation(t.payments[id])
    ensures (exists c :: c in AppliedTo(t, id) && t.confirmations[c].receivedAt <= cutoff)
            <==> Reached(EventsOf(t.outbox, id), {Captured, PartiallyRefunded, Refunded}, cutoff)
  {
    var events := EventsOf(t.outbox, id);
    assert PaymentTimes(t, clock, id) && AppliedDated(t, id);
    PaidFromSecond(events, t.payments[id]);
    var c :| c in AppliedTo(t, id);
    forall d | d in AppliedTo(t, id)
      ensures d == c
    {
      OnlyOne(AppliedTo(t, id), c, d);
    }
  }

  lemma OnlyOne(s: set<Id>, a: Id, b: Id)
    requires |s| == 1 && a in s && b in s
    ensures a == b
  {
    assert |s - {a}| == 0;
  }

  /**
   * Under a clock that never goes back and fresh references, the payments confirmed on time are as many as the
   * applied records: each such record belongs to one such payment.
   */
  lemma ConfirmedEqualsApplied(t: Tables, clock: Time, cutoff: Time, generatedAt: Time)
    requires Inv(t) && TimeInv(t, clock)
    ensures
      var s := FreshSection(t, cutoff, generatedAt);
      s.outcomes[ConfirmedOnTime] == s.dispositions[Applied]
  {
    var outcomes, records := OutcomesBy(t, cutoff), RecordsBy(t, cutoff);
    var applied := With(DispositionsOf(records), Applied);
    var confirmed := With(outcomes, ConfirmedOnTime);
    forall c | c in applied
      ensures AppliedCounts(t, c, confirmed)
    {
      AppliedIsConfirmed(t, clock, cutoff, c);
    }
    var owner := map c | c in applied :: t.confirmations[c].paymentId.value;
    forall x, y | x in applied && y in applied && owner[x] == owner[y]
      ensures x == y
    {
      assert AppliedCounts(t, x, confirmed) && AppliedCounts(t, y, confirmed);
      OneRecordEach(t, confirmed, x, y);
    }
    forall id | id in confirmed
      ensures exists c :: c in applied && owner[c] == id
    {
      var c := ConfirmedHasRecord(t, clock, cutoff, id);
    }
    assert forall c :: c in applied ==> AppliedCounts(t, c, confirmed);
    SameSize(applied, confirmed, owner);
  }

  lemma OneRecordEach(t: Tables, confirmed: set<Id>, x: Id, y: Id)
    requires EvidenceInv(t) && AppliedCounts(t, x, confirmed) && AppliedCounts(t, y, confirmed)
    requires t.confirmations[x].paymentId == t.confirmations[y].paymentId
    ensures x == y
  {
    assert AppliedOk(t, t.confirmations[x].paymentId.value);
    OnlyOne(AppliedTo(t, t.confirmations[x].paymentId.value), x, y);
  }

  lemma ConfirmedHasRecord(t: Tables, clock: Time, cutoff: Time, id: Id) returns (c: Id)
    requires Inv(t) && TimeInv(t, clock) && id in With(OutcomesBy(t, cutoff), ConfirmedOnTime)
    ensures c in With(DispositionsOf(RecordsBy(t, cutoff)), Applied) && t.confirmations[c].paymentId == Some(id)
  {
    ConfirmedMeansApplied(t, clock, id, cutoff);
    c :| c in AppliedTo(t, id) && t.confirmations[c].receivedAt <= cutoff;
  }

  /** The record is the applied record of one of the confirmed payments. */
  ghost predicate AppliedCounts(t: Tables, c: Id, confirmed: set<Id>) {
    && c in t.confirmations && t.confirmations[c].paymentId.Some?
    && t.confirmations[c].paymentId.value in confirmed
    && t.confirmations[c].paymentId.value in t.payments
    && c in AppliedTo(t, t.confirmations[c].paymentId.value)
  }

  lemma AppliedIsConfirmed(t: Tables, clock: Time, cutoff: Time, c: Id)
    requires Inv(t) && TimeInv(t, clock) && c in With(DispositionsOf(RecordsBy(t, cutoff)), Applied)
    ensures AppliedCounts(t, c, With(OutcomesBy(t, cutoff), ConfirmedOnTime))
  {
    assert ConfirmationOk(t, c);
    var id := t.confirmations[c].paymentId.value;
    assert PaymentTimes(t, clock, id);
    ConfirmedMeansApplied(t, clock, id, cutoff);
  }

  /** In every run under a clock that never goes back, with references that are fresh when they are given. */
  lemma ConfirmedEqualsAppliedInRuns(start: Time, steps: seq<Step>, cutoff: Time, generatedAt: Time)
    requires TimelyRun(EMPTY, start, steps)
    ensures
      var s := FreshSection(Run(EMPTY, steps), cutoff, generatedAt);
      s.outcomes[ConfirmedOnTime] == s.dispositions[Applied]
  {
    RunsKeepTimes(EMPTY, start, steps);
    ConfirmedEqualsApplied(Run(EMPTY, steps), LastInstant(EMPTY, start, steps), cutoff, generatedAt);
  }
}
