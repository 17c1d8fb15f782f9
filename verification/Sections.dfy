/** What the counts of a confirmation section stand for, in terms of stored events, records and receipts. */
module Sections {
  import opened Domain
  import opened Tables
  import opened Invariants
  import opened EventTimes
  import opened ConfirmationReport

  /** A delayed payment created by the cutoff. */
  ghost predicate Delayed(t: Tables, id: Id, cutoff: Time) {
    id in t.payments && t.payments[id].flow == AsynchronousConfirmation && t.payments[id].createdAt <= cutoff
  }

  /** An event of the payment, dated by the cutoff, shows one of these statuses. */
  ghost predicate HadBy(t: Tables, id: Id, statuses: set<PaymentStatus>, cutoff: Time) {
    exists e :: e in t.outbox && e.paymentId == id && e.createdAt <= cutoff && e.snapshot.status in statuses
  }

  lemma HadIsReached(t: Tables, id: Id, statuses: set<PaymentStatus>, cutoff: Time)
    ensures HadBy(t, id, statuses, cutoff) <==> Reached(EventsOf(t.outbox, id), statuses, cutoff)
  {
    forall e
      ensures e in EventsOf(t.outbox, id) <==> e in t.outbox && e.paymentId == id
    {
      EventsOfMembers(t.outbox, id, e);
    }
  }

  /** The outcome is the one that the events of the payment show. */
  ghost predicate Agree(t: Tables, id: Id, outcome: DelayedOutcome, cutoff: Time) {
    && (outcome == ConfirmedOnTime <==> HadBy(t, id, {Captured, PartiallyRefunded, Refunded}, cutoff))
    && (outcome == CancelledUnconfirmed <==> HadBy(t, id, {Cancelled}, cutoff))
    && (outcome == ExpiredUnconfirmed <==> HadBy(t, id, {Expired}, cutoff))
    && (outcome == StillPending <==>
          !HadBy(t, id, {Captured, PartiallyRefunded, Refunded, Cancelled, Expired}, cutoff))
  }

  /** Which outcome each delayed payment has. */
  lemma OutcomeExactly(t: Tables, id: Id, cutoff: Time)
    requires CoreInv(t) && Delayed(t, id, cutoff)
    ensures id in OutcomesBy(t, cutoff)
    ensures Agree(t, id, OutcomesBy(t, cutoff)[id], cutoff)
  {
    assert PaymentOk(t, id);
    HadIsReached(t, id, {Captured, PartiallyRefunded, Refunded}, cutoff);
    HadIsReached(t, id, {Cancelled}, cutoff);
    HadIsReached(t, id, {Expired}, cutoff);
    OutcomesExclude(EventsOf(t.outbox, id), t.payments[id], cutoff);
    HadAny(t, id, cutoff);
  }

  lemma HadAny(t: Tables, id: Id, cutoff: Time)
    ensures HadBy(t, id, {Captured, PartiallyRefunded, Refunded, Cancelled, Expired}, cutoff) <==>
            HadBy(t, id, {Captured, PartiallyRefunded, Refunded}, cutoff)
            || HadBy(t, id, {Cancelled}, cutoff) || HadBy(t, id, {Expired}, cutoff)
  {
  }

  /** The delayed payments that have an event with one of these statuses by the cutoff. */
  ghost function DelayedWith(t: Tables, statuses: set<PaymentStatus>, cutoff: Time): set<Id> {
    set id | id in t.payments && Delayed(t, id, cutoff) && HadBy(t, id, statuses, cutoff)
  }

  lemma CountIsWith(t: Tables, outcome: DelayedOutcome, statuses: set<PaymentStatus>, cutoff: Time)
    requires CoreInv(t)
    requires forall id, o :: Agree(t, id, o, cutoff) ==> (o == outcome <==> HadBy(t, id, statuses, cutoff))
    ensures With(OutcomesBy(t, cutoff), outcome) == DelayedWith(t, statuses, cutoff)
  {
    forall id | id in t.payments && Delayed(t, id, cutoff)
      ensures id in OutcomesBy(t, cutoff) && Agree(t, id, OutcomesBy(t, cutoff)[id], cutoff)
    {
      OutcomeExactly(t, id, cutoff);
    }
  }

  lemma PendingIsWithout(t: Tables, cutoff: Time)
    requires CoreInv(t)
    ensures With(OutcomesBy(t, cutoff), StillPending) ==
            (set id | id in t.payments && Delayed(t, id, cutoff))
            - DelayedWith(t, {Captured, PartiallyRefunded, Refunded, Cancelled, Expired}, cutoff)
  {
    forall id | id in t.payments && Delayed(t, id, cutoff)
      ensures id in OutcomesBy(t, cutoff) && Agree(t, id, OutcomesBy(t, cutoff)[id], cutoff)
    {
      OutcomeExactly(t, id, cutoff);
    }
  }

  /**
   * The four outcome counts of a section: delayed payments with a paid event by the cutoff, with a cancelled one, with
   * an expired one, and with none of these.
   */
  lemma OutcomeCountsMean(t: Tables, cutoff: Time, generatedAt: Time)
    requires CoreInv(t)
    ensures
      var s := FreshSection(t, cutoff, generatedAt);
      var delayed := set id | id in t.payments && Delayed(t, id, cutoff);
      && s.cutoff == cutoff && s.generatedAt == generatedAt && s.paymentCount == |delayed|
      && s.outcomes[ConfirmedOnTime] == |DelayedWith(t, {Captured, PartiallyRefunded, Refunded}, cutoff)|
      && s.outcomes[CancelledUnconfirmed] == |DelayedWith(t, {Cancelled}, cutoff)|
      && s.outcomes[ExpiredUnconfirmed] == |DelayedWith(t, {Expired}, cutoff)|
      && s.outcomes[StillPending] ==
         |delayed - DelayedWith(t, {Captured, PartiallyRefunded, Refunded, Cancelled, Expired}, cutoff)|
  {
    CountIsWith(t, ConfirmedOnTime, {Captured, PartiallyRefunded, Refunded}, cutoff);
    CountIsWith(t, CancelledUnconfirmed, {Cancelled}, cutoff);
    CountIsWith(t, ExpiredUnconfirmed, {Expired}, cutoff);
    PendingIsWithout(t, cutoff);
    assert OutcomesBy(t, cutoff).Keys == set id | id in t.payments && Delayed(t, id, cutoff);
  }

  /** Through a cutoff no earlier than its last change a delayed payment has the outcome of its own status. */
  lemma OutcomeOfTheRow(t: Tables, id: Id, cutoff: Time)
    requires CoreInv(t) && Delayed(t, id, cutoff) && t.payments[id].updatedAt <= cutoff
    ensures id in OutcomesBy(t, cutoff)
    ensures
      var outcome, status := OutcomesBy(t, cutoff)[id], t.payments[id].status;
      && (outcome == ConfirmedOnTime <==> status in {Captured, PartiallyRefunded, Refunded})
      && (outcome == CancelledUnconfirmed <==> status == Cancelled)
      && (outcome == ExpiredUnconfirmed <==> status == Expired)
      && (outcome == StillPending <==> status == AwaitingPayment)
  {
    var p, events := t.payments[id], EventsOf(t.outbox, id);
    assert PaymentOk(t, id);
    OutcomeExactly(t, id, cutoff);
    var last := events[|events| - 1];
    EventsOfMembers(t.outbox, id, last);
    assert EventFits(last, |events|, id);
    if p.status == AwaitingPayment {
      WaitingIsNew(t, id);
      HadIsReached(t, id, {Captured, PartiallyRefunded, Refunded, Cancelled, Expired}, cutoff);
    }
  }

  /** The records with this disposition of receipts received by the cutoff. */
  ghost function Recorded(t: Tables, d: Disposition, cutoff: Time): set<Id> {
    set c | c in t.confirmations && t.confirmations[c].receivedAt <= cutoff && t.confirmations[c].disposition == d
  }

  lemma RecordedWith(t: Tables, d: Disposition, cutoff: Time)
    ensures With(DispositionsOf(RecordsBy(t, cutoff)), d) == Recorded(t, d, cutoff)
  {
  }

  /** The receipts received by the cutoff that are not resolved. */
  lemma PendingCountMeans(t: Tables, cutoff: Time, generatedAt: Time)
    ensures FreshSection(t, cutoff, generatedAt).pendingReceipts ==
            |set c | c in t.receipts && t.receipts[c].receivedAt <= cutoff && !t.receipts[c].completed|
  {
    assert PendingBy(t, cutoff) ==
           set c | c in t.receipts && t.receipts[c].receivedAt <= cutoff && !t.receipts[c].completed;
  }

  /** Each disposition is counted once for every record that has it. */
  lemma RecordCountsMean(t: Tables, cutoff: Time, generatedAt: Time, d: Disposition)
    ensures
      var s := FreshSection(t, cutoff, generatedAt);
      d in s.dispositions && s.dispositions[d] == |Recorded(t, d, cutoff)|
  {
    RecordedWith(t, d, cutoff);
    match d
    case Applied => case Late => case AmountMismatch =>
    case CurrencyMismatch => case UnknownReference => case AlreadyResolved =>
  }

  /** The records that one anomaly line stands for. */
  ghost function Anomalous(t: Tables, key: AnomalyKey, cutoff: Time): set<Id> {
    if key.disposition == Applied then {}
    else set c | c in Recorded(t, key.disposition, cutoff) && t.confirmations[c].command.currency == key.currency
  }

  lemma BucketIsAnomalous(t: Tables, key: AnomalyKey, cutoff: Time)
    ensures Bucket(RecordsBy(t, cutoff), key) == Anomalous(t, key, cutoff)
  {
  }

  lemma KeyOccurs(records: map<Id, Confirmation>, key: AnomalyKey)
    ensures key in AnomalyKeys(records) <==> Bucket(records, key) != {}
  {
    if Bucket(records, key) != {} {
      var c :| c in Bucket(records, key);
    }
    if key in AnomalyKeys(records) {
      var c :| c in records && records[c].disposition != Applied && KeyOf(records[c]) == key;
      assert c in Bucket(records, key);
    }
  }

  /** A line for each currency and disposition that occurs, with how many records there are and their amounts. */
  lemma AnomaliesMean(t: Tables, cutoff: Time, generatedAt: Time, key: AnomalyKey)
    ensures
      var s := FreshSection(t, cutoff, generatedAt);
      && (key in s.anomalies <==> Anomalous(t, key, cutoff) != {})
      && (key in s.anomalies ==>
            && s.anomalies[key].count == |Anomalous(t, key, cutoff)|
            && s.anomalies[key].amount == AmountOf(t.confirmations, Anomalous(t, key, cutoff)))
  {
    BucketIsAnomalous(t, key, cutoff);
    KeyOccurs(RecordsBy(t, cutoff), key);
    AmountDependsOnMembers(RecordsBy(t, cutoff), t.confirmations, Anomalous(t, key, cutoff));
  }
}
