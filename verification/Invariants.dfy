/**
 * What every run keeps: each payment's history, outbox and ledger agree with its row, and confirmation evidence
 * agrees with receipts and payments.
 */
module Invariants {
  import opened Wrappers
  import opened Domain
  import opened Tables
  import opened Ledger
  import opened Payments
  import opened Confirmations

  // ----- one payment ------------------------------------------------------------------------------------------

  /** The status determines the shape of the balances. */
  ghost predicate WellFormed(p: Payment) {
    && PaymentChecks(p)
    && (p.flow.AsynchronousConfirmation? ==> p.expiresAt == Some(p.createdAt + CONFIRMATION_WINDOW))
    && match p.status
       case Authorized => p.flow.Synchronous? && p.authorized == p.amount && p.captured == 0
       case AwaitingPayment => p.flow.AsynchronousConfirmation? && p.authorized == 0
       case Declined => p.flow.Synchronous? && p.authorized == 0
       case Captured => p.captured == p.amount && p.refunded == 0
       case PartiallyRefunded => p.captured == p.amount && 0 < p.refunded < p.amount
       case Refunded => p.refunded == p.amount
       case Cancelled => p.captured == 0 && p.authorized == if p.flow.Synchronous? then p.amount else 0
       case Expired => p.flow.AsynchronousConfirmation? && p.authorized == 0
  }

  /** One legal domain transition, one version up, nothing else of the row changed. */
  ghost predicate Legal(before: Payment, a: Action, after: Payment) {
    && Transition(StateOf(before), a) == Ok(StateOf(after))
    && after == WithState(before, StateOf(after), after.updatedAt)
    && (a.DoConfirm? ==> a.amount == before.amount)
  }

  ghost predicate Follows(before: Payment, after: Payment) {
    exists a: Action :: Legal(before, a, after)
  }

  ghost predicate Initial(p: Payment) {
    && p.version == 1
    && p.createdAt == p.updatedAt
    && p.status in {Authorized, AwaitingPayment, Declined}
  }

  /** Exactly one event for each version up to the row's, each carrying the payment as it was at that version. */
  ghost predicate History(events: seq<Event>, p: Payment) {
    && |events| == p.version >= 1
    && Initial(events[0].snapshot)
    && (forall i :: 0 <= i < |events| ==> EventFits(events[i], i + 1, p.id))
    && (forall i :: 0 < i < |events| ==> Follows(events[i - 1].snapshot, events[i].snapshot))
    && events[|events| - 1].snapshot == p
  }

  ghost predicate EventFits(e: Event, version: int, id: Id) {
    && e == OutboxEvent(e.id, e.snapshot, e.eventType)
    && e.version == version
    && e.paymentId == id
    && WellFormed(e.snapshot)
    && (e.eventType == ConfirmationRequestedEvent ==> e.snapshot.status == AwaitingPayment)
  }

  predicate PaidByConfirmation(p: Payment) {
    p.flow.AsynchronousConfirmation? && Paid(p.status)
  }

  function Balances(p: Payment): LedgerTotals {
    LedgerTotals(p.authorized, p.captured, p.refunded)
  }

  ghost predicate LedgerFits(entries: seq<LedgerEntry>, p: Payment) {
    && Totals(entries) == Balances(p)
    && PrefixesSane(entries)
    && (forall e :: e in entries ==> e.currency == p.currency && e.amount > 0)
    && CountOf(entries, ConfirmationCaptureEntry) == (if PaidByConfirmation(p) then 1 else 0)
    && (p.authorized == 0 ==> entries == [])
  }

  ghost predicate PaymentOk(t: Tables, id: Id)
    requires id in t.payments
  {
    var p := t.payments[id];
    && p.id == id
    && WellFormed(p)
    && History(EventsOf(t.outbox, id), p)
    && LedgerFits(EntriesOf(t.ledger, id), p)
  }

  ghost predicate AllPaymentsOk(t: Tables) {
    forall id {:trigger PaymentOk(t, id)} :: id in t.payments ==> PaymentOk(t, id)
  }

  /** Events and entries belong to stored payments; an event's identifier is its position. */
  ghost predicate Linked(t: Tables) {
    && (forall i :: 0 <= i < |t.outbox| ==> t.outbox[i].id == i && t.outbox[i].paymentId in t.payments)
    && (forall e :: e in t.ledger ==> e.paymentId in t.payments)
  }

  ghost predicate CoreInv(t: Tables) {
    AllPaymentsOk(t) && UniqueReferences(t) && Linked(t)
  }

  lemma LegalKeepsForm(before: Payment, a: Action, after: Payment)
    requires WellFormed(before) && Legal(before, a, after)
    ensures WellFormed(after)
  {
  }

  /** The entries a transition writes. */
  ghost predicate EntriesFit(p: Payment, a: Action, entries: seq<LedgerEntry>) {
    && |entries| <= 1
    && (forall e :: e in entries ==> e.paymentId == p.id && e.currency == p.currency && e.amount > 0)
    && match a
       case DoCapture => entries != [] && entries[0].operation == CaptureEntry && entries[0].amount == p.authorized
       case DoCancel =>
         (entries != [] ==> entries[0].operation == CancelEntry) && (p.status == AwaitingPayment ==> entries == [])
       case DoRefund(n) => entries != [] && entries[0].operation == RefundEntry && entries[0].amount == n
       case DoConfirm(n) =>
         entries != [] && entries[0].operation == ConfirmationCaptureEntry && entries[0].amount == n
       case DoExpire => entries == []
  }

  lemma LegalKeepsLedger(before: Payment, a: Action, after: Payment, written: seq<LedgerEntry>, more: seq<LedgerEntry>)
    requires WellFormed(before) && Legal(before, a, after) && LedgerFits(written, before) && EntriesFit(before, a, more)
    ensures LedgerFits(written + more, after)
  {
    if more == [] {
      assert written + more == written;
    } else {
      assert more == [more[0]];
      EntryKeepsLedger(before, after, written, more[0]);
    }
  }

  lemma EntryKeepsLedger(before: Payment, after: Payment, written: seq<LedgerEntry>, e: LedgerEntry)
    requires LedgerFits(written, before) && Balances(after) == AddEntry(Balances(before), e) && Balances(after).Sane()
    requires before.currency == after.currency == e.currency && e.amount > 0
    requires PaidByConfirmation(after) <==> PaidByConfirmation(before) || e.operation == ConfirmationCaptureEntry
    requires e.operation == ConfirmationCaptureEntry ==> !PaidByConfirmation(before)
    requires after.authorized != 0
    ensures LedgerFits(written + [e], after)
  {
    TotalsAppend(written, e);
    CountAppend(written, e, ConfirmationCaptureEntry);
    PrefixesAppend(written, e);
  }

  lemma HistoryGrows(events: seq<Event>, before: Payment, a: Action, after: Payment, e: Event)
    requires History(events, before) && WellFormed(before) && Legal(before, a, after)
    requires e == OutboxEvent(e.id, after, e.eventType) && e.eventType != ConfirmationRequestedEvent
    ensures History(events + [e], after)
  {
    var longer := events + [e];
    assert longer[0] == events[0];
    forall i | 0 < i < |longer|
      ensures Follows(longer[i - 1].snapshot, longer[i].snapshot)
    {
      if i == |events| { assert Legal(before, a, after); }
    }
  }

  /** Payments not written by a stage keep their history and ledger. */
  lemma OthersUntouched(t: Tables, p: Payment, entries: seq<LedgerEntry>, eventType: EventType, id: Id)
    requires id in t.payments && id != p.id && PaymentOk(t, id)
    requires |entries| <= 1 && forall e :: e in entries ==> e.paymentId == p.id
    ensures PaymentOk(StageRow(t, p, entries, eventType), id)
  {
    EventsAppend(t.outbox, OutboxEvent(|t.outbox|, p, eventType), id);
    EntriesAppend(t.ledger, entries, id);
    assert EventsOf(t.outbox, id) + [] == EventsOf(t.outbox, id);
    assert EntriesOf(t.ledger, id) + [] == EntriesOf(t.ledger, id);
  }

  lemma StagedPaymentOk(t: Tables, a: Action, after: Payment, entries: seq<LedgerEntry>, eventType: EventType)
    requires after.id in t.payments && PaymentOk(t, after.id) && Legal(t.payments[after.id], a, after)
    requires EntriesFit(t.payments[after.id], a, entries) && eventType != ConfirmationRequestedEvent
    ensures PaymentOk(StageRow(t, after, entries, eventType), after.id)
  {
    var id := after.id;
    var before := t.payments[id];
    var e := OutboxEvent(|t.outbox|, after, eventType);
    EventsAppend(t.outbox, e, id);
    HistoryGrows(EventsOf(t.outbox, id), before, a, after, e);
    EntriesAppend(t.ledger, entries, id);
    assert entries == [] ==> EntriesOf(t.ledger, id) + entries == EntriesOf(t.ledger, id);
    LegalKeepsLedger(before, a, after, EntriesOf(t.ledger, id), entries);
  }

  lemma StageKeepsPayments(t: Tables, p: Payment, entries: seq<LedgerEntry>, eventType: EventType)
    requires AllPaymentsOk(t) && PaymentOk(StageRow(t, p, entries, eventType), p.id)
    requires |entries| <= 1 && forall e :: e in entries ==> e.paymentId == p.id
    ensures AllPaymentsOk(StageRow(t, p, entries, eventType))
  {
    var t' := StageRow(t, p, entries, eventType);
    forall id | id in t'.payments
      ensures PaymentOk(t', id)
    {
      if id != p.id {
        OthersUntouched(t, p, entries, eventType, id);
      }
    }
  }

  lemma KeysAreIds(t: Tables)
    requires AllPaymentsOk(t)
    ensures forall id :: id in t.payments ==> t.payments[id].id == id
  {
    forall id | id in t.payments
      ensures t.payments[id].id == id
    {
      assert PaymentOk(t, id);
    }
  }

  /** Rows, events and entries keep referring to each other when one payment is written. */
  lemma StageKeepsLinks(t: Tables, p: Payment, entries: seq<LedgerEntry>, eventType: EventType)
    requires UniqueReferences(t) && Linked(t) && forall id :: id in t.payments ==> t.payments[id].id == id
    requires forall e :: e in entries ==> e.paymentId == p.id
    requires if p.id in t.payments then p.reference == t.payments[p.id].reference else ReferenceFree(t, p.reference)
    ensures UniqueReferences(StageRow(t, p, entries, eventType)) && Linked(StageRow(t, p, entries, eventType))
  {
  }

  /** Staging a legal transition of a stored row keeps everything in agreement. */
  lemma StageKeepsCore(t: Tables, a: Action, after: Payment, entries: seq<LedgerEntry>, eventType: EventType)
    requires CoreInv(t) && after.id in t.payments && Legal(t.payments[after.id], a, after)
    requires EntriesFit(t.payments[after.id], a, entries) && eventType != ConfirmationRequestedEvent
    ensures CoreInv(StageRow(t, after, entries, eventType))
  {
    StagedPaymentOk(t, a, after, entries, eventType);
    StageKeepsPayments(t, after, entries, eventType);
    KeysAreIds(t);
    StageKeepsLinks(t, after, entries, eventType);
  }

  lemma {:induction false} NothingOf(outbox: seq<Event>, ledger: seq<LedgerEntry>, id: Id)
    requires forall e :: e in outbox ==> e.paymentId != id
    requires forall e :: e in ledger ==> e.paymentId != id
    ensures EventsOf(outbox, id) == [] && EntriesOf(ledger, id) == []
    decreases |outbox| + |ledger|
  {
    if outbox != [] {
      NothingOf(outbox[..|outbox| - 1], ledger, id);
    } else if ledger != [] {
      NothingOf(outbox, ledger[..|ledger| - 1], id);
    }
  }

  lemma InitialFits(p: Payment, entries: seq<LedgerEntry>)
    requires WellFormed(p) && Initial(p) && entries == InitialEntries(p)
    ensures LedgerFits(entries, p)
  {
    if entries != [] {
      var e := entries[0];
      assert entries == [] + [e];
      TotalsAppend([], e);
      CountAppend([], e, ConfirmationCaptureEntry);
      PrefixesAppend([], e);
    }
  }

  lemma InitialHistory(p: Payment, e: Event)
    requires WellFormed(p) && Initial(p) && e == OutboxEvent(e.id, p, InitialEvent(p))
    ensures History([e], p)
  {
  }

  /** A new payment starts with one event and, when approved, one authorization entry. */
  lemma CreateKeepsCore(t: Tables, p: Payment)
    requires CoreInv(t) && p.id !in t.payments && WellFormed(p) && Initial(p) && ReferenceFree(t, p.reference)
    ensures CoreInv(StageRow(t, p, InitialEntries(p), InitialEvent(p)))
  {
    CreatedPaymentOk(t, p);
    StageKeepsPayments(t, p, InitialEntries(p), InitialEvent(p));
    KeysAreIds(t);
    StageKeepsLinks(t, p, InitialEntries(p), InitialEvent(p));
  }

  lemma CreatedPaymentOk(t: Tables, p: Payment)
    requires Linked(t) && p.id !in t.payments && WellFormed(p) && Initial(p)
    ensures PaymentOk(StageRow(t, p, InitialEntries(p), InitialEvent(p)), p.id)
  {
    var e := OutboxEvent(|t.outbox|, p, InitialEvent(p));
    FirstWritten(t, p, InitialEntries(p), e);
    InitialFits(p, InitialEntries(p));
    InitialHistory(p, e);
  }

  lemma FirstWritten(t: Tables, p: Payment, entries: seq<LedgerEntry>, e: Event)
    requires Linked(t) && p.id !in t.payments && e.paymentId == p.id
    requires |entries| <= 1 && forall f :: f in entries ==> f.paymentId == p.id
    ensures EventsOf(t.outbox + [e], p.id) == [e] && EntriesOf(t.ledger + entries, p.id) == entries
  {
    assert forall f :: f in t.outbox ==> f.paymentId != p.id;
    NothingOf(t.outbox, t.ledger, p.id);
    EventsAppend(t.outbox, e, p.id);
    EntriesAppend(t.ledger, entries, p.id);
  }
}
