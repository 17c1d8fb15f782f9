/** Every step keeps rows, histories and ledgers in agreement; stale writers only ever commit on the current row. */
module CoreRuns {
  import opened Wrappers
  import opened Domain
  import opened Tables
  import opened Ledger
  import opened Ordering
  import opened Payments
  import opened Confirmations
  import opened Runs
  import opened Invariants

  function ActionOf(request: Request): Action
    requires !request.AuthorizeRequest?
  {
    match request
    case CaptureRequest(_) => DoCapture
    case CancelRequest(_) => DoCancel
    case RefundRequest(_, n) => DoRefund(n)
  }

  /** A committed version that still has the row's version number is the row itself. */
  lemma SameVersionSameRow(t: Tables, id: Id, view: Payment)
    requires id in t.payments && PaymentOk(t, id) && Seen(t, id, view)
    ensures view.id == id && 1 <= view.version <= t.payments[id].version
    ensures view.version == t.payments[id].version ==> view == t.payments[id]
  {
    var e :| e in t.outbox && e.paymentId == id && e.snapshot == view;
    EventsOfMembers(t.outbox, id, e);
    var events := EventsOf(t.outbox, id);
    var i :| 0 <= i < |events| && events[i] == e;
    assert EventFits(events[i], i + 1, id);
  }

  lemma SeenIsWellFormed(t: Tables, p: Payment)
    requires p.id in t.payments && PaymentOk(t, p.id) && Seen(t, p.id, p)
    ensures WellFormed(p)
  {
    var e :| e in t.outbox && e.paymentId == p.id && e.snapshot == p;
    EventsOfMembers(t.outbox, p.id, e);
    var events := EventsOf(t.outbox, p.id);
    var i :| 0 <= i < |events| && events[i] == e;
    assert EventFits(events[i], i + 1, p.id);
  }

  lemma DecisionIsLegal(t: Tables, view: Payment, request: Request, now: Time)
    requires WellFormed(view) && !request.AuthorizeRequest? && Decide(t, view, request).Ok?
    ensures
      var next := Decide(t, view, request).value;
      var row := WithState(view, next, now);
      && Legal(view, ActionOf(request), row)
      && PaymentChecks(row)
      && EntriesFit(view, ActionOf(request), ChangeEntries(view, next, request, now))
  {
    LegalKeepsForm(view, ActionOf(request), WithState(view, Decide(t, view, request).value, now));
    match request
    case CaptureRequest(_) =>
    case CancelRequest(_) =>
    case RefundRequest(_, _) =>
  }

  lemma ChangeKeepsCore(
    t: Tables, key: Id, request: Request, view: Option<Payment>, now: Time, failure: Option<FailurePoint>)
    requires CoreInv(t) && !request.AuthorizeRequest?
    requires view.Some? ==> view.value.id in t.payments ==> Seen(t, view.value.id, view.value)
    ensures CoreInv(ChangePayment(t, key, request, view, now, failure).tables)
  {
    var change := Change(t, view, request, now);
    if change.Ok? {
      var p := view.value;
      var (row, entries) := change.value;
      assert PaymentOk(t, p.id);
      SameVersionSameRow(t, p.id, p);
      ChangeStaged(t, p, request, now);
      IdempotencyIrrelevant(t, StageRow(t, row, entries, ChangeEvent(request)), key, request, row, failure);
    }
  }

  lemma ChangeStaged(t: Tables, p: Payment, request: Request, now: Time)
    requires CoreInv(t) && p.id in t.payments && t.payments[p.id] == p
    requires !request.AuthorizeRequest? && Decide(t, p, request).Ok?
    ensures
      var next := Decide(t, p, request).value;
      CoreInv(StageRow(t, WithState(p, next, now), ChangeEntries(p, next, request, now), ChangeEvent(request)))
  {
    assert PaymentOk(t, p.id);
    DecisionIsLegal(t, p, request, now);
    var next := Decide(t, p, request).value;
    StageKeepsCore(t, ActionOf(request), WithState(p, next, now), ChangeEntries(p, next, request, now),
                   ChangeEvent(request));
  }

  lemma IdempotencyIrrelevant(
    t: Tables, staged: Tables, key: Id, request: Request, row: Payment, failure: Option<FailurePoint>)
    requires CoreInv(t) && CoreInv(staged)
    ensures CoreInv(Finish(t, staged, key, request, row, failure).tables)
  {
    SameCore(staged, Finish(t, staged, key, request, row, None).tables);
  }

  lemma SameCore(t: Tables, t': Tables)
    requires CoreInv(t) && t'.payments == t.payments && t'.ledger == t.ledger && t'.outbox == t.outbox
    ensures CoreInv(t')
  {
    forall id | id in t'.payments
      ensures PaymentOk(t', id)
    {
      assert PaymentOk(t, id);
    }
  }

  lemma StoredIsSeen(t: Tables, id: Id)
    requires id in t.payments && PaymentOk(t, id)
    ensures Seen(t, id, t.payments[id])
  {
    var events := EventsOf(t.outbox, id);
    EventsOfMembers(t.outbox, id, events[|events| - 1]);
  }

  lemma AuthorizeKeepsCore(
    t: Tables, key: Id, request: Request, now: Time, freshId: Id, freshReference: Id, failure: Option<FailurePoint>)
    requires CoreInv(t) && request.AuthorizeRequest?
    ensures CoreInv(AuthorizePayment(t, key, request, now, freshId, freshReference, failure).tables)
  {
    var r := InitialRow(request, freshId, freshReference, now);
    if r.Ok? && PaymentChecks(r.value) && freshId !in t.payments && ReferenceFree(t, r.value.reference) {
      var p := r.value;
      CreateKeepsCore(t, p);
      IdempotencyIrrelevant(t, StageRow(t, p, InitialEntries(p), InitialEvent(p)), key, request, p, failure);
    }
  }

  // ----- confirmations ----------------------------------------------------------------------------------------

  lemma FoundByReference(t: Tables, reference: Id)
    requires AllPaymentsOk(t) && PaymentByReference(t, reference).Some?
    ensures
      var p := PaymentByReference(t, reference).value;
      Owns(t, p.id, reference) && t.payments[p.id] == p && PaymentOk(t, p.id)
  {
    var id :| Owns(t, id, reference) && t.payments[id] == PaymentByReference(t, reference).value;
    assert PaymentOk(t, id);
  }

  /** Resolving a receipt never raises once the stored rows agree, whatever its disposition. */
  lemma CompletionSucceeds(t: Tables, id: Id)
    requires CoreInv(t) && id in t.receipts && id !in t.confirmations
    ensures Complete(t, id).result.Ok?
    ensures CoreInv(Complete(t, id).tables)
  {
    var r := t.receipts[id];
    var payment := PaymentByReference(t, r.command.reference);
    var d := Classify(payment, r.command, r.receivedAt);
    var applied := ApplyDisposition(t, payment, r.command, d, r.receivedAt);
    if payment.Some? {
      var p := payment.value;
      FoundByReference(t, r.command.reference);
      if d == Applied {
        var entry := LedgerEntry(p.id, ConfirmationCaptureEntry, p.amount, p.currency, r.receivedAt);
        StageKeepsCore(t, DoConfirm(p.amount),
                       WithState(p, PaymentState(Captured, p.amount, p.amount, 0), r.receivedAt), [entry],
                       CapturedEvent);
      } else if d == Late && p.status == AwaitingPayment && !Protected(t, p) {
        StageKeepsCore(t, DoExpire, ExpiredRow(p, r.receivedAt).value, [], ExpiredEvent);
      }
    }
    SameCore(applied.value, Complete(t, id).tables);
  }

  lemma CompleteKeepsCore(t: Tables, id: Id)
    requires CoreInv(t)
    ensures CoreInv(Complete(t, id).tables)
  {
    if id in t.receipts && id !in t.confirmations {
      CompletionSucceeds(t, id);
    }
  }

  function ExpiredPayments(payments: map<Id, Payment>, ids: seq<Id>, now: Time): map<Id, Payment> {
    map id | id in payments ::
      if id in ids then
        payments[id].(status := Expired, version := payments[id].version + 1, updatedAt := now)
      else payments[id]
  }

  predicate Waiting(payments: map<Id, Payment>, id: Id) {
    id in payments && payments[id].id == id && payments[id].status == AwaitingPayment && StateOf(payments[id]).Valid()
  }

  /** The sweep's loop expires exactly the listed payments and touches nothing else. */
  lemma {:induction false} ExpireAllEffect(t: Tables, ids: seq<Id>, now: Time)
    requires Distinct(ids) && forall id :: id in ids ==> id in t.payments && Waiting(t.payments, id)
    ensures ExpireAll(t, ids, now).Ok?
    ensures
      var t' := ExpireAll(t, ids, now).value;
      && t'.payments == ExpiredPayments(t.payments, ids, now)
      && t'.ledger == t.ledger && t'.idempotency == t.idempotency
      && t'.receipts == t.receipts && t'.confirmations == t.confirmations
      && t.outbox <= t'.outbox
    decreases |ids|
  {
    if ids == [] {
      assert ExpiredPayments(t.payments, ids, now) == t.payments;
    } else {
      var p := t.payments[ids[0]];
      var staged := StageExpiry(t, p, now).value;
      assert t.payments[p.id := ExpiredRow(p, now).value] == ExpiredPayments(t.payments, [p.id], now);
      assert t.ledger + [] == t.ledger;
      ExpireAllEffect(staged, ids[1..], now);
    }
  }

  lemma ExpireOneKeepsCore(t: Tables, id: Id, now: Time)
    requires CoreInv(t) && id in t.payments && t.payments[id].status == AwaitingPayment
    ensures Waiting(t.payments, id)
    ensures CoreInv(StageExpiry(t, t.payments[id], now).value)
  {
    var p := t.payments[id];
    assert PaymentOk(t, id);
    StageKeepsCore(t, DoExpire, ExpiredRow(p, now).value, [], ExpiredEvent);
  }

  lemma {:induction false} ExpireAllKeepsCore(t: Tables, ids: seq<Id>, now: Time)
    requires CoreInv(t) && Distinct(ids)
    requires forall id :: id in ids ==> id in t.payments && t.payments[id].status == AwaitingPayment
    ensures forall id :: id in ids ==> id in t.payments && Waiting(t.payments, id)
    ensures ExpireAll(t, ids, now).Ok? && CoreInv(ExpireAll(t, ids, now).value)
    decreases |ids|
  {
    if ids != [] {
      ExpireOneKeepsCore(t, ids[0], now);
      assert forall id :: id in ids <==> id == ids[0] || id in ids[1..];
      assert ids[0] !in ids[1..];
      ExpireAllKeepsCore(StageExpiry(t, t.payments[ids[0]], now).value, ids[1..], now);
    }
  }

  lemma DueIdsAwait(t: Tables, now: Time, limit: int)
    ensures
      var ids := FirstOf(Sorted(Due(t, now)), limit);
      Distinct(ids) && forall id :: id in ids ==> id in t.payments && IsDue(t, t.payments[id], now)
  {
    FirstOfSorted(Due(t, now), limit);
  }

  lemma SweepKeepsCore(t: Tables, now: Time, limit: int)
    requires CoreInv(t)
    ensures CoreInv(ExpireDue(t, now, limit).tables)
  {
    DueIdsAwait(t, now, limit);
    ExpireAllKeepsCore(t, FirstOf(Sorted(Due(t, now)), limit), now);
  }

  // ----- runs -------------------------------------------------------------------------------------------------

  lemma StepKeepsCore(t: Tables, s: Step)
    requires CoreInv(t) && Honest(t, s)
    ensures CoreInv(Apply(t, s))
  {
    match s
    case AuthorizeStep(key, _, _, _, _, now, freshId, freshReference, failure) =>
      AuthorizeKeepsCore(t, key, s.Request(), now, freshId, freshReference, failure);
    case CaptureStep(key, id, view, now, failure) =>
      HonestView(t, id, view);
      ChangeKeepsCore(t, key, s.Request(), view, now, failure);
    case RefundStep(key, id, _, view, now, failure) =>
      HonestView(t, id, view);
      ChangeKeepsCore(t, key, s.Request(), view, now, failure);
    case CancelStep(key, id, now, failure) =>
      if id in t.payments { StoredIsSeen(t, id); }
      ChangeKeepsCore(t, key, s.Request(), Stored(t, id), now, failure);
    case AcceptStep(command, now) =>
      SameCore(t, Apply(t, s));
    case CompleteStep(id) =>
      CompleteKeepsCore(t, id);
    case SweepStep(now, limit) =>
      SweepKeepsCore(t, now, limit);
  }

  lemma HonestView(t: Tables, id: Id, view: Option<Payment>)
    requires CoreInv(t) && (view.Some? ==> Seen(t, id, view.value))
    ensures view.Some? ==> view.value.id == id && id in t.payments && Seen(t, view.value.id, view.value)
  {
    if view.Some? {
      var e :| e in t.outbox && e.paymentId == id && e.snapshot == view.value;
      assert id in t.payments;
      SameVersionSameRow(t, id, view.value);
    }
  }

  /**
   * Ledger conservation and outbox completeness in every reachable state: for each payment the balances are the
   * totals of its own entries, and its events are exactly versions 1..version, each the payment as it was then.
   */
  lemma {:induction false} RunsKeepCore(t: Tables, steps: seq<Step>)
    requires CoreInv(t) && HonestRun(t, steps)
    ensures CoreInv(Run(t, steps))
    decreases |steps|
  {
    if steps != [] {
      StepKeepsCore(t, steps[0]);
      RunsKeepCore(Apply(t, steps[0]), steps[1..]);
    }
  }

  /** From an empty store: a payment's balances are always the totals of its own ledger entries. */
  lemma LedgerIsConserved(steps: seq<Step>, id: Id)
    requires HonestRun(EMPTY, steps) && id in Run(EMPTY, steps).payments
    ensures
      var t := Run(EMPTY, steps);
      var p := t.payments[id];
      && Totals(EntriesOf(t.ledger, id)) == LedgerTotals(p.authorized, p.captured, p.refunded)
      && 0 <= p.refunded <= p.captured <= p.authorized <= p.amount
      && (Paid(p.status) <==> p.captured == p.amount)
      && (p.status == Refunded <==> p.refunded == p.amount)
  {
    RunsKeepCore(EMPTY, steps);
    assert PaymentOk(Run(EMPTY, steps), id);
  }

  /** From an empty store: one event for each version, in order, and the newest is the payment as it is. */
  lemma OutboxIsComplete(steps: seq<Step>, id: Id, v: int)
    requires HonestRun(EMPTY, steps) && id in Run(EMPTY, steps).payments
    requires 1 <= v <= Run(EMPTY, steps).payments[id].version
    ensures
      var t := Run(EMPTY, steps);
      var p, events := t.payments[id], EventsOf(t.outbox, id);
      && |events| == p.version
      && events[v - 1].version == events[v - 1].snapshot.version == v
      && (v < p.version ==> Follows(events[v - 1].snapshot, events[v].snapshot))
      && (v == p.version ==> events[v - 1].snapshot == p)
  {
    RunsKeepCore(EMPTY, steps);
    assert PaymentOk(Run(EMPTY, steps), id);
    var events := EventsOf(Run(EMPTY, steps).outbox, id);
    assert EventFits(events[v - 1], v, id);
  }

  /**
   * From an empty store: a cancelled payment keeps the authorization it had, in its row and in its ledger, since the
   * entry that records the cancellation counts towards no balance.
   */
  lemma CancelledKeepsAuthorization(steps: seq<Step>, id: Id)
    requires HonestRun(EMPTY, steps) && id in Run(EMPTY, steps).payments
    requires Run(EMPTY, steps).payments[id].status == Cancelled
    ensures
      var t := Run(EMPTY, steps);
      var p := t.payments[id];
      && p.authorized == (if p.flow == Synchronous then p.amount else 0)
      && Totals(EntriesOf(t.ledger, id)) == LedgerTotals(p.authorized, 0, 0)
  {
    RunsKeepCore(EMPTY, steps);
    assert PaymentOk(Run(EMPTY, steps), id);
  }
}
