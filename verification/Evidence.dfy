/**
 * Confirmation evidence in every run: receipts never change, each completed receipt has one final record that
 * explains itself, and a delayed payment has an applied record exactly when it was paid.
 */
module Evidence {
  import opened Wrappers
  import opened Domain
  import opened Tables
  import opened Ledger
  import opened Ordering
  import opened Payments
  import opened Confirmations
  import opened Runs
  import opened Invariants
  import opened CoreRuns

  ghost function AppliedTo(t: Tables, paymentId: Id): set<Id> {
    set c | c in t.confirmations && t.confirmations[c].disposition == Applied
            && t.confirmations[c].paymentId == Some(paymentId)
  }

  ghost predicate ReceiptOk(t: Tables, c: Id)
    requires c in t.receipts
  {
    && t.receipts[c].command.confirmationId == c
    && t.receipts[c].command.amount > 0
    && (t.receipts[c].completed <==> c in t.confirmations)
  }

  /** The record carries the receipt's fields, and its disposition is true of the payment it names. */
  ghost predicate ConfirmationOk(t: Tables, c: Id)
    requires c in t.confirmations
  {
    var k := t.confirmations[c];
    && c in t.receipts
    && k.command == t.receipts[c].command
    && k.receivedAt == t.receipts[c].receivedAt
    && (k.disposition == UnknownReference <==> k.paymentId.None?)
    && (k.paymentId.Some? ==>
          && Owns(t, k.paymentId.value, k.command.reference)
          && t.payments[k.paymentId.value].expiresAt.Some?
          && Explains(k, t.payments[k.paymentId.value]))
  }

  ghost predicate Explains(k: Confirmation, p: Payment)
    requires p.expiresAt.Some?
  {
    match k.disposition
    case Applied => PaidByConfirmation(p) && OnTimeMatch(k.command, k.receivedAt, p)
    case Late => k.receivedAt >= p.expiresAt.value || p.status == Expired
    case AmountMismatch => k.receivedAt < p.expiresAt.value && k.command.amount != p.amount
    case CurrencyMismatch => k.receivedAt < p.expiresAt.value && k.command.currency != p.currency
    case AlreadyResolved => Paid(p.status) || p.status == Cancelled
    case UnknownReference => true
  }

  ghost predicate AppliedOk(t: Tables, id: Id)
    requires id in t.payments
  {
    |AppliedTo(t, id)| == if PaidByConfirmation(t.payments[id]) then 1 else 0
  }

  ghost predicate EvidenceInv(t: Tables) {
    && (forall c {:trigger ReceiptOk(t, c)} :: c in t.receipts ==> ReceiptOk(t, c))
    && (forall c {:trigger ConfirmationOk(t, c)} :: c in t.confirmations ==> ConfirmationOk(t, c))
    && (forall id {:trigger AppliedOk(t, id)} :: id in t.payments ==> AppliedOk(t, id))
  }

  /** What a change other than a confirmed capture may do to a payment. */
  ghost predicate Continues(p: Payment, q: Payment) {
    && q.id == p.id && q.amount == p.amount && q.currency == p.currency && q.flow == p.flow
    && q.reference == p.reference && q.expiresAt == p.expiresAt && q.createdAt == p.createdAt
    && q.version >= p.version
    && (Paid(p.status) ==> Paid(q.status))
    && (p.status == Expired || p.status == Cancelled ==> q.status == p.status)
  }

  ghost predicate Kept(t: Tables, t': Tables, id: Id)
    requires id in t.payments
  {
    && id in t'.payments
    && Continues(t.payments[id], t'.payments[id])
    && PaidByConfirmation(t'.payments[id]) == PaidByConfirmation(t.payments[id])
  }

  lemma LegalContinues(p: Payment, a: Action, q: Payment)
    requires WellFormed(p) && Legal(p, a, q)
    ensures Continues(p, q)
    ensures !a.DoConfirm? ==> PaidByConfirmation(q) == PaidByConfirmation(p)
  {
  }

  ghost predicate FormsOk(t: Tables) {
    && (forall c {:trigger ReceiptOk(t, c)} :: c in t.receipts ==> ReceiptOk(t, c))
    && (forall c {:trigger ConfirmationOk(t, c)} :: c in t.confirmations ==> ConfirmationOk(t, c))
  }

  lemma FormsFrame(t: Tables, t': Tables)
    requires FormsOk(t) && t'.receipts == t.receipts && t'.confirmations == t.confirmations
    requires forall id :: id in t.payments ==> id in t'.payments && Continues(t.payments[id], t'.payments[id])
    ensures FormsOk(t')
  {
    forall c | c in t'.receipts
      ensures ReceiptOk(t', c)
    {
      assert ReceiptOk(t, c);
    }
    forall c | c in t'.confirmations
      ensures ConfirmationOk(t', c)
    {
      assert ConfirmationOk(t, c);
    }
  }

  lemma EvidenceFrame(t: Tables, t': Tables)
    requires EvidenceInv(t) && t'.receipts == t.receipts && t'.confirmations == t.confirmations
    requires forall id :: id in t.payments ==> Kept(t, t', id)
    requires forall id :: id in t'.payments && id !in t.payments ==> !PaidByConfirmation(t'.payments[id])
    ensures EvidenceInv(t')
  {
    forall id | id in t.payments
      ensures id in t'.payments && Continues(t.payments[id], t'.payments[id])
    {
      assert Kept(t, t', id);
    }
    FormsFrame(t, t');
    forall id | id in t'.payments
      ensures AppliedOk(t', id)
    {
      assert AppliedTo(t', id) == AppliedTo(t, id);
      if id in t.payments {
        assert AppliedOk(t, id) && Kept(t, t', id);
      } else {
        forall c | c in t.confirmations
          ensures c !in AppliedTo(t, id)
        {
          assert ConfirmationOk(t, c);
        }
        assert AppliedTo(t, id) == {};
      }
    }
  }

  lemma StagedRowEvidence(t: Tables, t': Tables, q: Payment)
    requires EvidenceInv(t) && t'.receipts == t.receipts && t'.confirmations == t.confirmations
    requires t'.payments == t.payments[q.id := q]
    requires if q.id in t.payments then Kept(t, t', q.id) else !PaidByConfirmation(q)
    ensures EvidenceInv(t')
  {
    forall id | id in t.payments
      ensures Kept(t, t', id)
    {
    }
    EvidenceFrame(t, t');
  }

  /** Everything one committed payment request writes. */
  ghost predicate Commits(
    t: Tables, t': Tables, key: Id, request: Request, q: Payment, entries: seq<LedgerEntry>, eventType: EventType)
  {
    && key !in t.idempotency
    && t' == StageRow(t, q, entries, eventType)
             .(idempotency := t.idempotency[key := IdempotencyRecord(request, Some(q.id), Some(q))])
    && |entries| <= 1
    && (forall e :: e in entries ==> e.paymentId == q.id && e.createdAt == q.updatedAt)
  }

  lemma AuthorizeCommit(
    t: Tables, key: Id, request: Request, now: Time, id: Id, reference: Id, failure: Option<FailurePoint>)
    returns (q: Payment)
    requires request.AuthorizeRequest? && AuthorizePayment(t, key, request, now, id, reference, failure).tables != t
    ensures Commits(t, AuthorizePayment(t, key, request, now, id, reference, failure).tables,
                    key, request, q, InitialEntries(q), InitialEvent(q))
    ensures InitialRow(request, id, reference, now) == Ok(q)
    ensures q.id == id && id !in t.payments && WellFormed(q) && Initial(q) && q.createdAt == now
    ensures q.reference.Some? ==> q.reference == Some(reference)
    ensures q.flow.AsynchronousConfirmation? <==> request.token == AwaitConfirmation
    ensures ReferenceFree(t, q.reference)
  {
    q := InitialRow(request, id, reference, now).value;
  }

  /**
   * Optimistic writers linearise. Capture and refund may decide on any version their session still holds, yet a
   * change that commits is one legal domain transition of the row committed last, and nothing else is written.
   */
  lemma ChangeCommit(
    t: Tables, key: Id, request: Request, id: Id, view: Option<Payment>, now: Time, failure: Option<FailurePoint>)
    returns (q: Payment, entries: seq<LedgerEntry>)
    requires CoreInv(t) && !request.AuthorizeRequest? && (view.Some? ==> Seen(t, id, view.value))
    requires ChangePayment(t, key, request, view, now, failure).tables != t
    ensures Commits(t, ChangePayment(t, key, request, view, now, failure).tables,
                    key, request, q, entries, ChangeEvent(request))
    ensures id in t.payments && view == Some(t.payments[id])
    ensures q.id == id && Legal(t.payments[id], ActionOf(request), q) && q.updatedAt == now
    ensures request.CancelRequest? && t.payments[id].status == AwaitingPayment ==> !Protected(t, t.payments[id])
  {
    HonestView(t, id, view);
    SameVersionSameRow(t, id, view.value);
    assert PaymentOk(t, id);
    DecisionIsLegal(t, view.value, request, now);
    var next := Decide(t, view.value, request).value;
    q := WithState(view.value, next, now);
    entries := ChangeEntries(view.value, next, request, now);
  }

  /** What a request that changes the tables commits: a new payment, or a legal change of a stored one. */
  lemma RequestCommit(t: Tables, s: Step) returns (q: Payment, entries: seq<LedgerEntry>, eventType: EventType)
    requires CoreInv(t) && Honest(t, s) && s.IsRequest() && Apply(t, s) != t
    ensures Commits(t, Apply(t, s), s.key, s.Request(), q, entries, eventType)
    ensures q.updatedAt == s.now
    ensures if s.AuthorizeStep? then
              q.id !in t.payments && WellFormed(q) && Initial(q)
              && (q.reference.Some? ==> q.reference == Some(s.freshReference))
              && (q.flow.AsynchronousConfirmation? <==> s.token == AwaitConfirmation)
            else
              q.id == s.paymentId && q.id in t.payments && Legal(t.payments[q.id], ActionOf(s.Request()), q)
    ensures s.CancelStep? && t.payments[q.id].status == AwaitingPayment ==> !Protected(t, t.payments[q.id])
  {
    match s
    case AuthorizeStep(key, _, _, _, _, now, id, reference, failure) =>
      q := AuthorizeCommit(t, key, s.Request(), now, id, reference, failure);
      entries, eventType := InitialEntries(q), InitialEvent(q);
    case CaptureStep(key, id, view, now, failure) =>
      q, entries := ChangeCommit(t, key, s.Request(), id, view, now, failure);
      eventType := ChangeEvent(s.Request());
    case RefundStep(key, id, _, view, now, failure) =>
      q, entries := ChangeCommit(t, key, s.Request(), id, view, now, failure);
      eventType := ChangeEvent(s.Request());
    case CancelStep(key, id, now, failure) =>
      if id in t.payments {
        assert PaymentOk(t, id);
        StoredIsSeen(t, id);
      }
      q, entries := ChangeCommit(t, key, s.Request(), id, Stored(t, id), now, failure);
      eventType := ChangeEvent(s.Request());
  }

  lemma RequestKeepsEvidence(t: Tables, s: Step)
    requires CoreInv(t) && EvidenceInv(t) && Honest(t, s) && s.IsRequest()
    ensures EvidenceInv(Apply(t, s))
  {
    var t' := Apply(t, s);
    if t' != t {
      var q, entries, eventType := RequestCommit(t, s);
      if !s.AuthorizeStep? {
        assert PaymentOk(t, q.id);
        LegalContinues(t.payments[q.id], ActionOf(s.Request()), q);
      }
      StagedRowEvidence(t, t', q);
    }
  }

  // ----- resolving a receipt ----------------------------------------------------------------------------------

  function Resolved(t: Tables, id: Id, k: Confirmation): Tables
    requires id in t.receipts
  {
    t.(receipts := t.receipts[id := t.receipts[id].(completed := true)],
       confirmations := t.confirmations[id := k])
  }

  /** The record names its payment, and what it says of the payment is true. */
  ghost predicate Fits(t: Tables, id: Id, k: Confirmation) {
    && id in t.receipts
    && k.command == t.receipts[id].command && k.receivedAt == t.receipts[id].receivedAt
    && (k.disposition == UnknownReference <==> k.paymentId.None?)
    && (k.paymentId.Some? ==>
          && Owns(t, k.paymentId.value, k.command.reference)
          && t.payments[k.paymentId.value].expiresAt.Some?
          && Explains(k, t.payments[k.paymentId.value]))
  }

  lemma RecordKeepsForms(t: Tables, id: Id, k: Confirmation)
    requires FormsOk(t) && id in t.receipts && id !in t.confirmations && Fits(t, id, k)
    requires k.command == t.receipts[id].command && (k.disposition == Applied ==> k.paymentId.Some?)
    ensures FormsOk(Resolved(t, id, k))
  {
    var t' := Resolved(t, id, k);
    forall c | c in t'.receipts
      ensures ReceiptOk(t', c)
    {
      assert ReceiptOk(t, c);
    }
    forall c | c in t'.confirmations
      ensures ConfirmationOk(t', c)
    {
      if c != id { assert ConfirmationOk(t, c); }
    }
  }

  lemma RecordKeepsEvidence(t: Tables, id: Id, k: Confirmation)
    requires EvidenceInv(t) && id in t.receipts && id !in t.confirmations && Fits(t, id, k) && k.disposition != Applied
    ensures EvidenceInv(Resolved(t, id, k))
  {
    var t' := Resolved(t, id, k);
    RecordKeepsForms(t, id, k);
    forall p | p in t'.payments
      ensures AppliedOk(t', p)
    {
      assert AppliedOk(t, p);
      assert AppliedTo(t', p) == AppliedTo(t, p);
    }
  }

  /** Staging the confirmed capture and recording it go together. */
  lemma CaptureKeepsEvidence(t: Tables, q: Payment, entries: seq<LedgerEntry>, id: Id, k: Confirmation)
    requires EvidenceInv(t) && id in t.receipts && id !in t.confirmations
    requires q.id in t.payments && WellFormed(t.payments[q.id]) && t.payments[q.id].status == AwaitingPayment
    requires Legal(t.payments[q.id], DoConfirm(q.amount), q)
    requires k.disposition == Applied && k.paymentId == Some(q.id)
    requires Fits(StageRow(t, q, entries, CapturedEvent), id, k)
    ensures EvidenceInv(Resolved(StageRow(t, q, entries, CapturedEvent), id, k))
  {
    var staged := StageRow(t, q, entries, CapturedEvent);
    LegalContinues(t.payments[q.id], DoConfirm(q.amount), q);
    FormsFrame(t, staged);
    RecordKeepsForms(staged, id, k);
    CaptureKeepsApplied(t, staged, q, id, k);
  }

  lemma CaptureKeepsApplied(t: Tables, staged: Tables, q: Payment, id: Id, k: Confirmation)
    requires forall p :: p in t.payments ==> AppliedOk(t, p)
    requires q.id in t.payments && !PaidByConfirmation(t.payments[q.id]) && PaidByConfirmation(q)
    requires staged.payments == t.payments[q.id := q] && staged.confirmations == t.confirmations
    requires id in staged.receipts && id !in t.confirmations
    requires k.disposition == Applied && k.paymentId == Some(q.id)
    ensures forall p :: p in staged.payments ==> AppliedOk(Resolved(staged, id, k), p)
  {
    var t' := Resolved(staged, id, k);
    forall p | p in t'.payments
      ensures AppliedOk(t', p)
    {
      assert AppliedOk(t, p);
      assert AppliedTo(t', p) == if p == q.id then AppliedTo(t, p) + {id} else AppliedTo(t, p);
    }
  }

  /** What the completion of an unresolved receipt writes. */
  lemma CompletionCommit(t: Tables, id: Id)
    returns (k: Confirmation, staged: Tables, q: Option<Payment>, entries: seq<LedgerEntry>, eventType: EventType)
    requires CoreInv(t) && id in t.receipts && id !in t.confirmations
    ensures id in staged.receipts && Complete(t, id).tables == Resolved(staged, id, k)
    ensures q.None? ==> staged == t && entries == []
    ensures q.Some? ==> staged == StageRow(t, q.value, entries, eventType) && q.value.id in t.payments
                        && PaymentByReference(t, k.command.reference) == Some(t.payments[q.value.id])
                        && t.payments[q.value.id].status == AwaitingPayment
                        && q.value.updatedAt == k.receivedAt
                        && k.paymentId == Some(q.value.id)
    ensures k.disposition == Applied ==>
              && q.Some? && Legal(t.payments[q.value.id], DoConfirm(q.value.amount), q.value)
              && eventType == CapturedEvent
              && entries ==
                 [LedgerEntry(q.value.id, ConfirmationCaptureEntry, q.value.amount, q.value.currency, k.receivedAt)]
    ensures k.disposition != Applied && q.Some? ==>
              && Legal(t.payments[q.value.id], DoExpire, q.value) && entries == [] && eventType == ExpiredEvent
              && t.payments[q.value.id].expiresAt.Some?
              && k.receivedAt >= t.payments[q.value.id].expiresAt.value && !Protected(t, t.payments[q.value.id])
    ensures Fits(staged, id, k)
    ensures k.disposition ==
            Classify(PaymentByReference(t, k.command.reference), k.command, k.receivedAt)
  {
    var r := t.receipts[id];
    var payment := PaymentByReference(t, r.command.reference);
    var d := Classify(payment, r.command, r.receivedAt);
    k := Confirmation(r.command, r.receivedAt, d, IdOf(payment));
    staged, q, entries, eventType := t, None, [], ExpiredEvent;
    if payment.Some? {
      var p := payment.value;
      FoundByReference(t, r.command.reference);
      if d == Applied {
        q := Some(WithState(p, PaymentState(Captured, p.amount, p.amount, 0), r.receivedAt));
        entries := [LedgerEntry(p.id, ConfirmationCaptureEntry, p.amount, p.currency, r.receivedAt)];
        eventType := CapturedEvent;
        staged := StageRow(t, q.value, entries, CapturedEvent);
      } else if d == Late && p.status == AwaitingPayment && !Protected(t, p) {
        q := Some(ExpiredRow(p, r.receivedAt).value);
        staged := StageRow(t, q.value, [], ExpiredEvent);
      }
    }
  }

  lemma CompleteKeepsEvidence(t: Tables, id: Id)
    requires CoreInv(t) && EvidenceInv(t)
    ensures EvidenceInv(Complete(t, id).tables)
  {
    if id in t.receipts && id !in t.confirmations {
      var k, staged, q, entries, eventType := CompletionCommit(t, id);
      if q.None? {
        RecordKeepsEvidence(t, id, k);
      } else {
        assert PaymentOk(t, q.value.id);
        if k.disposition == Applied {
          CaptureKeepsEvidence(t, q.value, entries, id, k);
        } else {
          LegalContinues(t.payments[q.value.id], DoExpire, q.value);
          StagedRowEvidence(t, staged, q.value);
          RecordKeepsEvidence(staged, id, k);
        }
      }
    }
  }

  lemma ExpiringKeepsEvidence(t: Tables, t': Tables, ids: seq<Id>, now: Time)
    requires EvidenceInv(t) && forall id :: id in ids ==> id in t.payments && Waiting(t.payments, id)
    requires t'.payments == ExpiredPayments(t.payments, ids, now)
    requires t'.receipts == t.receipts && t'.confirmations == t.confirmations
    ensures EvidenceInv(t')
  {
    forall id | id in t.payments
      ensures Kept(t, t', id)
    {
    }
    EvidenceFrame(t, t');
  }

  /** What a sweep writes: the first due payments become expired, everything else stays. */
  lemma SweepCommit(t: Tables, now: Time, limit: int) returns (ids: seq<Id>)
    requires CoreInv(t)
    ensures
      var t' := ExpireDue(t, now, limit).tables;
      && Distinct(ids)
      && (forall id :: id in ids ==> id in t.payments && Waiting(t.payments, id) && IsDue(t, t.payments[id], now))
      && t'.payments == ExpiredPayments(t.payments, ids, now)
      && t'.ledger == t.ledger && t'.idempotency == t.idempotency
      && t'.receipts == t.receipts && t'.confirmations == t.confirmations
      && t.outbox <= t'.outbox
  {
    ids := [];
    if 1 <= limit <= MAX_EXPIRY_BATCH_SIZE {
      ids := FirstOf(Sorted(Due(t, now)), limit);
      DueIdsAwait(t, now, limit);
      ExpireAllKeepsCore(t, ids, now);
      ExpireAllEffect(t, ids, now);
    } else {
      assert ExpiredPayments(t.payments, [], now) == t.payments;
    }
  }

  lemma SweepKeepsEvidence(t: Tables, now: Time, limit: int)
    requires CoreInv(t) && EvidenceInv(t)
    ensures EvidenceInv(ExpireDue(t, now, limit).tables)
  {
    var ids := SweepCommit(t, now, limit);
    ExpiringKeepsEvidence(t, ExpireDue(t, now, limit).tables, ids, now);
  }

  lemma StepKeepsEvidence(t: Tables, s: Step)
    requires CoreInv(t) && EvidenceInv(t) && Honest(t, s)
    ensures EvidenceInv(Apply(t, s))
  {
    match s
    case AcceptStep(command, now) => AcceptKeepsEvidence(t, command, now);
    case CompleteStep(id) => CompleteKeepsEvidence(t, id);
    case SweepStep(now, limit) => SweepKeepsEvidence(t, now, limit);
    case _ => RequestKeepsEvidence(t, s);
  }

  lemma AcceptKeepsEvidence(t: Tables, command: ConfirmationCommand, now: Time)
    requires EvidenceInv(t)
    ensures EvidenceInv(Accept(t, command, now).tables)
  {
    var t' := Accept(t, command, now).tables;
    var c0 := command.confirmationId;
    if c0 !in t.receipts {
      forall c | c in t.confirmations
        ensures ConfirmationOk(t', c) && c != c0
      {
        assert ConfirmationOk(t, c);
      }
      forall c | c in t'.receipts
        ensures ReceiptOk(t', c)
      {
        if c != c0 { assert ReceiptOk(t, c); }
      }
      forall id | id in t'.payments
        ensures AppliedOk(t', id)
      {
        assert AppliedOk(t, id) && AppliedTo(t', id) == AppliedTo(t, id);
      }
    }
  }

  /** The receipt keeps its input, stays completed once completed, and its final record never changes. */
  ghost predicate ReceiptKept(t: Tables, t': Tables, c: Id)
    requires c in t.receipts
  {
    && c in t'.receipts
    && t'.receipts[c].command == t.receipts[c].command && t'.receipts[c].receivedAt == t.receipts[c].receivedAt
    && (t.receipts[c].completed ==> t'.receipts[c].completed)
    && (c in t.confirmations ==> c in t'.confirmations && t'.confirmations[c] == t.confirmations[c])
  }

  lemma CompleteKeepsReceipts(t: Tables, id: Id, c: Id)
    requires c in t.receipts
    ensures ReceiptKept(t, Complete(t, id).tables, c)
  {
  }

  lemma ChangeKeepsReceipts(
    t: Tables, key: Id, request: Request, view: Option<Payment>, now: Time, failure: Option<FailurePoint>)
    requires !request.AuthorizeRequest?
    ensures
      var t' := ChangePayment(t, key, request, view, now, failure).tables;
      t'.receipts == t.receipts && t'.confirmations == t.confirmations
  {
  }

  lemma RequestKeepsReceipts(t: Tables, s: Step)
    requires s.IsRequest()
    ensures Apply(t, s).receipts == t.receipts && Apply(t, s).confirmations == t.confirmations
  {
    match s
    case AuthorizeStep(_, _, _, _, _, _, _, _, _) =>
    case CaptureStep(key, _, view, now, failure) => ChangeKeepsReceipts(t, key, s.Request(), view, now, failure);
    case RefundStep(key, _, _, view, now, failure) => ChangeKeepsReceipts(t, key, s.Request(), view, now, failure);
    case CancelStep(key, id, now, failure) => ChangeKeepsReceipts(t, key, s.Request(), Stored(t, id), now, failure);
  }

  lemma StepKeepsReceipts(t: Tables, s: Step, c: Id)
    requires CoreInv(t) && c in t.receipts
    ensures ReceiptKept(t, Apply(t, s), c)
  {
    match s
    case AcceptStep(_, _) =>
    case CompleteStep(id) => CompleteKeepsReceipts(t, id, c);
    case SweepStep(now, limit) => var ids := SweepCommit(t, now, limit);
    case _ => RequestKeepsReceipts(t, s);
  }

  ghost predicate Inv(t: Tables) {
    CoreInv(t) && EvidenceInv(t)
  }

  lemma {:induction false} RunsKeepReceipts(t: Tables, steps: seq<Step>, c: Id)
    requires CoreInv(t) && HonestRun(t, steps) && c in t.receipts
    ensures ReceiptKept(t, Run(t, steps), c)
    decreases |steps|
  {
    if steps != [] {
      StepKeepsCore(t, steps[0]);
      StepKeepsReceipts(t, steps[0], c);
      RunsKeepReceipts(Apply(t, steps[0]), steps[1..], c);
    }
  }

  /**
   * From any state of a run to any later one: the input of a receipt is what it was, a completed receipt stays
   * completed, and a final record is the same for ever.
   */
  lemma ReceiptsAreImmutable(t: Tables, first: seq<Step>, second: seq<Step>, c: Id)
    requires CoreInv(t) && HonestRun(t, first + second) && c in Run(t, first).receipts
    ensures ReceiptKept(Run(t, first), Run(t, first + second), c)
  {
    RunSplits(t, first, second);
    RunsKeepCore(t, first);
    RunsKeepReceipts(Run(t, first), second, c);
  }

  /** Every reachable state, in any interleaving, with crashes anywhere. */
  lemma {:induction false} RunsKeepInv(t: Tables, steps: seq<Step>)
    requires Inv(t) && HonestRun(t, steps)
    ensures Inv(Run(t, steps))
    decreases |steps|
  {
    if steps != [] {
      StepKeepsCore(t, steps[0]);
      StepKeepsEvidence(t, steps[0]);
      RunsKeepInv(Apply(t, steps[0]), steps[1..]);
    }
  }

  /**
   * From an empty store: a receipt is completed exactly when its final record exists, and each payment has as many
   * applied records as confirmed ledger effects, namely one exactly when a delayed payment has been paid.
   */
  lemma EvidenceMatchesMoney(steps: seq<Step>, id: Id, c: Id)
    requires HonestRun(EMPTY, steps) && id in Run(EMPTY, steps).payments && c in Run(EMPTY, steps).receipts
    ensures
      var t := Run(EMPTY, steps);
      && (t.receipts[c].completed <==> c in t.confirmations)
      && (c in t.confirmations ==> t.confirmations[c].command == t.receipts[c].command
                                   && t.confirmations[c].receivedAt == t.receipts[c].receivedAt)
      && |AppliedTo(t, id)| == CountOf(EntriesOf(t.ledger, id), ConfirmationCaptureEntry)
         == (if PaidByConfirmation(t.payments[id]) then 1 else 0)
  {
    RunsKeepInv(EMPTY, steps);
    var t := Run(EMPTY, steps);
    assert PaymentOk(t, id) && AppliedOk(t, id) && ReceiptOk(t, c);
    if c in t.confirmations { assert ConfirmationOk(t, c); }
  }
}
