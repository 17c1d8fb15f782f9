/**
 * What a payment request is answered and what it writes, in every store whose rows agree: when it succeeds, with which
 * row, entry and event, and otherwise which rule refuses it.
 */
module Answers {
  import opened Wrappers
  import opened Domain
  import opened Tables
  import opened Payments
  import opened Runs
  import opened Invariants
  import opened CoreRuns

  /** Everything one committed request writes, column by column. */
  ghost predicate Writes(
    t: Tables, t': Tables, key: Id, request: Request, q: Payment, entries: seq<LedgerEntry>, eventType: EventType)
  {
    && t'.payments == t.payments[q.id := q]
    && t'.ledger == t.ledger + entries
    && t'.outbox == t.outbox + [Event(|t.outbox|, q.id, eventType, q.version, q.updatedAt, q)]
    && t'.idempotency == t.idempotency[key := IdempotencyRecord(request, Some(q.id), Some(q))]
    && t'.receipts == t.receipts && t'.confirmations == t.confirmations
  }

  /** The request succeeds with this row, entry and event. */
  ghost predicate Succeeds(
    t: Tables, s: Step, q: Payment, entries: seq<LedgerEntry>, eventType: EventType)
    requires s.IsRequest()
  {
    && Respond(t, s).result == Ok(PaymentOutcome(q, false))
    && Writes(t, Respond(t, s).tables, s.key, s.Request(), q, entries, eventType)
  }

  ghost predicate IsRefused(t: Tables, s: Step, e: Error)
    requires s.IsRequest()
  {
    Respond(t, s) == Reply(t, Err(e))
  }

  /** What the deciding session sees: its own view, or for a cancellation the stored row. */
  function SeenBy(t: Tables, s: Step): Option<Payment>
    requires s.IsRequest() && !s.AuthorizeStep?
  {
    if s.CancelStep? then Stored(t, s.paymentId) else s.view
  }

  lemma ChangeIsTold(t: Tables, s: Step)
    requires s.IsRequest() && !s.AuthorizeStep? && s.key !in t.idempotency && s.failure == None
    ensures
      match Change(t, SeenBy(t, s), s.Request(), s.now)
      case Err(e) => IsRefused(t, s, e)
      case Ok((q, entries)) => Succeeds(t, s, q, entries, ChangeEvent(s.Request()))
  {
  }

  /** A capture under a new key, decided on the stored row, succeeds exactly for an authorized payment. */
  lemma CaptureAnswers(t: Tables, key: Id, id: Id, now: Time)
    requires CoreInv(t) && key !in t.idempotency
    ensures
      var s := CaptureStep(key, id, Stored(t, id), now, None);
      if id !in t.payments then IsRefused(t, s, PaymentNotFound)
      else
        var p := t.payments[id];
        if p.status != Authorized then IsRefused(t, s, DomainRule(NotAllowed(p.status)))
        else
          Succeeds(
            t, s, p.(status := Captured, captured := p.amount, version := p.version + 1, updatedAt := now),
            [LedgerEntry(id, CaptureEntry, p.amount, p.currency, now)], CapturedEvent)
  {
    if id in t.payments {
      assert PaymentOk(t, id);
      CaptureChange(t, t.payments[id], now);
    }
    ChangeIsTold(t, CaptureStep(key, id, Stored(t, id), now, None));
  }

  /** A refund under a new key succeeds exactly for a positive amount of what is captured and not yet refunded. */
  lemma RefundAnswers(t: Tables, key: Id, id: Id, amount: int, now: Time)
    requires CoreInv(t) && key !in t.idempotency
    ensures
      var s := RefundStep(key, id, amount, Stored(t, id), now, None);
      if id !in t.payments then IsRefused(t, s, PaymentNotFound)
      else
        var p := t.payments[id];
        if p.status !in {Captured, PartiallyRefunded} then IsRefused(t, s, DomainRule(NotAllowed(p.status)))
        else if amount <= 0 then IsRefused(t, s, DomainRule(NotPositive))
        else if p.refunded + amount > p.captured then
          IsRefused(t, s, DomainRule(RefundExceeded(amount, p.captured - p.refunded)))
        else
          var status := if p.refunded + amount == p.captured then Refunded else PartiallyRefunded;
          Succeeds(
            t, s, p.(status := status, refunded := p.refunded + amount, version := p.version + 1, updatedAt := now),
            [LedgerEntry(id, RefundEntry, amount, p.currency, now)], RefundedEvent)
  {
    if id in t.payments {
      assert PaymentOk(t, id);
      RefundChange(t, t.payments[id], amount, now);
    }
    ChangeIsTold(t, RefundStep(key, id, amount, Stored(t, id), now, None));
  }

  /** The stored row is still the version that was read. */
  predicate StillCurrent(t: Tables, v: Payment) {
    v.id in t.payments && t.payments[v.id].version == v.version
  }

  lemma RefundChange(t: Tables, v: Payment, amount: int, now: Time)
    requires WellFormed(v)
    ensures
      var status := if v.refunded + amount == v.captured then Refunded else PartiallyRefunded;
      Change(t, Some(v), RefundRequest(v.id, amount), now) ==
      if v.status !in {Captured, PartiallyRefunded} then Err(DomainRule(NotAllowed(v.status)))
      else if amount <= 0 then Err(DomainRule(NotPositive))
      else if v.refunded + amount > v.captured then Err(DomainRule(RefundExceeded(amount, v.captured - v.refunded)))
      else if !StillCurrent(t, v) then Err(ConcurrentPaymentUpdate)
      else
        Ok((v.(status := status, refunded := v.refunded + amount, version := v.version + 1, updatedAt := now),
            [LedgerEntry(v.id, RefundEntry, amount, v.currency, now)]))
  {
    RefundExactly(StateOf(v), amount);
  }

  lemma CaptureChange(t: Tables, v: Payment, now: Time)
    requires WellFormed(v)
    ensures
      Change(t, Some(v), CaptureRequest(v.id), now) ==
      if v.status != Authorized then Err(DomainRule(NotAllowed(v.status)))
      else if !StillCurrent(t, v) then Err(ConcurrentPaymentUpdate)
      else
        Ok((v.(status := Captured, captured := v.amount, version := v.version + 1, updatedAt := now),
            [LedgerEntry(v.id, CaptureEntry, v.amount, v.currency, now)]))
  {
    CaptureExactly(StateOf(v));
  }

  /** Some receipt still stands to pay the payment. */
  ghost predicate AwaitsReceipt(t: Tables, p: Payment) {
    exists c :: c in t.receipts && StandsFor(t.receipts[c], p)
  }

  ghost predicate StandsFor(r: Receipt, p: Payment) {
    && !r.completed
    && p.reference == Some(r.command.reference) && r.command.amount == p.amount && r.command.currency == p.currency
    && p.expiresAt.Some? && r.receivedAt < p.expiresAt.value
  }

  /** A cancellation under a new key succeeds exactly for an unpaid payment that no pending receipt stands to pay. */
  lemma CancelAnswers(t: Tables, key: Id, id: Id, now: Time)
    requires CoreInv(t) && key !in t.idempotency
    ensures
      var s := CancelStep(key, id, now, None);
      if id !in t.payments then IsRefused(t, s, PaymentNotFound)
      else
        var p := t.payments[id];
        var q := p.(status := Cancelled, version := p.version + 1, updatedAt := now);
        if p.status == Authorized then
          Succeeds(t, s, q, [LedgerEntry(id, CancelEntry, p.amount, p.currency, now)], CancelledEvent)
        else if p.status != AwaitingPayment then IsRefused(t, s, DomainRule(NotAllowed(p.status)))
        else if AwaitsReceipt(t, p) then IsRefused(t, s, ConfirmationPending)
        else Succeeds(t, s, q, [], CancelledEvent)
  {
    if id in t.payments {
      assert PaymentOk(t, id);
      StandsIsProtected(t, t.payments[id]);
      CancelChange(t, id, now);
    }
    ChangeIsTold(t, CancelStep(key, id, now, None));
  }

  lemma StandsIsProtected(t: Tables, p: Payment)
    ensures AwaitsReceipt(t, p) <==> Protected(t, p)
  {
    assert forall c :: c in t.receipts ==> (StandsFor(t.receipts[c], p) <==> Protects(t.receipts[c], p));
  }

  lemma CancelChange(t: Tables, id: Id, now: Time)
    requires id in t.payments && t.payments[id].id == id && WellFormed(t.payments[id])
    ensures
      var p := t.payments[id];
      var q := p.(status := Cancelled, version := p.version + 1, updatedAt := now);
      Change(t, Some(p), CancelRequest(id), now) ==
      if p.status == Authorized then Ok((q, [LedgerEntry(id, CancelEntry, p.amount, p.currency, now)]))
      else if p.status != AwaitingPayment then Err(DomainRule(NotAllowed(p.status)))
      else if Protected(t, p) then Err(ConfirmationPending)
      else Ok((q, []))
  {
    CancelExactly(StateOf(t.payments[id]));
  }

  /** The row of a payment nobody has touched yet. */
  function NewRow(s: Step, status: PaymentStatus, authorized: int, reason: Option<DeclineReason>): Payment
    requires s.AuthorizeStep?
  {
    Payment(s.freshId, s.merchantReference, s.amount, s.currency, status, Synchronous, None, None, reason,
            authorized, 0, 0, 1, s.now, s.now)
  }

  /** An approved payment is authorized in full with one entry; it needs a positive amount and a new identifier. */
  lemma ApprovalAnswers(t: Tables, s: Step)
    requires s.AuthorizeStep? && s.token == Approve && s.key !in t.idempotency && s.failure == None
    ensures
      if s.amount <= 0 then IsRefused(t, s, DomainRule(NotPositive))
      else if s.freshId in t.payments then IsRefused(t, s, ConstraintViolated)
      else
        Succeeds(t, s, NewRow(s, Authorized, s.amount, None),
                 [LedgerEntry(s.freshId, AuthorizationEntry, s.amount, s.currency, s.now)], AuthorizedEvent)
  {
    AuthorizeExactly(s.amount, s.token);
  }

  ghost predicate DeclinesFor(t: Tables, s: Step, reason: DeclineReason)
    requires s.AuthorizeStep?
  {
    Succeeds(t, s, NewRow(s, Declined, 0, Some(reason)), [], DeclinedEvent)
  }

  /** A declined payment is stored with the reason of its token and has no financial effect. */
  lemma DeclineAnswers(t: Tables, s: Step)
    requires s.AuthorizeStep? && s.token != Approve && s.token != AwaitConfirmation
    requires s.key !in t.idempotency && s.failure == None
    ensures s.amount <= 0 ==> IsRefused(t, s, DomainRule(NotPositive))
    ensures s.amount > 0 && s.freshId in t.payments ==> IsRefused(t, s, ConstraintViolated)
    ensures s.amount > 0 && s.freshId !in t.payments ==>
              match s.token
              case DeclineInsufficientFunds => DeclinesFor(t, s, InsufficientFunds)
              case DeclineLimitExceeded => DeclinesFor(t, s, LimitExceeded)
              case DeclineExpired => DeclinesFor(t, s, ExpiredPaymentMethod)
              case DeclineVerification => DeclinesFor(t, s, VerificationFailed)
              case DeclineInvalid => DeclinesFor(t, s, InvalidPaymentMethod)
              case _ => DeclinesFor(t, s, UnknownReason)
  {
    AuthorizeExactly(s.amount, s.token);
    if s.amount > 0 && s.freshId !in t.payments {
      DeclineWrites(t, s, Authorize(s.amount, s.token).value.reason.value);
    }
  }

  lemma DeclineWrites(t: Tables, s: Step, reason: DeclineReason)
    requires s.AuthorizeStep? && s.token != Approve && s.token != AwaitConfirmation && s.amount > 0
    requires s.key !in t.idempotency && s.failure == None && s.freshId !in t.payments
    requires Authorize(s.amount, s.token) == Ok(Authorization(Declined, 0, Some(reason)))
    ensures DeclinesFor(t, s, reason)
  {
    assert t.ledger + [] == t.ledger;
  }

  /** A delayed payment waits 72 hours under its new reference, with nothing authorized and no entry. */
  lemma DelayedAnswers(t: Tables, s: Step)
    requires s.AuthorizeStep? && s.token == AwaitConfirmation && s.key !in t.idempotency && s.failure == None
    ensures
      var taken := exists id :: id in t.payments && t.payments[id].reference == Some(s.freshReference);
      if s.amount <= 0 || s.freshId in t.payments || taken then IsRefused(t, s, ConstraintViolated)
      else
        Succeeds(
          t, s,
          NewRow(s, AwaitingPayment, 0, None).(
            flow := AsynchronousConfirmation, reference := Some(s.freshReference),
            expiresAt := Some(s.now + 259_200_000_000)),
          [], ConfirmationRequestedEvent)
  {
    assert t.ledger + [] == t.ledger;
  }

  /**
   * A failure injected before the commit leaves nothing, one after it only hides the answer, and a request that does
   * not get as far as the commit is answered as without it.
   */
  lemma FailuresOnlyHide(t: Tables, s: Step, failing: Step, point: FailurePoint)
    requires s.IsRequest() && s.failure == None && failing == WithFailure(s, point)
    ensures
      var r := Respond(t, s);
      if r.result.Ok? && !r.result.value.replayed then
        Respond(t, failing) ==
        Reply(if point == BeforeCommit then t else r.tables, Err(SimulatedTimeout(point)))
      else Respond(t, failing) == r && r.tables == t
  {
  }

  function WithFailure(s: Step, point: FailurePoint): Step
    requires s.IsRequest()
  {
    s.(failure := Some(point))
  }

  /** What a writer is told whose session holds an older version: the rule that version breaks, or the lost race. */
  lemma StaleIsRefused(t: Tables, s: Step)
    requires CoreInv(t) && Honest(t, s) && (s.CaptureStep? || s.RefundStep?) && s.key !in t.idempotency
    requires s.view.Some? && s.view != Stored(t, s.paymentId)
    ensures
      var v := s.view.value;
      if s.CaptureStep? then
        IsRefused(t, s, if v.status == Authorized then ConcurrentPaymentUpdate else DomainRule(NotAllowed(v.status)))
      else if v.status !in {Captured, PartiallyRefunded} then IsRefused(t, s, DomainRule(NotAllowed(v.status)))
      else if s.refund <= 0 then IsRefused(t, s, DomainRule(NotPositive))
      else if s.refund > v.captured - v.refunded then
        IsRefused(t, s, DomainRule(RefundExceeded(s.refund, v.captured - v.refunded)))
      else IsRefused(t, s, ConcurrentPaymentUpdate)
  {
    var v := s.view.value;
    StaleIsSeenOld(t, s.paymentId, v);
    if s.CaptureStep? { CaptureChange(t, v, s.now); } else { RefundChange(t, v, s.refund, s.now); }
    ErrorsAreTold(t, s);
  }

  lemma StaleIsSeenOld(t: Tables, id: Id, v: Payment)
    requires CoreInv(t) && Seen(t, id, v) && Some(v) != Stored(t, id)
    ensures v.id == id && WellFormed(v) && !StillCurrent(t, v)
  {
    HonestView(t, id, Some(v));
    assert PaymentOk(t, id);
    SameVersionSameRow(t, id, v);
    SeenIsWellFormed(t, v);
  }

  lemma ErrorsAreTold(t: Tables, s: Step)
    requires s.IsRequest() && !s.AuthorizeStep? && s.key !in t.idempotency
    ensures var change := Change(t, SeenBy(t, s), s.Request(), s.now); change.Err? ==> IsRefused(t, s, change.error)
  {
  }
}
