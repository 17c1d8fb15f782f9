/** What each payment request commits: idempotency claim, transition, ledger effect and outbox event together. */
module Payments {
  import opened Wrappers
  import opened Domain
  import opened Tables

  datatype PaymentOutcome = PaymentOutcome(payment: Payment, replayed: bool)

  /** The committed tables after a request, and what the caller is told. */
  datatype Reply = Reply(tables: Tables, result: Result<PaymentOutcome, Error>)

  /** What pays the payment: its reference, its amount and currency, received before its deadline. */
  predicate OnTimeMatch(command: ConfirmationCommand, receivedAt: Time, p: Payment) {
    && p.reference == Some(command.reference)
    && command.amount == p.amount
    && command.currency == p.currency
    && p.expiresAt.Some? && receivedAt < p.expiresAt.value
  }

  /** A matching receipt, accepted before the deadline and not yet resolved. */
  predicate Protects(r: Receipt, p: Payment) {
    !r.completed && OnTimeMatch(r.command, r.receivedAt, p)
  }

  predicate Protected(t: Tables, p: Payment) {
    exists c :: c in t.receipts && Protects(t.receipts[c], p)
  }

  /** The earlier result of an equal request, if the key has one. */
  function FindSnapshot(t: Tables, key: Id, request: Request): Result<Option<Payment>, Error> {
    FindIn(t.idempotency, key, request)
  }

  function FindIn(records: map<Id, IdempotencyRecord>, key: Id, request: Request): Result<Option<Payment>, Error> {
    if key !in records then Ok(None)
    else
      var existing := records[key];
      if existing.fingerprint != request then Err(IdempotencyConflict)
      else if existing.snapshot.None? then Err(IncompleteRecord)
      else Ok(existing.snapshot)
  }

  /** The row of a new payment, or the domain error that refuses it. */
  function InitialRow(request: Request, id: Id, reference: Id, now: Time): Result<Payment, DomainError>
    requires request.AuthorizeRequest?
  {
    var blank := Payment(
      id, request.merchantReference, request.amount, request.currency, AwaitingPayment, AsynchronousConfirmation,
      Some(reference), Some(now + CONFIRMATION_WINDOW), None, 0, 0, 0, 1, now, now);
    if request.token == AwaitConfirmation then Ok(blank)
    else
      match Authorize(request.amount, request.token)
      case Err(e) => Err(e)
      case Ok(a) =>
        Ok(blank.(status := a.status, flow := Synchronous, reference := None, expiresAt := None,
                  declineReason := a.reason, authorized := a.authorized))
  }

  function InitialEntries(p: Payment): seq<LedgerEntry> {
    if p.authorized == 0 then []
    else [LedgerEntry(p.id, AuthorizationEntry, p.authorized, p.currency, p.createdAt)]
  }

  function InitialEvent(p: Payment): EventType {
    match p.status
    case AwaitingPayment => ConfirmationRequestedEvent
    case Authorized => AuthorizedEvent
    case _ => DeclinedEvent
  }

  /** The new state of the payment as the deciding session sees it. */
  function Decide(t: Tables, view: Payment, request: Request): Result<PaymentState, Error>
    requires !request.AuthorizeRequest?
  {
    match request
    case CancelRequest(_) =>
      if view.status == AwaitingPayment && Protected(t, view) then Err(ConfirmationPending)
      else Lift(Cancel(StateOf(view)))
    case CaptureRequest(_) => Lift(Capture(StateOf(view)))
    case RefundRequest(_, amount) => Lift(Refund(StateOf(view), amount))
  }

  function Lift(o: Outcome): Result<PaymentState, Error> {
    match o
    case Ok(s) => Ok(s)
    case Err(e) => Err(DomainRule(e))
  }

  /** The ledger effect; cancelling an unpaid request has none. */
  function ChangeEntries(view: Payment, next: PaymentState, request: Request, now: Time): seq<LedgerEntry>
    requires !request.AuthorizeRequest?
  {
    match request
    case CaptureRequest(_) =>
      [LedgerEntry(view.id, CaptureEntry, next.captured - view.captured, view.currency, now)]
    case CancelRequest(_) =>
      if view.status == AwaitingPayment then []
      else [LedgerEntry(view.id, CancelEntry, view.authorized, view.currency, now)]
    case RefundRequest(_, amount) =>
      [LedgerEntry(view.id, RefundEntry, amount, view.currency, now)]
  }

  function ChangeEvent(request: Request): EventType {
    match request
    case CaptureRequest(_) => CapturedEvent
    case CancelRequest(_) => CancelledEvent
    case _ => RefundedEvent
  }

  predicate EntryChecks(entries: seq<LedgerEntry>) {
    forall e :: e in entries ==> e.amount > 0
  }

  /** Commits the staged outcome with the completed claim, unless a failure is injected before the commit. */
  function Finish(
    t: Tables, staged: Tables, key: Id, request: Request, row: Payment, failure: Option<FailurePoint>): Reply
  {
    var done := staged.(idempotency := staged.idempotency[key := IdempotencyRecord(request, Some(row.id), Some(row))]);
    match failure
    case None => Reply(done, Ok(PaymentOutcome(row, false)))
    case Some(BeforeCommit) => Reply(t, Err(SimulatedTimeout(BeforeCommit)))
    case Some(AfterCommit) => Reply(done, Err(SimulatedTimeout(AfterCommit)))
  }

  function AuthorizePayment(
    t: Tables, key: Id, request: Request, now: Time, freshId: Id, freshReference: Id, failure: Option<FailurePoint>)
    : Reply
    requires request.AuthorizeRequest?
  {
    match FindSnapshot(t, key, request)
    case Err(e) => Reply(t, Err(e))
    case Ok(Some(snapshot)) => Reply(t, Ok(PaymentOutcome(snapshot, true)))
    case Ok(None) => AuthorizeClaimed(t, key, request, now, freshId, freshReference, failure)
  }

  /** Creates the payment once the key is known to be new. */
  function AuthorizeClaimed(
    t: Tables, key: Id, request: Request, now: Time, freshId: Id, freshReference: Id, failure: Option<FailurePoint>)
    : Reply
    requires request.AuthorizeRequest?
  {
    match InitialRow(request, freshId, freshReference, now)
    case Err(e) => Reply(t, Err(DomainRule(e)))
    case Ok(row) =>
      if freshId in t.payments || !ReferenceFree(t, row.reference) || !PaymentChecks(row)
      then Reply(t, Err(ConstraintViolated))
      else Finish(t, StageRow(t, row, InitialEntries(row), InitialEvent(row)), key, request, row, failure)
  }

  /**
   * Capture, cancel or refund, decided on the row the session holds. That row may be an old version; the write
   * is a compare-and-set on the version, so a stale decision is refused when it is flushed.
   */
  function ChangePayment(
    t: Tables, key: Id, request: Request, view: Option<Payment>, now: Time, failure: Option<FailurePoint>): Reply
    requires !request.AuthorizeRequest?
  {
    match FindSnapshot(t, key, request)
    case Err(e) => Reply(t, Err(e))
    case Ok(Some(snapshot)) => Reply(t, Ok(PaymentOutcome(snapshot, true)))
    case Ok(None) => ChangeClaimed(t, key, request, view, now, failure)
  }

  /** Changes the payment once the key is known to be new. */
  function ChangeClaimed(
    t: Tables, key: Id, request: Request, view: Option<Payment>, now: Time, failure: Option<FailurePoint>): Reply
    requires !request.AuthorizeRequest?
  {
    match Change(t, view, request, now)
    case Err(e) => Reply(t, Err(e))
    case Ok((row, entries)) => Finish(t, StageRow(t, row, entries, ChangeEvent(request)), key, request, row, failure)
  }

  /** The row a change leads to and the entries that go with it, or the first rule or constraint it breaks. */
  function Change(t: Tables, view: Option<Payment>, request: Request, now: Time)
    : Result<(Payment, seq<LedgerEntry>), Error>
    requires !request.AuthorizeRequest?
  {
    if view.None? then Err(PaymentNotFound)
    else
      match Decide(t, view.value, request)
      case Err(e) => Err(e)
      case Ok(next) =>
        var row := WithState(view.value, next, now);
        var entries := ChangeEntries(view.value, next, request, now);
        if row.id !in t.payments || t.payments[row.id].version != view.value.version then Err(ConcurrentPaymentUpdate)
        else if !PaymentChecks(row) || !EntryChecks(entries) then Err(ConstraintViolated)
        else Ok((row, entries))
  }

  function Stored(t: Tables, id: Id): Option<Payment> {
    if id in t.payments then Some(t.payments[id]) else None
  }

  /** Cancellation starts by discarding cached rows under the writer lock, so it decides on the stored row. */
  function CancelPayment(t: Tables, key: Id, paymentId: Id, now: Time, failure: Option<FailurePoint>): Reply {
    ChangePayment(t, key, CancelRequest(paymentId), Stored(t, paymentId), now, failure)
  }
}
