/** What each delayed-payment transaction commits: acceptance, completion, recovery and the expiry sweep. */
module Confirmations {
  import opened Wrappers
  import opened Domain
  import opened Tables
  import opened Payments
  import opened Ordering

  const MAX_EXPIRY_BATCH_SIZE := 1000
  const MAX_RECOVERY_BATCH_SIZE := 1000

  datatype Acceptance = Acceptance(tables: Tables, result: Result<bool, Error>)

  datatype ConfirmationOutcome = ConfirmationOutcome(confirmation: Confirmation, replayed: bool)

  datatype Completion = Completion(tables: Tables, result: Result<ConfirmationOutcome, Error>)

  /** Stores authenticated input; the result says whether this identity already existed. */
  function Accept(t: Tables, command: ConfirmationCommand, now: Time): Acceptance {
    var id := command.confirmationId;
    if id in t.receipts then
      Acceptance(t, if t.receipts[id].command != command then Err(ConfirmationIdConflict) else Ok(true))
    else if command.amount <= 0 then Acceptance(t, Err(ConstraintViolated))
    else Acceptance(t.(receipts := t.receipts[id := Receipt(command, now, false)]), Ok(false))
  }

  predicate SharesReference(p: Payment, q: Payment) {
    p.reference.Some? && p.reference == q.reference
  }

  ghost predicate UniqueReferences(t: Tables) {
    forall a, b | a in t.payments && b in t.payments :: SharesReference(t.payments[a], t.payments[b]) ==> a == b
  }

  predicate Owns(t: Tables, id: Id, reference: Id) {
    id in t.payments && t.payments[id].reference == Some(reference)
  }

  /** The payment with this reference; the unique constraint leaves no choice. */
  ghost function PaymentByReference(t: Tables, reference: Id): Option<Payment> {
    if exists id :: Owns(t, id, reference) then
      var id :| Owns(t, id, reference);
      Some(t.payments[id])
    else None
  }

  lemma OwnerFound(t: Tables, id: Id, reference: Id)
    requires UniqueReferences(t) && Owns(t, id, reference)
    ensures PaymentByReference(t, reference) == Some(t.payments[id])
  {
  }

  function Classify(payment: Option<Payment>, command: ConfirmationCommand, receivedAt: Time): Disposition {
    if payment.None? then UnknownReference
    else
      var p := payment.value;
      if p.status == Expired then Late
      else if p.status != AwaitingPayment then AlreadyResolved
      else if p.expiresAt.Some? && receivedAt >= p.expiresAt.value then Late
      else if command.amount != p.amount then AmountMismatch
      else if command.currency != p.currency then CurrencyMismatch
      else Applied
  }

  function ExpiredRow(p: Payment, at: Time): Result<Payment, Error> {
    match Expire(StateOf(p))
    case Ok(s) => Ok(WithState(p, s, at))
    case Err(e) => Err(DomainRule(e))
  }

  function StageExpiry(t: Tables, p: Payment, at: Time): Result<Tables, Error> {
    match ExpiredRow(p, at)
    case Ok(row) => Ok(StageRow(t, row, [], ExpiredEvent))
    case Err(e) => Err(e)
  }

  function StageConfirmedCapture(t: Tables, p: Payment, command: ConfirmationCommand, at: Time): Result<Tables, Error> {
    match CaptureConfirmation(StateOf(p), command.amount)
    case Ok(s) =>
      Ok(StageRow(t, WithState(p, s, at),
                  [LedgerEntry(p.id, ConfirmationCaptureEntry, command.amount, p.currency, at)], CapturedEvent))
    case Err(e) => Err(DomainRule(e))
  }

  function ApplyDisposition(
    t: Tables, payment: Option<Payment>, command: ConfirmationCommand, disposition: Disposition, receivedAt: Time)
    : Result<Tables, Error>
  {
    if payment.None? then Ok(t)
    else if disposition == Applied then StageConfirmedCapture(t, payment.value, command, receivedAt)
    else if disposition == Late && payment.value.status == AwaitingPayment then
      if Protected(t, payment.value) then Ok(t) else StageExpiry(t, payment.value, receivedAt)
    else Ok(t)
  }

  function IdOf(payment: Option<Payment>): Option<Id> {
    if payment.None? then None else Some(payment.value.id)
  }

  /** Resolves one stored receipt, or replays its earlier resolution. */
  ghost function Complete(t: Tables, id: Id): Completion {
    if id !in t.receipts then Completion(t, Err(ConfirmationNotFound))
    else
      var receipt := t.receipts[id];
      if id in t.confirmations then
        if t.confirmations[id].command != receipt.command then Completion(t, Err(ConfirmationIdConflict))
        else Completion(t, Ok(ConfirmationOutcome(t.confirmations[id], true)))
      else
        var payment := PaymentByReference(t, receipt.command.reference);
        var disposition := Classify(payment, receipt.command, receipt.receivedAt);
        var confirmation := Confirmation(receipt.command, receipt.receivedAt, disposition, IdOf(payment));
        match ApplyDisposition(t, payment, receipt.command, disposition, receipt.receivedAt)
        case Err(e) => Completion(t, Err(e))
        case Ok(applied) =>
          Completion(
            applied.(receipts := t.receipts[id := receipt.(completed := true)],
                     confirmations := t.confirmations[id := confirmation]),
            Ok(ConfirmationOutcome(confirmation, false)))
  }

  ghost function CompleteAll(t: Tables, ids: seq<Id>): Tables
    decreases |ids|
  {
    if ids == [] then t else CompleteAll(Complete(t, ids[0]).tables, ids[1..])
  }

  /** Unresolved receipts, keyed by the instant they were received. */
  function Pending(t: Tables): map<Id, Time> {
    map id | id in t.receipts && !t.receipts[id].completed :: t.receipts[id].receivedAt
  }

  predicate Awaits(t: Tables, id: Id) {
    id in t.payments && t.payments[id].status == AwaitingPayment
  }

  predicate IsDue(t: Tables, p: Payment, now: Time) {
    p.status == AwaitingPayment && p.expiresAt.Some? && p.expiresAt.value <= now && !Protected(t, p)
  }

  /** Payments the sweep may expire, keyed by their deadlines. */
  function Due(t: Tables, now: Time): map<Id, Time> {
    map id | id in t.payments && IsDue(t, t.payments[id], now) :: t.payments[id].expiresAt.value
  }

  /** Expires the listed payments one after the other. */
  function ExpireAll(t: Tables, ids: seq<Id>, now: Time): Result<Tables, Error>
    requires forall id :: id in ids ==> id in t.payments
    decreases |ids|
  {
    if ids == [] then Ok(t)
    else
      match StageExpiry(t, t.payments[ids[0]], now)
      case Err(e) => Err(e)
      case Ok(staged) => ExpireAll(staged, ids[1..], now)
  }

  datatype SweepResult = SweepResult(tables: Tables, result: Result<seq<Id>, Error>)

  function ExpireDue(t: Tables, now: Time, limit: int): SweepResult {
    if !(1 <= limit <= MAX_EXPIRY_BATCH_SIZE) then SweepResult(t, Err(LimitOutOfRange))
    else
      FirstOfSorted(Due(t, now), limit);
      var ids := FirstOf(Sorted(Due(t, now)), limit);
      match ExpireAll(t, ids, now)
      case Err(e) => SweepResult(t, Err(e))
      case Ok(done) => SweepResult(done, Ok(ids))
  }
}
