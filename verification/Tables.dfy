/**
 * The persisted rows, the check constraints on them, and the one way a payment row changes: a new version is
 * staged together with its ledger entries and its outbox event. Identifiers are numbers (only equality and the
 * total order of the originals is used), instants are integers counted in microseconds.
 */
module Tables {
  import opened Wrappers
  import opened Domain

  type Id = nat
  type Time = int

  const SECOND: Time := 1_000_000
  const CONFIRMATION_WINDOW: Time := 72 * 60 * 60 * SECOND

  /** A payment row. Replay snapshots and webhook payloads carry the very same fields, so they share the type. */
  datatype Payment = Payment(
    id: Id,
    merchantReference: Id,
    amount: int,
    currency: Currency,
    status: PaymentStatus,
    flow: PaymentFlow,
    reference: Option<Id>,
    expiresAt: Option<Time>,
    declineReason: Option<DeclineReason>,
    authorized: int,
    captured: int,
    refunded: int,
    version: int,
    createdAt: Time,
    updatedAt: Time)

  datatype LedgerOperation = AuthorizationEntry | CaptureEntry | CancelEntry | RefundEntry | ConfirmationCaptureEntry

  datatype LedgerEntry = LedgerEntry(
    paymentId: Id, operation: LedgerOperation, amount: int, currency: Currency, createdAt: Time)

  datatype EventType =
    | AuthorizedEvent
    | ConfirmationRequestedEvent
    | DeclinedEvent
    | CapturedEvent
    | CancelledEvent
    | RefundedEvent
    | ExpiredEvent

  /** The immutable part of an outbox row. The delivery columns are modelled in module Delivery. */
  datatype Event = Event(
    id: Id, paymentId: Id, eventType: EventType, version: int, createdAt: Time, snapshot: Payment)

  /** The request itself stands for its digest: two requests have the same fingerprint only if they are equal. */
  datatype Request =
    | AuthorizeRequest(merchantReference: Id, amount: int, currency: Currency, token: Token)
    | CaptureRequest(paymentId: Id)
    | CancelRequest(paymentId: Id)
    | RefundRequest(paymentId: Id, refund: int)

  /** Payment and snapshot are empty from the claim of the key until the outcome is committed with it. */
  datatype IdempotencyRecord = IdempotencyRecord(
    fingerprint: Request, paymentId: Option<Id>, snapshot: Option<Payment>)

  datatype ConfirmationCommand = ConfirmationCommand(
    confirmationId: Id, reference: Id, amount: int, currency: Currency)

  datatype Receipt = Receipt(command: ConfirmationCommand, receivedAt: Time, completed: bool)

  datatype Disposition = Applied | Late | AmountMismatch | CurrencyMismatch | UnknownReference | AlreadyResolved

  datatype Confirmation = Confirmation(
    command: ConfirmationCommand, receivedAt: Time, disposition: Disposition, paymentId: Option<Id>)

  datatype Tables = Tables(
    payments: map<Id, Payment>,
    ledger: seq<LedgerEntry>,
    outbox: seq<Event>,
    idempotency: map<Id, IdempotencyRecord>,
    receipts: map<Id, Receipt>,
    confirmations: map<Id, Confirmation>)

  const EMPTY: Tables := Tables(map[], [], [], map[], map[], map[])

  datatype Error =
    | IdempotencyConflict
    | IncompleteRecord
    | PaymentNotFound
    | DomainRule(rule: DomainError)
    | ConcurrentPaymentUpdate
    | ConfirmationPending
    | SimulatedTimeout(point: FailurePoint)
    | ConstraintViolated
    | ConfirmationIdConflict
    | ConfirmationNotFound
    | LimitOutOfRange
    | ProcessingUnavailable

  datatype FailurePoint = BeforeCommit | AfterCommit

  function StateOf(p: Payment): PaymentState {
    PaymentState(p.status, p.authorized, p.captured, p.refunded)
  }

  /** The check constraints of the payments table. */
  predicate PaymentChecks(p: Payment) {
    && p.amount > 0
    && 0 <= p.authorized <= p.amount
    && 0 <= p.captured <= p.authorized
    && 0 <= p.refunded <= p.captured
    && (p.flow.Synchronous? ==> p.reference.None? && p.expiresAt.None?)
    && (p.flow.AsynchronousConfirmation? ==> p.reference.Some? && p.expiresAt.Some?)
    && (p.status.Declined? <==> p.declineReason.Some?)
    && p.version >= 1
  }

  /** The unique constraint on payment references. */
  predicate ReferenceFree(t: Tables, reference: Option<Id>) {
    reference.Some? ==> forall id :: id in t.payments ==> t.payments[id].reference != reference
  }

  /** One full-snapshot event for the version a payment row has just reached. */
  function OutboxEvent(id: Id, p: Payment, eventType: EventType): Event {
    Event(id, p.id, eventType, p.version, p.updatedAt, p)
  }

  /** Stages a new version of a payment row with its ledger entries and its outbox event. */
  function StageRow(t: Tables, p: Payment, entries: seq<LedgerEntry>, eventType: EventType): Tables {
    t.(payments := t.payments[p.id := p],
       ledger := t.ledger + entries,
       outbox := t.outbox + [OutboxEvent(|t.outbox|, p, eventType)])
  }

  /** The row a transition leads to; the mapper raises the version whenever it writes the row. */
  function WithState(p: Payment, s: PaymentState, at: Time): Payment {
    p.(status := s.status, authorized := s.authorized, captured := s.captured, refunded := s.refunded,
       version := p.version + 1, updatedAt := at)
  }

  /** The entries of one payment, in the order they were written. */
  function EntriesOf(ledger: seq<LedgerEntry>, id: Id): seq<LedgerEntry> {
    if ledger == [] then []
    else
      var last := ledger[|ledger| - 1];
      EntriesOf(ledger[..|ledger| - 1], id) + if last.paymentId == id then [last] else []
  }

  /** The events of one payment, in the order they were written. */
  function EventsOf(outbox: seq<Event>, id: Id): seq<Event> {
    if outbox == [] then []
    else
      var last := outbox[|outbox| - 1];
      EventsOf(outbox[..|outbox| - 1], id) + if last.paymentId == id then [last] else []
  }

  lemma EntriesAppend(ledger: seq<LedgerEntry>, more: seq<LedgerEntry>, id: Id)
    requires |more| <= 1
    ensures EntriesOf(ledger + more, id) ==
            EntriesOf(ledger, id) + if more != [] && more[0].paymentId == id then more else []
  {
    if more == [] {
      assert ledger + more == ledger;
    } else {
      assert (ledger + more)[..|ledger|] == ledger;
    }
  }

  lemma EventsAppend(outbox: seq<Event>, e: Event, id: Id)
    ensures EventsOf(outbox + [e], id) == EventsOf(outbox, id) + if e.paymentId == id then [e] else []
  {
    assert (outbox + [e])[..|outbox|] == outbox;
  }

  /** Filtering keeps exactly the events of the payment. */
  lemma {:induction false} EventsOfMembers(outbox: seq<Event>, id: Id, e: Event)
    ensures e in EventsOf(outbox, id) <==> e in outbox && e.paymentId == id
  {
    if outbox != [] {
      var init, last := outbox[..|outbox| - 1], outbox[|outbox| - 1];
      EventsOfMembers(init, id, e);
      assert outbox == init + [last];
    }
  }
}
