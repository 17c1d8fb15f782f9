/** Delayed payments as the service runs them: accept a receipt, complete it, recover pending ones, expire due ones. */
module ConfirmationService {
  import opened Wrappers
  import opened Domain
  import opened Tables
  import opened Ordering
  import opened Payments
  import opened Confirmations
  import opened Runs
  import opened Invariants
  import opened CoreRuns
  import opened Evidence
  import opened Sessions

  /** Every cached row is the stored one. */
  ghost predicate Fresh(session: Session)
    reads session, session.database
  {
    forall id :: id in session.cached ==> Stored(session.database.tables, id) == Some(session.cached[id])
  }

  lemma FreshIsValid(session: Session)
    requires Fresh(session) && CoreInv(session.database.tables)
    ensures session.Valid()
  {
    forall id | id in session.cached
      ensures Seen(session.database.tables, id, session.cached[id])
    {
      assert PaymentOk(session.database.tables, id);
      StoredIsSeen(session.database.tables, id);
    }
  }

  /** Stores authenticated input once; says whether this identity already existed. */
  method AcceptConfirmation(session: Session, command: ConfirmationCommand, now: Time)
    returns (result: Result<bool, Error>)
    requires session.Valid()
    modifies session, session.database`tables
    ensures Acceptance(session.database.tables, result) == Accept(old(session.database.tables), command, now)
    ensures session.Valid() && session.cached == map[]
  {
    ghost var t := session.database.tables;
    session.BeginCoordinatedWrite();
    var id := command.confirmationId;
    if id in session.work.receipts {
      if session.work.receipts[id].command != command {
        session.Rollback();
        return Err(ConfirmationIdConflict);
      }
      session.Commit();
      return Ok(true);
    }
    if command.amount <= 0 {
      session.Rollback();
      return Err(ConstraintViolated);
    }
    session.work := session.work.(receipts := session.work.receipts[id := Receipt(command, now, false)]);
    session.Commit();
    SameCore(t, session.database.tables);
    return Ok(false);
  }

  /** The stored row a staged transition starts from. */
  ghost predicate Holds(t: Tables, p: Payment) {
    p.id in t.payments && t.payments[p.id] == p && WellFormed(p)
  }

  /** The expiry transition shared by the sweep and by late receipts. */
  method ApplyExpiryTransition(session: Session, p: Payment, at: Time) returns (result: Result<Payment, Error>)
    requires Holds(session.work, p)
    modifies session`work
    ensures result == ExpiredRow(p, at)
    ensures match StageExpiry(old(session.work), p, at)
            case Ok(staged) => session.work == staged
            case Err(_) => session.work == old(session.work)
  {
    var next := Expire(StateOf(p));
    if next.Err? {
      return Err(DomainRule(next.error));
    }
    var row := p.(status := next.value.status);
    row := row.(authorized := next.value.authorized, captured := next.value.captured, refunded := next.value.refunded);
    row := row.(updatedAt := at);
    assert session.work.ledger + [] == session.work.ledger;
    result := session.Flush(row);
    session.CreateOutboxEvent(result.value, ExpiredEvent);
  }

  /** Applies a disposition to the payment it was decided on. */
  method ApplyDisposition(
    session: Session, payment: Option<Payment>, command: ConfirmationCommand, disposition: Disposition,
    receivedAt: Time)
    returns (result: Result<bool, Error>)
    requires payment.Some? ==> Holds(session.work, payment.value)
    requires disposition == Applied && payment.Some? ==> command.amount == payment.value.amount
    modifies session`work
    ensures match Confirmations.ApplyDisposition(old(session.work), payment, command, disposition, receivedAt)
            case Ok(applied) => result.Ok? && session.work == applied
            case Err(e) => result == Err(e)
  {
    if payment.None? {
      return Ok(false);
    }
    var p := payment.value;
    if disposition == Applied {
      var next := CaptureConfirmation(StateOf(p), command.amount);
      if next.Err? {
        return Err(DomainRule(next.error));
      }
      var row := p.(status := next.value.status);
      row := row.(authorized := next.value.authorized, captured := next.value.captured);
      row := row.(refunded := next.value.refunded, updatedAt := receivedAt);
      var ok := session.AddEntry(LedgerEntry(p.id, ConfirmationCaptureEntry, command.amount, p.currency, receivedAt));
      var flushed := session.Flush(row);
      session.CreateOutboxEvent(flushed.value, CapturedEvent);
      return Ok(true);
    }
    if disposition == Late && p.status == AwaitingPayment {
      if Protected(session.work, p) {
        return Ok(false);
      }
      var expired := ApplyExpiryTransition(session, p, receivedAt);
      if expired.Err? {
        return Err(expired.error);
      }
      return Ok(true);
    }
    return Ok(false);
  }

  /** Looks a payment up by its reference. */
  method FindByReference(session: Session, reference: Id) returns (payment: Option<Payment>)
    requires UniqueReferences(session.work)
    ensures payment == PaymentByReference(session.work, reference)
  {
    if id :| id in session.work.payments && Owns(session.work, id, reference) {
      OwnerFound(session.work, id, reference);
      return Some(session.work.payments[id]);
    }
    assert forall id :: !Owns(session.work, id, reference);
    return None;
  }

  /** Finishes one stored receipt in its own transaction, or replays its earlier resolution. */
  method CompleteConfirmation(session: Session, id: Id) returns (result: Result<ConfirmationOutcome, Error>)
    requires session.Valid()
    modifies session, session.database`tables
    ensures Completion(session.database.tables, result) == Complete(old(session.database.tables), id)
    ensures result.Ok? ==>
              && id in session.database.tables.confirmations
              && result.value.confirmation == session.database.tables.confirmations[id]
              && (result.value.replayed <==> id in old(session.database.tables).confirmations)
    ensures session.Valid()
  {
    ghost var t := session.database.tables;
    session.BeginCoordinatedWrite();
    if id !in session.work.receipts {
      session.Rollback();
      return Err(ConfirmationNotFound);
    }
    var receipt := session.work.receipts[id];
    if id in session.work.confirmations {
      if session.work.confirmations[id].command != receipt.command {
        session.Rollback();
        return Err(ConfirmationIdConflict);
      }
      var existing := session.work.confirmations[id];
      session.Commit();
      return Ok(ConfirmationOutcome(existing, true));
    }
    result := ResolveReceipt(session, id, receipt);
    CompleteKeepsCore(t, id);
    FreshIsValid(session);
  }

  method ResolveReceipt(session: Session, id: Id, receipt: Receipt) returns (result: Result<ConfirmationOutcome, Error>)
    requires CoreInv(session.database.tables) && session.work == session.database.tables && session.cached == map[]
    requires id in session.work.receipts && receipt == session.work.receipts[id] && id !in session.work.confirmations
    modifies session, session.database`tables
    ensures Completion(session.database.tables, result) == Complete(old(session.database.tables), id)
    ensures Fresh(session)
  {
    ghost var t := session.work;
    var command := receipt.command;
    var payment := FindByReference(session, command.reference);
    if payment.Some? { FoundByReference(session.work, command.reference); }
    var disposition := Classify(payment, command, receipt.receivedAt);
    var confirmation := Confirmation(command, receipt.receivedAt, disposition, IdOf(payment));
    var applied := ApplyDisposition(session, payment, command, disposition, receipt.receivedAt);
    if applied.Err? {
      session.Rollback();
      return Err(applied.error);
    }
    RecordConfirmation(session, id, confirmation);
    return Ok(ConfirmationOutcome(confirmation, false));
  }

  /** Adds the final record, completes the receipt and commits; the payment's row stays in the session. */
  method RecordConfirmation(session: Session, id: Id, confirmation: Confirmation)
    requires id in session.work.receipts && session.cached == map[]
    requires confirmation.paymentId.Some? ==> confirmation.paymentId.value in session.work.payments
    modifies session, session.database`tables
    ensures session.database.tables == Resolved(old(session.work), id, confirmation)
    ensures Fresh(session)
  {
    var done := session.work.receipts[id].(completed := true);
    session.work := session.work.(receipts := session.work.receipts[id := done],
                                  confirmations := session.work.confirmations[id := confirmation]);
    if confirmation.paymentId.Some? {
      var paymentId := confirmation.paymentId.value;
      session.cached := session.cached[paymentId := session.work.payments[paymentId]];
    }
    session.Commit();
  }

  /** The receipt is durable before it is completed; whatever then fails leaves it to a retry or to recovery. */
  method ProcessConfirmation(session: Session, command: ConfirmationCommand, receivedAt: Time)
    returns (result: Result<ConfirmationOutcome, Error>)
    requires session.Valid()
    modifies session, session.database`tables
    ensures session.Valid()
    ensures
      var accepted := Accept(old(session.database.tables), command, receivedAt);
      match accepted.result
      case Err(e) =>
        && session.database.tables == accepted.tables
        && result == Err(if e == ConstraintViolated then ProcessingUnavailable else e)
      case Ok(seen) =>
        var completed := Complete(accepted.tables, command.confirmationId);
        && session.database.tables == completed.tables
        && match completed.result
           case Err(_) => result == Err(ProcessingUnavailable)
           case Ok(outcome) => result == Ok(ConfirmationOutcome(outcome.confirmation, seen || outcome.replayed))
    ensures result.Ok? ==>
              var c := command.confirmationId;
              && c in session.database.tables.confirmations
              && result.value.confirmation == session.database.tables.confirmations[c]
              && (result.value.replayed <==>
                    c in old(session.database.tables).receipts || c in old(session.database.tables).confirmations)
  {
    var accepted := AcceptConfirmation(session, command, receivedAt);
    if accepted.Err? {
      return Err(if accepted.error == ConstraintViolated then ProcessingUnavailable else accepted.error);
    }
    var outcome := CompleteConfirmation(session, command.confirmationId);
    if outcome.Err? {
      return Err(ProcessingUnavailable);
    }
    return Ok(ConfirmationOutcome(outcome.value.confirmation, accepted.value || outcome.value.replayed));
  }

  /** With the stored rows in agreement, completing a stored receipt never fails. */
  lemma CompletionNeverFails(t: Tables, id: Id)
    requires Inv(t) && id in t.receipts
    ensures Complete(t, id).result.Ok? && Inv(Complete(t, id).tables)
  {
    CompleteKeepsCore(t, id);
    CompleteKeepsEvidence(t, id);
    if id in t.confirmations {
      assert ConfirmationOk(t, id);
    } else {
      CompletionSucceeds(t, id);
    }
  }

  lemma PendingAreStored(t: Tables, limit: int)
    ensures forall id :: id in FirstOf(Sorted(Pending(t)), limit) ==> id in t.receipts
  {
    SortedIsOrdered(Pending(t));
  }

  method CompleteEach(session: Session, ids: seq<Id>)
    requires session.Valid() && Inv(session.database.tables)
    requires forall id :: id in ids ==> id in session.database.tables.receipts
    modifies session, session.database`tables
    ensures session.Valid() && Inv(session.database.tables)
    ensures session.database.tables == CompleteAll(old(session.database.tables), ids)
  {
    ghost var t := session.database.tables;
    assert ids[0..] == ids;
    for i := 0 to |ids|
      invariant session.Valid() && Inv(session.database.tables)
      invariant forall id :: id in ids ==> id in session.database.tables.receipts
      invariant CompleteAll(session.database.tables, ids[i..]) == CompleteAll(t, ids)
    {
      ghost var before := session.database.tables;
      CompletionNeverFails(before, ids[i]);
      var completed := CompleteConfirmation(session, ids[i]);
      assert completed.Ok?;
      assert ids[i..][0] == ids[i] && ids[i..][1..] == ids[i + 1..];
    }
  }

  /** Completes the oldest pending receipts, each in its own transaction; none of them can fail. */
  method RecoverPendingConfirmations(session: Session, limit: int) returns (result: Result<seq<Id>, Error>)
    requires session.Valid() && Inv(session.database.tables)
    modifies session, session.database`tables
    ensures session.Valid() && Inv(session.database.tables)
    ensures
      var ids := FirstOf(Sorted(Pending(old(session.database.tables))), limit);
      if 1 <= limit <= 1000
      then result == Ok(ids) && session.database.tables == CompleteAll(old(session.database.tables), ids)
      else result == Err(LimitOutOfRange) && session.database.tables == old(session.database.tables)
  {
    if !(1 <= limit <= MAX_RECOVERY_BATCH_SIZE) {
      return Err(LimitOutOfRange);
    }
    session.BeginCoordinatedWrite();
    var ids := FirstOf(Sorted(Pending(session.work)), limit);
    PendingAreStored(session.work, limit);
    session.Commit();
    CompleteEach(session, ids);
    return Ok(ids);
  }

  /** Expires one bounded batch, in order of the deadlines, in a single transaction. */
  method ExpireDuePayments(session: Session, now: Time, limit: int) returns (result: Result<seq<Id>, Error>)
    requires session.Valid()
    modifies session, session.database`tables
    ensures SweepResult(session.database.tables, result) == ExpireDue(old(session.database.tables), now, limit)
    ensures session.Valid()
  {
    ghost var t := session.database.tables;
    if !(1 <= limit <= MAX_EXPIRY_BATCH_SIZE) {
      return Err(LimitOutOfRange);
    }
    session.BeginCoordinatedWrite();
    DueIdsAwait(t, now, limit);
    var ids := FirstOf(Sorted(Due(session.work, now)), limit);
    ExpireEach(session, ids, now);
    session.Commit();
    FreshIsValid(session);
    return Ok(ids);
  }

  method ExpireEach(session: Session, ids: seq<Id>, now: Time)
    requires CoreInv(session.work) && session.cached == map[] && Distinct(ids)
    requires forall id :: id in ids ==> id in session.work.payments && Awaits(session.work, id)
    modifies session
    ensures ExpireAll(old(session.work), ids, now) == Ok(session.work) && CoreInv(session.work)
    ensures forall id :: id in session.cached ==> Stored(session.work, id) == Some(session.cached[id])
  {
    ghost var t := session.work;
    assert ids[0..] == ids;
    for i := 0 to |ids|
      invariant CoreInv(session.work)
      invariant forall k :: i <= k < |ids| ==> Awaits(session.work, ids[k])
      invariant forall id :: id in session.cached ==> Stored(session.work, id) == Some(session.cached[id])
      invariant forall id :: id in ids[i..] ==> id in session.work.payments
      invariant ExpireAll(session.work, ids[i..], now) == ExpireAll(t, ids, now)
    {
      ghost var before := session.work;
      var p := session.work.payments[ids[i]];
      assert PaymentOk(session.work, ids[i]);
      ExpireOneKeepsCore(session.work, ids[i], now);
      var expired := ApplyExpiryTransition(session, p, now);
      session.cached := session.cached[p.id := session.work.payments[p.id]];
      assert ids[i..][0] == ids[i] && ids[i..][1..] == ids[i + 1..];
    }
  }
}
