/**
 * What a late record tells about its payment, and what it does not: it is no proof that the payment expired, and no
 * proof that the receipt came after the deadline. Each reading has its exact condition and a run on which it fails.
 */
module Dispositions {
  import opened Wrappers
  import opened Domain
  import opened Tables
  import opened Ordering
  import opened Payments
  import opened Confirmations
  import opened Runs
  import opened Invariants
  import opened CoreRuns
  import opened Evidence
  import opened Draining

  /** The unresolved receipt names this payment. */
  ghost predicate Unresolved(t: Tables, c: Id, id: Id) {
    && c in t.receipts && c !in t.confirmations
    && Owns(t, id, t.receipts[c].command.reference)
  }

  lemma RecordOfPayment(t: Tables, c: Id, id: Id)
    requires Inv(t) && Unresolved(t, c, id)
    ensures
      var t', r := Complete(t, c).tables, t.receipts[c];
      c in t'.confirmations
      && t'.confirmations[c].disposition == Classify(Some(t.payments[id]), r.command, r.receivedAt)
  {
    OwnerFound(t, id, t.receipts[c].command.reference);
    CompletionSucceeds(t, c);
  }

  /** Exactly when a receipt is recorded as late. */
  lemma LateExactly(t: Tables, c: Id, id: Id)
    requires Inv(t) && Unresolved(t, c, id)
    ensures
      var t', p := Complete(t, c).tables, t.payments[id];
      c in t'.confirmations
      && (t'.confirmations[c].disposition == Late <==>
            p.status == Expired
            || (p.status == AwaitingPayment && p.expiresAt.Some? && t.receipts[c].receivedAt >= p.expiresAt.value))
  {
    assert PaymentOk(t, id);
    RecordOfPayment(t, c, id);
  }

  /** Exactly which record an unresolved receipt of this payment gets. */
  lemma DispositionExactly(t: Tables, c: Id, id: Id)
    requires Inv(t) && Unresolved(t, c, id)
    ensures c in Complete(t, c).tables.confirmations
    ensures
      var p, r := t.payments[id], t.receipts[c];
      var inTime := p.status == AwaitingPayment && p.expiresAt.Some? && r.receivedAt < p.expiresAt.value;
      var d := Complete(t, c).tables.confirmations[c].disposition;
      && (d == Applied <==> inTime && r.command.amount == p.amount && r.command.currency == p.currency)
      && (d == AmountMismatch <==> inTime && r.command.amount != p.amount)
      && (d == CurrencyMismatch <==> inTime && r.command.amount == p.amount && r.command.currency != p.currency)
      && (d == AlreadyResolved <==> p.status != AwaitingPayment && p.status != Expired)
      && d != UnknownReference
  {
    assert PaymentOk(t, id);
    RecordOfPayment(t, c, id);
  }

  /** A receipt whose reference no payment has is recorded as such and changes no payment. */
  lemma UnknownExactly(t: Tables, c: Id)
    requires Inv(t) && c in t.receipts && c !in t.confirmations
    requires forall id :: !Owns(t, id, t.receipts[c].command.reference)
    ensures
      var t' := Complete(t, c).tables;
      && c in t'.confirmations && t'.confirmations[c].disposition == UnknownReference
      && t'.confirmations[c].paymentId == None
      && t'.payments == t.payments && t'.ledger == t.ledger && t'.outbox == t.outbox
  {
  }

  /** What the caller is told is the record that is stored, and it is a replay exactly when it was stored before. */
  lemma AnswerIsTheRecord(t: Tables, c: Id)
    ensures
      var t', result := Complete(t, c).tables, Complete(t, c).result;
      result.Ok? ==>
        && c in t'.confirmations && result.value.confirmation == t'.confirmations[c]
        && (result.value.replayed <==> c in t.confirmations)
    ensures c !in t.receipts <==> Complete(t, c) == Completion(t, Err(ConfirmationNotFound))
  {
  }

  /** A new receipt is stored as it came; an old one is acknowledged, or refused if the content differs. */
  lemma AcceptExactly(t: Tables, command: ConfirmationCommand, now: Time)
    ensures
      var c, accepted := command.confirmationId, Accept(t, command, now);
      && (c in t.receipts && t.receipts[c].command == command <==> accepted.result == Ok(true))
      && (c in t.receipts && t.receipts[c].command != command <==> accepted.result == Err(ConfirmationIdConflict))
      && (c !in t.receipts && command.amount > 0 <==> accepted.result == Ok(false))
      && (c !in t.receipts && command.amount <= 0 <==> accepted.result == Err(ConstraintViolated))
      && accepted.tables.receipts ==
         (if c !in t.receipts && command.amount > 0 then t.receipts[c := Receipt(command, now, false)] else t.receipts)
      && accepted.tables == t.(receipts := accepted.tables.receipts)
  {
  }

  /** A late receipt of a waiting payment expires it exactly when no other receipt protects it. */
  lemma LateExpiresUnlessProtected(t: Tables, c: Id, id: Id)
    requires Inv(t) && Unresolved(t, c, id)
    requires t.payments[id].status == AwaitingPayment && PendingLate(t.receipts[c], t.payments[id])
    ensures
      var t', p := Complete(t, c).tables, t.payments[id];
      && c in t'.confirmations && t'.confirmations[c].disposition == Late
      && id in t'.payments
      && (t'.payments[id].status == Expired <==> !Protected(t, p))
      && (Protected(t, p) ==> t'.payments[id] == p)
  {
    RecordOfPayment(t, c, id);
    OneCompletion(t, c, id);
  }

  /** A receipt that came before the deadline is recorded as late exactly when the payment has expired before. */
  lemma OnTimeIsLateOnlyAfterExpiry(t: Tables, c: Id, id: Id)
    requires Inv(t) && Unresolved(t, c, id)
    requires t.payments[id].expiresAt.Some? && t.receipts[c].receivedAt < t.payments[id].expiresAt.value
    ensures
      var t' := Complete(t, c).tables;
      c in t'.confirmations && (t'.confirmations[c].disposition == Late <==> t.payments[id].status == Expired)
  {
    RecordOfPayment(t, c, id);
  }

  // ----- two runs ---------------------------------------------------------------------------------------------

  const NEW_PAYMENT: Step := AuthorizeStep(0, 0, 5, JPY, AwaitConfirmation, 0, 0, 0, None)

  const MATCHING: ConfirmationCommand := ConfirmationCommand(1, 0, 5, JPY)

  const MISMATCHING: ConfirmationCommand := ConfirmationCommand(1, 0, 4, JPY)

  const SECOND_MATCHING: ConfirmationCommand := ConfirmationCommand(2, 0, 5, JPY)

  /** A matching receipt in time, a second one at the deadline, and the second one is resolved first. */
  const PROTECTED_RUN: seq<Step> :=
    [NEW_PAYMENT, AcceptStep(MATCHING, 1), AcceptStep(SECOND_MATCHING, CONFIRMATION_WINDOW), CompleteStep(2)]

  /** A receipt of another amount in time, a sweep at the deadline, and then the receipt is resolved. */
  const SWEPT_RUN: seq<Step> :=
    [NEW_PAYMENT, AcceptStep(MISMATCHING, 1), SweepStep(CONFIRMATION_WINDOW, 1), CompleteStep(1)]

  lemma OneMore(t: Tables, s: Step, rest: seq<Step>)
    ensures Run(t, [s] + rest) == Run(Apply(t, s), rest)
    ensures HonestRun(t, [s] + rest) <==> Honest(t, s) && HonestRun(Apply(t, s), rest)
  {
    assert ([s] + rest)[1..] == rest;
  }

  /** A run of four steps none of which decides on a cached row. */
  lemma FourSteps(t: Tables, a: Step, b: Step, c: Step, d: Step)
    requires forall s :: s in [a, b, c, d] ==> !s.CaptureStep? && !s.RefundStep?
    ensures Run(t, [a, b, c, d]) == Apply(Apply(Apply(Apply(t, a), b), c), d)
    ensures HonestRun(t, [a, b, c, d])
  {
    var t1 := Apply(t, a);
    var t2 := Apply(t1, b);
    var t3 := Apply(t2, c);
    assert forall s, u :: s in [a, b, c, d] ==> Honest(u, s);
    OneMore(t, a, [b, c, d]);
    OneMore(t1, b, [c, d]);
    OneMore(t2, c, [d]);
    OneMore(t3, d, []);
    assert [a] + [b, c, d] == [a, b, c, d] && [b] + [c, d] == [b, c, d] && [c] + [d] == [c, d] && [d] + [] == [d];
  }

  /** The payment that NEW_PAYMENT creates. */
  const NEW_ROW: Payment := Payment(
    0, 0, 5, JPY, AwaitingPayment, AsynchronousConfirmation, Some(0), Some(CONFIRMATION_WINDOW), None, 0, 0, 0, 1, 0, 0)

  lemma Created()
    ensures Apply(EMPTY, NEW_PAYMENT).payments == map[0 := NEW_ROW]
    ensures Apply(EMPTY, NEW_PAYMENT).receipts == map[] && Apply(EMPTY, NEW_PAYMENT).confirmations == map[]
    ensures Inv(Apply(EMPTY, NEW_PAYMENT))
  {
    StepKeepsCore(EMPTY, NEW_PAYMENT);
    StepKeepsEvidence(EMPTY, NEW_PAYMENT);
  }

  /** One more accepted receipt, and nothing else. */
  lemma OneMoreReceipt(t: Tables, command: ConfirmationCommand, now: Time)
    requires Inv(t) && command.confirmationId !in t.receipts && command.amount > 0
    ensures
      var t' := Apply(t, AcceptStep(command, now));
      Inv(t') && t' == t.(receipts := t.receipts[command.confirmationId := Receipt(command, now, false)])
  {
    AcceptKeepsEvidence(t, command, now);
    SameCore(t, Apply(t, AcceptStep(command, now)));
  }

  /** The payment waits with both receipts pending. */
  lemma TwoReceipts()
    ensures
      var t := Apply(Apply(Apply(EMPTY, NEW_PAYMENT), AcceptStep(MATCHING, 1)),
                     AcceptStep(SECOND_MATCHING, CONFIRMATION_WINDOW));
      && Inv(t) && t.payments == map[0 := NEW_ROW] && t.confirmations == map[]
      && t.receipts ==
         map[1 := Receipt(MATCHING, 1, false), 2 := Receipt(SECOND_MATCHING, CONFIRMATION_WINDOW, false)]
  {
    Created();
    var t1 := Apply(EMPTY, NEW_PAYMENT);
    OneMoreReceipt(t1, MATCHING, 1);
    OneMoreReceipt(Apply(t1, AcceptStep(MATCHING, 1)), SECOND_MATCHING, CONFIRMATION_WINDOW);
  }

  /** A late record beside a payment that still waits. */
  lemma LateIsNotExpired()
    ensures
      var t := Run(EMPTY, PROTECTED_RUN);
      && HonestRun(EMPTY, PROTECTED_RUN)
      && 2 in t.confirmations && t.confirmations[2].disposition == Late
      && t.confirmations[2].paymentId == Some(0)
      && 0 in t.payments && t.payments[0].status == AwaitingPayment
  {
    var b, c := AcceptStep(MATCHING, 1), AcceptStep(SECOND_MATCHING, CONFIRMATION_WINDOW);
    FourSteps(EMPTY, NEW_PAYMENT, b, c, CompleteStep(2));
    TwoReceipts();
    SecondStaysLate(Apply(Apply(Apply(EMPTY, NEW_PAYMENT), b), c));
  }

  lemma SecondStaysLate(t: Tables)
    requires Inv(t) && t.payments == map[0 := NEW_ROW] && t.confirmations == map[]
    requires t.receipts ==
             map[1 := Receipt(MATCHING, 1, false), 2 := Receipt(SECOND_MATCHING, CONFIRMATION_WINDOW, false)]
    ensures
      var t' := Complete(t, 2).tables;
      && 2 in t'.confirmations && t'.confirmations[2].disposition == Late && t'.confirmations[2].paymentId == Some(0)
      && 0 in t'.payments && t'.payments[0].status == AwaitingPayment
  {
    assert Protects(t.receipts[1], t.payments[0]);
    LateExpiresUnlessProtected(t, 2, 0);
    CompletedReceipt(t, 2, 0);
  }

  /** A sweep expires the only payment that is due. */
  lemma OnlyDueExpires(t: Tables, now: Time, id: Id)
    requires CoreInv(t) && Due(t, now).Keys == {id}
    ensures
      var t' := ExpireDue(t, now, 1).tables;
      && id in t'.payments && t'.payments[id] == t.payments[id].(
           status := Expired, version := t.payments[id].version + 1, updatedAt := now)
      && t'.receipts == t.receipts && t'.confirmations == t.confirmations
  {
    var all := Sorted(Due(t, now));
    SortedIsOrdered(Due(t, now));
    DueIdsAwait(t, now, 1);
    assert id in all && all[0] in all;
    assert FirstOf(all, 1) == [id];
    ExpireAllKeepsCore(t, [id], now);
    ExpireAllEffect(t, [id], now);
  }

  /** The payment has expired with the mismatching receipt still pending. */
  lemma SweptBeforeReceipt()
    ensures
      var t := Apply(Apply(Apply(EMPTY, NEW_PAYMENT), AcceptStep(MISMATCHING, 1)), SweepStep(CONFIRMATION_WINDOW, 1));
      && Inv(t) && t.confirmations == map[] && t.receipts == map[1 := Receipt(MISMATCHING, 1, false)]
      && 0 in t.payments
      && t.payments[0] == NEW_ROW.(status := Expired, version := 2, updatedAt := CONFIRMATION_WINDOW)
  {
    Created();
    var t1 := Apply(EMPTY, NEW_PAYMENT);
    OneMoreReceipt(t1, MISMATCHING, 1);
    var t2 := Apply(t1, AcceptStep(MISMATCHING, 1));
    NothingProtects(t2);
    OnlyDueExpires(t2, CONFIRMATION_WINDOW, 0);
    StepKeepsCore(t2, SweepStep(CONFIRMATION_WINDOW, 1));
    StepKeepsEvidence(t2, SweepStep(CONFIRMATION_WINDOW, 1));
  }

  lemma NothingProtects(t: Tables)
    requires t.payments == map[0 := NEW_ROW] && t.receipts == map[1 := Receipt(MISMATCHING, 1, false)]
    ensures Due(t, CONFIRMATION_WINDOW).Keys == {0}
  {
    assert !Protected(t, NEW_ROW);
  }

  /** A late record of a receipt that came before the deadline. */
  lemma LateIsNotAfterDeadline()
    ensures
      var t := Run(EMPTY, SWEPT_RUN);
      && HonestRun(EMPTY, SWEPT_RUN)
      && 1 in t.confirmations && t.confirmations[1].disposition == Late
      && t.confirmations[1].receivedAt < CONFIRMATION_WINDOW
      && 0 in t.payments && t.payments[0].expiresAt == Some(CONFIRMATION_WINDOW)
  {
    var b, c := AcceptStep(MISMATCHING, 1), SweepStep(CONFIRMATION_WINDOW, 1);
    FourSteps(EMPTY, NEW_PAYMENT, b, c, CompleteStep(1));
    SweptBeforeReceipt();
    var t := Apply(Apply(Apply(EMPTY, NEW_PAYMENT), b), c);
    OnTimeIsLateOnlyAfterExpiry(t, 1, 0);
    CompletedReceipt(t, 1, 0);
  }

  /** The record carries the receipt's instant, and the payment keeps its deadline. */
  lemma CompletedReceipt(t: Tables, c: Id, id: Id)
    requires Inv(t) && Unresolved(t, c, id)
    ensures
      var t' := Complete(t, c).tables;
      && c in t'.confirmations && t'.confirmations[c].receivedAt == t.receipts[c].receivedAt
      && t'.confirmations[c].paymentId == Some(id)
      && id in t'.payments && t'.payments[id].expiresAt == t.payments[id].expiresAt
  {
    assert PaymentOk(t, id);
    OwnerFound(t, id, t.receipts[c].command.reference);
    CompletionSucceeds(t, c);
  }
}
