/**
 * A matching receipt accepted before the deadline decides the payment, whatever else happens before it is
 * resolved: sweeps, late receipts, cancellations, crashes and recoveries in any order.
 */
module Protection {
  import opened Wrappers
  import opened Domain
  import opened Tables
  import opened Payments
  import opened Confirmations
  import opened Runs
  import opened Invariants
  import opened CoreRuns
  import opened Evidence

  /** The receipt is still going to pay the payment, or the payment has been paid. */
  ghost predicate Secured(t: Tables, id: Id, c: Id) {
    && id in t.payments && c in t.receipts
    && OnTimeMatch(t.receipts[c].command, t.receipts[c].receivedAt, t.payments[id])
    && (Paid(t.payments[id].status)
        || (t.payments[id].status == AwaitingPayment && !t.receipts[c].completed))
  }

  lemma SecuredIsProtected(t: Tables, id: Id, c: Id)
    requires Secured(t, id, c) && t.payments[id].status == AwaitingPayment
    ensures Protects(t.receipts[c], t.payments[id]) && Protected(t, t.payments[id])
  {
    assert Protects(t.receipts[c], t.payments[id]);
  }

  lemma RequestKeepsSecured(t: Tables, s: Step, id: Id, c: Id)
    requires Inv(t) && Honest(t, s) && s.IsRequest() && Secured(t, id, c)
    ensures Secured(Apply(t, s), id, c)
  {
    var t' := Apply(t, s);
    if t' != t {
      var q, entries, eventType := RequestCommit(t, s);
      if q.id == id {
        assert PaymentOk(t, id);
        if t.payments[id].status == AwaitingPayment { SecuredIsProtected(t, id, c); }
        LegalContinues(t.payments[id], ActionOf(s.Request()), q);
      }
      RequestKeepsReceipts(t, s);
    }
  }

  /** Resolving the protecting receipt itself pays the payment; resolving another one cannot expire it. */
  lemma CompleteKeepsSecured(t: Tables, d: Id, id: Id, c: Id)
    requires Inv(t) && Secured(t, id, c)
    ensures Secured(Complete(t, d).tables, id, c)
    ensures d == c && t.payments[id].status == AwaitingPayment ==>
              && Paid(Complete(t, d).tables.payments[id].status)
              && c in Complete(t, d).tables.confirmations
              && Complete(t, d).tables.confirmations[c].disposition == Applied
  {
    var t' := Complete(t, d).tables;
    assert ReceiptOk(t, c) && PaymentOk(t, id);
    CompleteKeepsReceipts(t, d, c);
    if d in t.receipts && d !in t.confirmations {
      var k, staged, q, entries, eventType := CompletionCommit(t, d);
      if t.payments[id].status == AwaitingPayment { SecuredIsProtected(t, id, c); }
      if d == c { OwnerFound(t, id, k.command.reference); }
      ResolutionKeepsSecured(t, staged, d, k, q, entries, eventType, id, c);
    }
  }

  lemma ResolutionKeepsSecured(
    t: Tables, staged: Tables, d: Id, k: Confirmation, q: Option<Payment>, entries: seq<LedgerEntry>,
    eventType: EventType, id: Id, c: Id)
    requires Secured(t, id, c) && PaymentOk(t, id) && d in t.receipts && d !in t.confirmations
    requires if q.None? then staged == t else staged == StageRow(t, q.value, entries, eventType)
    requires ReceiptKept(t, Resolved(staged, d, k), c)
    requires q.Some? && q.value.id == id ==>
               if k.disposition == Applied then Legal(t.payments[id], DoConfirm(q.value.amount), q.value)
               else Legal(t.payments[id], DoExpire, q.value) && !Protected(t, t.payments[id])
    requires t.payments[id].status == AwaitingPayment ==> Protected(t, t.payments[id])
    requires d == c && t.payments[id].status == AwaitingPayment ==>
               q.Some? && q.value.id == id && k.disposition == Applied
    ensures Secured(Resolved(staged, d, k), id, c)
    ensures d == c && t.payments[id].status == AwaitingPayment ==>
              && Paid(Resolved(staged, d, k).payments[id].status)
              && c in Resolved(staged, d, k).confirmations
              && Resolved(staged, d, k).confirmations[c].disposition == Applied
  {
    if q.Some? && q.value.id == id {
      LegalContinues(t.payments[id], if k.disposition == Applied then DoConfirm(q.value.amount) else DoExpire, q.value);
    }
  }

  lemma SweepKeepsSecured(t: Tables, now: Time, limit: int, id: Id, c: Id)
    requires Inv(t) && Secured(t, id, c)
    ensures Secured(ExpireDue(t, now, limit).tables, id, c)
  {
    var ids := SweepCommit(t, now, limit);
    if t.payments[id].status == AwaitingPayment { SecuredIsProtected(t, id, c); }
    assert id !in ids;
  }

  lemma StepKeepsSecured(t: Tables, s: Step, id: Id, c: Id)
    requires Inv(t) && Honest(t, s) && Secured(t, id, c)
    ensures Secured(Apply(t, s), id, c)
  {
    match s
    case AcceptStep(_, _) =>
    case CompleteStep(d) => CompleteKeepsSecured(t, d, id, c);
    case SweepStep(now, limit) => SweepKeepsSecured(t, now, limit, id, c);
    case _ => RequestKeepsSecured(t, s, id, c);
  }

  /**
   * Protection over whole runs: once the receipt is committed for a waiting payment, the payment never expires
   * and is never cancelled; it waits with that receipt pending, or it has been paid.
   */
  lemma {:induction false} ProtectionHolds(t: Tables, steps: seq<Step>, id: Id, c: Id)
    requires Inv(t) && HonestRun(t, steps) && Secured(t, id, c)
    ensures
      var t' := Run(t, steps);
      && Secured(t', id, c)
      && t'.payments[id].status != Expired && t'.payments[id].status != Cancelled
      && (t'.receipts[c].completed ==> Paid(t'.payments[id].status))
    decreases |steps|
  {
    if steps != [] {
      StepKeepsCore(t, steps[0]);
      StepKeepsEvidence(t, steps[0]);
      StepKeepsSecured(t, steps[0], id, c);
      ProtectionHolds(Apply(t, steps[0]), steps[1..], id, c);
    }
  }

  /**
   * From the commit of the acceptance on: any later run keeps the payment open or pays it, and resolving the
   * receipt at the end of it (the recovery after a crash) leaves the payment paid.
   */
  lemma AcceptedOnTimeIsPaid(t: Tables, command: ConfirmationCommand, now: Time, id: Id, steps: seq<Step>)
    requires Inv(t) && id in t.payments && t.payments[id].status == AwaitingPayment
    requires command.confirmationId !in t.receipts && command.amount > 0
    requires OnTimeMatch(command, now, t.payments[id])
    requires HonestRun(t, [AcceptStep(command, now)] + steps)
    ensures
      var c := command.confirmationId;
      var later := Run(t, [AcceptStep(command, now)] + steps);
      && Secured(later, id, c)
      && Paid(Complete(later, c).tables.payments[id].status)
  {
    var c := command.confirmationId;
    var first := AcceptStep(command, now);
    var accepted := Apply(t, first);
    RunSplits(t, [first], steps);
    assert Run(t, [first]) == Run(accepted, []);
    StepKeepsCore(t, first);
    StepKeepsEvidence(t, first);
    ProtectionHolds(accepted, steps, id, c);
    RunsKeepInv(accepted, steps);
    CompleteKeepsSecured(Run(accepted, steps), c, id, c);
  }
}
