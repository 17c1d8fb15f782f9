/** Resolving pending receipts: the outcome of a waiting payment does not depend on the order. */
module Draining {
  import opened Wrappers
  import opened Domain
  import opened Tables
  import opened Ledger
  import opened Payments
  import opened Confirmations
  import opened Runs
  import opened Invariants
  import opened CoreRuns
  import opened Evidence

  /** A pending receipt for the payment that arrived at or after its deadline. */
  predicate PendingLate(r: Receipt, p: Payment) {
    && p.reference == Some(r.command.reference)
    && !r.completed
    && p.expiresAt.Some? && r.receivedAt >= p.expiresAt.value
  }

  predicate PendingFor(r: Receipt, p: Payment) {
    !r.completed && p.reference == Some(r.command.reference)
  }

  ghost predicate AnyProtects(t: Tables, p: Payment, ids: seq<Id>) {
    exists c :: c in ids && c in t.receipts && Protects(t.receipts[c], p)
  }

  ghost predicate AnyLate(t: Tables, p: Payment, ids: seq<Id>) {
    exists c :: c in ids && c in t.receipts && PendingLate(t.receipts[c], p)
  }

  /** What the receipts say about a waiting payment, with no mention of an order. */
  ghost function Verdict(t: Tables, p: Payment, ids: seq<Id>): PaymentStatus {
    if AnyProtects(t, p, ids) then Captured
    else if AnyLate(t, p, ids) && !Protected(t, p) then Expired
    else AwaitingPayment
  }

  /** How one resolution treats a waiting payment. */
  ghost predicate Completes(t: Tables, t': Tables, d: Id, id: Id)
    requires id in t.payments
  {
    var p := t.payments[id];
    && id in t'.payments && Continues(p, t'.payments[id])
    && (if d in t.receipts && Protects(t.receipts[d], p) then
          t'.payments[id].status == Captured && t'.payments[id].version == p.version + 1
        else if d in t.receipts && PendingLate(t.receipts[d], p) && !Protected(t, p) then
          t'.payments[id].status == Expired && t'.payments[id].version == p.version + 1
        else t'.payments[id] == p)
    && t'.receipts == if d in t.receipts then t.receipts[d := t.receipts[d].(completed := true)] else t.receipts
  }

  lemma OneCompletion(t: Tables, d: Id, id: Id)
    requires Inv(t) && id in t.payments && t.payments[id].status == AwaitingPayment
    ensures Completes(t, Complete(t, d).tables, d, id)
  {
    if d in t.receipts {
      assert ReceiptOk(t, d);
      if d in t.confirmations {
        assert t.receipts[d := t.receipts[d].(completed := true)] == t.receipts;
      } else {
        FirstCompletion(t, d, id);
      }
    }
  }

  lemma FirstCompletion(t: Tables, d: Id, id: Id)
    requires Inv(t) && id in t.payments && t.payments[id].status == AwaitingPayment
    requires d in t.receipts && d !in t.confirmations
    ensures Completes(t, Complete(t, d).tables, d, id)
  {
    assert PaymentOk(t, id) && ReceiptOk(t, d);
    var k, staged, q, entries, eventType := CompletionCommit(t, d);
    if t.payments[id].reference == Some(k.command.reference) { OwnerFound(t, id, k.command.reference); }
    OneResolution(t, staged, d, k, q, entries, eventType, id);
  }

  lemma OneResolution(
    t: Tables, staged: Tables, d: Id, k: Confirmation, q: Option<Payment>, entries: seq<LedgerEntry>,
    eventType: EventType, id: Id)
    requires id in t.payments && PaymentOk(t, id) && t.payments[id].status == AwaitingPayment
    requires d in t.receipts && !t.receipts[d].completed && d !in t.confirmations
    requires if q.None? then staged == t else staged == StageRow(t, q.value, entries, eventType)
    requires q.Some? && q.value.id == id ==>
               Legal(t.payments[id], if k.disposition == Applied then DoConfirm(q.value.amount) else DoExpire, q.value)
    requires k.command == t.receipts[d].command && k.receivedAt == t.receipts[d].receivedAt
    requires Protects(t.receipts[d], t.payments[id]) ==> q.Some? && q.value.id == id && k.disposition == Applied
    requires PendingLate(t.receipts[d], t.payments[id]) && !Protected(t, t.payments[id])
             ==> q.Some? && q.value.id == id && k.disposition != Applied
    requires q.Some? && q.value.id == id ==>
               if k.disposition == Applied then Protects(t.receipts[d], t.payments[id])
               else PendingLate(t.receipts[d], t.payments[id]) && !Protected(t, t.payments[id])
    ensures Completes(t, Resolved(staged, d, k), d, id)
  {
    if q.Some? && q.value.id == id {
      LegalContinues(t.payments[id], if k.disposition == Applied then DoConfirm(q.value.amount) else DoExpire, q.value);
    }
  }

  lemma SettledIgnores(t: Tables, d: Id, id: Id)
    requires CoreInv(t) && id in t.payments && t.payments[id].status != AwaitingPayment
    ensures id in Complete(t, d).tables.payments && Complete(t, d).tables.payments[id] == t.payments[id]
  {
    if d in t.receipts && d !in t.confirmations {
      var k, staged, q, entries, eventType := CompletionCommit(t, d);
    }
  }

  /** A payment that no longer waits is left alone by every resolution. */
  lemma {:induction false} SettledStays(t: Tables, ids: seq<Id>, id: Id)
    requires Inv(t) && id in t.payments && t.payments[id].status != AwaitingPayment
    ensures Inv(CompleteAll(t, ids))
    ensures id in CompleteAll(t, ids).payments && CompleteAll(t, ids).payments[id] == t.payments[id]
    decreases |ids|
  {
    if ids != [] {
      var d := ids[0];
      CompleteKeepsCore(t, d);
      CompleteKeepsEvidence(t, d);
      SettledIgnores(t, d, id);
      SettledStays(Complete(t, d).tables, ids[1..], id);
    }
  }

  lemma VerdictCarries(t: Tables, t': Tables, p: Payment, ids: seq<Id>)
    requires ids != []
    requires ids[0] in t.receipts ==> !Protects(t.receipts[ids[0]], p)
    requires ids[0] in t.receipts && PendingLate(t.receipts[ids[0]], p) ==> Protected(t, p)
    requires t'.receipts ==
             if ids[0] in t.receipts then t.receipts[ids[0] := t.receipts[ids[0]].(completed := true)] else t.receipts
    ensures Verdict(t', p, ids[1..]) == Verdict(t, p, ids)
  {
    var d := ids[0];
    forall c | c in t.receipts
      ensures c in t'.receipts && (Protects(t'.receipts[c], p) <==> Protects(t.receipts[c], p))
      ensures c != d ==> (PendingLate(t'.receipts[c], p) <==> PendingLate(t.receipts[c], p))
    {
    }
    assert forall c :: c in ids <==> c == d || c in ids[1..];
    assert Protected(t', p) <==> Protected(t, p);
    assert AnyProtects(t', p, ids[1..]) <==> AnyProtects(t, p, ids);
  }

  /**
   * Draining a waiting payment's receipts: any sequence of resolutions, with repeats and with receipts of other
   * payments among them, ends as the verdict on the set of receipts says.
   */
  lemma {:induction false} DrainFollowsVerdict(t: Tables, ids: seq<Id>, id: Id)
    requires Inv(t) && id in t.payments && t.payments[id].status == AwaitingPayment
    ensures Inv(CompleteAll(t, ids))
    ensures
      var p, t' := t.payments[id], CompleteAll(t, ids);
      && id in t'.payments
      && t'.payments[id].status == Verdict(t, p, ids)
      && t'.payments[id].version == p.version + (if Verdict(t, p, ids) == AwaitingPayment then 0 else 1)
      && Continues(p, t'.payments[id])
    decreases |ids|
  {
    if ids != [] {
      var d := ids[0];
      var p := t.payments[id];
      var next := Complete(t, d).tables;
      OneCompletion(t, d, id);
      StepKeepsCore(t, CompleteStep(d));
      StepKeepsEvidence(t, CompleteStep(d));
      if next.payments[id] == p {
        VerdictCarries(t, next, p, ids);
        DrainFollowsVerdict(next, ids[1..], id);
      } else {
        SettledStays(next, ids[1..], id);
        if PendingLate(t.receipts[d], p) && !Protected(t, p) {
          assert AnyLate(t, p, ids);
          assert !AnyProtects(t, p, ids);
        } else {
          assert AnyProtects(t, p, ids);
        }
      }
    }
  }

  /** Status, balances, version and the financial effect are the same in every order of the same receipts. */
  lemma OrderDoesNotMatter(t: Tables, ids: seq<Id>, others: seq<Id>, id: Id)
    requires Inv(t) && id in t.payments && t.payments[id].status == AwaitingPayment
    requires forall c :: c in ids <==> c in others
    ensures id in CompleteAll(t, ids).payments && id in CompleteAll(t, others).payments
    ensures
      var p, q := CompleteAll(t, ids).payments[id], CompleteAll(t, others).payments[id];
      StateOf(p) == StateOf(q) && p.version == q.version
    ensures |AppliedTo(CompleteAll(t, ids), id)| == |AppliedTo(CompleteAll(t, others), id)|
    ensures CountOf(EntriesOf(CompleteAll(t, ids).ledger, id), ConfirmationCaptureEntry)
            == CountOf(EntriesOf(CompleteAll(t, others).ledger, id), ConfirmationCaptureEntry)
  {
    DrainFollowsVerdict(t, ids, id);
    DrainFollowsVerdict(t, others, id);
    assert AnyProtects(t, t.payments[id], ids) <==> AnyProtects(t, t.payments[id], others);
    assert AnyLate(t, t.payments[id], ids) <==> AnyLate(t, t.payments[id], others);
    forall all | all == ids || all == others
      ensures PaymentOk(CompleteAll(t, all), id) && AppliedOk(CompleteAll(t, all), id)
    {
    }
  }

  /**
   * Draining all receipts of the payment: captured for its full amount with exactly one applied record and one
   * ledger effect if any receipt matched on time; otherwise expired if any came at or after the deadline;
   * otherwise still waiting. The last two have no financial effect.
   */
  lemma FullDrain(t: Tables, ids: seq<Id>, id: Id)
    requires Inv(t) && id in t.payments && t.payments[id].status == AwaitingPayment
    requires forall c :: c in t.receipts && PendingFor(t.receipts[c], t.payments[id]) ==> c in ids
    ensures
      var p, t' := t.payments[id], CompleteAll(t, ids);
      && id in t'.payments
      && (if Protected(t, p) then
            && StateOf(t'.payments[id]) == PaymentState(Captured, p.amount, p.amount, 0)
            && |AppliedTo(t', id)| == 1
            && CountOf(EntriesOf(t'.ledger, id), ConfirmationCaptureEntry) == 1
          else
            && StateOf(t'.payments[id]) ==
               PaymentState(if AnyLate(t, p, ids) then Expired else AwaitingPayment, 0, 0, 0)
            && AppliedTo(t', id) == {}
            && CountOf(EntriesOf(t'.ledger, id), ConfirmationCaptureEntry) == 0)
  {
    var p, t' := t.payments[id], CompleteAll(t, ids);
    assert PaymentOk(t, id);
    DrainFollowsVerdict(t, ids, id);
    assert AnyProtects(t, p, ids) <==> Protected(t, p);
    assert PaymentOk(t', id) && AppliedOk(t', id);
  }
}
