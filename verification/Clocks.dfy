/**
 * Runs whose trusted clock never goes back: the entries of every payment's ledger are in time order, so every cutoff
 * of it is financially sane.
 */
module Clocks {
  import opened Tables
  import opened Ledger
  import opened Confirmations
  import opened Runs
  import opened Invariants
  import opened CoreRuns
  import opened Evidence

  /** The instant the step carries dates a ledger entry or a receipt. A sweep dates neither. */
  predicate Dates(s: Step) {
    s.IsRequest() || s.AcceptStep?
  }

  /** Reads its clock inside the write transaction, so after everything that was committed before it. */
  predicate ReadsLocked(s: Step) {
    s.CaptureStep? || s.RefundStep? || s.CancelStep?
  }

  /** The latest instant that was committed so far. An authorization may commit with an earlier one. */
  ghost function Advance(t: Tables, clock: Time, s: Step): Time {
    if Dates(s) && Apply(t, s) != t && clock < s.now then s.now else clock
  }

  /** What a clock that never goes back promises: a locked reading is no earlier than what was committed before. */
  ghost predicate OnClock(t: Tables, clock: Time, s: Step) {
    Honest(t, s) && (ReadsLocked(s) && Apply(t, s) != t ==> clock <= s.now)
  }

  ghost predicate ClockedRun(t: Tables, clock: Time, steps: seq<Step>)
    decreases |steps|
  {
    steps == []
    || (OnClock(t, clock, steps[0]) && ClockedRun(Apply(t, steps[0]), Advance(t, clock, steps[0]), steps[1..]))
  }

  ghost function LastInstant(t: Tables, clock: Time, steps: seq<Step>): Time
    decreases |steps|
  {
    if steps == [] then clock else LastInstant(Apply(t, steps[0]), Advance(t, clock, steps[0]), steps[1..])
  }

  /** Each payment's entries are in time order and none is later than the clock. */
  ghost predicate LedgerDated(ledger: seq<LedgerEntry>, clock: Time) {
    forall id :: EntriesDated(EntriesOf(ledger, id), clock)
  }

  ghost predicate EntriesDated(entries: seq<LedgerEntry>, clock: Time) {
    InTimeOrder(entries) && forall e :: e in entries ==> e.createdAt <= clock
  }

  ghost predicate ReceiptsDated(t: Tables, clock: Time) {
    forall c :: c in t.receipts ==> t.receipts[c].receivedAt <= clock
  }

  ghost predicate ClockInv(t: Tables, clock: Time) {
    ReceiptsDated(t, clock) && LedgerDated(t.ledger, clock)
  }

  lemma LaterLedger(ledger: seq<LedgerEntry>, clock: Time, later: Time)
    requires LedgerDated(ledger, clock) && clock <= later
    ensures LedgerDated(ledger, later)
  {
    forall id
      ensures EntriesDated(EntriesOf(ledger, id), later)
    {
      assert EntriesDated(EntriesOf(ledger, id), clock);
    }
  }

  /** One more entry keeps the order if it is dated now, or is the first of its payment. */
  lemma LedgerGrows(ledger: seq<LedgerEntry>, more: seq<LedgerEntry>, clock: Time)
    requires LedgerDated(ledger, clock) && |more| <= 1
    requires more != [] ==> more[0].createdAt == clock
                            || (more[0].createdAt <= clock && EntriesOf(ledger, more[0].paymentId) == [])
    ensures LedgerDated(ledger + more, clock)
  {
    forall id
      ensures EntriesDated(EntriesOf(ledger + more, id), clock)
    {
      assert EntriesDated(EntriesOf(ledger, id), clock);
      EntriesAppend(ledger, more, id);
    }
  }

  lemma NothingYet(t: Tables, id: Id)
    requires Linked(t) && id !in t.payments
    ensures EventsOf(t.outbox, id) == [] && EntriesOf(t.ledger, id) == []
  {
    assert forall f :: f in t.outbox ==> f.paymentId != id;
    NothingOf(t.outbox, t.ledger, id);
  }

  /** An authorization may be dated back, but its payment has no entry before it. */
  lemma RequestKeepsClock(t: Tables, clock: Time, s: Step)
    requires CoreInv(t) && ClockInv(t, clock) && OnClock(t, clock, s) && s.IsRequest()
    ensures ClockInv(Apply(t, s), Advance(t, clock, s))
  {
    RequestKeepsReceipts(t, s);
    if Apply(t, s) != t {
      var latest := Advance(t, clock, s);
      LaterLedger(t.ledger, clock, latest);
      var q, entries, eventType := RequestCommit(t, s);
      if s.AuthorizeStep? { NothingYet(t, q.id); }
      LedgerGrows(t.ledger, entries, latest);
    }
  }

  /** Resolving a receipt dates its entry back to the receipt, but a waiting payment has no entry before it. */
  lemma CompleteKeepsClock(t: Tables, clock: Time, id: Id)
    requires CoreInv(t) && ClockInv(t, clock)
    ensures ClockInv(Complete(t, id).tables, clock)
  {
    if id in t.receipts && id !in t.confirmations {
      var k, staged, q, entries, eventType := CompletionCommit(t, id);
      if entries != [] {
        assert PaymentOk(t, q.value.id);
        LedgerGrows(t.ledger, entries, clock);
      } else {
        assert t.ledger + entries == t.ledger;
      }
    }
  }

  lemma AcceptKeepsClock(t: Tables, clock: Time, command: ConfirmationCommand, now: Time)
    requires ClockInv(t, clock)
    ensures ClockInv(Accept(t, command, now).tables, Advance(t, clock, AcceptStep(command, now)))
  {
    LaterLedger(t.ledger, clock, Advance(t, clock, AcceptStep(command, now)));
  }

  lemma StepKeepsClock(t: Tables, clock: Time, s: Step)
    requires CoreInv(t) && ClockInv(t, clock) && OnClock(t, clock, s)
    ensures ClockInv(Apply(t, s), Advance(t, clock, s))
  {
    match s
    case AcceptStep(command, now) => AcceptKeepsClock(t, clock, command, now);
    case CompleteStep(id) => CompleteKeepsClock(t, clock, id);
    case SweepStep(now, limit) => var ids := SweepCommit(t, now, limit);
    case _ => RequestKeepsClock(t, clock, s);
  }

  lemma {:induction false} RunsKeepClock(t: Tables, clock: Time, steps: seq<Step>)
    requires CoreInv(t) && ClockInv(t, clock) && ClockedRun(t, clock, steps)
    ensures CoreInv(Run(t, steps)) && ClockInv(Run(t, steps), LastInstant(t, clock, steps))
    ensures HonestRun(t, steps)
    decreases |steps|
  {
    if steps != [] {
      StepKeepsCore(t, steps[0]);
      StepKeepsClock(t, clock, steps[0]);
      RunsKeepClock(Apply(t, steps[0]), Advance(t, clock, steps[0]), steps[1..]);
    }
  }

  /**
   * Whatever the clocks did: in every reachable state, a payment whose own entries are in time order has totals
   * with 0 <= refunded <= captured <= authorized at every cutoff.
   */
  lemma OrderedLedgerIsSane(steps: seq<Step>, id: Id, cutoff: Time)
    requires HonestRun(EMPTY, steps) && id in Run(EMPTY, steps).payments
    requires InTimeOrder(EntriesOf(Run(EMPTY, steps).ledger, id))
    ensures Totals(UpTo(EntriesOf(Run(EMPTY, steps).ledger, id), cutoff)).Sane()
  {
    RunsKeepCore(EMPTY, steps);
    assert PaymentOk(Run(EMPTY, steps), id);
    CutoffSane(EntriesOf(Run(EMPTY, steps).ledger, id), cutoff);
  }

  /** Under a clock that never goes back every ledger is in time order, so every cutoff of every payment is sane. */
  lemma EveryCutoffIsSane(start: Time, steps: seq<Step>, id: Id, cutoff: Time)
    requires ClockedRun(EMPTY, start, steps) && id in Run(EMPTY, steps).payments
    ensures Totals(UpTo(EntriesOf(Run(EMPTY, steps).ledger, id), cutoff)).Sane()
  {
    RunsKeepClock(EMPTY, start, steps);
    assert EntriesDated(EntriesOf(Run(EMPTY, steps).ledger, id), LastInstant(EMPTY, start, steps));
    OrderedLedgerIsSane(steps, id, cutoff);
  }
}
