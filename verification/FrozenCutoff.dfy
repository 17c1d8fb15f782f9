/**
 * When the report on a cutoff is fixed: exactly as long as no step touches what is counted through the cutoff. Once
 * the clock has passed the cutoff and nothing is pending through it, no step does.
 */
module FrozenCutoff {
  import opened Domain
  import opened Tables
  import opened Ordering
  import opened Confirmations
  import opened Runs
  import opened Invariants
  import opened CoreRuns
  import opened Evidence
  import opened Clocks
  import opened EventTimes
  import opened ConfirmationReport
  import opened Dispositions

  /** What the section is computed from. */
  ghost predicate SameEvidence(t: Tables, t': Tables, cutoff: Time) {
    && OutcomesBy(t', cutoff) == OutcomesBy(t, cutoff)
    && RecordsBy(t', cutoff) == RecordsBy(t, cutoff)
    && PendingBy(t', cutoff) == PendingBy(t, cutoff)
  }

  /** The payment is counted through the cutoff and has no other outcome yet. */
  predicate OpenBy(t: Tables, id: Id, cutoff: Time) {
    id in OutcomesBy(t, cutoff) && OutcomesBy(t, cutoff)[id] == StillPending
  }

  /**
   * The steps that reach back through the cutoff: a delayed payment created by then, a receipt received by then, the
   * resolution of such a receipt, a sweep dated by then that finds something due, and a change dated by then of a
   * payment that is still open through the cutoff.
   */
  ghost predicate Touches(t: Tables, s: Step, cutoff: Time) {
    match s
    case AcceptStep(_, now) => Apply(t, s) != t && now <= cutoff
    case CompleteStep(id) => id in PendingBy(t, cutoff)
    case SweepStep(now, limit) => 1 <= limit <= MAX_EXPIRY_BATCH_SIZE && now <= cutoff && Due(t, now) != map[]
    case AuthorizeStep(_, _, _, _, token, now, _, _, _) =>
      Apply(t, s) != t && now <= cutoff && token == AwaitConfirmation
    case _ => Apply(t, s) != t && s.now <= cutoff && OpenBy(t, s.paymentId, cutoff)
  }

  /** Grows with everything that is counted through the cutoff, and with nothing else. */
  ghost function Weight(t: Tables, cutoff: Time): int {
    2 * |OutcomesBy(t, cutoff)| - |With(OutcomesBy(t, cutoff), StillPending)|
    + 2 * |RecordsBy(t, cutoff).Keys| + |PendingBy(t, cutoff)|
  }

  // ----- one more version -------------------------------------------------------------------------------------

  lemma ReachedAppend(events: seq<Event>, e: Event, statuses: set<PaymentStatus>, cutoff: Time)
    ensures Reached(events + [e], statuses, cutoff) <==>
            Reached(events, statuses, cutoff) || (e.createdAt <= cutoff && e.snapshot.status in statuses)
  {
    assert forall x :: x in events + [e] <==> x in events || x == e;
  }

  /** A cancelled or expired version is the last one. */
  lemma EndedByNow(events: seq<Event>, p: Payment, status: PaymentStatus, cutoff: Time)
    requires History(events, p) && p.flow == AsynchronousConfirmation && status in {Cancelled, Expired}
    requires Reached(events, {status}, cutoff)
    ensures p.status == status
  {
    var e :| e in events && e.snapshot.status == status;
    var i :| 0 <= i < |events| && events[i] == e;
    DelayedHistory(events, p, i);
  }

  /** A new version gives an open payment its outcome if it is dated by the cutoff, and changes nothing otherwise. */
  lemma OutcomeGrows(events: seq<Event>, p: Payment, a: Action, e: Event, cutoff: Time)
    requires History(events, p) && p.flow == AsynchronousConfirmation && WellFormed(p) && Legal(p, a, e.snapshot)
    ensures
      var before, after := OutcomeOf(events, cutoff), OutcomeOf(events + [e], cutoff);
      if e.createdAt <= cutoff && before == StillPending then after != StillPending else after == before
  {
    ReachedAppend(events, e, {Captured, PartiallyRefunded, Refunded}, cutoff);
    ReachedAppend(events, e, {Cancelled}, cutoff);
    ReachedAppend(events, e, {Expired}, cutoff);
    DelayedHistory(events, p, |events| - 1);
    DelayedStep(p, a, e.snapshot);
    if Reached(events, {Cancelled}, cutoff) { EndedByNow(events, p, Cancelled, cutoff); }
    if Reached(events, {Expired}, cutoff) { EndedByNow(events, p, Expired, cutoff); }
  }

  /** The outcomes after a new version of one payment. */
  ghost predicate Moves(before: map<Id, DelayedOutcome>, after: map<Id, DelayedOutcome>, id: Id, open: bool) {
    && after.Keys == before.Keys
    && (forall k :: k in before && k != id ==> after[k] == before[k])
    && (if open then id in before && before[id] == StillPending && after[id] != StillPending
        else id in before ==> after[id] == before[id])
  }

  lemma OtherEvents(outbox: seq<Event>, e: Event)
    ensures forall id :: id != e.paymentId ==> EventsOf(outbox + [e], id) == EventsOf(outbox, id)
    ensures EventsOf(outbox + [e], e.paymentId) == EventsOf(outbox, e.paymentId) + [e]
  {
    forall id
      ensures EventsOf(outbox + [e], id) == EventsOf(outbox, id) + if id == e.paymentId then [e] else []
    {
      EventsAppend(outbox, e, id);
    }
    assert forall id :: EventsOf(outbox, id) + [] == EventsOf(outbox, id);
  }

  lemma StageMoves(t: Tables, a: Action, q: Payment, entries: seq<LedgerEntry>, eventType: EventType, cutoff: Time)
    requires CoreInv(t) && q.id in t.payments && Legal(t.payments[q.id], a, q)
    ensures Moves(OutcomesBy(t, cutoff), OutcomesBy(StageRow(t, q, entries, eventType), cutoff), q.id,
                  q.updatedAt <= cutoff && OpenBy(t, q.id, cutoff))
  {
    var e := OutboxEvent(|t.outbox|, q, eventType);
    var t' := StageRow(t, q, entries, eventType);
    assert PaymentOk(t, q.id);
    OtherEvents(t.outbox, e);
    if q.flow == AsynchronousConfirmation {
      OutcomeGrows(EventsOf(t.outbox, q.id), t.payments[q.id], a, e, cutoff);
    }
    SameButOne(t, t', q.id, cutoff);
  }

  /** Where only one payment's row and events change, only its outcome can. */
  lemma SameButOne(t: Tables, t': Tables, id: Id, cutoff: Time)
    requires id in t.payments && id in t'.payments && t'.payments == t.payments[id := t'.payments[id]]
    requires Eligible(t'.payments[id], cutoff) == Eligible(t.payments[id], cutoff)
    requires forall k :: k != id ==> EventsOf(t'.outbox, k) == EventsOf(t.outbox, k)
    ensures OutcomesBy(t', cutoff).Keys == OutcomesBy(t, cutoff).Keys
    ensures forall k :: k in OutcomesBy(t, cutoff) && k != id ==> OutcomesBy(t', cutoff)[k] == OutcomesBy(t, cutoff)[k]
  {
  }

  lemma MovedWeight(before: map<Id, DelayedOutcome>, after: map<Id, DelayedOutcome>, id: Id, open: bool)
    requires Moves(before, after, id, open)
    ensures !open ==> after == before
    ensures |after| == |before|
    ensures |With(after, StillPending)| == |With(before, StillPending)| - if open then 1 else 0
  {
    assert |after| == |after.Keys| == |before.Keys| == |before|;
    if open {
      assert With(before, StillPending) == With(after, StillPending) + {id};
      assert id !in With(after, StillPending);
    } else {
      assert after == before;
    }
  }

  // ----- one step ---------------------------------------------------------------------------------------------

  /** A step that touches the cutoff makes the weight grow, and any other leaves all evidence as it is. */
  ghost predicate Counts(t: Tables, t': Tables, touched: bool, cutoff: Time) {
    if touched then Weight(t', cutoff) > Weight(t, cutoff) else SameEvidence(t, t', cutoff)
  }

  lemma ChangeCounts(t: Tables, s: Step, cutoff: Time)
    requires CoreInv(t) && Honest(t, s) && s.IsRequest() && !s.AuthorizeStep?
    ensures Counts(t, Apply(t, s), Touches(t, s, cutoff), cutoff)
  {
    RequestKeepsReceipts(t, s);
    if Apply(t, s) != t {
      var q, entries, eventType := RequestCommit(t, s);
      StageMoves(t, ActionOf(s.Request()), q, entries, eventType, cutoff);
      MovedWeight(OutcomesBy(t, cutoff), OutcomesBy(Apply(t, s), cutoff), q.id, Touches(t, s, cutoff));
    }
  }

  lemma CreationOutcomes(t: Tables, q: Payment, entries: seq<LedgerEntry>, eventType: EventType, cutoff: Time)
    requires CoreInv(t) && q.id !in t.payments && WellFormed(q) && Initial(q)
    ensures
      OutcomesBy(StageRow(t, q, entries, eventType), cutoff) ==
      if Eligible(q, cutoff) then OutcomesBy(t, cutoff)[q.id := StillPending] else OutcomesBy(t, cutoff)
  {
    var e := OutboxEvent(|t.outbox|, q, eventType);
    NothingYet(t, q.id);
    OtherEvents(t.outbox, e);
    assert [] + [e] == [e];
    if Eligible(q, cutoff) { FirstOutcome(e, cutoff); }
    OneMorePayment(t, StageRow(t, q, entries, eventType), q, cutoff);
  }

  lemma FirstOutcome(e: Event, cutoff: Time)
    requires e.snapshot.status == AwaitingPayment
    ensures OutcomeOf([e], cutoff) == StillPending
  {
  }

  lemma OneMorePayment(t: Tables, t': Tables, q: Payment, cutoff: Time)
    requires q.id !in t.payments && t'.payments == t.payments[q.id := q]
    requires forall k :: k != q.id ==> EventsOf(t'.outbox, k) == EventsOf(t.outbox, k)
    ensures
      OutcomesBy(t', cutoff) ==
      if Eligible(q, cutoff) then OutcomesBy(t, cutoff)[q.id := OutcomeOf(EventsOf(t'.outbox, q.id), cutoff)]
      else OutcomesBy(t, cutoff)
  {
  }

  lemma CreationCounts(t: Tables, s: Step, cutoff: Time)
    requires CoreInv(t) && s.AuthorizeStep?
    ensures Counts(t, Apply(t, s), Touches(t, s, cutoff), cutoff)
  {
    RequestKeepsReceipts(t, s);
    if Apply(t, s) != t {
      var q, entries, eventType := RequestCommit(t, s);
      CreationOutcomes(t, q, entries, eventType, cutoff);
      var staged := StageRow(t, q, entries, eventType);
      assert OutcomesBy(Apply(t, s), cutoff) == OutcomesBy(staged, cutoff);
      OneMoreOpen(OutcomesBy(t, cutoff), q.id);
    }
  }

  lemma OneMoreOpen(outcomes: map<Id, DelayedOutcome>, id: Id)
    requires id !in outcomes
    ensures |outcomes[id := StillPending]| == |outcomes| + 1
    ensures |With(outcomes[id := StillPending], StillPending)| == |With(outcomes, StillPending)| + 1
  {
    assert With(outcomes[id := StillPending], StillPending) == With(outcomes, StillPending) + {id};
  }

  lemma AcceptCounts(t: Tables, command: ConfirmationCommand, now: Time, cutoff: Time)
    ensures Counts(t, Accept(t, command, now).tables, Touches(t, AcceptStep(command, now), cutoff), cutoff)
  {
    var t' := Accept(t, command, now).tables;
    if t' != t {
      SameRows(t, t', cutoff);
      NewReceipt(t, Receipt(command, now, false), command.confirmationId, cutoff);
    }
  }

  lemma SameRows(t: Tables, t': Tables, cutoff: Time)
    requires t'.payments == t.payments && t'.outbox == t.outbox && t'.confirmations == t.confirmations
    ensures OutcomesBy(t', cutoff) == OutcomesBy(t, cutoff) && RecordsBy(t', cutoff) == RecordsBy(t, cutoff)
  {
  }

  lemma NewReceipt(t: Tables, r: Receipt, c: Id, cutoff: Time)
    requires c !in t.receipts && !r.completed
    ensures
      PendingBy(t.(receipts := t.receipts[c := r]), cutoff) ==
      if r.receivedAt <= cutoff then PendingBy(t, cutoff) + {c} else PendingBy(t, cutoff)
    ensures c !in PendingBy(t, cutoff)
  {
  }

  lemma CompletionCounts(t: Tables, id: Id, cutoff: Time)
    requires Inv(t)
    ensures Counts(t, Complete(t, id).tables, id in PendingBy(t, cutoff), cutoff)
  {
    if id in t.receipts { assert ReceiptOk(t, id); }
    if id in t.receipts && id !in t.confirmations {
      var k, staged, q, entries, eventType := CompletionCommit(t, id);
      if q.Some? {
        var a := if k.disposition == Applied then DoConfirm(q.value.amount) else DoExpire;
        StageMoves(t, a, q.value, entries, eventType, cutoff);
        MovedWeight(OutcomesBy(t, cutoff), OutcomesBy(staged, cutoff), q.value.id,
                    q.value.updatedAt <= cutoff && OpenBy(t, q.value.id, cutoff));
      }
      ResolutionCounts(t, staged, id, k, cutoff);
    }
  }

  lemma ResolutionCounts(t: Tables, staged: Tables, id: Id, k: Confirmation, cutoff: Time)
    requires id in t.receipts && !t.receipts[id].completed && id !in t.confirmations
    requires staged.receipts == t.receipts && staged.confirmations == t.confirmations
    requires k.receivedAt == t.receipts[id].receivedAt
    requires |OutcomesBy(staged, cutoff)| == |OutcomesBy(t, cutoff)|
    requires |With(OutcomesBy(staged, cutoff), StillPending)| <= |With(OutcomesBy(t, cutoff), StillPending)|
    requires k.receivedAt > cutoff ==> OutcomesBy(staged, cutoff) == OutcomesBy(t, cutoff)
    ensures Counts(t, Resolved(staged, id, k), id in PendingBy(t, cutoff), cutoff)
  {
    assert OutcomesBy(Resolved(staged, id, k), cutoff) == OutcomesBy(staged, cutoff);
    ResolvedRecords(t, staged, id, k, cutoff);
    OneMoreRecord(RecordsBy(t, cutoff), id, k);
    ResolvedPending(t, staged, id, k, cutoff);
  }

  lemma ResolvedRecords(t: Tables, staged: Tables, id: Id, k: Confirmation, cutoff: Time)
    requires id in staged.receipts && staged.confirmations == t.confirmations && id !in t.confirmations
    ensures
      RecordsBy(Resolved(staged, id, k), cutoff) ==
      if k.receivedAt <= cutoff then RecordsBy(t, cutoff)[id := k] else RecordsBy(t, cutoff)
  {
  }

  lemma OneMoreRecord(records: map<Id, Confirmation>, id: Id, k: Confirmation)
    requires id !in records
    ensures |records[id := k].Keys| == |records.Keys| + 1
  {
    assert records[id := k].Keys == records.Keys + {id};
  }

  lemma ResolvedPending(t: Tables, staged: Tables, id: Id, k: Confirmation, cutoff: Time)
    requires id in t.receipts && staged.receipts == t.receipts
    ensures PendingBy(Resolved(staged, id, k), cutoff) == PendingBy(t, cutoff) - {id}
  {
  }

  /** A waiting payment past its deadline is open through any cutoff from then on. */
  lemma OverdueIsOpen(t: Tables, id: Id, now: Time, cutoff: Time)
    requires CoreInv(t) && id in t.payments && Overdue(t.payments[id], now) && now <= cutoff
    ensures OpenBy(t, id, cutoff)
  {
    assert PaymentOk(t, id);
    WaitingIsNew(t, id);
  }

  lemma ExpiryCounts(t: Tables, id: Id, now: Time, cutoff: Time)
    requires CoreInv(t) && id in t.payments && Overdue(t.payments[id], now)
    ensures StageExpiry(t, t.payments[id], now).Ok?
    ensures
      var t' := StageExpiry(t, t.payments[id], now).value;
      && CoreInv(t')
      && Counts(t, t', now <= cutoff, cutoff)
      && (forall k :: k in t.payments && k != id ==> k in t'.payments && t'.payments[k] == t.payments[k])
  {
    ExpireOneKeepsCore(t, id, now);
    assert PaymentOk(t, id);
    var row := ExpiredRow(t.payments[id], now).value;
    if now <= cutoff { OverdueIsOpen(t, id, now, cutoff); }
    StageMoves(t, DoExpire, row, [], ExpiredEvent, cutoff);
    MovedWeight(OutcomesBy(t, cutoff), OutcomesBy(StageExpiry(t, t.payments[id], now).value, cutoff), id,
                now <= cutoff && OpenBy(t, id, cutoff));
  }

  lemma {:induction false} ExpiriesCount(t: Tables, ids: seq<Id>, now: Time, cutoff: Time)
    requires CoreInv(t) && Distinct(ids) && forall id :: id in ids ==> id in t.payments && Overdue(t.payments[id], now)
    ensures ExpireAll(t, ids, now).Ok?
    ensures Counts(t, ExpireAll(t, ids, now).value, ids != [] && now <= cutoff, cutoff)
    decreases |ids|
  {
    if ids != [] {
      ExpiryCounts(t, ids[0], now, cutoff);
      assert forall id :: id in ids <==> id == ids[0] || id in ids[1..];
      assert ids[0] !in ids[1..];
      ExpiriesCount(StageExpiry(t, t.payments[ids[0]], now).value, ids[1..], now, cutoff);
    }
  }

  lemma SomeDue(m: map<Id, Time>, limit: int)
    requires limit >= 1
    ensures FirstOf(Sorted(m), limit) == [] <==> m == map[]
  {
    SortedMembers(m);
    if Sorted(m) != [] { assert Sorted(m)[0] in m; }
  }

  lemma SweepCounts(t: Tables, now: Time, limit: int, cutoff: Time)
    requires CoreInv(t)
    ensures Counts(t, ExpireDue(t, now, limit).tables, Touches(t, SweepStep(now, limit), cutoff), cutoff)
  {
    if 1 <= limit <= MAX_EXPIRY_BATCH_SIZE {
      var ids := FirstOf(Sorted(Due(t, now)), limit);
      DueIdsAwait(t, now, limit);
      SomeDue(Due(t, now), limit);
      ExpiriesCount(t, ids, now, cutoff);
      assert ExpireDue(t, now, limit).tables == ExpireAll(t, ids, now).value;
    }
  }

  lemma RequestCounts(t: Tables, s: Step, cutoff: Time)
    requires CoreInv(t) && Honest(t, s) && s.IsRequest()
    ensures Counts(t, Apply(t, s), Touches(t, s, cutoff), cutoff)
  {
    if s.AuthorizeStep? { CreationCounts(t, s, cutoff); } else { ChangeCounts(t, s, cutoff); }
  }

  lemma StepCounts(t: Tables, s: Step, cutoff: Time)
    requires Inv(t) && Honest(t, s)
    ensures Counts(t, Apply(t, s), Touches(t, s, cutoff), cutoff)
  {
    match s
    case AcceptStep(command, now) => AcceptCounts(t, command, now, cutoff);
    case CompleteStep(id) => CompletionCounts(t, id, cutoff);
    case SweepStep(now, limit) => SweepCounts(t, now, limit, cutoff);
    case _ => RequestCounts(t, s, cutoff);
  }

  // ----- whole runs -------------------------------------------------------------------------------------------

  /** No step of the run touches the cutoff. */
  ghost predicate Untouched(t: Tables, steps: seq<Step>, cutoff: Time)
    decreases |steps|
  {
    steps == [] || (!Touches(t, steps[0], cutoff) && Untouched(Apply(t, steps[0]), steps[1..], cutoff))
  }

  lemma {:induction false} RunCounts(t: Tables, steps: seq<Step>, cutoff: Time)
    requires Inv(t) && HonestRun(t, steps)
    ensures Counts(t, Run(t, steps), !Untouched(t, steps, cutoff), cutoff)
    decreases |steps|
  {
    if steps != [] {
      StepCounts(t, steps[0], cutoff);
      StepKeepsCore(t, steps[0]);
      StepKeepsEvidence(t, steps[0]);
      RunCounts(Apply(t, steps[0]), steps[1..], cutoff);
    }
  }

  /** The weight can be read off the section. */
  function WeightOf(s: Section): int
    requires s.outcomes.Keys == OUTCOMES && s.dispositions.Keys == DISPOSITIONS
  {
    var records := s.dispositions[Applied] + s.dispositions[Late] + s.dispositions[AmountMismatch]
                   + s.dispositions[CurrencyMismatch] + s.dispositions[UnknownReference]
                   + s.dispositions[AlreadyResolved];
    2 * s.paymentCount - s.outcomes[StillPending] + 2 * records + s.pendingReceipts
  }

  lemma SectionWeight(t: Tables, cutoff: Time, generatedAt: Time)
    ensures
      var s := FreshSection(t, cutoff, generatedAt);
      s.outcomes.Keys == OUTCOMES && s.dispositions.Keys == DISPOSITIONS && WeightOf(s) == Weight(t, cutoff)
  {
    var dispositions := DispositionsOf(RecordsBy(t, cutoff));
    SixWays(dispositions);
    assert dispositions.Keys == RecordsBy(t, cutoff).Keys;
  }

  /**
   * Over every honest run, whatever its clocks did: the section computed afresh for the cutoff is the same at the end
   * if and only if no step touched the cutoff.
   */
  lemma SectionStaysExactlyWhenUntouched(t: Tables, steps: seq<Step>, cutoff: Time, generatedAt: Time)
    requires Inv(t) && HonestRun(t, steps)
    ensures FreshSection(Run(t, steps), cutoff, generatedAt) == FreshSection(t, cutoff, generatedAt)
            <==> Untouched(t, steps, cutoff)
  {
    RunCounts(t, steps, cutoff);
    SectionWeight(t, cutoff, generatedAt);
    SectionWeight(Run(t, steps), cutoff, generatedAt);
  }

  // ----- past the cutoff --------------------------------------------------------------------------------------

  /** The instant the step carries lies after the cutoff. */
  predicate After(s: Step, cutoff: Time) {
    s.CompleteStep? || s.now > cutoff
  }

  ghost predicate HonestRunAfter(t: Tables, steps: seq<Step>, cutoff: Time) {
    HonestRun(t, steps) && forall i :: 0 <= i < |steps| ==> After(steps[i], cutoff)
  }

  /** With nothing pending through the cutoff, only a step dated by it can touch it. */
  lemma {:induction false} LaterIsUntouched(t: Tables, steps: seq<Step>, cutoff: Time)
    requires Inv(t) && PendingBy(t, cutoff) == {} && HonestRunAfter(t, steps, cutoff)
    ensures Untouched(t, steps, cutoff)
    decreases |steps|
  {
    if steps != [] {
      var s := steps[0];
      assert After(s, cutoff);
      StepCounts(t, s, cutoff);
      StepKeepsCore(t, s);
      StepKeepsEvidence(t, s);
      assert forall i :: 0 <= i < |steps[1..]| ==> steps[1..][i] == steps[i + 1];
      LaterIsUntouched(Apply(t, s), steps[1..], cutoff);
    }
  }

  /** Everything the section is computed from stays as it is. */
  lemma EvidenceIsFrozen(t: Tables, steps: seq<Step>, cutoff: Time)
    requires Inv(t) && PendingBy(t, cutoff) == {} && HonestRunAfter(t, steps, cutoff)
    ensures SameEvidence(t, Run(t, steps), cutoff)
  {
    LaterIsUntouched(t, steps, cutoff);
    RunCounts(t, steps, cutoff);
  }

  /**
   * From the first state past the cutoff with nothing pending through it, the outcomes, dispositions, pending
   * count and anomalies computed afresh for the cutoff are the same in every later state.
   */
  lemma CutoffIsFrozen(t: Tables, steps: seq<Step>, cutoff: Time, generatedAt: Time)
    requires Inv(t) && PendingBy(t, cutoff) == {} && HonestRunAfter(t, steps, cutoff)
    ensures FreshSection(Run(t, steps), cutoff, generatedAt) == FreshSection(t, cutoff, generatedAt)
  {
    EvidenceIsFrozen(t, steps, cutoff);
  }

  /** Against runs dated after the cutoff the report is fixed exactly when nothing is pending through it. */
  lemma FrozenExactlyWhenNothingPending(t: Tables, cutoff: Time, generatedAt: Time)
    requires Inv(t)
    ensures PendingBy(t, cutoff) == {} <==>
            forall steps :: HonestRunAfter(t, steps, cutoff) ==>
              FreshSection(Run(t, steps), cutoff, generatedAt) == FreshSection(t, cutoff, generatedAt)
  {
    if PendingBy(t, cutoff) == {} {
      forall steps | HonestRunAfter(t, steps, cutoff)
        ensures FreshSection(Run(t, steps), cutoff, generatedAt) == FreshSection(t, cutoff, generatedAt)
      {
        CutoffIsFrozen(t, steps, cutoff, generatedAt);
      }
    } else {
      var c :| c in PendingBy(t, cutoff);
      var steps := [CompleteStep(c)];
      assert HonestRun(Apply(t, steps[0]), steps[1..]);
      assert HonestRunAfter(t, steps, cutoff) && !Untouched(t, steps, cutoff);
      SectionStaysExactlyWhenUntouched(t, steps, cutoff, generatedAt);
    }
  }

  /**
   * Nothing pending is not enough by itself: an authorization that read its clock by the cutoff and commits after
   * the section was computed is one more payment in it.
   */
  lemma EarlyAuthorizationIsCounted(generatedAt: Time)
    ensures HonestRun(EMPTY, [NEW_PAYMENT]) && PendingBy(EMPTY, 5) == {}
    ensures FreshSection(EMPTY, 5, generatedAt).outcomes[StillPending] == 0
    ensures FreshSection(Run(EMPTY, [NEW_PAYMENT]), 5, generatedAt).outcomes[StillPending] == 1
  {
    OneStep(EMPTY, NEW_PAYMENT);
    EarlyOutcome();
    assert OutcomesBy(EMPTY, 5) == map[];
    OneMoreOpen(OutcomesBy(EMPTY, 5), 0);
    assert With(OutcomesBy(EMPTY, 5), StillPending) == {};
  }

  lemma OneStep(t: Tables, s: Step)
    requires Honest(t, s)
    ensures HonestRun(t, [s]) && Run(t, [s]) == Apply(t, s)
  {
    OneMore(t, s, []);
    assert [s] + [] == [s];
  }

  lemma EarlyOutcome()
    ensures OutcomesBy(Apply(EMPTY, NEW_PAYMENT), 5) == OutcomesBy(EMPTY, 5)[0 := StillPending]
  {
    Created();
    var q, entries, eventType := RequestCommit(EMPTY, NEW_PAYMENT);
    assert q == NEW_ROW by { assert Apply(EMPTY, NEW_PAYMENT).payments[q.id] == q; }
    CreationOutcomes(EMPTY, q, entries, eventType, 5);
    SameRows(StageRow(EMPTY, q, entries, eventType), Apply(EMPTY, NEW_PAYMENT), 5);
  }
}
