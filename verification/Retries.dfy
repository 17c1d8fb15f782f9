/** Idempotency keys over whole request logs: retries, conflicts, replays and injected timeouts. */
module Retries {
  import opened Wrappers
  import opened Tables
  import opened Payments
  import opened Confirmations
  import opened Runs
  import opened Invariants
  import opened CoreRuns
  import opened Evidence

  /** The request took effect: its key is new and is recorded with its outcome. */
  ghost predicate Committed(t: Tables, s: Step)
    requires s.IsRequest()
  {
    s.key !in t.idempotency && s.key in Apply(t, s).idempotency
  }

  /** The outcome is recorded under the key, and no other record changes. */
  ghost predicate Recorded(t: Tables, t': Tables, key: Id, request: Request, p: Payment) {
    t'.idempotency == t.idempotency[key := IdempotencyRecord(request, Some(p.id), Some(p))]
  }

  /** Replays, conflicts, refusals, lost races and timeouts before the commit leave no trace. */
  lemma UncommittedLeavesNoTrace(t: Tables, s: Step)
    requires s.IsRequest()
    ensures Apply(t, s) != t <==> Committed(t, s)
    ensures Committed(t, s) ==> exists p: Payment :: Recorded(t, Apply(t, s), s.key, s.Request(), p)
  {
    var next := Respond(t, s).tables;
    match s
    case AuthorizeStep(key, _, _, _, _, now, id, reference, failure) =>
      if next != t {
        var p := AuthorizeCommit(t, key, s.Request(), now, id, reference, failure);
        assert Recorded(t, next, key, s.Request(), p);
      }
    case CaptureStep(key, _, view, now, failure) => ChangeRecords(t, key, s.Request(), view, now, failure);
    case RefundStep(key, _, _, view, now, failure) => ChangeRecords(t, key, s.Request(), view, now, failure);
    case CancelStep(key, id, now, failure) => ChangeRecords(t, key, s.Request(), Stored(t, id), now, failure);
  }

  lemma ChangeRecords(
    t: Tables, key: Id, request: Request, view: Option<Payment>, now: Time, failure: Option<FailurePoint>)
    requires !request.AuthorizeRequest?
    ensures
      var next := ChangePayment(t, key, request, view, now, failure).tables;
      next == t || (key !in t.idempotency && exists p: Payment :: Recorded(t, next, key, request, p))
  {
    var next := ChangePayment(t, key, request, view, now, failure).tables;
    if next != t {
      var p := WithState(view.value, Decide(t, view.value, request).value, now);
      assert Recorded(t, next, key, request, p);
    }
  }

  /** The log without the requests that did not commit. */
  ghost function Effective(t: Tables, steps: seq<Step>): seq<Step>
    decreases |steps|
  {
    if steps == [] then []
    else
      (if steps[0].IsRequest() && !Committed(t, steps[0]) then [] else [steps[0]])
      + Effective(Apply(t, steps[0]), steps[1..])
  }

  /** Retry erasure: the store is the one obtained from the committed requests alone. */
  lemma {:induction false} RetriesErase(t: Tables, steps: seq<Step>)
    ensures Run(t, Effective(t, steps)) == Run(t, steps)
    decreases |steps|
  {
    if steps != [] {
      var s := steps[0];
      var next := Apply(t, s);
      var rest := Effective(next, steps[1..]);
      RetriesErase(next, steps[1..]);
      if s.IsRequest() && !Committed(t, s) {
        UncommittedLeavesNoTrace(t, s);
        assert Effective(t, steps) == rest;
      } else {
        assert Effective(t, steps) == [s] + rest;
      }
    }
  }

  /** A step leaves every recorded outcome as it is; only a committing request adds one. */
  lemma StepKeepsRecords(t: Tables, s: Step, key: Id)
    requires CoreInv(t) && key in t.idempotency
    ensures key in Apply(t, s).idempotency && Apply(t, s).idempotency[key] == t.idempotency[key]
  {
    match s
    case AcceptStep(_, _) =>
    case CompleteStep(_) =>
    case SweepStep(now, limit) => var ids := SweepCommit(t, now, limit);
    case _ => UncommittedLeavesNoTrace(t, s);
  }

  lemma {:induction false} RecordsPersist(t: Tables, steps: seq<Step>, key: Id)
    requires CoreInv(t) && HonestRun(t, steps) && key in t.idempotency
    ensures key in Run(t, steps).idempotency && Run(t, steps).idempotency[key] == t.idempotency[key]
    decreases |steps|
  {
    if steps != [] {
      StepKeepsCore(t, steps[0]);
      StepKeepsRecords(t, steps[0], key);
      RecordsPersist(Apply(t, steps[0]), steps[1..], key);
    }
  }

  lemma NewBefore(t: Tables, s: Step, key: Id)
    requires CoreInv(t) && key !in Apply(t, s).idempotency
    ensures key !in t.idempotency
  {
    if key in t.idempotency { StepKeepsRecords(t, s, key); }
  }

  lemma HonestTail(t: Tables, steps: seq<Step>)
    requires steps != [] && CoreInv(t) && HonestRun(t, steps)
    ensures CoreInv(Apply(t, steps[0])) && HonestRun(Apply(t, steps[0]), steps[1..])
  {
    StepKeepsCore(t, steps[0]);
  }

  lemma {:induction false} EffectiveKeysAreNew(t: Tables, steps: seq<Step>, e: Step)
    requires CoreInv(t) && HonestRun(t, steps) && e in Effective(t, steps) && e.IsRequest()
    ensures e.key !in t.idempotency
    decreases |steps|
  {
    if e in Effective(Apply(t, steps[0]), steps[1..]) {
      HonestTail(t, steps);
      EffectiveKeysAreNew(Apply(t, steps[0]), steps[1..], e);
      NewBefore(t, steps[0], e.key);
    }
  }

  ghost predicate KeysApart(log: seq<Step>) {
    forall i, j :: 0 <= i < j < |log| && log[i].IsRequest() && log[j].IsRequest() ==> log[i].key != log[j].key
  }

  /** Each key commits at most once in any log. */
  lemma {:induction false} KeysCommitOnce(t: Tables, steps: seq<Step>)
    requires CoreInv(t) && HonestRun(t, steps)
    ensures KeysApart(Effective(t, steps))
    decreases |steps|
  {
    if steps != [] {
      var s := steps[0];
      var rest := Effective(Apply(t, s), steps[1..]);
      HonestTail(t, steps);
      KeysCommitOnce(Apply(t, s), steps[1..]);
      if !s.IsRequest() || Committed(t, s) {
        FirstIsNew(t, steps, rest);
      }
    }
  }

  /** The key of a request that commits first is not used again. */
  lemma FirstIsNew(t: Tables, steps: seq<Step>, rest: seq<Step>)
    requires CoreInv(t) && HonestRun(t, steps) && steps != []
    requires !steps[0].IsRequest() || Committed(t, steps[0])
    requires rest == Effective(Apply(t, steps[0]), steps[1..])
    ensures forall e :: e in rest && steps[0].IsRequest() && e.IsRequest() ==> e.key != steps[0].key
  {
    HonestTail(t, steps);
    forall e | e in rest && e.IsRequest()
      ensures e.key !in Apply(t, steps[0]).idempotency
    {
      EffectiveKeysAreNew(Apply(t, steps[0]), steps[1..], e);
    }
  }

  /** Every recorded outcome is complete, and its snapshot is a version of its payment that was committed. */
  ghost predicate RecordsComplete(t: Tables) {
    forall key :: key in t.idempotency ==> RecordComplete(t, t.idempotency[key])
  }

  ghost predicate RecordComplete(t: Tables, r: IdempotencyRecord) {
    r.snapshot.Some? && r.paymentId.Some? && Seen(t, r.paymentId.value, r.snapshot.value)
  }

  lemma StepKeepsComplete(t: Tables, s: Step)
    requires CoreInv(t) && Honest(t, s) && RecordsComplete(t)
    ensures RecordsComplete(Apply(t, s))
  {
    var t' := Apply(t, s);
    match s
    case AcceptStep(_, _) => SeenCarries(t, t');
    case CompleteStep(id) =>
      CompletionOnlyAdds(t, id);
      SeenCarries(t, t');
    case SweepStep(now, limit) =>
      var ids := SweepCommit(t, now, limit);
      SeenCarries(t, t');
    case _ =>
      if t' != t {
        var q, entries, eventType := RequestCommit(t, s);
        RecordAdded(t, t', s.key, s.Request(), q, entries, eventType);
      }
  }

  lemma CompletionOnlyAdds(t: Tables, id: Id)
    requires CoreInv(t)
    ensures t.outbox <= Complete(t, id).tables.outbox && Complete(t, id).tables.idempotency == t.idempotency
  {
    if id in t.receipts && id !in t.confirmations {
      var k, staged, q, entries, eventType := CompletionCommit(t, id);
    }
  }

  lemma SeenCarries(t: Tables, t': Tables)
    requires t.outbox <= t'.outbox && t'.idempotency == t.idempotency && RecordsComplete(t)
    ensures RecordsComplete(t')
  {
    forall key | key in t'.idempotency
      ensures RecordComplete(t', t'.idempotency[key])
    {
      var r := t.idempotency[key];
      var e :| e in t.outbox && e.paymentId == r.paymentId.value && e.snapshot == r.snapshot.value;
      assert e in t'.outbox;
    }
  }

  lemma RecordAdded(
    t: Tables, t': Tables, key: Id, request: Request, q: Payment, entries: seq<LedgerEntry>, eventType: EventType)
    requires Commits(t, t', key, request, q, entries, eventType) && RecordsComplete(t)
    ensures RecordsComplete(t')
  {
    SeenCarries(t, t'.(idempotency := t.idempotency));
    assert t'.outbox[|t.outbox|] in t'.outbox && t'.outbox[|t.outbox|] == OutboxEvent(|t.outbox|, q, eventType);
    assert RecordComplete(t', t'.idempotency[key]);
    forall k | k in t'.idempotency
      ensures RecordComplete(t', t'.idempotency[k])
    {
      if k != key { assert RecordComplete(t'.(idempotency := t.idempotency), t.idempotency[k]); }
    }
  }

  /** In every reachable state the half-written claim is never seen, so its error is never raised. */
  lemma {:induction false} RunsKeepComplete(t: Tables, steps: seq<Step>)
    requires CoreInv(t) && RecordsComplete(t) && HonestRun(t, steps)
    ensures RecordsComplete(Run(t, steps))
    ensures forall key, request :: FindSnapshot(Run(t, steps), key, request) != Err(IncompleteRecord)
    decreases |steps|
  {
    if steps == [] {
      forall key, request
        ensures FindSnapshot(t, key, request) != Err(IncompleteRecord)
      {
        if key in t.idempotency { assert RecordComplete(t, t.idempotency[key]); }
      }
    } else {
      StepKeepsCore(t, steps[0]);
      StepKeepsComplete(t, steps[0]);
      RunsKeepComplete(Apply(t, steps[0]), steps[1..]);
    }
  }

  /** What a request under a used key is told, whatever its instant, session, fresh identifiers or failure point. */
  lemma UsedKeyAnswers(t: Tables, s: Step)
    requires s.IsRequest() && s.key in t.idempotency && t.idempotency[s.key].snapshot.Some?
    ensures
      var r := t.idempotency[s.key];
      Respond(t, s) == Reply(t, if r.fingerprint == s.Request()
                                then Ok(PaymentOutcome(r.snapshot.value, true)) else Err(IdempotencyConflict))
  {
  }

  /**
   * A request that committed, whether its answer arrived or was lost in a timeout after the commit, fixes the
   * answer for its key: after any further run, an equal request is told the payment as it was committed then, a
   * different one is refused, and neither changes the store.
   */
  lemma CommittedAnswerIsFinal(t: Tables, s: Step, steps: seq<Step>, retry: Step)
    requires CoreInv(t) && HonestRun(t, [s] + steps)
    requires s.IsRequest() && Committed(t, s) && retry.IsRequest() && retry.key == s.key
    ensures
      var later := Run(t, [s] + steps);
      exists p: Payment ::
        && Seen(Apply(t, s), p.id, p)
        && (Respond(t, s).result == Ok(PaymentOutcome(p, false))
            || Respond(t, s).result == Err(SimulatedTimeout(AfterCommit)))
        && Respond(later, retry) ==
           Reply(later, if retry.Request() == s.Request() then Ok(PaymentOutcome(p, true))
                        else Err(IdempotencyConflict))
  {
    assert ([s] + steps)[1..] == steps;
    var next := Apply(t, s);
    UncommittedLeavesNoTrace(t, s);
    var q, entries, eventType := RequestCommit(t, s);
    assert next.outbox[|t.outbox|] in next.outbox && next.outbox[|t.outbox|].snapshot == q;
    assert Seen(next, q.id, q);
    AnswerOfCommit(t, s, q);
    StepKeepsCore(t, s);
    RecordsPersist(next, steps, s.key);
    UsedKeyAnswers(Run(next, steps), retry);
  }

  lemma AnswerOfCommit(t: Tables, s: Step, q: Payment)
    requires s.IsRequest() && Committed(t, s)
    requires Recorded(t, Apply(t, s), s.key, s.Request(), q)
    ensures Respond(t, s).result == Ok(PaymentOutcome(q, false))
            || Respond(t, s).result == Err(SimulatedTimeout(AfterCommit))
  {
    assert Apply(t, s).idempotency[s.key].snapshot == Some(q);
  }
}
