/** The payment requests as they run: claim the key, decide, stage the effects, commit them together. */
module PaymentService {
  import opened Wrappers
  import opened Domain
  import opened Tables
  import opened Payments
  import opened Runs
  import opened Invariants
  import opened CoreRuns
  import opened Sessions

  function Claimed(t: Tables, key: Id, request: Request): Tables {
    t.(idempotency := t.idempotency[key := IdempotencyRecord(request, None, None)])
  }

  /** The records were committed at some earlier instant; records stay once they are committed. */
  ghost predicate Earlier(seen: map<Id, IdempotencyRecord>, now: map<Id, IdempotencyRecord>) {
    forall key :: key in seen ==> key in now && now[key] == seen[key]
  }

  /** The earlier result of an equal request, among the records that are looked at. */
  method FindIdempotentSnapshot(records: map<Id, IdempotencyRecord>, key: Id, request: Request)
    returns (found: Result<Option<Payment>, Error>)
    ensures found == FindIn(records, key, request)
  {
    if key !in records {
      return Ok(None);
    }
    var existing := records[key];
    if existing.fingerprint != request {
      return Err(IdempotencyConflict);
    }
    if existing.snapshot.None? {
      return Err(IncompleteRecord);
    }
    return Ok(existing.snapshot);
  }

  /**
   * Claims a key before anything is changed, or finds the earlier result of an equal request. The first lookup may
   * have seen an older state: if an equal key was committed since, its insertion fails, everything is rolled back and
   * the key is looked up again. The answer is always the one of the state the claim is made in.
   */
  method ClaimIdempotencyKey(session: Session, seen: map<Id, IdempotencyRecord>, key: Id, request: Request)
    returns (found: Result<Option<Payment>, Error>)
    requires session.work == session.database.tables && Earlier(seen, session.work.idempotency)
    modifies session
    ensures found == FindSnapshot(old(session.work), key, request)
    ensures session.work ==
            if found == Ok(None) then Claimed(old(session.work), key, request) else old(session.work)
    ensures session.cached == old(session.cached) || (found != Ok(None) && session.cached == map[])
  {
    found := FindIdempotentSnapshot(seen, key, request);
    if found != Ok(None) {
      return;
    }
    if key in session.work.idempotency {
      session.Rollback();
      found := FindIdempotentSnapshot(session.work.idempotency, key, request);
      return;
    }
    var claim := IdempotencyRecord(request, None, None);
    session.work := session.work.(idempotency := session.work.idempotency[key := claim]);
    return Ok(None);
  }

  function WithRows(t: Tables, p: Payment, entries: seq<LedgerEntry>): Tables {
    t.(payments := t.payments[p.id := p], ledger := t.ledger + entries)
  }

  /** Stages the event, completes the claim and commits; a failure before the commit leaves nothing behind. */
  method CommitPaymentOutcome(
    session: Session, key: Id, p: Payment, eventType: EventType, failure: Option<FailurePoint>,
    ghost t: Tables, ghost request: Request, ghost entries: seq<LedgerEntry>)
    returns (result: Result<PaymentOutcome, Error>)
    requires t == session.database.tables && session.work == Claimed(WithRows(t, p, entries), key, request)
    modifies session, session.database`tables
    ensures Reply(session.database.tables, result) ==
            Finish(t, StageRow(t, p, entries, eventType), key, request, p, failure)
    ensures session.cached == if failure == Some(BeforeCommit) then map[] else old(session.cached)
    ensures failure != Some(BeforeCommit) ==> Seen(session.database.tables, p.id, p)
  {
    session.CreateOutboxEvent(p, eventType);
    assert session.work.outbox[|t.outbox|] == OutboxEvent(|t.outbox|, p, eventType);
    var claim := session.work.idempotency[key];
    claim := claim.(paymentId := Some(p.id));
    claim := claim.(snapshot := Some(p));
    session.work := session.work.(idempotency := session.work.idempotency[key := claim]);
    if failure == Some(BeforeCommit) {
      session.Rollback();
      return Err(SimulatedTimeout(BeforeCommit));
    }
    session.Commit();
    if failure == Some(AfterCommit) {
      return Err(SimulatedTimeout(AfterCommit));
    }
    return Ok(PaymentOutcome(p, false));
  }

  method ExecuteClaimedAuthorization(
    session: Session, key: Id, request: Request, now: Time, freshId: Id, freshReference: Id,
    failure: Option<FailurePoint>)
    returns (result: Result<PaymentOutcome, Error>)
    requires request.AuthorizeRequest? && session.work == Claimed(session.database.tables, key, request)
    modifies session, session.database`tables
    ensures Reply(session.database.tables, result) ==
            AuthorizeClaimed(old(session.database.tables), key, request, now, freshId, freshReference, failure)
    ensures CacheFollows(session, old(session.cached))
  {
    ghost var t := session.database.tables;
    var initial := InitialRow(request, freshId, freshReference, now);
    if initial.Err? {
      session.Rollback();
      return Err(DomainRule(initial.error));
    }
    var p := initial.value;
    if freshId in session.work.payments || !ReferenceFree(session.work, p.reference) || !PaymentChecks(p) {
      session.Rollback();
      return Err(ConstraintViolated);
    }
    session.work := session.work.(payments := session.work.payments[p.id := p]);
    if p.authorized != 0 {
      var ok := session.AddEntry(LedgerEntry(p.id, AuthorizationEntry, p.authorized, p.currency, now));
      assert ok;
    } else {
      assert t.ledger + [] == t.ledger;
    }
    session.cached := session.cached[p.id := p];
    result := CommitPaymentOutcome(session, key, p, InitialEvent(p), failure, t, request, InitialEntries(p));
  }

  /** A session keeps the rows it had, apart from the one it has just committed. */
  ghost predicate CacheFollows(session: Session, before: map<Id, Payment>)
    reads session, session.database
  {
    forall id :: id in session.cached ==>
      || (id in before && session.cached[id] == before[id])
      || Seen(session.database.tables, id, session.cached[id])
  }

  /** The session stays valid when stored rows agree again and only new versions were added. */
  lemma StillValid(session: Session, before: map<Id, Payment>, t: Tables)
    requires CoreInv(session.database.tables) && t.outbox <= session.database.tables.outbox
    requires CacheFollows(session, before)
    requires forall id :: id in before ==> Seen(t, id, before[id])
    ensures session.Valid()
  {
    forall id | id in session.cached
      ensures Seen(session.database.tables, id, session.cached[id])
    {
      if id in before && session.cached[id] == before[id] {
        SeenStays(t, session.database.tables, id, before[id]);
      }
    }
  }

  /** Creates one payment, or replays the original result. */
  method AuthorizePayment(
    session: Session, seen: map<Id, IdempotencyRecord>, key: Id, request: Request, now: Time, freshId: Id,
    freshReference: Id, failure: Option<FailurePoint>)
    returns (result: Result<PaymentOutcome, Error>)
    requires request.AuthorizeRequest? && session.Valid()
    requires Earlier(seen, session.database.tables.idempotency)
    modifies session, session.database`tables
    ensures Reply(session.database.tables, result) ==
            Payments.AuthorizePayment(old(session.database.tables), key, request, now, freshId, freshReference, failure)
    ensures session.Valid()
  {
    ghost var t, before := session.database.tables, session.cached;
    session.Begin();
    var replay := ClaimIdempotencyKey(session, seen, key, request);
    if replay.Err? {
      session.Rollback();
      return Err(replay.error);
    }
    if replay.value.Some? {
      return Ok(PaymentOutcome(replay.value.value, true));
    }
    result := ExecuteClaimedAuthorization(session, key, request, now, freshId, freshReference, failure);
    AuthorizeKeepsCore(t, key, request, now, freshId, freshReference, failure);
    StillValid(session, before, t);
  }

  lemma DecideIgnoresClaims(t: Tables, key: Id, view: Payment, request: Request)
    requires !request.AuthorizeRequest?
    ensures Decide(Claimed(t, key, request), view, request) == Decide(t, view, request)
  {
  }

  /** Decides on the row the session sees and stages its new version and its ledger entry. */
  method StageLifecycleOperation(session: Session, key: Id, request: Request, now: Time, ghost t: Tables)
    returns (staged: Result<(Payment, seq<LedgerEntry>), Error>)
    requires !request.AuthorizeRequest? && t == session.database.tables && session.work == Claimed(t, key, request)
    modifies session
    ensures staged == Change(t, old(session.View(request.paymentId)), request, now)
    ensures staged.Err? ==> session.cached == map[]
    ensures staged.Ok? ==>
              && session.cached == old(session.cached)[request.paymentId := staged.value.0]
              && session.work == Claimed(WithRows(t, staged.value.0, staged.value.1), key, request)
  {
    var found := session.GetPayment(request.paymentId);
    if found.None? {
      session.Rollback();
      return Err(PaymentNotFound);
    }
    var current := found.value;
    DecideIgnoresClaims(t, key, current, request);
    var next := Decide(session.work, current, request);
    if next.Err? {
      session.Rollback();
      return Err(next.error);
    }
    var p := current;
    p := p.(status := next.value.status);
    p := p.(authorized := next.value.authorized, captured := next.value.captured, refunded := next.value.refunded);
    p := p.(updatedAt := now);
    var flushed := session.Flush(p);
    if flushed.Err? {
      session.Rollback();
      return Err(flushed.error);
    }
    var entries := [];
    if !(request.CancelRequest? && current.status == AwaitingPayment) {
      var entry := EntryFor(current, next.value, request, now);
      var ok := session.AddEntry(entry);
      if !ok {
        session.Rollback();
        return Err(ConstraintViolated);
      }
      entries := [entry];
    } else {
      assert t.ledger + [] == t.ledger;
    }
    session.cached := session.cached[request.paymentId := flushed.value];
    return Ok((flushed.value, entries));
  }

  method ExecuteClaimedLifecycleOperation(
    session: Session, key: Id, request: Request, now: Time, failure: Option<FailurePoint>)
    returns (result: Result<PaymentOutcome, Error>)
    requires !request.AuthorizeRequest? && session.work == Claimed(session.database.tables, key, request)
    requires session.Valid()
    modifies session, session.database`tables
    ensures Reply(session.database.tables, result) ==
            ChangeClaimed(
              old(session.database.tables), key, request, old(session.View(request.paymentId)), now, failure)
    ensures CacheFollows(session, old(session.cached))
  {
    ghost var t, id, view := session.database.tables, request.paymentId, session.View(request.paymentId);
    ViewIsSeen(session, id);
    HonestView(t, id, view);
    var staged := StageLifecycleOperation(session, key, request, now, t);
    if staged.Err? {
      return Err(staged.error);
    }
    var (p, entries) := staged.value;
    result := CommitPaymentOutcome(session, key, p, ChangeEvent(request), failure, t, request, entries);
  }

  lemma ViewIsSeen(session: Session, id: Id)
    requires session.Valid()
    ensures session.View(id).Some? ==> Seen(session.database.tables, id, session.View(id).value)
  {
    if id !in session.cached && id in session.database.tables.payments {
      assert PaymentOk(session.database.tables, id);
      StoredIsSeen(session.database.tables, id);
    }
  }

  /** Capture, refund and cancellation: one transition decided on what the session sees, or a replay. */
  method ApplyLifecycleOperation(
    session: Session, seen: map<Id, IdempotencyRecord>, key: Id, request: Request, now: Time,
    failure: Option<FailurePoint>)
    returns (result: Result<PaymentOutcome, Error>)
    requires !request.AuthorizeRequest? && session.Valid()
    requires Earlier(seen, session.database.tables.idempotency)
    modifies session, session.database`tables
    ensures Reply(session.database.tables, result) ==
            ChangePayment(
              old(session.database.tables), key, request, old(session.View(request.paymentId)), now, failure)
    ensures session.Valid()
  {
    ghost var t, before, view := session.database.tables, session.cached, session.View(request.paymentId);
    ViewIsSeen(session, request.paymentId);
    HonestView(t, request.paymentId, view);
    session.Begin();
    var replay := ClaimIdempotencyKey(session, seen, key, request);
    if replay.Err? {
      session.Rollback();
      return Err(replay.error);
    }
    if replay.value.Some? {
      return Ok(PaymentOutcome(replay.value.value, true));
    }
    result := ExecuteClaimedLifecycleOperation(session, key, request, now, failure);
    NewChangeKeepsCore(t, key, request, view, now, failure);
    StillValid(session, before, t);
  }

  lemma NewChangeKeepsCore(
    t: Tables, key: Id, request: Request, view: Option<Payment>, now: Time, failure: Option<FailurePoint>)
    requires CoreInv(t) && !request.AuthorizeRequest? && FindSnapshot(t, key, request) == Ok(None)
    requires view.Some? ==> view.value.id in t.payments ==> Seen(t, view.value.id, view.value)
    ensures ChangePayment(t, key, request, view, now, failure) == ChangeClaimed(t, key, request, view, now, failure)
    ensures var t' := ChangeClaimed(t, key, request, view, now, failure).tables; CoreInv(t') && t.outbox <= t'.outbox
  {
    ChangeKeepsCore(t, key, request, view, now, failure);
  }

  method CapturePayment(
    session: Session, seen: map<Id, IdempotencyRecord>, key: Id, paymentId: Id, now: Time,
    failure: Option<FailurePoint>)
    returns (result: Result<PaymentOutcome, Error>)
    requires session.Valid() && Earlier(seen, session.database.tables.idempotency)
    modifies session, session.database`tables
    ensures Reply(session.database.tables, result) ==
            Respond(old(session.database.tables),
                    CaptureStep(key, paymentId, old(session.View(paymentId)), now, failure))
    ensures Honest(old(session.database.tables),
                   CaptureStep(key, paymentId, old(session.View(paymentId)), now, failure))
    ensures session.Valid()
  {
    ViewIsSeen(session, paymentId);
    result := ApplyLifecycleOperation(session, seen, key, CaptureRequest(paymentId), now, failure);
  }

  method RefundPayment(
    session: Session, seen: map<Id, IdempotencyRecord>, key: Id, paymentId: Id, amount: int, now: Time,
    failure: Option<FailurePoint>)
    returns (result: Result<PaymentOutcome, Error>)
    requires session.Valid() && Earlier(seen, session.database.tables.idempotency)
    modifies session, session.database`tables
    ensures Reply(session.database.tables, result) ==
            Respond(old(session.database.tables),
                    RefundStep(key, paymentId, amount, old(session.View(paymentId)), now, failure))
    ensures Honest(old(session.database.tables),
                   RefundStep(key, paymentId, amount, old(session.View(paymentId)), now, failure))
    ensures session.Valid()
  {
    ViewIsSeen(session, paymentId);
    result := ApplyLifecycleOperation(session, seen, key, RefundRequest(paymentId, amount), now, failure);
  }

  /** Cancellation drops what the session has read before it decides. */
  method CancelPayment(session: Session, key: Id, paymentId: Id, now: Time, failure: Option<FailurePoint>)
    returns (result: Result<PaymentOutcome, Error>)
    requires session.Valid()
    modifies session, session.database`tables
    ensures Reply(session.database.tables, result) ==
            Respond(old(session.database.tables), CancelStep(key, paymentId, now, failure))
    ensures result != Err(ConcurrentPaymentUpdate) && result != Err(ConstraintViolated)
    ensures session.Valid()
  {
    session.BeginCoordinatedWrite();
    CancellationIsClean(session.database.tables, key, paymentId, now, failure);
    result := ApplyLifecycleOperation(
      session, session.work.idempotency, key, CancelRequest(paymentId), now, failure);
  }

  /** What is decided on a committed row never breaks a constraint of the tables. */
  lemma ChangesFit(t: Tables, view: Option<Payment>, request: Request, now: Time)
    requires CoreInv(t) && !request.AuthorizeRequest?
    requires view.Some? ==> view.value.id in t.payments && Seen(t, view.value.id, view.value)
    ensures Change(t, view, request, now) != Err(ConstraintViolated)
  {
    if view.Some? && Decide(t, view.value, request).Ok? {
      assert PaymentOk(t, view.value.id);
      SeenIsWellFormed(t, view.value);
      DecisionIsLegal(t, view.value, request, now);
    }
  }

  /** Under the writer lock a cancellation neither loses a race nor breaks a constraint. */
  lemma CancellationIsClean(t: Tables, key: Id, paymentId: Id, now: Time, failure: Option<FailurePoint>)
    requires CoreInv(t)
    ensures Payments.CancelPayment(t, key, paymentId, now, failure).result != Err(ConcurrentPaymentUpdate)
    ensures Payments.CancelPayment(t, key, paymentId, now, failure).result != Err(ConstraintViolated)
  {
    if paymentId in t.payments {
      assert PaymentOk(t, paymentId);
      StoredIsSeen(t, paymentId);
    }
    ChangesFit(t, Stored(t, paymentId), CancelRequest(paymentId), now);
  }

  function EntryFor(current: Payment, next: PaymentState, request: Request, now: Time): LedgerEntry
    requires !request.AuthorizeRequest?
  {
    match request
    case CaptureRequest(id) =>
      LedgerEntry(current.id, CaptureEntry, next.captured - current.captured, current.currency, now)
    case CancelRequest(id) => LedgerEntry(current.id, CancelEntry, current.authorized, current.currency, now)
    case RefundRequest(id, amount) => LedgerEntry(current.id, RefundEntry, amount, current.currency, now)
  }
}
