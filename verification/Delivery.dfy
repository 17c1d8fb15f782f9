/**
 * Leased delivery of one outbox event by competing workers. A dispatch claims the event, loads the row, calls the
 * receiver, and finalises from the row it loaded; other workers may act in between.
 */
module Delivery {
  import opened Wrappers
  import opened Tables

  const MAX_DELIVERY_ATTEMPTS := 3
  const DELIVERY_LEASE: Time := 30 * SECOND

  datatype WebhookStatus = Pending | Processing | Delivered | Exhausted

  /** The delivery columns of an outbox row. */
  datatype Row = Row(
    status: WebhookStatus,
    attemptCount: int,
    nextAttemptAt: Time,
    leaseToken: Option<Id>,
    leaseExpiresAt: Option<Time>,
    deliveredAt: Option<Time>)

  datatype AttemptOutcome = Success | HttpError | TimedOut | ConnectionFailed

  datatype Attempt = Attempt(outcome: AttemptOutcome, response: Option<int>, attemptedAt: Time)

  datatype DeliveryError = NotReady | AttemptAlreadyRecorded

  function RetryDelay(attempt: int): Time {
    if attempt == 1 then 1 * SECOND else 5 * SECOND
  }

  predicate Succeeded(response: Option<int>) {
    response.Some? && 200 <= response.value < 300
  }

  predicate Claimable(r: Row, now: Time) {
    || (r.status == Pending && r.nextAttemptAt <= now)
    || (r.status == Processing && r.leaseExpiresAt.Some? && r.leaseExpiresAt.value <= now)
  }

  function Claimed(r: Row, token: Id, now: Time): Row {
    r.(status := Processing, leaseToken := Some(token), leaseExpiresAt := Some(now + DELIVERY_LEASE))
  }

  /** The row after an attempt, computed from the row the worker loaded. */
  function Finalized(loaded: Row, now: Time, response: Option<int>): Row {
    var n := loaded.attemptCount + 1;
    var r := loaded.(attemptCount := n, leaseToken := None, leaseExpiresAt := None);
    if Succeeded(response) then r.(status := Delivered, deliveredAt := Some(now), nextAttemptAt := now)
    else if n >= MAX_DELIVERY_ATTEMPTS then r.(status := Exhausted, nextAttemptAt := now)
    else r.(status := Pending, nextAttemptAt := now + RetryDelay(n))
  }

  /** The stored event and its attempts; attempt numbers are unique. */
  class WebhookEvent {
    var row: Row
    var attempts: map<int, Attempt>

    constructor (createdAt: Time)
      ensures row == NewRow(createdAt) && attempts == map[]
    {
      row, attempts := NewRow(createdAt), map[];
    }

    method ClaimDelivery(token: Id, now: Time) returns (ok: bool)
      modifies this`row
      ensures ok == Claimable(old(row), now)
      ensures row == if ok then Claimed(old(row), token, now) else old(row)
    {
      ok := (row.status == Pending && row.nextAttemptAt <= now)
      || (row.status == Processing && row.leaseExpiresAt.Some? && row.leaseExpiresAt.value <= now);
      if ok {
        row := row.(status := Processing);
        row := row.(leaseToken := Some(token));
        row := row.(leaseExpiresAt := Some(now + DELIVERY_LEASE));
      }
    }

    /** Writes the row from the worker's copy and inserts the attempt, or rolls both back. */
    method FinalizeDelivery(loaded: Row, token: Id, now: Time, outcome: AttemptOutcome, response: Option<int>)
      returns (result: Result<int, DeliveryError>)
      modifies this
      ensures result == FinalizeResult(old(attempts), loaded, token)
      ensures result.Ok? ==> row == Finalized(loaded, now, response)
                             && attempts == old(attempts)[result.value := Attempt(outcome, response, now)]
      ensures result.Err? ==> row == old(row) && attempts == old(attempts)
      ensures result.Ok? ==> StatusFollows(row, result.value, now, response)
    {
      if loaded.leaseToken != Some(token) {
        return Err(NotReady);
      }
      var before := row;
      var number := loaded.attemptCount + 1;
      var event := loaded.(attemptCount := number);
      event := event.(leaseToken := None, leaseExpiresAt := None);
      if Succeeded(response) {
        event := event.(status := Delivered, deliveredAt := Some(now), nextAttemptAt := now);
      } else if number >= MAX_DELIVERY_ATTEMPTS {
        event := event.(status := Exhausted, nextAttemptAt := now);
      } else {
        event := event.(status := Pending, nextAttemptAt := now + RetryDelay(number));
      }
      row := event;
      if number in attempts {
        row := before;
        return Err(AttemptAlreadyRecorded);
      }
      attempts := attempts[number := Attempt(outcome, response, now)];
      return Ok(number);
    }
  }

  /** A status of 200 to 299 delivers; anything else waits 1 or 5 seconds, or is given up after the third attempt. */
  ghost predicate StatusFollows(r: Row, attempt: int, now: Time, response: Option<int>) {
    && (r.status == Delivered <==> response.Some? && 200 <= response.value <= 299)
    && (r.status == Pending <==> r.status != Delivered && attempt < 3)
    && (r.status == Exhausted <==> r.status != Delivered && attempt >= 3)
    && (r.status == Pending && attempt == 1 ==> r.nextAttemptAt == now + 1_000_000)
    && (r.status == Pending && attempt == 2 ==> r.nextAttemptAt == now + 5_000_000)
    && (r.status == Delivered ==> r.deliveredAt == Some(now))
    && r.attemptCount == attempt && r.leaseToken == None && r.leaseExpiresAt == None
  }

  lemma FinalizedExactly(loaded: Row, now: Time, response: Option<int>)
    ensures StatusFollows(Finalized(loaded, now, response), loaded.attemptCount + 1, now, response)
  {
  }

  function NewRow(createdAt: Time): Row {
    Row(Pending, 0, createdAt, None, None, None)
  }

  function FinalizeResult(attempts: map<int, Attempt>, loaded: Row, token: Id): Result<int, DeliveryError> {
    if loaded.leaseToken != Some(token) then Err(NotReady)
    else if loaded.attemptCount + 1 in attempts then Err(AttemptAlreadyRecorded)
    else Ok(loaded.attemptCount + 1)
  }

  // ----- runs -------------------------------------------------------------------------------------------------

  /** A dispatch is named by its lease token; it keeps the instant it was called with and the row it loaded. */
  datatype Worker = Worker(now: Time, loaded: Option<Row>)

  datatype State = State(createdAt: Time, row: Row, attempts: map<int, Attempt>, workers: map<Id, Worker>)

  datatype Step =
    | Claim(token: Id, now: Time)
    | Load(token: Id)
    | Finalize(token: Id, outcome: AttemptOutcome, response: Option<int>)

  function Start(createdAt: Time): State {
    State(createdAt, NewRow(createdAt), map[], map[])
  }

  /** Steps that are not possible, and attempts that are refused, leave the stored rows alone. */
  function Apply(s: State, step: Step): State {
    match step
    case Claim(token, now) =>
      if token in s.workers || !Claimable(s.row, now) then s
      else s.(row := Claimed(s.row, token, now), workers := s.workers[token := Worker(now, None)])
    case Load(token) =>
      if token !in s.workers || s.workers[token].loaded.Some? then s
      else s.(workers := s.workers[token := s.workers[token].(loaded := Some(s.row))])
    case Finalize(token, outcome, response) =>
      if token !in s.workers || s.workers[token].loaded.None? then s
      else
        var w := s.workers[token];
        match FinalizeResult(s.attempts, w.loaded.value, token)
        case Err(_) => s
        case Ok(n) =>
          s.(row := Finalized(w.loaded.value, w.now, response),
             attempts := s.attempts[n := Attempt(outcome, response, w.now)])
  }

  function Run(s: State, steps: seq<Step>): State
    decreases |steps|
  {
    if steps == [] then s else Run(Apply(s, steps[0]), steps[1..])
  }

  /** The earliest instant at which the attempt after the n-th may be claimed. */
  function ReadyAt(s: State, n: int): Time
    requires n == 0 || n in s.attempts
  {
    if n == 0 then s.createdAt else s.attempts[n].attemptedAt + RetryDelay(n)
  }

  /** Attempts are numbered 1 to the count without holes, and there are never more than three. */
  ghost predicate Numbered(s: State) {
    && 0 <= s.row.attemptCount <= MAX_DELIVERY_ATTEMPTS
    && forall n :: n in s.attempts <==> 1 <= n <= s.row.attemptCount
  }

  /** Every attempt waits for the scheduled delay after the one before. */
  ghost predicate Spaced(s: State)
    requires Numbered(s)
  {
    forall n :: n in s.attempts ==> ReadyAt(s, n - 1) <= s.attempts[n].attemptedAt
  }

  /** Only the last attempt can have succeeded, and the status says how the last attempt ended. */
  ghost predicate Ended(s: State)
    requires Numbered(s)
  {
    && (forall n :: n in s.attempts && Succeeded(s.attempts[n].response) ==>
          s.row.status == Delivered && n == s.row.attemptCount)
    && (s.row.status == Delivered ==>
          s.row.attemptCount in s.attempts && Succeeded(s.attempts[s.row.attemptCount].response))
    && (s.row.status == Exhausted ==> s.row.attemptCount == MAX_DELIVERY_ATTEMPTS)
    && (s.row.status in {Pending, Processing} ==> s.row.attemptCount < MAX_DELIVERY_ATTEMPTS)
  }

  ghost predicate LeaseOk(s: State)
    requires Numbered(s)
  {
    && (s.row.status == Pending ==> s.row.nextAttemptAt == ReadyAt(s, s.row.attemptCount))
    && (s.row.leaseToken.Some? <==> s.row.status == Processing)
    && (s.row.status == Processing ==>
          && s.row.leaseToken.value in s.workers
          && s.row.leaseExpiresAt == Some(s.workers[s.row.leaseToken.value].now + DELIVERY_LEASE)
          && ReadyAt(s, s.row.attemptCount) <= s.workers[s.row.leaseToken.value].now)
  }

  /** A worker holding its own token either is still ahead of every attempt, or its attempt number is taken. */
  ghost predicate WorkerOk(s: State, token: Id)
    requires Numbered(s) && token in s.workers
  {
    var w := s.workers[token];
    w.loaded.Some? && w.loaded.value.leaseToken == Some(token) ==>
      var r := w.loaded.value;
      && 0 <= r.attemptCount <= s.row.attemptCount && r.attemptCount < MAX_DELIVERY_ATTEMPTS
      && ReadyAt(s, r.attemptCount) <= w.now
      && (r.attemptCount == s.row.attemptCount ==> s.row.status == Processing)
  }

  ghost predicate Inv(s: State) {
    && Numbered(s) && Spaced(s) && Ended(s) && LeaseOk(s)
    && forall token :: token in s.workers ==> WorkerOk(s, token)
  }

  lemma ClaimKeeps(s: State, token: Id, now: Time)
    requires Inv(s)
    ensures Inv(Apply(s, Claim(token, now)))
  {
    var s' := Apply(s, Claim(token, now));
    if s' != s {
      assert ReadyAt(s, s.row.attemptCount) <= now;
      forall k | k in s'.workers
        ensures WorkerOk(s', k)
      {
        if k != token { assert WorkerOk(s, k); }
      }
    }
  }

  lemma LoadKeeps(s: State, token: Id)
    requires Inv(s)
    ensures Inv(Apply(s, Load(token)))
  {
    var s' := Apply(s, Load(token));
    forall k | k in s'.workers
      ensures WorkerOk(s', k)
    {
      assert WorkerOk(s, k);
    }
  }

  lemma FinalizeKeeps(s: State, token: Id, outcome: AttemptOutcome, response: Option<int>)
    requires Inv(s)
    ensures Inv(Apply(s, Finalize(token, outcome, response)))
  {
    var s' := Apply(s, Finalize(token, outcome, response));
    if s' != s {
      var w := s.workers[token];
      assert WorkerOk(s, token);
      assert w.loaded.value.attemptCount == s.row.attemptCount;
      forall k | k in s'.workers
        ensures WorkerOk(s', k)
      {
        assert WorkerOk(s, k);
      }
    }
  }

  /**
   * Lease safety over every run, whatever the clocks of the workers say: recorded attempts are exactly
   * 1..attemptCount, at most three, only the last can be a success, and each keeps the scheduled distance.
   */
  lemma {:induction false} DeliveryIsSafe(s: State, steps: seq<Step>)
    requires Inv(s)
    ensures Inv(Run(s, steps))
    decreases |steps|
  {
    if steps != [] {
      match steps[0] {
        case Claim(token, now) => ClaimKeeps(s, token, now);
        case Load(token) => LoadKeeps(s, token);
        case Finalize(token, outcome, response) => FinalizeKeeps(s, token, outcome, response);
      }
      DeliveryIsSafe(Apply(s, steps[0]), steps[1..]);
    }
  }

  lemma EveryRunIsSafe(createdAt: Time, steps: seq<Step>)
    ensures
      var s := Run(Start(createdAt), steps);
      && Numbered(s) && Spaced(s) && Ended(s)
  {
    DeliveryIsSafe(Start(createdAt), steps);
  }

  /** A worker records a success exactly when the receiver answered with a status of 200 to 299. */
  predicate Truthful(outcome: AttemptOutcome, response: Option<int>) {
    outcome == Success <==> response.Some? && 200 <= response.value <= 299
  }

  ghost predicate TruthfulRun(steps: seq<Step>) {
    forall i :: 0 <= i < |steps| && steps[i].Finalize? ==> Truthful(steps[i].outcome, steps[i].response)
  }

  ghost predicate TruthfulAttempts(s: State) {
    forall n :: n in s.attempts ==> Truthful(s.attempts[n].outcome, s.attempts[n].response)
  }

  lemma {:induction false} AttemptsStayTruthful(s: State, steps: seq<Step>)
    requires TruthfulAttempts(s) && TruthfulRun(steps)
    ensures TruthfulAttempts(Run(s, steps))
    decreases |steps|
  {
    if steps != [] {
      assert forall i :: 0 <= i < |steps[1..]| ==> steps[1..][i] == steps[i + 1];
      AttemptsStayTruthful(Apply(s, steps[0]), steps[1..]);
    }
  }

  /**
   * In every interleaving the row says how the attempts went: delivered exactly when the last one was a success and
   * no earlier one was, exhausted exactly after three that were not, and else fewer than three. The second
   * attempt comes at least a second after the first, the third at least five seconds after the second.
   */
  lemma StatusTellsOutcomes(createdAt: Time, steps: seq<Step>)
    requires TruthfulRun(steps)
    ensures
      var s := Run(Start(createdAt), steps);
      var n := s.row.attemptCount;
      && (forall k :: k in s.attempts <==> 1 <= k <= n)
      && (s.row.status == Delivered <==> exists k :: k in s.attempts && s.attempts[k].outcome == Success)
      && (forall k :: k in s.attempts && s.attempts[k].outcome == Success ==> k == n)
      && (s.row.status == Exhausted <==> n == 3 && s.attempts[3].outcome != Success)
      && n <= 3
      && (1 in s.attempts ==> s.attempts[1].attemptedAt >= createdAt)
      && (2 in s.attempts ==> s.attempts[2].attemptedAt >= s.attempts[1].attemptedAt + 1_000_000)
      && (3 in s.attempts ==> s.attempts[3].attemptedAt >= s.attempts[2].attemptedAt + 5_000_000)
  {
    DeliveryIsSafe(Start(createdAt), steps);
    AttemptsStayTruthful(Start(createdAt), steps);
    CreationStays(Start(createdAt), steps);
  }

  lemma {:induction false} CreationStays(s: State, steps: seq<Step>)
    ensures Run(s, steps).createdAt == s.createdAt
    decreases |steps|
  {
    if steps != [] {
      CreationStays(Apply(s, steps[0]), steps[1..]);
    }
  }

  /**
   * In every state that is reached a new worker gets the event exactly when its next attempt is due, or when the
   * worker that holds it has held it for 30 seconds; it then holds the lease.
   */
  lemma ClaimExactly(s: State, token: Id, now: Time)
    requires Inv(s) && token !in s.workers
    ensures
      var s' := Apply(s, Claim(token, now));
      var due := s.row.status == Pending && ReadyAt(s, s.row.attemptCount) <= now;
      var lapsed := s.row.status == Processing && s.workers[s.row.leaseToken.value].now + 30_000_000 <= now;
      && (token in s'.workers <==> due || lapsed)
      && (if due || lapsed then s'.row.status == Processing && s'.row.leaseToken == Some(token) else s' == s)
  {
  }

  /** A delivered or exhausted event is never touched again, not even by workers that still hold an old copy. */
  lemma {:induction false} EndIsFinal(s: State, steps: seq<Step>)
    requires Inv(s) && s.row.status in {Delivered, Exhausted}
    ensures Run(s, steps).row == s.row && Run(s, steps).attempts == s.attempts
    decreases |steps|
  {
    if steps != [] {
      var next := Apply(s, steps[0]);
      DeliveryIsSafe(s, [steps[0]]);
      assert Run(s, [steps[0]]) == Run(next, []);
      if steps[0].Finalize? && steps[0].token in s.workers { assert WorkerOk(s, steps[0].token); }
      assert next.row == s.row && next.attempts == s.attempts;
      EndIsFinal(next, steps[1..]);
    }
  }

  /** Of two workers that loaded the same attempt count, at most one records its attempt. */
  lemma OneWinner(s: State, a: Step, between: seq<Step>, b: Step)
    requires Inv(s) && a.Finalize? && b.Finalize? && a.token in s.workers && b.token in s.workers
    requires s.workers[a.token].loaded.Some? && s.workers[b.token].loaded.Some?
    requires s.workers[a.token].loaded.value.attemptCount == s.workers[b.token].loaded.value.attemptCount
    requires Apply(s, a) != s
    ensures Apply(Run(Apply(s, a), between), b) == Run(Apply(s, a), between)
  {
    FinalizeKeeps(s, a.token, a.outcome, a.response);
    var next := Apply(s, a);
    AttemptsStay(next, between, s.workers[a.token].loaded.value.attemptCount + 1, b.token);
  }

  lemma {:induction false} AttemptsStay(s: State, steps: seq<Step>, n: int, token: Id)
    requires n in s.attempts && token in s.workers && s.workers[token].loaded.Some?
    ensures n in Run(s, steps).attempts && Run(s, steps).attempts[n] == s.attempts[n]
    ensures token in Run(s, steps).workers && Run(s, steps).workers[token] == s.workers[token]
    decreases |steps|
  {
    if steps != [] {
      AttemptsStay(Apply(s, steps[0]), steps[1..], n, token);
    }
  }
}
