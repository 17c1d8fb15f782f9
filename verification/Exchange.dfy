/**
 * Leased delivery joined with consumption: payments are made, workers dispatch events, the receiver consumes them and
 * answers, and deliveries reach the merchant by other ways too, all interleaved.
 */
module Exchange {
  import opened Wrappers
  import opened Tables
  import opened Consumer
  import opened Reconciliation
  import opened Agreement
  import Delivery

  // ----- one dispatch from beginning to end -------------------------------------------------------------------

  datatype DeliveryFault = BeforeDelivery | AckLostAfterConsumer

  datatype DispatchError = NotReady | AlreadyRecorded | ConsumerRaised(error: ConsumerError)

  /** A receiver consumes the event and answers, answers without consuming it, or does not answer. */
  datatype Receiver = Consuming(status: int) | Refusing(status: int) | Slow | Disconnected

  /** What the merchant has after the event was sent, unless the fault comes first. */
  function Received(m: Merchant, e: Event, receiver: Receiver, fault: Option<DeliveryFault>): Consumption {
    if fault == Some(BeforeDelivery) || !receiver.Consuming? then Consumption(m, Ok(Duplicate(false)))
    else Consume(m, e, false)
  }

  /** What is recorded of the attempt when the receiver does not raise. */
  function Answer(receiver: Receiver, fault: Option<DeliveryFault>): (Delivery.AttemptOutcome, Option<int>) {
    if fault == Some(BeforeDelivery) || receiver.Slow? then (Delivery.TimedOut, None)
    else if receiver.Disconnected? then (Delivery.ConnectionFailed, None)
    else if fault == Some(AckLostAfterConsumer) then (Delivery.TimedOut, None)
    else if 200 <= receiver.status < 300 then (Delivery.Success, Some(receiver.status))
    else (Delivery.HttpError, Some(receiver.status))
  }

  /** What is recorded as a success is a status of 200 to 299, and nothing else is. */
  lemma AnswerIsTruthful(receiver: Receiver, fault: Option<DeliveryFault>)
    ensures var (outcome, response) := Answer(receiver, fault);
            && Delivery.Truthful(outcome, response)
            && (outcome == Delivery.Success <==> Delivery.Succeeded(response))
            && (outcome == Delivery.Success <==> Succeeds(receiver, fault))
            && (outcome == Delivery.ConnectionFailed <==> fault != Some(BeforeDelivery) && receiver.Disconnected?)
            && (outcome == Delivery.HttpError <==>
                  fault == None && (receiver.Consuming? || receiver.Refusing?)
                  && (receiver.status < 200 || receiver.status > 299))
            && (outcome in {Delivery.Success, Delivery.HttpError} ==> response == Some(receiver.status))
            && (outcome in {Delivery.TimedOut, Delivery.ConnectionFailed} ==> response == None)
  {
    assert fault.Some? ==> fault.value.BeforeDelivery? || fault.value.AckLostAfterConsumer?;
  }

  /** No fault, and an answer with a status of 200 to 299. */
  predicate Succeeds(receiver: Receiver, fault: Option<DeliveryFault>) {
    fault == None && (receiver.Consuming? || receiver.Refusing?) && 200 <= receiver.status <= 299
  }

  /** Sends the event to the receiver; a consumer that raises passes its error on. */
  method Send(e: Event, store: MerchantStore, receiver: Receiver, fault: Option<DeliveryFault>)
    returns (result: Result<(Delivery.AttemptOutcome, Option<int>), ConsumerError>)
    modifies store
    ensures store.View() == Received(old(store.View()), e, receiver, fault).merchant
    ensures
      match Received(old(store.View()), e, receiver, fault).result
      case Err(error) => result == Err(error)
      case Ok(_) => result == Ok(Answer(receiver, fault))
  {
    if fault == Some(BeforeDelivery) {
      return Ok((Delivery.TimedOut, None));
    }
    if receiver.Slow? {
      return Ok((Delivery.TimedOut, None));
    }
    if receiver.Disconnected? {
      return Ok((Delivery.ConnectionFailed, None));
    }
    if receiver.Consuming? {
      var consumed := store.ConsumeWebhook(e, false);
      if consumed.Err? {
        return Err(consumed.error);
      }
    }
    if fault == Some(AckLostAfterConsumer) {
      return Ok((Delivery.TimedOut, None));
    }
    if !(200 <= receiver.status < 300) {
      return Ok((Delivery.HttpError, Some(receiver.status)));
    }
    return Ok((Delivery.Success, Some(receiver.status)));
  }

  /**
   * Claims the event, has it sent, and records the attempt. A consumer that raises leaves the lease to run out;
   * a lost acknowledgement is recorded as a timeout although the event has been consumed.
   */
  method DispatchWebhook(
    row: Delivery.WebhookEvent, e: Event, store: MerchantStore, token: Id, now: Time, receiver: Receiver,
    fault: Option<DeliveryFault>)
    returns (result: Result<int, DispatchError>)
    modifies row, store
    ensures
      var before, claimed := old(row.row), Delivery.Claimed(old(row.row), token, now);
      var received, (outcome, response) := Received(old(store.View()), e, receiver, fault), Answer(receiver, fault);
      var n := before.attemptCount + 1;
      if !Delivery.Claimable(before, now) then
        result == Err(NotReady) && row.row == before && row.attempts == old(row.attempts)
        && store.View() == old(store.View())
      else if received.result.Err? then
        result == Err(ConsumerRaised(received.result.error)) && row.row == claimed
        && row.attempts == old(row.attempts) && store.View() == received.merchant
      else if n in old(row.attempts) then
        result == Err(AlreadyRecorded) && row.row == claimed
        && row.attempts == old(row.attempts) && store.View() == received.merchant
      else
        result == Ok(n) && row.row == Delivery.Finalized(claimed, now, response)
        && row.attempts == old(row.attempts)[n := Delivery.Attempt(outcome, response, now)]
        && store.View() == received.merchant
    ensures result.Ok? ==>
              && (row.row.status == Delivery.Delivered <==> Succeeds(receiver, fault))
              && (row.row.status == Delivery.Delivered <==> row.attempts[result.value].outcome == Delivery.Success)
              && (row.row.status == Delivery.Pending <==> !Succeeds(receiver, fault) && result.value < 3)
              && (row.row.status == Delivery.Exhausted <==> !Succeeds(receiver, fault) && result.value >= 3)
    ensures row.row.status == Delivery.Delivered && old(row.row).status != Delivery.Delivered && receiver.Consuming? ==>
              e.id in store.inbox && store.inbox[e.id].event == e
  {
    var ready := row.ClaimDelivery(token, now);
    if !ready {
      return Err(NotReady);
    }
    var loaded := row.row;
    var sent := Send(e, store, receiver, fault);
    if sent.Err? {
      return Err(ConsumerRaised(sent.error));
    }
    var (outcome, response) := sent.value;
    AnswerIsTruthful(receiver, fault);
    var recorded := row.FinalizeDelivery(loaded, token, now, outcome, response);
    if recorded.Err? {
      return Err(AlreadyRecorded);
    }
    return Ok(recorded.value);
  }

  // ----- everything interleaved -------------------------------------------------------------------------------

  /** Dispatches are kept for each event; the receiver's positive answers for each event and lease token. */
  datatype System = System(world: World, dispatches: map<Id, Delivery.State>, answered: set<(Id, Id)>)

  datatype SystemStep =
    | Outside(move: WorldStep)
    | Dispatch(event: Id, work: Delivery.Step)
    | Receive(event: Id, token: Id)

  /** The outbox row of an event as it is written with it. */
  function DispatchOf(s: System, id: Id): Delivery.State
    requires id < |s.world.tables.outbox|
  {
    if id in s.dispatches then s.dispatches[id] else Delivery.Start(s.world.tables.outbox[id].createdAt)
  }

  /** A worker that has loaded its event may send it. */
  predicate Sends(s: System, id: Id, token: Id) {
    && id < |s.world.tables.outbox|
    && token in DispatchOf(s, id).workers && DispatchOf(s, id).workers[token].loaded.Some?
  }

  /** The receiver answers 200 once its own transaction has been committed, and not at all if it raises. */
  ghost function Act(s: System, step: SystemStep): System {
    match step
    case Outside(w) => s.(world := Move(s.world, w))
    case Dispatch(id, d) =>
      if id >= |s.world.tables.outbox| then s
      else s.(dispatches := s.dispatches[id := Delivery.Apply(DispatchOf(s, id), d)])
    case Receive(id, token) =>
      if !Sends(s, id, token) then s
      else
        var e := s.world.tables.outbox[id];
        var received := s.(world := Move(s.world, Deliver(e)));
        if Consume(s.world.merchant, e, false).result.Ok? then received.(answered := s.answered + {(id, token)})
        else received
  }

  /** A worker records a success exactly for a status of 200 to 299, and only if the receiver gave it that answer. */
  ghost predicate HonestAct(s: System, step: SystemStep) {
    match step
    case Outside(w) => HonestMove(s.world, w)
    case Dispatch(id, d) =>
      d.Finalize? ==>
        Delivery.Truthful(d.outcome, d.response) && (d.outcome == Delivery.Success ==> (id, d.token) in s.answered)
    case Receive(_, _) => true
  }

  ghost function ActAll(s: System, steps: seq<SystemStep>): System
    decreases |steps|
  {
    if steps == [] then s else ActAll(Act(s, steps[0]), steps[1..])
  }

  ghost predicate HonestActs(s: System, steps: seq<SystemStep>)
    decreases |steps|
  {
    steps == [] || (HonestAct(s, steps[0]) && HonestActs(Act(s, steps[0]), steps[1..]))
  }

  const IDLE: System := System(World(EMPTY, NO_MERCHANT_DATA, []), map[], {})

  ghost predicate Reached(w: World, id: Id) {
    id < |w.tables.outbox| && w.tables.outbox[id] in w.deliveries
  }

  /** Dispatches are safe, and both a positive answer and a delivered row mean that the merchant has the event. */
  ghost predicate SystemInv(s: System) {
    && WorldInv(s.world)
    && (forall id {:trigger s.dispatches[id]} :: id in s.dispatches ==> DispatchOk(s, id))
    && (forall a :: a in s.answered ==> Reached(s.world, a.0))
  }

  ghost predicate DispatchOk(s: System, id: Id)
    requires id in s.dispatches
  {
    && id < |s.world.tables.outbox|
    && Delivery.Inv(s.dispatches[id]) && Delivery.TruthfulAttempts(s.dispatches[id])
    && (s.dispatches[id].row.status == Delivery.Delivered ==> Reached(s.world, id))
  }

  lemma ReachedStays(w: World, s: WorldStep, id: Id)
    requires WorldInv(w) && HonestMove(w, s) && Reached(w, id)
    ensures Reached(Move(w, s), id)
  {
    MoveConverges(w, s);
  }

  lemma WorldMoves(s: System, w: WorldStep)
    requires SystemInv(s) && HonestMove(s.world, w)
    ensures SystemInv(s.(world := Move(s.world, w)))
  {
    var s' := s.(world := Move(s.world, w));
    MoveConverges(s.world, w);
    forall id | id in s'.dispatches
      ensures DispatchOk(s', id)
    {
      assert DispatchOk(s, id);
      if Reached(s.world, id) { ReachedStays(s.world, w, id); }
    }
    forall a | a in s'.answered
      ensures Reached(s'.world, a.0)
    {
      ReachedStays(s.world, w, a.0);
    }
  }

  lemma DispatchMoves(s: System, id: Id, d: Delivery.Step)
    requires SystemInv(s) && HonestAct(s, Dispatch(id, d)) && id < |s.world.tables.outbox|
    ensures SystemInv(Act(s, Dispatch(id, d)))
  {
    var s' := Act(s, Dispatch(id, d));
    var before := DispatchOf(s, id);
    if id in s.dispatches { assert DispatchOk(s, id); }
    Delivery.DeliveryIsSafe(before, [d]);
    assert Delivery.Run(before, [d]) == Delivery.Run(Delivery.Apply(before, d), []);
    Delivery.AttemptsStayTruthful(before, [d]);
    DeliveredBySuccess(before, d);
    forall k | k in s'.dispatches
      ensures DispatchOk(s', k)
    {
      if k != id { assert DispatchOk(s, k); }
    }
  }

  /** Only recording a success makes a row delivered. */
  lemma DeliveredBySuccess(before: Delivery.State, d: Delivery.Step)
    ensures Delivery.Apply(before, d).row.status == Delivery.Delivered ==>
              || before.row.status == Delivery.Delivered
              || (d.Finalize? && d.response.Some? && 200 <= d.response.value <= 299)
  {
  }

  lemma ReceiveMoves(s: System, id: Id, token: Id)
    requires SystemInv(s) && Sends(s, id, token)
    ensures SystemInv(Act(s, Receive(id, token))) && (id, token) in Act(s, Receive(id, token)).answered
  {
    var e := s.world.tables.outbox[id];
    WorldMoves(s, Deliver(e));
    DeliveryConverges(s.world.tables, s.world.merchant, s.world.deliveries, e);
  }

  lemma ActKeeps(s: System, step: SystemStep)
    requires SystemInv(s) && HonestAct(s, step)
    ensures SystemInv(Act(s, step))
  {
    match step
    case Outside(w) => WorldMoves(s, w);
    case Dispatch(id, d) => if id < |s.world.tables.outbox| { DispatchMoves(s, id, d); }
    case Receive(id, token) => if Sends(s, id, token) { ReceiveMoves(s, id, token); }
  }

  lemma {:induction false} ActsKeep(s: System, steps: seq<SystemStep>)
    requires SystemInv(s) && HonestActs(s, steps)
    ensures SystemInv(ActAll(s, steps))
    decreases |steps|
  {
    if steps != [] {
      ActKeeps(s, steps[0]);
      ActsKeep(Act(s, steps[0]), steps[1..]);
    }
  }

  /**
   * In every interleaving a delivered outbox row means that the merchant's inbox holds that very event, that its
   * projection of the payment is at that version or later, and that the last attempt was a success.
   */
  lemma DeliveredMeansConsumed(steps: seq<SystemStep>, id: Id)
    requires HonestActs(IDLE, steps) && id in ActAll(IDLE, steps).dispatches
    requires ActAll(IDLE, steps).dispatches[id].row.status == Delivery.Delivered
    ensures
      var s := ActAll(IDLE, steps);
      var m, d := s.world.merchant, s.dispatches[id];
      && id < |s.world.tables.outbox|
      && var e := s.world.tables.outbox[id];
      && id in m.inbox && m.inbox[id].event == e
      && e.paymentId in m.projections && m.projections[e.paymentId].version >= e.version
      && d.row.attemptCount in d.attempts && d.attempts[d.row.attemptCount].outcome == Delivery.Success
      && d.attempts[d.row.attemptCount].response.Some? && 200 <= d.attempts[d.row.attemptCount].response.value <= 299
  {
    ActsKeep(IDLE, steps);
    var s := ActAll(IDLE, steps);
    assert DispatchOk(s, id);
    InboxHolds(s.world, id);
  }

  lemma InboxHolds(w: World, id: Id)
    requires WorldInv(w) && Reached(w, id)
    ensures
      var e := w.tables.outbox[id];
      && id in w.merchant.inbox && w.merchant.inbox[id].event == e
      && e.paymentId in w.merchant.projections && w.merchant.projections[e.paymentId].version >= e.version
  {
    var e, m := w.tables.outbox[id], w.merchant;
    assert e.id == id;
    assert Shows(m, w.deliveries, e.paymentId);
    var f :| Newest(w.deliveries, f) && f.paymentId == e.paymentId
             && m.projections[e.paymentId] == Project(f.snapshot, f.id);
    ProducerEventsParse(w.tables, f);
  }

  /** The payment's newest event has been delivered by a worker. */
  ghost predicate NewestDelivered(s: System, id: Id) {
    exists k :: NewestOf(s.world.tables, id, k) && k in s.dispatches && s.dispatches[k].row.status == Delivery.Delivered
  }

  /** Settled exactly, and its newest event delivered. */
  ghost predicate DeliveredAndSettled(s: System, rows: seq<SettlementRow>, cutoff: Time, id: Id)
    requires id in s.world.tables.payments
  {
    SettledExactly(s.world.tables, rows, cutoff, id) && NewestDelivered(s, id)
  }

  ghost predicate AllDeliveredAndSettled(s: System, rows: seq<SettlementRow>, cutoff: Time) {
    forall id {:trigger DeliveredAndSettled(s, rows, cutoff, id)} ::
      id in s.world.tables.payments && s.world.tables.payments[id].createdAt <= cutoff ==>
        DeliveredAndSettled(s, rows, cutoff, id)
  }

  ghost predicate NewestOf(t: Tables, id: Id, k: Id) {
    && id in t.payments && k < |t.outbox|
    && t.outbox[k].paymentId == id && t.outbox[k].version == t.payments[id].version
  }

  /**
   * In every interleaving: if every covered payment is settled exactly and the outbox row of its newest event is
   * delivered, the reconciliation report is matched and no currency shows a discrepancy.
   */
  lemma DeliveredAndSettledIsMatched(
    steps: seq<SystemStep>, rows: seq<SettlementRow>, cutoff: Time, r: Report)
    requires HonestActs(IDLE, steps) && RowChecks(rows)
    requires
      var w := ActAll(IDLE, steps).world;
      Describes(r, w.tables, w.merchant, rows, cutoff)
    requires AllDeliveredAndSettled(ActAll(IDLE, steps), rows, cutoff)
    ensures r.matched && forall c :: c in r.totals ==> r.totals[c].Discrepancy() == 0
  {
    ActsKeep(IDLE, steps);
    AllDelivered(ActAll(IDLE, steps), rows, cutoff);
    AgreementIn(ActAll(IDLE, steps).world, rows, cutoff, r);
  }

  lemma AllDelivered(s: System, rows: seq<SettlementRow>, cutoff: Time)
    requires SystemInv(s) && AllDeliveredAndSettled(s, rows, cutoff)
    ensures AllAgree(s.world.tables, s.world.deliveries, rows, cutoff)
  {
    forall id | id in s.world.tables.payments && s.world.tables.payments[id].createdAt <= cutoff
      ensures Agrees(s.world.tables, s.world.deliveries, rows, cutoff, id)
    {
      assert DeliveredAndSettled(s, rows, cutoff, id);
      var k :| NewestOf(s.world.tables, id, k) && k in s.dispatches
               && s.dispatches[k].row.status == Delivery.Delivered;
      assert DispatchOk(s, k);
    }
  }
}
