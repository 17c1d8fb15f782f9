/** The merchant's consumer: an inbox that remembers every event and a versioned projection of each payment. */
module Consumer {
  import opened Wrappers
  import opened Domain
  import opened Tables
  import opened Invariants

  datatype Projection = Projection(
    merchantReference: Id,
    amount: int,
    currency: Currency,
    status: PaymentStatus,
    flow: PaymentFlow,
    reference: Option<Id>,
    expiresAt: Option<Time>,
    declineReason: Option<DeclineReason>,
    authorized: int,
    captured: int,
    refunded: int,
    version: int,
    lastEventId: Id,
    updatedAt: Time)

  datatype ConsumerDisposition = AppliedEvent | StaleEvent | RedundantEvent

  /** The stored event stands for the digest of its payload. */
  datatype InboxRow = InboxRow(event: Event, disposition: ConsumerDisposition, versionGap: bool)

  datatype Merchant = Merchant(inbox: map<Id, InboxRow>, projections: map<Id, Projection>)

  const NO_MERCHANT_DATA: Merchant := Merchant(map[], map[])

  datatype ConsumerOutcome = FirstTime(disposition: ConsumerDisposition, versionGap: bool) | Duplicate(versionGap: bool)

  datatype ConsumerError = InvalidPayload | EventCollision | VersionConflict | SimulatedPersistence

  datatype Consumption = Consumption(merchant: Merchant, result: Result<ConsumerOutcome, ConsumerError>)

  /** The checks on a decoded webhook body. */
  predicate ParseOk(e: Event) {
    var p := e.snapshot;
    && p.amount > 0 && p.authorized <= p.amount
    && e.version >= 1 && p.version == e.version
    && (p.status.Declined? <==> p.declineReason.Some?)
    && (p.flow.Synchronous? ==> p.reference.None? && p.expiresAt.None?)
    && (p.flow.AsynchronousConfirmation? ==> p.reference.Some? && p.expiresAt.Some?)
    && (p.status.AwaitingPayment? ==>
          p.flow.AsynchronousConfirmation? && p.authorized == 0 && p.captured == 0 && p.refunded == 0)
    && (e.eventType.ConfirmationRequestedEvent? ==> p.status.AwaitingPayment?)
    && StateOf(p).Valid()
  }

  function Project(p: Payment, eventId: Id): Projection {
    Projection(p.merchantReference, p.amount, p.currency, p.status, p.flow, p.reference, p.expiresAt,
               p.declineReason, p.authorized, p.captured, p.refunded, p.version, eventId, p.updatedAt)
  }

  predicate Matches(j: Projection, p: Payment) {
    && j.merchantReference == p.merchantReference
    && j.amount == p.amount
    && j.currency == p.currency
    && j.status == p.status
    && j.flow == p.flow
    && j.reference == p.reference
    && j.expiresAt == p.expiresAt
    && j.declineReason == p.declineReason
    && j.authorized == p.authorized
    && j.captured == p.captured
    && j.refunded == p.refunded
    && j.version == p.version
  }

  /** One delivery, taken as one atomic step: the projection row carries no version check of its own. */
  function Consume(m: Merchant, e: Event, failAfterInbox: bool): Consumption {
    if !ParseOk(e) then Consumption(m, Err(InvalidPayload))
    else if e.id in m.inbox then
      Consumption(m, if m.inbox[e.id].event != e then Err(EventCollision)
                     else Ok(Duplicate(m.inbox[e.id].versionGap)))
    else
      var id := e.snapshot.id;
      if id !in m.projections then
        Store(m, e, true, AppliedEvent, e.version > 1, failAfterInbox)
      else
        var current := m.projections[id].version;
        if e.version > current then Store(m, e, true, AppliedEvent, e.version > current + 1, failAfterInbox)
        else if e.version < current then Store(m, e, false, StaleEvent, false, failAfterInbox)
        else if Matches(m.projections[id], e.snapshot) then Store(m, e, false, RedundantEvent, false, failAfterInbox)
        else Consumption(m, Err(VersionConflict))
  }

  function Store(
    m: Merchant, e: Event, project: bool, disposition: ConsumerDisposition, versionGap: bool, failAfterInbox: bool)
    : Consumption
  {
    if failAfterInbox then Consumption(m, Err(SimulatedPersistence))
    else
      Consumption(
        Merchant(
          m.inbox[e.id := InboxRow(e, disposition, versionGap)],
          if project then m.projections[e.snapshot.id := Project(e.snapshot, e.id)] else m.projections),
        Ok(FirstTime(disposition, versionGap)))
  }

  class MerchantStore {
    var inbox: map<Id, InboxRow>
    var projections: map<Id, Projection>

    function View(): Merchant
      reads this
    {
      Merchant(inbox, projections)
    }

    constructor ()
      ensures View() == NO_MERCHANT_DATA
    {
      inbox, projections := map[], map[];
    }

    /** Overwrites the stored projection field by field. */
    method ApplyProjection(e: Event)
      requires e.snapshot.id in projections
      modifies this`projections
      ensures projections == old(projections)[e.snapshot.id := Project(e.snapshot, e.id)]
    {
      var p := e.snapshot;
      var j := projections[p.id];
      j := j.(merchantReference := p.merchantReference);
      j := j.(amount := p.amount, currency := p.currency);
      j := j.(status := p.status, flow := p.flow);
      j := j.(reference := p.reference, expiresAt := p.expiresAt, declineReason := p.declineReason);
      j := j.(authorized := p.authorized, captured := p.captured, refunded := p.refunded);
      j := j.(version := p.version, lastEventId := e.id, updatedAt := p.updatedAt);
      projections := projections[p.id := j];
    }

    method ConsumeWebhook(e: Event, failAfterInbox: bool) returns (result: Result<ConsumerOutcome, ConsumerError>)
      modifies this
      ensures Consumption(View(), result) == Consume(old(View()), e, failAfterInbox)
    {
      if !ParseOk(e) {
        return Err(InvalidPayload);
      }
      if e.id in inbox {
        var existing := inbox[e.id];
        if existing.event != e {
          return Err(EventCollision);
        }
        return Ok(Duplicate(existing.versionGap));
      }
      var before := projections;
      var id, versionGap, disposition := e.snapshot.id, false, StaleEvent;
      if id !in projections {
        versionGap := e.version > 1;
        projections := projections[id := Project(e.snapshot, e.id)];
        disposition := AppliedEvent;
      } else if e.version > projections[id].version {
        versionGap := e.version > projections[id].version + 1;
        ApplyProjection(e);
        disposition := AppliedEvent;
      } else if e.version < projections[id].version {
        disposition := StaleEvent;
      } else if Matches(projections[id], e.snapshot) {
        disposition := RedundantEvent;
      } else {
        return Err(VersionConflict);
      }
      if failAfterInbox {
        projections := before;
        return Err(SimulatedPersistence);
      }
      inbox := inbox[e.id := InboxRow(e, disposition, versionGap)];
      return Ok(FirstTime(disposition, versionGap));
    }
  }

  // ----- what a delivery is answered --------------------------------------------------------------------------

  /** The body is accepted exactly when its payment fits the stored form and its type and version fit the payment. */
  lemma ParsedExactly(e: Event)
    ensures
      var p := e.snapshot;
      ParseOk(e) <==>
        && PaymentChecks(p)
        && e.version == p.version
        && (p.status == AwaitingPayment ==> p.flow == AsynchronousConfirmation && p.authorized == 0)
        && (e.eventType == ConfirmationRequestedEvent ==> p.status == AwaitingPayment)
  {
  }

  /** The projection carries the payment field by field, and says which event it came from. */
  lemma ProjectionCarries(p: Payment, eventId: Id)
    ensures
      var j := Project(p, eventId);
      && j.merchantReference == p.merchantReference && j.amount == p.amount && j.currency == p.currency
      && j.status == p.status && j.flow == p.flow && j.reference == p.reference && j.expiresAt == p.expiresAt
      && j.declineReason == p.declineReason && j.authorized == p.authorized && j.captured == p.captured
      && j.refunded == p.refunded && j.version == p.version && j.updatedAt == p.updatedAt && j.lastEventId == eventId
  {
  }

  /** Same content, whichever event it came from and whenever it was written. */
  predicate SameContent(j: Projection, p: Payment) {
    j == Project(p, j.lastEventId).(updatedAt := j.updatedAt)
  }

  /** The version the merchant shows, or zero if it shows nothing yet. */
  function CurrentVersion(m: Merchant, id: Id): int {
    if id in m.projections then m.projections[id].version else 0
  }

  /**
   * What a delivery is answered. An event in the inbox is a duplicate if it is the same and a collision if not; a new
   * one is applied when it is newer than what is shown, stale when older, redundant when it shows the same, and a
   * conflict when it shows something else under the same version. A gap is a jump of more than one version.
   */
  lemma ConsumedExactly(m: Merchant, e: Event)
    ensures
      var result, id := Consume(m, e, false).result, e.snapshot.id;
      var unseen := ParseOk(e) && e.id !in m.inbox;
      && (result == Err(InvalidPayload) <==> !ParseOk(e))
      && (result == Err(EventCollision) <==> ParseOk(e) && e.id in m.inbox && m.inbox[e.id].event != e)
      && (result.Ok? && result.value.Duplicate? <==> ParseOk(e) && e.id in m.inbox && m.inbox[e.id].event == e)
      && (result == Ok(FirstTime(AppliedEvent, e.version > CurrentVersion(m, id) + 1)) <==>
            unseen && (id !in m.projections || e.version > CurrentVersion(m, id)))
      && (result == Ok(FirstTime(StaleEvent, false)) <==>
            unseen && id in m.projections && e.version < CurrentVersion(m, id))
      && (result == Ok(FirstTime(RedundantEvent, false)) <==>
            unseen && id in m.projections && e.version == CurrentVersion(m, id)
            && SameContent(m.projections[id], e.snapshot))
      && (result == Err(VersionConflict) <==>
            unseen && id in m.projections && e.version == CurrentVersion(m, id)
            && !SameContent(m.projections[id], e.snapshot))
  {
  }

  /** What a delivery stores: its inbox row, the projection of an applied event, and nothing for anything else. */
  lemma StoredExactly(m: Merchant, e: Event, failAfterInbox: bool)
    ensures
      var plain, c := Consume(m, e, false), Consume(m, e, failAfterInbox);
      var first := plain.result.Ok? && plain.result.value.FirstTime?;
      && (first && !failAfterInbox ==>
            var told := plain.result.value;
            && c.merchant.inbox == m.inbox[e.id := InboxRow(e, told.disposition, told.versionGap)]
            && c.merchant.projections ==
               (if told.disposition == AppliedEvent then m.projections[e.snapshot.id := Project(e.snapshot, e.id)]
                else m.projections))
      && (first && failAfterInbox <==> c == Consumption(m, Err(SimulatedPersistence)))
      && (!first ==> c == plain && c.merchant == m)
      && (plain.result.Ok? && plain.result.value.Duplicate? ==>
            plain.result.value.versionGap == m.inbox[e.id].versionGap)
  {
  }

  // ----- convergence ------------------------------------------------------------------------------------------

  /** Deliveries in the order they arrive; one that raises changes nothing. */
  function ConsumeAll(m: Merchant, deliveries: seq<Event>): Merchant
  {
    if deliveries == [] then m
    else
      var n := |deliveries| - 1;
      Consume(ConsumeAll(m, deliveries[..n]), deliveries[n], false).merchant
  }

  /** Every producer event passes the consumer's checks. */
  lemma ProducerEventsParse(t: Tables, e: Event)
    requires CoreInv(t) && e in t.outbox
    ensures ParseOk(e) && e.snapshot.id == e.paymentId && e.paymentId in t.payments
  {
    var id := e.paymentId;
    var events := EventsOf(t.outbox, id);
    assert PaymentOk(t, id);
    EventsOfMembers(t.outbox, id, e);
    var i :| 0 <= i < |events| && events[i] == e;
    assert EventFits(events[i], i + 1, id);
  }

  /** Two producer events with the same identifier, or of the same version of a payment, are the same event. */
  lemma ProducerEventsDiffer(t: Tables, e: Event, f: Event)
    requires CoreInv(t) && e in t.outbox && f in t.outbox
    requires e.id == f.id || (e.paymentId == f.paymentId && e.version == f.version)
    ensures e == f
  {
    if e.id != f.id {
      var id := e.paymentId;
      var events := EventsOf(t.outbox, id);
      assert PaymentOk(t, id);
      EventsOfMembers(t.outbox, id, e);
      EventsOfMembers(t.outbox, id, f);
    }
  }

  /** The event is the newest of its payment among those delivered. */
  ghost predicate Newest(deliveries: seq<Event>, e: Event) {
    e in deliveries && forall f :: f in deliveries && f.paymentId == e.paymentId ==> f.version <= e.version
  }

  ghost predicate Shows(m: Merchant, deliveries: seq<Event>, id: Id)
    requires id in m.projections
  {
    exists e :: Newest(deliveries, e) && e.paymentId == id && m.projections[id] == Project(e.snapshot, e.id)
  }

  /** The merchant's data is a function of the set of delivered events. */
  ghost predicate Converged(m: Merchant, deliveries: seq<Event>) {
    && (forall k :: k in m.inbox ==> m.inbox[k].event in deliveries && m.inbox[k].event.id == k)
    && (forall e :: e in deliveries ==> e.id in m.inbox && m.inbox[e.id].event == e && e.paymentId in m.projections)
    && (forall id {:trigger Shows(m, deliveries, id)} :: id in m.projections ==> Shows(m, deliveries, id))
  }

  lemma RepeatConverges(m: Merchant, deliveries: seq<Event>, e: Event)
    requires Converged(m, deliveries) && e in deliveries
    ensures Converged(m, deliveries + [e])
  {
    var all := deliveries + [e];
    assert forall f :: f in all <==> f in deliveries;
    forall k | k in m.projections
      ensures Shows(m, all, k)
    {
      assert Shows(m, deliveries, k);
      var f :| Newest(deliveries, f) && f.paymentId == k && m.projections[k] == Project(f.snapshot, f.id);
      assert Newest(all, f);
    }
  }

  lemma FirstTimeConverges(m: Merchant, m': Merchant, deliveries: seq<Event>, e: Event, row: InboxRow)
    requires Converged(m, deliveries) && e.id !in m.inbox && row.event == e
    requires m'.inbox == m.inbox[e.id := row] && e.paymentId in m'.projections
    requires if m'.projections == m.projections
             then e.version <= m.projections[e.paymentId].version
             else m'.projections == m.projections[e.paymentId := Project(e.snapshot, e.id)]
                  && Newest(deliveries + [e], e)
    requires forall f :: f in deliveries ==> f.snapshot.version == f.version
    ensures Converged(m', deliveries + [e])
  {
    var all := deliveries + [e];
    forall k | k in m'.projections
      ensures Shows(m', all, k)
    {
      if k == e.paymentId && m'.projections != m.projections {
        assert Newest(all, e);
      } else {
        StillShows(m, m', deliveries, e, k);
      }
    }
  }

  /** An event that is not newer than what is shown leaves what is shown. */
  lemma StillShows(m: Merchant, m': Merchant, deliveries: seq<Event>, e: Event, k: Id)
    requires k in m.projections && Shows(m, deliveries, k)
    requires k in m'.projections && m'.projections[k] == m.projections[k]
    requires e.paymentId == k ==> e.version <= m.projections[k].version
    requires forall f :: f in deliveries ==> f.snapshot.version == f.version
    ensures Shows(m', deliveries + [e], k)
  {
    var f :| Newest(deliveries, f) && f.paymentId == k && m.projections[k] == Project(f.snapshot, f.id);
    assert Newest(deliveries + [e], f);
  }

  lemma DeliveryConverges(t: Tables, m: Merchant, deliveries: seq<Event>, e: Event)
    requires CoreInv(t) && (forall f :: f in deliveries ==> f in t.outbox) && e in t.outbox
    requires Converged(m, deliveries)
    ensures Consume(m, e, false).result.Ok?
    ensures Converged(Consume(m, e, false).merchant, deliveries + [e])
  {
    ProducerEventsParse(t, e);
    if e.id in m.inbox {
      ProducerEventsDiffer(t, e, m.inbox[e.id].event);
      RepeatConverges(m, deliveries, e);
    } else {
      forall f | f in deliveries
        ensures f.snapshot.version == f.version
      {
        ProducerEventsParse(t, f);
      }
      if e.paymentId in m.projections {
        NewEvent(t, m, deliveries, e);
      } else {
        assert Newest(deliveries + [e], e);
      }
      var m' := Consume(m, e, false).merchant;
      FirstTimeConverges(m, m', deliveries, e, m'.inbox[e.id]);
    }
  }

  lemma NewEvent(t: Tables, m: Merchant, deliveries: seq<Event>, e: Event)
    requires CoreInv(t) && (forall f :: f in deliveries ==> f in t.outbox) && e in t.outbox
    requires Converged(m, deliveries) && e.id !in m.inbox && e.paymentId in m.projections
    ensures m.projections[e.paymentId].version != e.version
    ensures m.projections[e.paymentId].version < e.version ==> Newest(deliveries + [e], e)
    ensures forall f :: f in deliveries && f.paymentId == e.paymentId ==>
              f.version <= m.projections[e.paymentId].version
  {
    var id := e.paymentId;
    assert Shows(m, deliveries, id);
    var f :| Newest(deliveries, f) && f.paymentId == id && m.projections[id] == Project(f.snapshot, f.id);
    ProducerEventsParse(t, f);
    if f.version == e.version {
      ProducerEventsDiffer(t, e, f);
    }
  }

  /**
   * Whatever finite sequence of producer events arrives, in any order and with any repeats, nothing ever raises,
   * each event has one inbox row with its own content, and each projection is the newest delivered version.
   */
  lemma {:induction false} DeliveriesConverge(t: Tables, deliveries: seq<Event>)
    requires CoreInv(t) && forall f :: f in deliveries ==> f in t.outbox
    ensures Converged(ConsumeAll(NO_MERCHANT_DATA, deliveries), deliveries)
  {
    if deliveries != [] {
      var n := |deliveries| - 1;
      assert deliveries == deliveries[..n] + [deliveries[n]];
      DeliveriesConverge(t, deliveries[..n]);
      DeliveryConverges(t, ConsumeAll(NO_MERCHANT_DATA, deliveries[..n]), deliveries[..n], deliveries[n]);
    }
  }

  /** Two delivery orders of the same events leave the same projections. */
  lemma SameProjections(t: Tables, a: seq<Event>, b: seq<Event>)
    requires CoreInv(t) && (forall f :: f in a ==> f in t.outbox) && forall f :: f in a <==> f in b
    ensures ConsumeAll(NO_MERCHANT_DATA, a).projections == ConsumeAll(NO_MERCHANT_DATA, b).projections
  {
    DeliveriesConverge(t, a);
    DeliveriesConverge(t, b);
    var m, n := ConsumeAll(NO_MERCHANT_DATA, a), ConsumeAll(NO_MERCHANT_DATA, b);
    forall id | id in m.projections || id in n.projections
      ensures id in m.projections && id in n.projections && m.projections[id] == n.projections[id]
    {
      if id in m.projections { OneNewest(t, m, n, a, b, id); } else { OneNewest(t, n, m, b, a, id); }
    }
  }

  lemma OneNewest(t: Tables, m: Merchant, n: Merchant, a: seq<Event>, b: seq<Event>, id: Id)
    requires CoreInv(t) && (forall f :: f in a ==> f in t.outbox) && forall f :: f in a <==> f in b
    requires Converged(m, a) && Converged(n, b) && id in m.projections
    ensures id in n.projections && n.projections[id] == m.projections[id]
  {
    assert Shows(m, a, id);
    var e :| Newest(a, e) && e.paymentId == id && m.projections[id] == Project(e.snapshot, e.id);
    assert e in b;
    assert Shows(n, b, id);
    var f :| Newest(b, f) && f.paymentId == id && n.projections[id] == Project(f.snapshot, f.id);
    ProducerEventsDiffer(t, e, f);
  }

  // ----- version gaps -----------------------------------------------------------------------------------------

  predicate AppliedRow(r: InboxRow, id: Id) {
    r.disposition == AppliedEvent && r.event.snapshot.id == id
  }

  ghost function AppliedVersions(m: Merchant, id: Id): set<int> {
    set k | k in m.inbox && AppliedRow(m.inbox[k], id) :: m.inbox[k].event.version
  }

  ghost predicate NoGap(m: Merchant, id: Id) {
    forall k :: k in m.inbox && AppliedRow(m.inbox[k], id) ==> !m.inbox[k].versionGap
  }

  ghost predicate ExactlyUpTo(versions: set<int>, n: int) {
    forall v :: v in versions <==> 1 <= v <= n
  }

  /** The applied versions end at the projection's, and none was flagged as a gap exactly when none is missing. */
  ghost predicate GapsTold(m: Merchant, id: Id) {
    && (forall v :: v in AppliedVersions(m, id) ==> 1 <= v <= CurrentVersion(m, id))
    && 0 <= CurrentVersion(m, id)
    && (NoGap(m, id) <==> ExactlyUpTo(AppliedVersions(m, id), CurrentVersion(m, id)))
  }

  /** Any delivery at all, from the producer or not, keeps the gap flags honest. */
  lemma DeliveryTellsGaps(m: Merchant, e: Event, id: Id)
    requires GapsTold(m, id)
    ensures GapsTold(Consume(m, e, false).merchant, id)
  {
    var m' := Consume(m, e, false).merchant;
    if m' != m {
      var row := m'.inbox[e.id];
      assert m'.inbox == m.inbox[e.id := row] && e.id !in m.inbox;
      RowAdded(m, m', e.id, row, id);
      if AppliedRow(row, id) {
        GapAdded(m, m', e.version, row.versionGap, id);
      }
    }
  }

  lemma RowAdded(m: Merchant, m': Merchant, key: Id, row: InboxRow, id: Id)
    requires key !in m.inbox && m'.inbox == m.inbox[key := row]
    ensures AppliedVersions(m', id) == AppliedVersions(m, id) + if AppliedRow(row, id) then {row.event.version} else {}
    ensures NoGap(m', id) <==> NoGap(m, id) && !(AppliedRow(row, id) && row.versionGap)
  {
    assert m'.inbox[key] == row;
    assert forall k :: k in m.inbox ==> k in m'.inbox && m'.inbox[k] == m.inbox[k];
    forall v | v in AppliedVersions(m, id)
      ensures v in AppliedVersions(m', id)
    {
      var k :| k in m.inbox && AppliedRow(m.inbox[k], id) && m.inbox[k].event.version == v;
      assert m'.inbox[k] == m.inbox[k];
    }
  }

  lemma GapAdded(m: Merchant, m': Merchant, v: int, gap: bool, id: Id)
    requires GapsTold(m, id) && v > CurrentVersion(m, id) && CurrentVersion(m', id) == v
    requires gap <==> v > CurrentVersion(m, id) + 1
    requires AppliedVersions(m', id) == AppliedVersions(m, id) + {v}
    requires NoGap(m', id) <==> NoGap(m, id) && !gap
    ensures GapsTold(m', id)
  {
    var c := CurrentVersion(m, id);
    var before, after := AppliedVersions(m, id), AppliedVersions(m', id);
    assert ExactlyUpTo(after, v) ==> ExactlyUpTo(before, v - 1);
    assert v - 1 in before || v == 1 || !ExactlyUpTo(before, v - 1);
  }

  /** If no applied row reports a gap, the applied versions are exactly 1 up to the projection's, and conversely. */
  lemma {:induction false} GapFlagsAreExact(deliveries: seq<Event>, id: Id)
    ensures GapsTold(ConsumeAll(NO_MERCHANT_DATA, deliveries), id)
  {
    if deliveries == [] {
      assert AppliedVersions(NO_MERCHANT_DATA, id) == {};
    } else {
      var n := |deliveries| - 1;
      GapFlagsAreExact(deliveries[..n], id);
      DeliveryTellsGaps(ConsumeAll(NO_MERCHANT_DATA, deliveries[..n]), deliveries[n], id);
    }
  }
}
