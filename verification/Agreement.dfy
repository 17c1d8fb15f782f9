/**
 * End to end: payments, their outbox, the merchant's projections and the settlement rows, from any interleaving of
 * payment transactions and deliveries to the verdict of the reconciliation report.
 */
module Agreement {
  import opened Wrappers
  import opened Domain
  import opened Tables
  import opened Ledger
  import opened Runs
  import opened Invariants
  import opened CoreRuns
  import opened Evidence
  import opened Clocks
  import opened Consumer
  import opened Reconciliation

  /** Settlement rows are positive, as their table demands. */
  predicate RowChecks(rows: seq<SettlementRow>) {
    forall r :: r in rows ==> r.amount > 0
  }

  /** One row for the positive expected amount in the payment's currency, none when nothing is expected. */
  predicate SettledExactly(t: Tables, rows: seq<SettlementRow>, cutoff: Time, id: Id)
    requires id in t.payments
  {
    var own, expected := RowsOf(rows, id), Expected(t, id, cutoff);
    if expected == 0 then own == []
    else |own| == 1 && own[0].amount == expected && own[0].currency == t.payments[id].currency
  }

  /** The event of the payment's current version has been delivered at least once. */
  ghost predicate CurrentDelivered(t: Tables, deliveries: seq<Event>, id: Id)
    requires id in t.payments
  {
    exists e :: e in deliveries && e.paymentId == id && e.version == t.payments[id].version
  }

  lemma {:induction false} RowsOfMembers(rows: seq<SettlementRow>, id: Id)
    ensures forall r :: r in RowsOf(rows, id) ==> r in rows && r.paymentId == id
  {
    if rows != [] {
      RowsOfMembers(rows[..|rows| - 1], id);
    }
  }

  lemma {:induction false} InsertLength(r: SettlementRow, rows: seq<SettlementRow>)
    ensures |Insert(r, rows)| == |rows| + 1
  {
    if rows != [] { InsertLength(r, rows[1..]); }
  }

  lemma {:induction false} ByLineLength(rows: seq<SettlementRow>)
    ensures |ByLine(rows)| == |rows|
    ensures |rows| == 1 ==> ByLine(rows) == rows
  {
    if rows != [] {
      ByLineLength(rows[1..]);
      InsertLength(rows[0], ByLine(rows[1..]));
    }
  }

  lemma SettlementMatchedExactly(t: Tables, rows: seq<SettlementRow>, cutoff: Time, id: Id)
    requires id in t.payments && RowChecks(rows)
    ensures
      var s := ClassifySettlement(Expected(t, id, cutoff), t.payments[id].currency, RowsOf(rows, id));
      s.classification == SettlementMatched <==> SettledExactly(t, rows, cutoff, id)
  {
    RowsOfMembers(rows, id);
    MatchedRows(Expected(t, id, cutoff), t.payments[id].currency, RowsOf(rows, id));
  }

  /** Matched means one row of the expected amount and currency, or none when nothing is expected. */
  lemma MatchedRows(expected: int, currency: Currency, own: seq<SettlementRow>)
    requires forall r :: r in own ==> r.amount > 0
    ensures ClassifySettlement(expected, currency, own).classification == SettlementMatched <==>
            if expected == 0 then own == []
            else |own| == 1 && own[0].amount == expected && own[0].currency == currency
  {
    ByLineLength(own);
    if own != [] { assert own[0] in own; }
  }

  lemma LatestIsCurrent(t: Tables, id: Id)
    requires id in t.payments && PaymentOk(t, id)
    ensures EventsOf(t.outbox, id) != []
    ensures
      var e, p := Latest(EventsOf(t.outbox, id)), t.payments[id];
      e.snapshot == p && e.version == p.version && e.paymentId == id && e in t.outbox
  {
    var events := EventsOf(t.outbox, id);
    var e := Latest(events);
    var last := events[|events| - 1];
    EventsOfMembers(t.outbox, id, e);
    assert last in events;
    var i :| 0 <= i < |events| && events[i] == e;
    assert EventFits(events[i], i + 1, id) && EventFits(last, |events|, id);
  }

  /** The newest event is in the inbox exactly when it was delivered, and the projection then shows the payment. */
  lemma ProjectionShowsCurrent(t: Tables, m: Merchant, deliveries: seq<Event>, id: Id, e: Event)
    requires CoreInv(t) && id in t.payments && Converged(m, deliveries)
    requires forall f :: f in deliveries ==> f in t.outbox
    requires e in t.outbox && e.paymentId == id && e.version == t.payments[id].version
    requires forall f :: f in EventsOf(t.outbox, id) ==> f.version <= e.version
    ensures e.id in m.inbox <==> CurrentDelivered(t, deliveries, id)
    ensures e.id in m.inbox ==> id in m.projections && m.projections[id] == Project(e.snapshot, e.id)
  {
    if e.id in m.inbox {
      ProducerEventsDiffer(t, e, m.inbox[e.id].event);
      assert e in deliveries;
      assert Shows(m, deliveries, id);
      var g :| Newest(deliveries, g) && g.paymentId == id && m.projections[id] == Project(g.snapshot, g.id);
      EventsOfMembers(t.outbox, id, g);
      ProducerEventsDiffer(t, e, g);
    }
    if CurrentDelivered(t, deliveries, id) {
      var f :| f in deliveries && f.paymentId == id && f.version == t.payments[id].version;
      ProducerEventsDiffer(t, e, f);
    }
  }

  /** The ledger always agrees; the projection agrees exactly when the current version has been delivered. */
  lemma SourcesAgree(t: Tables, m: Merchant, deliveries: seq<Event>, rows: seq<SettlementRow>, cutoff: Time, id: Id)
    requires CoreInv(t) && id in t.payments && Converged(m, deliveries)
    requires forall e :: e in deliveries ==> e in t.outbox
    ensures EventsOf(t.outbox, id) != []
    ensures
      var item := ItemOf(t, m, rows, cutoff, id);
      && item.ledgerStatus == SourceMatched
      && (item.projectionStatus == SourceMatched <==> CurrentDelivered(t, deliveries, id))
  {
    assert PaymentOk(t, id);
    LatestIsCurrent(t, id);
    ProjectionAgrees(t, m, deliveries, id);
  }

  lemma ProjectionAgrees(t: Tables, m: Merchant, deliveries: seq<Event>, id: Id)
    requires CoreInv(t) && id in t.payments && Converged(m, deliveries) && EventsOf(t.outbox, id) != []
    requires forall e :: e in deliveries ==> e in t.outbox
    ensures
      var e := Latest(EventsOf(t.outbox, id));
      var j := if id in m.projections then Some(m.projections[id]) else None;
      ProjectionStatus(t.payments[id], j, e, e.id in m.inbox) == SourceMatched <==> CurrentDelivered(t, deliveries, id)
  {
    assert PaymentOk(t, id);
    LatestIsCurrent(t, id);
    ProjectionShowsCurrent(t, m, deliveries, id, Latest(EventsOf(t.outbox, id)));
  }

  /** Settlement and merchant both agree with the payment. */
  ghost predicate Agrees(t: Tables, deliveries: seq<Event>, rows: seq<SettlementRow>, cutoff: Time, id: Id)
    requires id in t.payments
  {
    SettledExactly(t, rows, cutoff, id) && CurrentDelivered(t, deliveries, id)
  }

  ghost predicate AllAgree(t: Tables, deliveries: seq<Event>, rows: seq<SettlementRow>, cutoff: Time) {
    forall id {:trigger Agrees(t, deliveries, rows, cutoff, id)} ::
      id in t.payments && t.payments[id].createdAt <= cutoff ==> Agrees(t, deliveries, rows, cutoff, id)
  }

  lemma ListedAgrees(
    t: Tables, m: Merchant, deliveries: seq<Event>, rows: seq<SettlementRow>, cutoff: Time, item: Item, id: Id)
    requires CoreInv(t) && Converged(m, deliveries) && RowChecks(rows)
    requires forall e :: e in deliveries ==> e in t.outbox
    requires Lists(item, t, m, rows, cutoff, id)
    ensures item.ledgerStatus == SourceMatched
    ensures ItemMatched(item) <==> Agrees(t, deliveries, rows, cutoff, id)
  {
    SourcesAgree(t, m, deliveries, rows, cutoff, id);
    SettlementMatchedExactly(t, rows, cutoff, id);
  }

  /** A report exists in every reachable state, and it says matched exactly when everything really agrees. */
  lemma MatchedExactly(
    t: Tables, m: Merchant, deliveries: seq<Event>, rows: seq<SettlementRow>, cutoff: Time, r: Report)
    requires CoreInv(t) && Converged(m, deliveries) && RowChecks(rows)
    requires forall e :: e in deliveries ==> e in t.outbox
    requires Describes(r, t, m, rows, cutoff)
    ensures r.matched <==> AllAgree(t, deliveries, rows, cutoff)
    ensures r.ledgerMismatchCount == 0
  {
    var ids := Covered(t, cutoff);
    forall i | 0 <= i < |ids|
      ensures Lists(r.items[i], t, m, rows, cutoff, ids[i]) && r.items[i].ledgerStatus == SourceMatched
      ensures ItemMatched(r.items[i]) <==> Agrees(t, deliveries, rows, cutoff, ids[i])
    {
      ListedAgrees(t, m, deliveries, rows, cutoff, r.items[i], ids[i]);
    }
    LedgerCountZero(r.items);
    CoveredMembers(t, cutoff);
    EachCovered(t, m, deliveries, rows, cutoff, r.items, ids);
  }

  lemma EachCovered(
    t: Tables, m: Merchant, deliveries: seq<Event>, rows: seq<SettlementRow>, cutoff: Time, items: seq<Item>,
    ids: seq<Id>)
    requires |items| == |ids| && forall id :: id in ids <==> id in t.payments && t.payments[id].createdAt <= cutoff
    requires forall i :: 0 <= i < |ids| ==>
               ids[i] in t.payments && (ItemMatched(items[i]) <==> Agrees(t, deliveries, rows, cutoff, ids[i]))
    ensures (forall item :: item in items ==> ItemMatched(item)) <==> AllAgree(t, deliveries, rows, cutoff)
  {
    if forall item :: item in items ==> ItemMatched(item) {
      forall id | id in t.payments && t.payments[id].createdAt <= cutoff
        ensures Agrees(t, deliveries, rows, cutoff, id)
      {
        var i :| 0 <= i < |ids| && ids[i] == id;
        assert items[i] in items;
      }
    }
    if AllAgree(t, deliveries, rows, cutoff) {
      forall item | item in items
        ensures ItemMatched(item)
      {
        var i :| 0 <= i < |items| && items[i] == item;
        assert ids[i] in ids && Agrees(t, deliveries, rows, cutoff, ids[i]);
      }
    }
  }

  lemma {:induction false} LedgerCountZero(items: seq<Item>)
    requires forall i :: 0 <= i < |items| ==> items[i].ledgerStatus == SourceMatched
    ensures CountLedger(items) == 0
  {
    if items != [] { LedgerCountZero(items[..|items| - 1]); }
  }

  /** What a matched settlement says of the amounts. */
  predicate Balanced(item: Item) {
    var s := item.settlement;
    if s.currencies == [] then item.expected == 0 && s.canonical == 0
    else s.currencies[0] == item.currency && s.canonical == item.expected
  }

  lemma MatchedIsBalanced(t: Tables, m: Merchant, rows: seq<SettlementRow>, cutoff: Time, id: Id)
    requires id in t.payments && EventsOf(t.outbox, id) != []
    requires ItemMatched(ItemOf(t, m, rows, cutoff, id))
    ensures Balanced(ItemOf(t, m, rows, cutoff, id))
  {
  }

  lemma {:induction false} BalancedSums(items: seq<Item>, c: Currency)
    requires forall i :: 0 <= i < |items| ==> Balanced(items[i])
    ensures SumExpected(items, c) == SumObserved(items, c)
  {
    if items != [] { BalancedSums(items[..|items| - 1], c); }
  }

  /** A matched report has no discrepancy in any currency, whatever the state it was computed from. */
  lemma MatchedHasNoDiscrepancy(t: Tables, m: Merchant, rows: seq<SettlementRow>, cutoff: Time, r: Report)
    requires Describes(r, t, m, rows, cutoff) && r.matched
    ensures forall c :: c in r.totals ==> r.totals[c].Discrepancy() == 0
  {
    forall i | 0 <= i < |r.items|
      ensures Balanced(r.items[i])
    {
      assert r.items[i] in r.items && Lists(r.items[i], t, m, rows, cutoff, Covered(t, cutoff)[i]);
      MatchedIsBalanced(t, m, rows, cutoff, Covered(t, cutoff)[i]);
    }
    forall c | c in r.totals
      ensures r.totals[c].Discrepancy() == 0
    {
      BalancedSums(r.items, c);
    }
  }

  // ----- whole runs -------------------------------------------------------------------------------------------

  /** Payment transactions and deliveries of stored events, interleaved. */
  datatype WorldStep = Pay(step: Step) | Deliver(event: Event)

  datatype World = World(tables: Tables, merchant: Merchant, deliveries: seq<Event>)

  ghost function Move(w: World, s: WorldStep): World {
    match s
    case Pay(step) => w.(tables := Apply(w.tables, step))
    case Deliver(e) =>
      w.(merchant := Consume(w.merchant, e, false).merchant, deliveries := w.deliveries + [e])
  }

  ghost predicate HonestMove(w: World, s: WorldStep) {
    match s
    case Pay(step) => Honest(w.tables, step)
    case Deliver(e) => e in w.tables.outbox
  }

  ghost function MoveAll(w: World, steps: seq<WorldStep>): World
    decreases |steps|
  {
    if steps == [] then w else MoveAll(Move(w, steps[0]), steps[1..])
  }

  ghost predicate HonestMoves(w: World, steps: seq<WorldStep>)
    decreases |steps|
  {
    steps == [] || (HonestMove(w, steps[0]) && HonestMoves(Move(w, steps[0]), steps[1..]))
  }

  /** The outbox only ever grows at its end. */
  lemma OutboxGrows(t: Tables, s: Step)
    requires CoreInv(t) && Honest(t, s)
    ensures t.outbox <= Apply(t, s).outbox
  {
    match s
    case AcceptStep(_, _) =>
    case CompleteStep(id) =>
      if id in t.receipts && id !in t.confirmations {
        var k, staged, q, entries, eventType := CompletionCommit(t, id);
      }
    case SweepStep(now, limit) => var ids := SweepCommit(t, now, limit);
    case _ =>
      if Apply(t, s) != t {
        var q, entries, eventType := RequestCommit(t, s);
      }
  }

  ghost predicate WorldInv(w: World) {
    && CoreInv(w.tables)
    && Converged(w.merchant, w.deliveries)
    && forall e :: e in w.deliveries ==> e in w.tables.outbox
  }

  lemma MoveConverges(w: World, s: WorldStep)
    requires WorldInv(w) && HonestMove(w, s)
    ensures WorldInv(Move(w, s)) && w.tables.outbox <= Move(w, s).tables.outbox
  {
    match s
    case Pay(step) =>
      StepKeepsCore(w.tables, step);
      OutboxGrows(w.tables, step);
    case Deliver(e) =>
      DeliveryConverges(w.tables, w.merchant, w.deliveries, e);
  }

  lemma {:induction false} WorldsConverge(w: World, steps: seq<WorldStep>)
    requires WorldInv(w) && HonestMoves(w, steps)
    ensures WorldInv(MoveAll(w, steps))
    decreases |steps|
  {
    if steps != [] {
      MoveConverges(w, steps[0]);
      WorldsConverge(Move(w, steps[0]), steps[1..]);
    }
  }

  /**
   * From an empty store, after any interleaving of transactions, retries, stale writers, sweeps, recoveries and
   * deliveries in any order with any repeats: the report on any batch and cutoff is matched exactly when every
   * covered payment is settled exactly and its current version has been delivered, and then no currency
   * shows a discrepancy.
   */
  lemma EndToEndAgreement(steps: seq<WorldStep>, rows: seq<SettlementRow>, cutoff: Time, r: Report)
    requires HonestMoves(World(EMPTY, NO_MERCHANT_DATA, []), steps) && RowChecks(rows)
    requires
      var w := MoveAll(World(EMPTY, NO_MERCHANT_DATA, []), steps);
      Describes(r, w.tables, w.merchant, rows, cutoff)
    ensures
      var w := MoveAll(World(EMPTY, NO_MERCHANT_DATA, []), steps);
      r.matched <==> AllAgree(w.tables, w.deliveries, rows, cutoff)
    ensures r.matched ==> forall c :: c in r.totals ==> r.totals[c].Discrepancy() == 0
    ensures r.ledgerMismatchCount == 0
  {
    WorldsConverge(World(EMPTY, NO_MERCHANT_DATA, []), steps);
    AgreementIn(MoveAll(World(EMPTY, NO_MERCHANT_DATA, []), steps), rows, cutoff, r);
  }

  lemma AgreementIn(w: World, rows: seq<SettlementRow>, cutoff: Time, r: Report)
    requires WorldInv(w) && RowChecks(rows) && Describes(r, w.tables, w.merchant, rows, cutoff)
    ensures r.matched <==> AllAgree(w.tables, w.deliveries, rows, cutoff)
    ensures r.matched ==> forall c :: c in r.totals ==> r.totals[c].Discrepancy() == 0
    ensures r.ledgerMismatchCount == 0
  {
    MatchedExactly(w.tables, w.merchant, w.deliveries, rows, cutoff, r);
    if r.matched {
      MatchedHasNoDiscrepancy(w.tables, w.merchant, rows, cutoff, r);
    }
  }

  /** The report never fails for want of an event. */
  lemma ReportNeverFails(steps: seq<WorldStep>, cutoff: Time, id: Id)
    requires HonestMoves(World(EMPTY, NO_MERCHANT_DATA, []), steps)
    requires id in Covered(MoveAll(World(EMPTY, NO_MERCHANT_DATA, []), steps).tables, cutoff)
    ensures EventsOf(MoveAll(World(EMPTY, NO_MERCHANT_DATA, []), steps).tables.outbox, id) != []
  {
    var start := World(EMPTY, NO_MERCHANT_DATA, []);
    WorldsConverge(start, steps);
    var w := MoveAll(start, steps);
    CoveredMembers(w.tables, cutoff);
    assert PaymentOk(w.tables, id);
  }

  /** Clamping at zero changes nothing for a payment whose entries are in time order, whatever the clocks did. */
  lemma ExpectedIsNet(steps: seq<Step>, id: Id, cutoff: Time)
    requires HonestRun(EMPTY, steps) && id in Run(EMPTY, steps).payments
    requires InTimeOrder(EntriesOf(Run(EMPTY, steps).ledger, id))
    ensures
      var totals := Totals(UpTo(EntriesOf(Run(EMPTY, steps).ledger, id), cutoff));
      Expected(Run(EMPTY, steps), id, cutoff) == totals.NetCaptured()
  {
    OrderedLedgerIsSane(steps, id, cutoff);
  }

  /** Under a clock that never goes back it changes nothing for any payment. */
  lemma ExpectedIsNetOnClock(start: Time, steps: seq<Step>, id: Id, cutoff: Time)
    requires ClockedRun(EMPTY, start, steps) && id in Run(EMPTY, steps).payments
    ensures
      var totals := Totals(UpTo(EntriesOf(Run(EMPTY, steps).ledger, id), cutoff));
      Expected(Run(EMPTY, steps), id, cutoff) == totals.NetCaptured()
  {
    EveryCutoffIsSane(start, steps, id, cutoff);
  }
}
