/** Read-only comparison of payments, ledger, settlement rows and the merchant's projections for one batch. */
module Reconciliation {
  import opened Wrappers
  import opened Domain
  import opened Tables
  import opened Ledger
  import opened Ordering
  import opened Consumer

  datatype SettlementRow = SettlementRow(paymentId: Id, lineNumber: int, amount: int, currency: Currency)

  datatype Classification = SettlementMatched | SettlementMissing | SettlementDuplicated | AmountMismatched

  datatype SourceStatus = SourceMatched | SourceMissing | SourceStale | SourceMismatched

  datatype Comparison = Comparison(
    classification: Classification, amounts: seq<int>, currencies: seq<Currency>, canonical: int)

  datatype Item = Item(
    paymentId: Id,
    merchantReference: Id,
    currency: Currency,
    expected: int,
    settlement: Comparison,
    ledgerStatus: SourceStatus,
    balances: LedgerTotals,
    ledger: LedgerTotals,
    projectionStatus: SourceStatus,
    expectedVersion: int,
    observedVersion: Option<int>,
    latestProcessed: bool)

  datatype CurrencyTotal = CurrencyTotal(expected: int, observed: int)
  {
    function Discrepancy(): int {
      observed - expected
    }
  }

  datatype Report = Report(
    cutoff: Time,
    items: seq<Item>,
    matched: bool,
    totals: map<Currency, CurrencyTotal>,
    matchedCount: nat,
    missingCount: nat,
    duplicatedCount: nat,
    amountMismatchedCount: nat,
    ledgerMismatchCount: nat,
    projectionMismatchCount: nat)

  /** An imported settlement file. */
  datatype Batch = Batch(cutoff: Time, rows: seq<SettlementRow>)

  datatype ReportError = SettlementBatchNotFound | NoEvent(paymentId: Id)

  // ----- one payment ------------------------------------------------------------------------------------------

  function Insert(r: SettlementRow, rows: seq<SettlementRow>): seq<SettlementRow> {
    if rows == [] || r.lineNumber <= rows[0].lineNumber then [r] + rows
    else [rows[0]] + Insert(r, rows[1..])
  }

  /** The rows in line order; rows with the same line keep their order. */
  function ByLine(rows: seq<SettlementRow>): seq<SettlementRow> {
    if rows == [] then [] else Insert(rows[0], ByLine(rows[1..]))
  }

  function AmountsOf(rows: seq<SettlementRow>): seq<int> {
    seq(|rows|, i requires 0 <= i < |rows| => rows[i].amount)
  }

  function CurrenciesOf(rows: seq<SettlementRow>): seq<Currency> {
    seq(|rows|, i requires 0 <= i < |rows| => rows[i].currency)
  }

  function ClassifySettlement(expected: int, currency: Currency, rows: seq<SettlementRow>): Comparison {
    var ordered := ByLine(rows);
    var amounts, currencies := AmountsOf(ordered), CurrenciesOf(ordered);
    var canonical := if ordered == [] then 0 else amounts[0];
    var classification :=
      if |ordered| > 1 then SettlementDuplicated
      else if ordered == [] then if expected == 0 then SettlementMatched else SettlementMissing
      else if canonical == expected && currencies[0] == currency then SettlementMatched
      else AmountMismatched;
    Comparison(classification, amounts, currencies, canonical)
  }

  function LedgerStatus(p: Payment, totals: LedgerTotals): SourceStatus {
    if p.authorized == totals.authorized && p.captured == totals.captured && p.refunded == totals.refunded
    then SourceMatched else SourceMismatched
  }

  function ProjectionStatus(p: Payment, j: Option<Projection>, latest: Event, latestProcessed: bool): SourceStatus {
    if j.None? then SourceMissing
    else if j.value.version < latest.version then SourceStale
    else if !latestProcessed then SourceMissing
    else if || j.value.version != p.version
            || j.value.merchantReference != p.merchantReference
            || j.value.amount != p.amount
            || j.value.currency != p.currency
            || j.value.status != p.status
            || j.value.declineReason != p.declineReason
            || j.value.authorized != p.authorized
            || j.value.captured != p.captured
            || j.value.refunded != p.refunded
    then SourceMismatched
    else SourceMatched
  }

  /** The event of the highest version. */
  function Latest(events: seq<Event>): (e: Event)
    requires events != []
    ensures e in events && forall f :: f in events ==> f.version <= e.version
  {
    var last := events[|events| - 1];
    if |events| == 1 then last
    else
      var rest := Latest(events[..|events| - 1]);
      assert events == events[..|events| - 1] + [last];
      if last.version >= rest.version then last else rest
  }

  function RowsOf(rows: seq<SettlementRow>, id: Id): seq<SettlementRow> {
    if rows == [] then []
    else
      var last := rows[|rows| - 1];
      RowsOf(rows[..|rows| - 1], id) + if last.paymentId == id then [last] else []
  }

  function AtLeastZero(n: int): int {
    if n < 0 then 0 else n
  }

  /** The net captured amount through the cutoff. */
  function Expected(t: Tables, id: Id, cutoff: Time): int {
    AtLeastZero(Totals(UpTo(EntriesOf(t.ledger, id), cutoff)).NetCaptured())
  }

  function ItemOf(t: Tables, m: Merchant, rows: seq<SettlementRow>, cutoff: Time, id: Id): Item
    requires id in t.payments && EventsOf(t.outbox, id) != []
  {
    var p := t.payments[id];
    var totals := Totals(EntriesOf(t.ledger, id));
    var expected := Expected(t, id, cutoff);
    var latest := Latest(EventsOf(t.outbox, id));
    var processed := latest.id in m.inbox;
    var j := if id in m.projections then Some(m.projections[id]) else None;
    Item(id, p.merchantReference, p.currency, expected, ClassifySettlement(expected, p.currency, RowsOf(rows, id)),
         LedgerStatus(p, totals), LedgerTotals(p.authorized, p.captured, p.refunded), totals,
         ProjectionStatus(p, j, latest, processed), latest.version,
         if j.Some? then Some(j.value.version) else None, processed)
  }

  // ----- the whole report -------------------------------------------------------------------------------------

  /** The payments created by the cutoff, in identifier order. */
  function Covered(t: Tables, cutoff: Time): seq<Id> {
    Sorted(map id | id in t.payments && t.payments[id].createdAt <= cutoff :: 0)
  }

  function SumExpected(items: seq<Item>, c: Currency): int {
    if items == [] then 0
    else
      var last := items[|items| - 1];
      SumExpected(items[..|items| - 1], c) + if last.currency == c then last.expected else 0
  }

  function SumObserved(items: seq<Item>, c: Currency): int {
    if items == [] then 0
    else
      var last := items[|items| - 1];
      SumObserved(items[..|items| - 1], c) + if ObservedIn(last, c) then last.settlement.canonical else 0
  }

  predicate ObservedIn(item: Item, c: Currency) {
    item.settlement.currencies != [] && item.settlement.currencies[0] == c
  }

  predicate Mentions(items: seq<Item>, c: Currency) {
    exists item :: item in items && (item.currency == c || ObservedIn(item, c))
  }

  function CountClass(items: seq<Item>, k: Classification): nat {
    if items == [] then 0
    else
      CountClass(items[..|items| - 1], k) + if items[|items| - 1].settlement.classification == k then 1 else 0
  }

  function CountLedger(items: seq<Item>): nat {
    if items == [] then 0
    else CountLedger(items[..|items| - 1]) + if items[|items| - 1].ledgerStatus != SourceMatched then 1 else 0
  }

  function CountProjection(items: seq<Item>): nat {
    if items == [] then 0
    else CountProjection(items[..|items| - 1]) + if items[|items| - 1].projectionStatus != SourceMatched then 1 else 0
  }

  predicate ItemMatched(item: Item) {
    && item.settlement.classification == SettlementMatched
    && item.ledgerStatus == SourceMatched
    && item.projectionStatus == SourceMatched
  }

  ghost predicate Lists(item: Item, t: Tables, m: Merchant, rows: seq<SettlementRow>, cutoff: Time, id: Id) {
    && id in t.payments && EventsOf(t.outbox, id) != []
    && item == ItemOf(t, m, rows, cutoff, id)
  }

  /** A report lists one item for each covered payment and summarises exactly those items. */
  ghost predicate Describes(r: Report, t: Tables, m: Merchant, rows: seq<SettlementRow>, cutoff: Time) {
    && r.cutoff == cutoff
    && |r.items| == |Covered(t, cutoff)|
    && (forall i {:trigger Lists(r.items[i], t, m, rows, cutoff, Covered(t, cutoff)[i])} :: 0 <= i < |r.items| ==>
          Lists(r.items[i], t, m, rows, cutoff, Covered(t, cutoff)[i]))
    && (r.matched <==> forall item :: item in r.items ==> ItemMatched(item))
    && Totalled(r.totals, r.items)
    && r.matchedCount == CountClass(r.items, SettlementMatched)
    && r.missingCount == CountClass(r.items, SettlementMissing)
    && r.duplicatedCount == CountClass(r.items, SettlementDuplicated)
    && r.amountMismatchedCount == CountClass(r.items, AmountMismatched)
    && r.ledgerMismatchCount == CountLedger(r.items)
    && r.projectionMismatchCount == CountProjection(r.items)
  }

  function GroupIn(groups: map<Id, seq<SettlementRow>>, id: Id): seq<SettlementRow> {
    if id in groups then groups[id] else []
  }

  ghost predicate Groups(groups: map<Id, seq<SettlementRow>>, rows: seq<SettlementRow>) {
    forall id :: GroupIn(groups, id) == RowsOf(rows, id)
  }

  /** Groups the rows by payment, keeping their order. */
  method GroupByPayment(rows: seq<SettlementRow>) returns (groups: map<Id, seq<SettlementRow>>)
    ensures Groups(groups, rows)
  {
    groups := map[];
    for i := 0 to |rows|
      invariant Groups(groups, rows[..i])
    {
      GroupGrows(groups, rows[..i], rows[i]);
      groups := groups[rows[i].paymentId := GroupIn(groups, rows[i].paymentId) + [rows[i]]];
      assert rows[..i + 1] == rows[..i] + [rows[i]];
    }
    assert rows[..|rows|] == rows;
  }

  lemma GroupGrows(groups: map<Id, seq<SettlementRow>>, rows: seq<SettlementRow>, r: SettlementRow)
    requires Groups(groups, rows)
    ensures Groups(groups[r.paymentId := GroupIn(groups, r.paymentId) + [r]], rows + [r])
  {
    forall id
      ensures GroupIn(groups[r.paymentId := GroupIn(groups, r.paymentId) + [r]], id) == RowsOf(rows + [r], id)
    {
      RowsAppend(rows, r, id);
    }
  }

  lemma RowsAppend(rows: seq<SettlementRow>, r: SettlementRow, id: Id)
    ensures RowsOf(rows + [r], id) == if r.paymentId == id then RowsOf(rows, id) + [r] else RowsOf(rows, id)
  {
    assert (rows + [r])[..|rows|] == rows;
  }

  /** The summary of the items, accumulated in one pass. */
  method Summarise(cutoff: Time, items: seq<Item>) returns (r: Report)
    ensures r.cutoff == cutoff && r.items == items
    ensures r.matched <==> forall item :: item in items ==> ItemMatched(item)
    ensures Totalled(r.totals, items)
    ensures r.matchedCount == CountClass(items, SettlementMatched)
    ensures r.missingCount == CountClass(items, SettlementMissing)
    ensures r.duplicatedCount == CountClass(items, SettlementDuplicated)
    ensures r.amountMismatchedCount == CountClass(items, AmountMismatched)
    ensures r.ledgerMismatchCount == CountLedger(items)
    ensures r.projectionMismatchCount == CountProjection(items)
  {
    var totals := TotalsByCurrency(items);
    var allMatched, ledgerMismatches, projectionMismatches := true, 0, 0;
    for i := 0 to |items|
      invariant allMatched <==>
                forall item :: item in items[..i] ==> item.settlement.classification == SettlementMatched
      invariant ledgerMismatches == CountLedger(items[..i])
      invariant projectionMismatches == CountProjection(items[..i])
      invariant ledgerMismatches == 0 <==> forall item :: item in items[..i] ==> item.ledgerStatus == SourceMatched
      invariant projectionMismatches == 0 <==>
                forall item :: item in items[..i] ==> item.projectionStatus == SourceMatched
    {
      assert items[..i + 1] == items[..i] + [items[i]];
      assert items[..i + 1][..i] == items[..i];
      if items[i].settlement.classification != SettlementMatched { allMatched := false; }
      if items[i].ledgerStatus != SourceMatched { ledgerMismatches := ledgerMismatches + 1; }
      if items[i].projectionStatus != SourceMatched { projectionMismatches := projectionMismatches + 1; }
    }
    assert items[..|items|] == items;
    r := Report(
      cutoff, items, allMatched && ledgerMismatches == 0 && projectionMismatches == 0, totals,
      CountClass(items, SettlementMatched), CountClass(items, SettlementMissing),
      CountClass(items, SettlementDuplicated), CountClass(items, AmountMismatched),
      ledgerMismatches, projectionMismatches);
  }

  function TotalIn(totals: map<Currency, CurrencyTotal>, c: Currency): CurrencyTotal {
    if c in totals then totals[c] else CurrencyTotal(0, 0)
  }

  /** A currency is listed when an item mentions it, with the sums over the items. */
  ghost predicate Totalled(totals: map<Currency, CurrencyTotal>, items: seq<Item>) {
    forall c ::
      && (c in totals <==> Mentions(items, c))
      && TotalIn(totals, c) == CurrencyTotal(SumExpected(items, c), SumObserved(items, c))
  }

  function AddItem(totals: map<Currency, CurrencyTotal>, item: Item): map<Currency, CurrencyTotal> {
    var total := TotalIn(totals, item.currency);
    var more := totals[item.currency := total.(expected := total.expected + item.expected)];
    if item.settlement.currencies == [] then more
    else
      var observed := item.settlement.currencies[0];
      var other := TotalIn(more, observed);
      more[observed := other.(observed := other.observed + item.settlement.canonical)]
  }

  /** Expected amounts count in the payment's currency, observed ones in the currency of the row. */
  method TotalsByCurrency(items: seq<Item>) returns (totals: map<Currency, CurrencyTotal>)
    ensures Totalled(totals, items)
  {
    totals := map[];
    for i := 0 to |items|
      invariant Totalled(totals, items[..i])
    {
      var item := items[i];
      assert items[..i + 1] == items[..i] + [item];
      ItemTotalled(totals, items[..i], item);
      var total := TotalIn(totals, item.currency);
      totals := totals[item.currency := total.(expected := total.expected + item.expected)];
      if item.settlement.currencies != [] {
        var observed := item.settlement.currencies[0];
        var other := TotalIn(totals, observed);
        totals := totals[observed := other.(observed := other.observed + item.settlement.canonical)];
      }
    }
    assert items[..|items|] == items;
  }

  lemma ItemTotalled(totals: map<Currency, CurrencyTotal>, items: seq<Item>, item: Item)
    requires Totalled(totals, items)
    ensures Totalled(AddItem(totals, item), items + [item])
  {
    assert (items + [item])[..|items|] == items;
    forall c
      ensures Mentions(items + [item], c) <==> Mentions(items, c) || item.currency == c || ObservedIn(item, c)
    {
      MentionsAppend(items, item, c);
    }
  }

  lemma MentionsAppend(items: seq<Item>, item: Item, c: Currency)
    ensures Mentions(items + [item], c) <==> Mentions(items, c) || item.currency == c || ObservedIn(item, c)
  {
    assert item in items + [item];
    assert forall x :: x in items ==> x in items + [item];
    assert forall x :: x in items + [item] ==> x in items || x == item;
  }

  /** The evidence for one payment from the independent sources; none without an outbox event. */
  method CompareSources(
    t: Tables, m: Merchant, rows: seq<SettlementRow>, groups: map<Id, seq<SettlementRow>>, cutoff: Time, id: Id)
    returns (item: Option<Item>)
    requires id in t.payments && GroupIn(groups, id) == RowsOf(rows, id)
    ensures item == if EventsOf(t.outbox, id) == [] then None else Some(ItemOf(t, m, rows, cutoff, id))
  {
    var p := t.payments[id];
    var entries := EntriesOf(t.ledger, id);
    var current := CalculateLedgerTotals(entries, None);
    var through := CalculateLedgerTotals(entries, Some(cutoff));
    var expected := AtLeastZero(through.NetCaptured());
    var settlement := ClassifySettlement(expected, p.currency, GroupIn(groups, id));
    var events := EventsOf(t.outbox, id);
    if events == [] {
      return None;
    }
    var latest := Latest(events);
    var processed := latest.id in m.inbox;
    var j := if id in m.projections then Some(m.projections[id]) else None;
    return Some(Item(
      id, p.merchantReference, p.currency, expected, settlement,
      LedgerStatus(p, current), LedgerTotals(p.authorized, p.captured, p.refunded), current,
      ProjectionStatus(p, j, latest, processed), latest.version,
      if j.Some? then Some(j.value.version) else None, processed));
  }

  lemma CoveredMembers(t: Tables, cutoff: Time)
    ensures forall id :: id in Covered(t, cutoff) <==> id in t.payments && t.payments[id].createdAt <= cutoff
    ensures Distinct(Covered(t, cutoff))
  {
    SortedIsOrdered(map id | id in t.payments && t.payments[id].createdAt <= cutoff :: 0);
  }

  lemma CoveredStored(t: Tables, cutoff: Time)
    ensures forall i :: 0 <= i < |Covered(t, cutoff)| ==> Covered(t, cutoff)[i] in t.payments
  {
    CoveredMembers(t, cutoff);
    assert forall i :: 0 <= i < |Covered(t, cutoff)| ==> Covered(t, cutoff)[i] in Covered(t, cutoff);
  }

  /** One item for each covered payment, in identifier order; a payment without an event stops the pass. */
  method CompareAll(t: Tables, m: Merchant, rows: seq<SettlementRow>, cutoff: Time)
    returns (result: Result<seq<Item>, ReportError>)
    ensures
      match result
      case Ok(items) =>
        && |items| == |Covered(t, cutoff)|
        && forall i :: 0 <= i < |items| ==> Lists(items[i], t, m, rows, cutoff, Covered(t, cutoff)[i])
      case Err(e) => e.NoEvent? && e.paymentId in Covered(t, cutoff) && EventsOf(t.outbox, e.paymentId) == []
  {
    var groups := GroupByPayment(rows);
    var ids := Covered(t, cutoff);
    CoveredStored(t, cutoff);
    var items: seq<Item> := [];
    for i := 0 to |ids|
      invariant |items| == i
      invariant forall k :: 0 <= k < i ==> Lists(items[k], t, m, rows, cutoff, ids[k])
    {
      var item := CompareSources(t, m, rows, groups, cutoff, ids[i]);
      if item.None? {
        return Err(NoEvent(ids[i]));
      }
      assert Lists(item.value, t, m, rows, cutoff, ids[i]);
      items := items + [item.value];
    }
    return Ok(items);
  }

  /** The report on a batch: the items and their summary. */
  method ReconcileSettlementBatch(t: Tables, m: Merchant, batches: map<Id, Batch>, batchId: Id)
    returns (result: Result<Report, ReportError>)
    ensures
      match result
      case Err(SettlementBatchNotFound) => batchId !in batches
      case Err(NoEvent(id)) =>
        batchId in batches && id in Covered(t, batches[batchId].cutoff) && EventsOf(t.outbox, id) == []
      case Ok(r) => batchId in batches && Describes(r, t, m, batches[batchId].rows, batches[batchId].cutoff)
  {
    if batchId !in batches {
      return Err(SettlementBatchNotFound);
    }
    var batch := batches[batchId];
    var items := CompareAll(t, m, batch.rows, batch.cutoff);
    if items.Err? {
      return Err(items.error);
    }
    var r := Summarise(batch.cutoff, items.value);
    return Ok(r);
  }
}
