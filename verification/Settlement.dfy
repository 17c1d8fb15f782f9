/**
 * What the reconciliation report says of settlement, in terms of the rows that were imported: how each payment is
 * classified, which row counts, and how many payments each count of the report stands for.
 */
module Settlement {
  import opened Wrappers
  import opened Domain
  import opened Tables
  import opened Ledger
  import opened Ordering
  import opened Consumer
  import opened Reconciliation
  import opened Invariants
  import opened Agreement

  // ----- the rows of one payment ------------------------------------------------------------------------------

  ghost predicate InLineOrder(rows: seq<SettlementRow>) {
    forall i, j :: 0 <= i < j < |rows| ==> rows[i].lineNumber <= rows[j].lineNumber
  }

  lemma {:induction false} InsertKeepsRows(r: SettlementRow, rows: seq<SettlementRow>)
    ensures multiset(Insert(r, rows)) == multiset(rows) + multiset{r}
  {
    if rows != [] && r.lineNumber > rows[0].lineNumber {
      InsertKeepsRows(r, rows[1..]);
      assert rows == [rows[0]] + rows[1..];
    } else {
      assert multiset([r] + rows) == multiset{r} + multiset(rows);
    }
  }

  lemma OrderExtends(first: SettlementRow, rest: seq<SettlementRow>)
    requires InLineOrder(rest) && forall x :: x in rest ==> first.lineNumber <= x.lineNumber
    ensures InLineOrder([first] + rest)
  {
  }

  lemma {:induction false} InsertKeepsOrder(r: SettlementRow, rows: seq<SettlementRow>)
    requires InLineOrder(rows)
    ensures InLineOrder(Insert(r, rows))
  {
    if rows != [] && r.lineNumber > rows[0].lineNumber {
      InsertKeepsOrder(r, rows[1..]);
      InsertKeepsRows(r, rows[1..]);
      forall x | x in Insert(r, rows[1..])
        ensures rows[0].lineNumber <= x.lineNumber
      {
        assert x in multiset(Insert(r, rows[1..]));
        if x != r { assert x in multiset(rows[1..]); }
      }
      OrderExtends(rows[0], Insert(r, rows[1..]));
    } else {
      OrderExtends(r, rows);
    }
  }

  /** The rows are put in the order of their lines, none lost and none added. */
  lemma {:induction false} ByLineSorts(rows: seq<SettlementRow>)
    ensures InLineOrder(ByLine(rows)) && multiset(ByLine(rows)) == multiset(rows)
  {
    if rows != [] {
      ByLineSorts(rows[1..]);
      InsertKeepsOrder(rows[0], ByLine(rows[1..]));
      InsertKeepsRows(rows[0], ByLine(rows[1..]));
      assert rows == [rows[0]] + rows[1..];
    }
  }

  /** Which classification the rows of a payment get, whatever their order. */
  lemma ClassifiedExactly(expected: int, currency: Currency, own: seq<SettlementRow>)
    ensures
      var k := ClassifySettlement(expected, currency, own).classification;
      && (k == SettlementDuplicated <==> |own| > 1)
      && (k == SettlementMissing <==> own == [] && expected != 0)
      && (k == SettlementMatched <==>
            (own == [] && expected == 0)
            || (|own| == 1 && own[0].amount == expected && own[0].currency == currency))
      && (k == AmountMismatched <==> |own| == 1 && (own[0].amount != expected || own[0].currency != currency))
  {
    ByLineSorts(own);
    assert |ByLine(own)| == |multiset(ByLine(own))| == |own|;
    if |own| == 1 {
      assert ByLine(own)[0] in multiset(own);
    }
  }

  /** The canonical amount and the observed currency are those of the row with the smallest line number. */
  lemma CanonicalIsFirstLine(expected: int, currency: Currency, own: seq<SettlementRow>)
    ensures
      var s := ClassifySettlement(expected, currency, own);
      if own == [] then s.canonical == 0 && s.currencies == [] && s.amounts == []
      else
        && |s.amounts| == |s.currencies| == |own|
        && exists r :: IsFirstLine(r, own) && s.canonical == s.amounts[0] == r.amount && s.currencies[0] == r.currency
  {
    ByLineSorts(own);
    assert |ByLine(own)| == |multiset(ByLine(own))| == |own|;
    if own != [] {
      FirstOfSortedLines(own, ByLine(own));
    }
  }

  lemma FirstOfSortedLines(own: seq<SettlementRow>, ordered: seq<SettlementRow>)
    requires InLineOrder(ordered) && multiset(ordered) == multiset(own) && own != []
    ensures ordered != [] && IsFirstLine(ordered[0], own)
  {
    assert |ordered| == |multiset(ordered)| == |multiset(own)| == |own|;
    assert ordered[0] in multiset(own);
    forall q | q in own
      ensures ordered[0].lineNumber <= q.lineNumber
    {
      assert q in multiset(ordered);
      var i :| 0 <= i < |ordered| && ordered[i] == q;
    }
  }

  ghost predicate IsFirstLine(r: SettlementRow, own: seq<SettlementRow>) {
    r in own && forall q :: q in own ==> r.lineNumber <= q.lineNumber
  }

  /** The places of a payment's rows in the file. */
  function PlacesIn(rows: seq<SettlementRow>, id: Id): set<int> {
    set i | 0 <= i < |rows| && rows[i].paymentId == id
  }

  lemma {:induction false} RowsOfPlaces(rows: seq<SettlementRow>, id: Id)
    ensures |RowsOf(rows, id)| == |PlacesIn(rows, id)|
    decreases |rows|
  {
    if rows == [] {
      assert PlacesIn(rows, id) == {};
    } else {
      var n := |rows| - 1;
      RowsOfPlaces(rows[..n], id);
      LastPlace(rows, id);
    }
  }

  lemma LastPlace(rows: seq<SettlementRow>, id: Id)
    requires rows != []
    ensures
      var n := |rows| - 1;
      |PlacesIn(rows, id)| == |PlacesIn(rows[..n], id)| + if rows[n].paymentId == id then 1 else 0
  {
    var n := |rows| - 1;
    var before := PlacesIn(rows[..n], id);
    assert PlacesIn(rows, id) == if rows[n].paymentId == id then before + {n} else before;
  }

  lemma {:induction false} RowsOfRows(rows: seq<SettlementRow>, id: Id)
    ensures forall r :: r in RowsOf(rows, id) <==> r in rows && r.paymentId == id
    decreases |rows|
  {
    if rows != [] {
      RowsOfRows(rows[..|rows| - 1], id);
      assert rows == rows[..|rows| - 1] + [rows[|rows| - 1]];
    }
  }

  // ----- the counts of the report -----------------------------------------------------------------------------

  /** The payments whose items satisfy the condition. */
  ghost function Whose(items: seq<Item>, ids: seq<Id>, chosen: Item -> bool): set<Id>
    requires |items| == |ids|
  {
    set i | 0 <= i < |ids| && chosen(items[i]) :: ids[i]
  }

  lemma OneMoreId(items: seq<Item>, ids: seq<Id>, chosen: Item -> bool)
    requires |items| == |ids| > 0 && Distinct(ids)
    ensures
      var n := |ids| - 1;
      && Distinct(ids[..n])
      && |Whose(items, ids, chosen)| == |Whose(items[..n], ids[..n], chosen)| + if chosen(items[n]) then 1 else 0
  {
    var n := |ids| - 1;
    var before := Whose(items[..n], ids[..n], chosen);
    assert ids[n] !in before;
    assert Whose(items, ids, chosen) == if chosen(items[n]) then before + {ids[n]} else before;
  }

  lemma {:induction false} ClassCounted(items: seq<Item>, ids: seq<Id>, k: Classification)
    requires |items| == |ids| && Distinct(ids)
    ensures CountClass(items, k) == |Whose(items, ids, (item: Item) => item.settlement.classification == k)|
    decreases |items|
  {
    if items == [] {
      assert Whose(items, ids, (item: Item) => item.settlement.classification == k) == {};
    } else {
      OneMoreId(items, ids, (item: Item) => item.settlement.classification == k);
      ClassCounted(items[..|items| - 1], ids[..|ids| - 1], k);
    }
  }

  lemma {:induction false} LedgerCounted(items: seq<Item>, ids: seq<Id>)
    requires |items| == |ids| && Distinct(ids)
    ensures CountLedger(items) == |Whose(items, ids, (item: Item) => item.ledgerStatus != SourceMatched)|
    decreases |items|
  {
    if items == [] {
      assert Whose(items, ids, (item: Item) => item.ledgerStatus != SourceMatched) == {};
    } else {
      OneMoreId(items, ids, (item: Item) => item.ledgerStatus != SourceMatched);
      LedgerCounted(items[..|items| - 1], ids[..|ids| - 1]);
    }
  }

  lemma {:induction false} ProjectionCounted(items: seq<Item>, ids: seq<Id>)
    requires |items| == |ids| && Distinct(ids)
    ensures CountProjection(items) == |Whose(items, ids, (item: Item) => item.projectionStatus != SourceMatched)|
    decreases |items|
  {
    if items == [] {
      assert Whose(items, ids, (item: Item) => item.projectionStatus != SourceMatched) == {};
    } else {
      OneMoreId(items, ids, (item: Item) => item.projectionStatus != SourceMatched);
      ProjectionCounted(items[..|items| - 1], ids[..|ids| - 1]);
    }
  }

  /** The covered payments whose items satisfy the condition. */
  ghost function CoveredWhose(t: Tables, m: Merchant, rows: seq<SettlementRow>, cutoff: Time, chosen: Item -> bool)
    : set<Id>
    requires forall id :: id in t.payments && t.payments[id].createdAt <= cutoff ==> EventsOf(t.outbox, id) != []
  {
    set id | id in t.payments && t.payments[id].createdAt <= cutoff && chosen(ItemOf(t, m, rows, cutoff, id))
  }

  lemma EventsThere(t: Tables, m: Merchant, rows: seq<SettlementRow>, cutoff: Time, r: Report)
    requires Describes(r, t, m, rows, cutoff)
    ensures forall id :: id in t.payments && t.payments[id].createdAt <= cutoff ==> EventsOf(t.outbox, id) != []
  {
    CoveredMembers(t, cutoff);
    forall id | id in Covered(t, cutoff)
      ensures EventsOf(t.outbox, id) != []
    {
      var i :| 0 <= i < |Covered(t, cutoff)| && Covered(t, cutoff)[i] == id;
      assert Lists(r.items[i], t, m, rows, cutoff, Covered(t, cutoff)[i]);
    }
  }

  lemma ItemsAreCovered(
    t: Tables, m: Merchant, rows: seq<SettlementRow>, cutoff: Time, r: Report, chosen: Item -> bool)
    requires Describes(r, t, m, rows, cutoff)
    requires forall id :: id in t.payments && t.payments[id].createdAt <= cutoff ==> EventsOf(t.outbox, id) != []
    ensures Whose(r.items, Covered(t, cutoff), chosen) == CoveredWhose(t, m, rows, cutoff, chosen)
  {
    var ids := Covered(t, cutoff);
    CoveredMembers(t, cutoff);
    forall i | 0 <= i < |ids|
      ensures ids[i] in ids && r.items[i] == ItemOf(t, m, rows, cutoff, ids[i])
    {
      assert ids[i] in ids && Lists(r.items[i], t, m, rows, cutoff, ids[i]);
    }
    forall id
      ensures id in Whose(r.items, ids, chosen) <==> id in CoveredWhose(t, m, rows, cutoff, chosen)
    {
      if id in ids { var i :| 0 <= i < |ids| && ids[i] == id; }
    }
  }

  /** The payment's one row, if it has exactly one, differs from what is expected in amount or currency. */
  ghost predicate WrongRow(t: Tables, rows: seq<SettlementRow>, cutoff: Time, id: Id)
    requires id in t.payments
  {
    && |PlacesIn(rows, id)| == 1
    && exists r :: r in rows && r.paymentId == id
                   && (r.amount != Expected(t, id, cutoff) || r.currency != t.payments[id].currency)
  }

  lemma ClassOfPayment(t: Tables, m: Merchant, rows: seq<SettlementRow>, cutoff: Time, id: Id)
    requires id in t.payments && EventsOf(t.outbox, id) != []
    ensures
      var k := ItemOf(t, m, rows, cutoff, id).settlement.classification;
      && (k == SettlementDuplicated <==> |PlacesIn(rows, id)| > 1)
      && (k == SettlementMissing <==> PlacesIn(rows, id) == {} && Expected(t, id, cutoff) > 0)
      && (k == AmountMismatched <==> WrongRow(t, rows, cutoff, id))
  {
    var own := RowsOf(rows, id);
    RowsOfPlaces(rows, id);
    RowsOfRows(rows, id);
    ClassifiedExactly(Expected(t, id, cutoff), t.payments[id].currency, own);
    assert |own| == 0 <==> PlacesIn(rows, id) == {};
    if |own| == 1 {
      assert own[0] in own && forall r :: r in own ==> r == own[0];
    }
  }

  ghost function InClass(t: Tables, m: Merchant, rows: seq<SettlementRow>, cutoff: Time, k: Classification): set<Id>
    requires forall id :: id in t.payments && t.payments[id].createdAt <= cutoff ==> EventsOf(t.outbox, id) != []
  {
    CoveredWhose(t, m, rows, cutoff, (item: Item) => item.settlement.classification == k)
  }

  lemma ClassSize(
    t: Tables, m: Merchant, rows: seq<SettlementRow>, cutoff: Time, r: Report, k: Classification)
    requires Describes(r, t, m, rows, cutoff)
    requires forall id :: id in t.payments && t.payments[id].createdAt <= cutoff ==> EventsOf(t.outbox, id) != []
    ensures CountClass(r.items, k) == |InClass(t, m, rows, cutoff, k)|
  {
    CoveredMembers(t, cutoff);
    ClassCounted(r.items, Covered(t, cutoff), k);
    ItemsAreCovered(t, m, rows, cutoff, r, (item: Item) => item.settlement.classification == k);
  }

  lemma {:induction false} ClassesAddUp(items: seq<Item>)
    ensures CountClass(items, SettlementMatched) + CountClass(items, SettlementMissing)
            + CountClass(items, SettlementDuplicated) + CountClass(items, AmountMismatched) == |items|
  {
    if items != [] { ClassesAddUp(items[..|items| - 1]); }
  }

  lemma {:induction false} DistinctSize(ids: seq<Id>)
    requires Distinct(ids)
    ensures |Elements(ids)| == |ids|
    decreases |ids|
  {
    if ids == [] {
      assert Elements(ids) == {};
    } else {
      var init, last := ids[..|ids| - 1], ids[|ids| - 1];
      DistinctSize(init);
      assert last !in init;
      assert Elements(ids) == Elements(init) + {last};
    }
  }

  /** The payments created by the cutoff. */
  ghost function CoveredSet(t: Tables, cutoff: Time): set<Id> {
    set id | id in t.payments && t.payments[id].createdAt <= cutoff
  }

  lemma ClassesMean(t: Tables, m: Merchant, rows: seq<SettlementRow>, cutoff: Time)
    requires forall id :: id in t.payments && t.payments[id].createdAt <= cutoff ==> EventsOf(t.outbox, id) != []
    ensures InClass(t, m, rows, cutoff, SettlementMissing) ==
            set id | id in CoveredSet(t, cutoff) && PlacesIn(rows, id) == {} && Expected(t, id, cutoff) > 0
    ensures InClass(t, m, rows, cutoff, SettlementDuplicated) ==
            set id | id in CoveredSet(t, cutoff) && |PlacesIn(rows, id)| > 1
    ensures InClass(t, m, rows, cutoff, AmountMismatched) ==
            set id | id in CoveredSet(t, cutoff) && WrongRow(t, rows, cutoff, id)
  {
    forall id | id in CoveredSet(t, cutoff)
      ensures
        var k := ItemOf(t, m, rows, cutoff, id).settlement.classification;
        && (k == SettlementDuplicated <==> |PlacesIn(rows, id)| > 1)
        && (k == SettlementMissing <==> PlacesIn(rows, id) == {} && Expected(t, id, cutoff) > 0)
        && (k == AmountMismatched <==> WrongRow(t, rows, cutoff, id))
    {
      ClassOfPayment(t, m, rows, cutoff, id);
    }
  }

  /**
   * The counts of a report: missing are the covered payments with a positive expected amount and no row, duplicated
   * those with two rows or more, mismatched those whose only row has another amount or currency, and matched
   * the others.
   */
  lemma SettlementCounts(t: Tables, m: Merchant, rows: seq<SettlementRow>, cutoff: Time, r: Report)
    requires Describes(r, t, m, rows, cutoff)
    ensures
      var covered := CoveredSet(t, cutoff);
      && |r.items| == |covered|
      && r.missingCount == |set id | id in covered && PlacesIn(rows, id) == {} && Expected(t, id, cutoff) > 0|
      && r.duplicatedCount == |set id | id in covered && |PlacesIn(rows, id)| > 1|
      && r.amountMismatchedCount == |set id | id in covered && WrongRow(t, rows, cutoff, id)|
      && r.matchedCount + r.missingCount + r.duplicatedCount + r.amountMismatchedCount == |covered|
  {
    EventsThere(t, m, rows, cutoff, r);
    ClassesMean(t, m, rows, cutoff);
    ClassSize(t, m, rows, cutoff, r, SettlementMissing);
    ClassSize(t, m, rows, cutoff, r, SettlementDuplicated);
    ClassSize(t, m, rows, cutoff, r, AmountMismatched);
    ClassesAddUp(r.items);
    CoveredMembers(t, cutoff);
    assert CoveredSet(t, cutoff) == Elements(Covered(t, cutoff));
    DistinctSize(Covered(t, cutoff));
  }

  // ----- ledger, projection and totals ------------------------------------------------------------------------

  /** One of the balances of the payment is not the sum of its entries. */
  ghost predicate OutOfBalance(t: Tables, id: Id)
    requires id in t.payments
  {
    var p := t.payments[id];
    Totals(EntriesOf(t.ledger, id)) != LedgerTotals(p.authorized, p.captured, p.refunded)
  }

  lemma OutOfBalanceSet(t: Tables, m: Merchant, rows: seq<SettlementRow>, cutoff: Time)
    requires forall id :: id in t.payments && t.payments[id].createdAt <= cutoff ==> EventsOf(t.outbox, id) != []
    ensures CoveredWhose(t, m, rows, cutoff, (item: Item) => item.ledgerStatus != SourceMatched) ==
            set id | id in CoveredSet(t, cutoff) && OutOfBalance(t, id)
  {
    forall id | id in CoveredSet(t, cutoff)
      ensures ItemOf(t, m, rows, cutoff, id).ledgerStatus != SourceMatched <==> OutOfBalance(t, id)
    {
      LedgerExactly(t.payments[id], Totals(EntriesOf(t.ledger, id)));
    }
  }

  /** The ledger mismatches of a report are the covered payments that are out of balance. */
  lemma LedgerCounts(t: Tables, m: Merchant, rows: seq<SettlementRow>, cutoff: Time, r: Report)
    requires Describes(r, t, m, rows, cutoff)
    ensures r.ledgerMismatchCount == |set id | id in CoveredSet(t, cutoff) && OutOfBalance(t, id)|
  {
    EventsThere(t, m, rows, cutoff, r);
    CoveredMembers(t, cutoff);
    LedgerCounted(r.items, Covered(t, cutoff));
    ItemsAreCovered(t, m, rows, cutoff, r, (item: Item) => item.ledgerStatus != SourceMatched);
    OutOfBalanceSet(t, m, rows, cutoff);
  }

  /** The merchant has the newest event of the payment and shows the payment as it is stored. */
  ghost predicate UpToDate(t: Tables, m: Merchant, id: Id)
    requires id in t.payments && EventsOf(t.outbox, id) != []
  {
    var latest := Latest(EventsOf(t.outbox, id));
    && latest.id in m.inbox && id in m.projections
    && m.projections[id].version >= latest.version && ShowsPayment(m.projections[id], t.payments[id])
  }

  lemma BehindSet(t: Tables, m: Merchant, rows: seq<SettlementRow>, cutoff: Time)
    requires forall id :: id in t.payments && t.payments[id].createdAt <= cutoff ==> EventsOf(t.outbox, id) != []
    ensures CoveredWhose(t, m, rows, cutoff, (item: Item) => item.projectionStatus != SourceMatched) ==
            set id | id in CoveredSet(t, cutoff) && !UpToDate(t, m, id)
  {
    forall id | id in CoveredSet(t, cutoff)
      ensures ItemOf(t, m, rows, cutoff, id).projectionStatus != SourceMatched <==> !UpToDate(t, m, id)
    {
      var j := if id in m.projections then Some(m.projections[id]) else None;
      var latest := Latest(EventsOf(t.outbox, id));
      ProjectionExactly(t.payments[id], j, latest, latest.id in m.inbox);
    }
  }

  /** The projection mismatches of a report are the covered payments that the merchant does not show as they are. */
  lemma ProjectionCounts(t: Tables, m: Merchant, rows: seq<SettlementRow>, cutoff: Time, r: Report)
    requires Describes(r, t, m, rows, cutoff)
    ensures forall id :: id in CoveredSet(t, cutoff) ==> EventsOf(t.outbox, id) != []
    ensures r.projectionMismatchCount == |set id | id in CoveredSet(t, cutoff) && !UpToDate(t, m, id)|
  {
    EventsThere(t, m, rows, cutoff, r);
    CoveredMembers(t, cutoff);
    ProjectionCounted(r.items, Covered(t, cutoff));
    ItemsAreCovered(t, m, rows, cutoff, r, (item: Item) => item.projectionStatus != SourceMatched);
    BehindSet(t, m, rows, cutoff);
  }

  /** The merchant shows the payment field by field as it is stored. */
  predicate ShowsPayment(j: Projection, p: Payment) {
    && j.version == p.version && j.merchantReference == p.merchantReference
    && j.amount == p.amount && j.currency == p.currency && j.status == p.status && j.declineReason == p.declineReason
    && j.authorized == p.authorized && j.captured == p.captured && j.refunded == p.refunded
  }

  /** Which status the projection of a payment gets. */
  lemma ProjectionExactly(p: Payment, j: Option<Projection>, latest: Event, processed: bool)
    ensures
      var status := ProjectionStatus(p, j, latest, processed);
      && (status == SourceStale <==> j.Some? && j.value.version < latest.version)
      && (status == SourceMissing <==> j.None? || (j.value.version >= latest.version && !processed))
      && (status == SourceMatched <==>
            j.Some? && j.value.version >= latest.version && processed && ShowsPayment(j.value, p))
      && (status == SourceMismatched <==>
            j.Some? && j.value.version >= latest.version && processed && !ShowsPayment(j.value, p))
  {
  }

  lemma LedgerExactly(p: Payment, totals: LedgerTotals)
    ensures LedgerStatus(p, totals) ==
            if totals == LedgerTotals(p.authorized, p.captured, p.refunded) then SourceMatched else SourceMismatched
  {
  }

  function SumSurplus(items: seq<Item>, c: Currency): int {
    if items == [] then 0
    else
      var last := items[|items| - 1];
      SumSurplus(items[..|items| - 1], c)
      + (if ObservedIn(last, c) then last.settlement.canonical else 0)
      - (if last.currency == c then last.expected else 0)
  }

  lemma {:induction false} SurplusIsDifference(items: seq<Item>, c: Currency)
    ensures SumSurplus(items, c) == SumObserved(items, c) - SumExpected(items, c)
  {
    if items != [] { SurplusIsDifference(items[..|items| - 1], c); }
  }

  /** The discrepancy of a currency is what was settled in it above what was expected, payment by payment. */
  lemma DiscrepancyIsSurplus(t: Tables, m: Merchant, rows: seq<SettlementRow>, cutoff: Time, r: Report, c: Currency)
    requires Describes(r, t, m, rows, cutoff) && c in r.totals
    ensures r.totals[c].Discrepancy() == SumSurplus(r.items, c)
  {
    SurplusIsDifference(r.items, c);
    assert TotalIn(r.totals, c) == CurrencyTotal(SumExpected(r.items, c), SumObserved(r.items, c));
  }

  /** What one line of the report says of its payment, in every store whose rows agree. */
  lemma ItemSays(t: Tables, m: Merchant, rows: seq<SettlementRow>, cutoff: Time, id: Id)
    requires CoreInv(t) && id in t.payments
    ensures EventsOf(t.outbox, id) != []
    ensures
      var p, item := t.payments[id], ItemOf(t, m, rows, cutoff, id);
      var through := Totals(UpTo(EntriesOf(t.ledger, id), cutoff));
      && item.paymentId == id && item.merchantReference == p.merchantReference && item.currency == p.currency
      && (through.captured >= through.refunded ==> item.expected == through.captured - through.refunded)
      && (through.captured < through.refunded ==> item.expected == 0)
      && item.balances == item.ledger == LedgerTotals(p.authorized, p.captured, p.refunded)
      && item.expectedVersion == p.version
      && item.observedVersion == (if id in m.projections then Some(m.projections[id].version) else None)
      && (item.latestProcessed <==>
            exists e :: e in t.outbox && e.paymentId == id && e.version == p.version && e.id in m.inbox)
  {
    assert PaymentOk(t, id);
    LatestIsCurrent(t, id);
    var latest := Latest(EventsOf(t.outbox, id));
    forall e | e in t.outbox && e.paymentId == id && e.version == t.payments[id].version
      ensures e == latest
    {
      ProducerEventsDiffer(t, e, latest);
    }
  }
}
