/** Totals of append-only ledger entries, whole or through a cutoff. */
module Ledger {
  import opened Wrappers
  import opened Tables

  datatype LedgerTotals = LedgerTotals(authorized: int, captured: int, refunded: int)
  {
    predicate Sane() {
      0 <= refunded <= captured <= authorized
    }

    function NetCaptured(): int {
      captured - refunded
    }
  }

  function SumOf(entries: seq<LedgerEntry>, operations: set<LedgerOperation>): int {
    if entries == [] then 0
    else
      var last := entries[|entries| - 1];
      SumOf(entries[..|entries| - 1], operations) + if last.operation in operations then last.amount else 0
  }

  function CountOf(entries: seq<LedgerEntry>, operation: LedgerOperation): nat {
    if entries == [] then 0
    else
      CountOf(entries[..|entries| - 1], operation)
      + if entries[|entries| - 1].operation == operation then 1 else 0
  }

  /** What each total means: which operations contribute to it. */
  function Totals(entries: seq<LedgerEntry>): LedgerTotals {
    LedgerTotals(
      SumOf(entries, {AuthorizationEntry, ConfirmationCaptureEntry}),
      SumOf(entries, {CaptureEntry, ConfirmationCaptureEntry}),
      SumOf(entries, {RefundEntry}))
  }

  /** The entries written no later than the cutoff. */
  function UpTo(entries: seq<LedgerEntry>, cutoff: Time): seq<LedgerEntry> {
    if entries == [] then []
    else
      var last := entries[|entries| - 1];
      UpTo(entries[..|entries| - 1], cutoff) + if last.createdAt <= cutoff then [last] else []
  }

  function Considered(entries: seq<LedgerEntry>, cutoff: Option<Time>): seq<LedgerEntry> {
    if cutoff.Some? then UpTo(entries, cutoff.value) else entries
  }

  /** The accumulating loop over the entries. */
  method CalculateLedgerTotals(entries: seq<LedgerEntry>, cutoff: Option<Time>) returns (totals: LedgerTotals)
    ensures totals == Totals(Considered(entries, cutoff))
  {
    var authorized, captured, refunded := 0, 0, 0;
    for i := 0 to |entries|
      invariant LedgerTotals(authorized, captured, refunded) == Totals(Considered(entries[..i], cutoff))
    {
      var entry := entries[i];
      assert entries[..i + 1] == entries[..i] + [entry];
      ConsideredAppend(entries[..i], entry, cutoff);
      if cutoff.Some? && entry.createdAt > cutoff.value {
        continue;
      }
      match entry.operation {
        case AuthorizationEntry =>
          authorized := authorized + entry.amount;
        case CaptureEntry =>
          captured := captured + entry.amount;
        case ConfirmationCaptureEntry =>
          authorized := authorized + entry.amount;
          captured := captured + entry.amount;
        case RefundEntry =>
          refunded := refunded + entry.amount;
        case CancelEntry =>
      }
    }
    assert entries[..|entries|] == entries;
    return LedgerTotals(authorized, captured, refunded);
  }

  lemma SumAppend(entries: seq<LedgerEntry>, e: LedgerEntry, operations: set<LedgerOperation>)
    ensures SumOf(entries + [e], operations) ==
            SumOf(entries, operations) + if e.operation in operations then e.amount else 0
  {
    assert (entries + [e])[..|entries|] == entries;
  }

  /** What one more entry does to the totals. */
  function AddEntry(totals: LedgerTotals, e: LedgerEntry): LedgerTotals {
    match e.operation
    case AuthorizationEntry => totals.(authorized := totals.authorized + e.amount)
    case CaptureEntry => totals.(captured := totals.captured + e.amount)
    case ConfirmationCaptureEntry =>
      totals.(authorized := totals.authorized + e.amount, captured := totals.captured + e.amount)
    case RefundEntry => totals.(refunded := totals.refunded + e.amount)
    case CancelEntry => totals
  }

  lemma TotalsAppend(entries: seq<LedgerEntry>, e: LedgerEntry)
    ensures Totals(entries + [e]) == AddEntry(Totals(entries), e)
  {
    SumAppend(entries, e, {AuthorizationEntry, ConfirmationCaptureEntry});
    SumAppend(entries, e, {CaptureEntry, ConfirmationCaptureEntry});
    SumAppend(entries, e, {RefundEntry});
  }

  /** An entry after the cutoff is passed over, any other one is added to the totals. */
  lemma ConsideredAppend(entries: seq<LedgerEntry>, e: LedgerEntry, cutoff: Option<Time>)
    ensures Totals(Considered(entries + [e], cutoff)) ==
            if cutoff.Some? && e.createdAt > cutoff.value then Totals(Considered(entries, cutoff))
            else AddEntry(Totals(Considered(entries, cutoff)), e)
  {
    assert (entries + [e])[..|entries|] == entries;
    if cutoff.Some? && e.createdAt > cutoff.value {
      assert UpTo(entries, cutoff.value) + [] == UpTo(entries, cutoff.value);
    } else {
      TotalsAppend(Considered(entries, cutoff), e);
    }
  }

  lemma CountAppend(entries: seq<LedgerEntry>, e: LedgerEntry, operation: LedgerOperation)
    ensures CountOf(entries + [e], operation) == CountOf(entries, operation) + if e.operation == operation then 1 else 0
  {
    assert (entries + [e])[..|entries|] == entries;
  }

  ghost predicate PrefixesSane(entries: seq<LedgerEntry>) {
    forall k :: 0 <= k <= |entries| ==> Totals(entries[..k]).Sane()
  }

  ghost predicate InTimeOrder(entries: seq<LedgerEntry>) {
    forall i, j :: 0 <= i < j < |entries| ==> entries[i].createdAt <= entries[j].createdAt
  }

  lemma PrefixesAppend(entries: seq<LedgerEntry>, e: LedgerEntry)
    requires PrefixesSane(entries) && Totals(entries + [e]).Sane()
    ensures PrefixesSane(entries + [e])
  {
    var longer := entries + [e];
    forall k | 0 <= k <= |longer|
      ensures Totals(longer[..k]).Sane()
    {
      assert longer[..k] == if k <= |entries| then entries[..k] else longer;
    }
  }

  /** Entries written in time order are cut by any cutoff into a prefix and the rest. */
  lemma {:induction false} CutIsPrefix(entries: seq<LedgerEntry>, cutoff: Time) returns (k: nat)
    requires InTimeOrder(entries)
    ensures k <= |entries| && UpTo(entries, cutoff) == entries[..k]
    ensures forall i :: 0 <= i < k ==> entries[i].createdAt <= cutoff
    ensures forall i :: k <= i < |entries| ==> entries[i].createdAt > cutoff
  {
    if entries == [] {
      k := 0;
    } else {
      var n := |entries| - 1;
      k := CutIsPrefix(entries[..n], cutoff);
      assert entries == entries[..n] + [entries[n]];
      CutGrows(entries[..n], entries[n], cutoff, k);
      k := if entries[n].createdAt <= cutoff then n + 1 else k;
    }
  }

  lemma CutGrows(init: seq<LedgerEntry>, last: LedgerEntry, cutoff: Time, k: nat)
    requires InTimeOrder(init + [last]) && k <= |init| && UpTo(init, cutoff) == init[..k]
    requires forall i :: k <= i < |init| ==> init[i].createdAt > cutoff
    ensures last.createdAt <= cutoff ==> k == |init| && UpTo(init + [last], cutoff) == init + [last]
    ensures last.createdAt > cutoff ==> UpTo(init + [last], cutoff) == (init + [last])[..k]
  {
    var all := init + [last];
    assert all[..|init|] == init && all[|init|] == last;
    assert forall i :: 0 <= i < |init| ==> all[i] == init[i] && init[i].createdAt <= last.createdAt;
  }

  lemma CutoffSane(entries: seq<LedgerEntry>, cutoff: Time)
    requires PrefixesSane(entries) && InTimeOrder(entries)
    ensures Totals(UpTo(entries, cutoff)).Sane()
  {
    var k := CutIsPrefix(entries, cutoff);
    assert Totals(entries[..k]).Sane();
  }
}
