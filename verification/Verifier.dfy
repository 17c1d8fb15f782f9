/**
 * The financial check after a performance run. It compares counts, counters and sets; by counting alone these
 * force what every single payment must have.
 */
module Verifier {
  import opened Wrappers
  import opened Domain
  import opened Tables
  import opened Ordering
  import opened Delivery

  /** One payment the workload is expected to leave behind. */
  datatype ExpectedPayment = ExpectedPayment(reference: Id, key: Id, amount: int, currency: Currency, approved: bool)

  datatype KeyRow = KeyRow(key: Id, record: IdempotencyRecord)

  datatype OutboxRow = OutboxRow(event: Event, status: WebhookStatus)

  /** The rows loaded for the run. */
  datatype Rows = Rows(
    payments: seq<Payment>, ledger: seq<LedgerEntry>, records: seq<KeyRow>, events: seq<OutboxRow>)

  // ----- columns ----------------------------------------------------------------------------------------------

  function PaymentIds(payments: seq<Payment>): seq<Id> {
    seq(|payments|, i requires 0 <= i < |payments| => payments[i].id)
  }

  function References(payments: seq<Payment>): seq<Id> {
    seq(|payments|, i requires 0 <= i < |payments| => payments[i].merchantReference)
  }

  function Statuses(payments: seq<Payment>): seq<PaymentStatus> {
    seq(|payments|, i requires 0 <= i < |payments| => payments[i].status)
  }

  function Owners(ledger: seq<LedgerEntry>): seq<Id> {
    seq(|ledger|, i requires 0 <= i < |ledger| => ledger[i].paymentId)
  }

  function Operations(ledger: seq<LedgerEntry>): seq<LedgerOperation> {
    seq(|ledger|, i requires 0 <= i < |ledger| => ledger[i].operation)
  }

  function Keys(records: seq<KeyRow>): seq<Id> {
    seq(|records|, i requires 0 <= i < |records| => records[i].key)
  }

  function RecordPayments(records: seq<KeyRow>): seq<Option<Id>> {
    seq(|records|, i requires 0 <= i < |records| => records[i].record.paymentId)
  }

  function EventStatuses(events: seq<OutboxRow>): seq<WebhookStatus> {
    seq(|events|, i requires 0 <= i < |events| => events[i].status)
  }

  function EventTypes(events: seq<OutboxRow>): seq<EventType> {
    seq(|events|, i requires 0 <= i < |events| => events[i].event.eventType)
  }

  function EventVersions(events: seq<OutboxRow>): seq<(Id, int)> {
    seq(|events|, i requires 0 <= i < |events| => (events[i].event.paymentId, events[i].event.version))
  }

  function ExpectedReferences(expected: seq<ExpectedPayment>): seq<Id> {
    seq(|expected|, i requires 0 <= i < |expected| => expected[i].reference)
  }

  function ExpectedKeys(expected: seq<ExpectedPayment>): seq<Id> {
    seq(|expected|, i requires 0 <= i < |expected| => expected[i].key)
  }

  function ExpectedStatuses(expected: seq<ExpectedPayment>): seq<PaymentStatus> {
    seq(|expected|, i requires 0 <= i < |expected| => if expected[i].approved then Authorized else Declined)
  }

  function ExpectedTypes(expected: seq<ExpectedPayment>): seq<EventType> {
    seq(|expected|, i requires 0 <= i < |expected| => if expected[i].approved then AuthorizedEvent else DeclinedEvent)
  }

  /** How often each value occurs; values that do not occur have no entry. */
  function Counter<T(==)>(s: seq<T>): map<T, nat> {
    map x | x in s :: multiset(s)[x]
  }

  function Members<T(==)>(s: seq<T>): set<T> {
    set x | x in s
  }

  /** How many ledger entries each payment has. */
  function EntryCounts(rows: Rows): seq<int> {
    seq(|rows.payments|, i requires 0 <= i < |rows.payments| => multiset(Owners(rows.ledger))[rows.payments[i].id])
  }

  function ApprovedIn(expected: seq<ExpectedPayment>): set<int> {
    set i | 0 <= i < |expected| && expected[i].approved
  }

  function Approved(expected: seq<ExpectedPayment>): (n: nat)
    ensures n <= |expected|
  {
    FewIndices(ApprovedIn(expected), |expected|);
    |ApprovedIn(expected)|
  }

  // ----- the checks -------------------------------------------------------------------------------------------

  predicate Initial(p: Payment) {
    && p.version == 1 && p.captured == 0 && p.refunded == 0
    && (|| (p.status == Authorized && p.authorized == p.amount)
        || (p.status == Declined && p.authorized == 0))
  }

  predicate MatchesPayment(e: LedgerEntry, p: Payment) {
    e.paymentId == p.id && e.amount == p.authorized && e.currency == p.currency
  }

  predicate Matching(rows: Rows, e: LedgerEntry) {
    e.operation == AuthorizationEntry && exists p :: p in rows.payments && MatchesPayment(e, p)
  }

  predicate CompletedFor(rows: Rows, k: KeyRow) {
    && k.record.fingerprint.AuthorizeRequest?
    && k.record.paymentId.Some? && k.record.paymentId.value in PaymentIds(rows.payments)
    && k.record.snapshot.Some?
  }

  function InitialIn(rows: Rows): set<int> {
    set i | 0 <= i < |rows.payments| && Initial(rows.payments[i])
  }

  function MatchingIn(rows: Rows): set<int> {
    set i | 0 <= i < |rows.ledger| && Matching(rows, rows.ledger[i])
  }

  function CompletedIn(rows: Rows): set<int> {
    set i | 0 <= i < |rows.records| && CompletedFor(rows, rows.records[i])
  }

  predicate PaymentChecksPass(expected: seq<ExpectedPayment>, rows: Rows) {
    && |rows.payments| == |expected|
    && Members(ExpectedReferences(expected)) == Members(References(rows.payments))
    && Counter(ExpectedStatuses(expected)) == Counter(Statuses(rows.payments))
    && |InitialIn(rows)| == |expected|
  }

  predicate LedgerChecksPass(expected: seq<ExpectedPayment>, rows: Rows) {
    var approved := Approved(expected);
    && |rows.ledger| == approved
    && multiset(Shape(approved, |expected|)) == multiset(EntryCounts(rows))
    && map[AuthorizationEntry := approved] == Counter(Operations(rows.ledger))
    && |MatchingIn(rows)| == approved
  }

  function PaymentsNamed(records: seq<KeyRow>): set<Id> {
    set k | k in records && k.record.paymentId.Some? :: k.record.paymentId.value
  }

  predicate RecordChecksPass(expected: seq<ExpectedPayment>, rows: Rows) {
    && |rows.records| == |expected|
    && |CompletedIn(rows)| == |expected|
    && Members(ExpectedKeys(expected)) == Members(Keys(rows.records))
    && Members(PaymentIds(rows.payments)) == PaymentsNamed(rows.records)
  }

  predicate EventChecksPass(expected: seq<ExpectedPayment>, rows: Rows) {
    && |rows.events| == |expected|
    && map[Pending := |expected|] == Counter(EventStatuses(rows.events))
    && Counter(ExpectedTypes(expected)) == Counter(EventTypes(rows.events))
    && (set id | id in PaymentIds(rows.payments) :: (id, 1)) == Members(EventVersions(rows.events))
  }

  // ----- totals by currency -----------------------------------------------------------------------------------

  datatype Line = Line(payments: nat, paymentUnits: int, authorizedUnits: int, entries: nat, entryUnits: int)

  const NOTHING := Line(0, 0, 0, 0, 0)

  /** An amount of money in its currency. */
  type Priced = (Currency, int)

  function SumIn(amounts: seq<Priced>, c: Currency): int {
    if amounts == [] then 0
    else
      var last := amounts[|amounts| - 1];
      SumIn(amounts[..|amounts| - 1], c) + if last.0 == c then last.1 else 0
  }

  function CountIn(amounts: seq<Priced>, c: Currency): nat {
    if amounts == [] then 0
    else CountIn(amounts[..|amounts| - 1], c) + if amounts[|amounts| - 1].0 == c then 1 else 0
  }

  predicate Occurs(amounts: seq<Priced>, c: Currency) {
    exists i :: 0 <= i < |amounts| && amounts[i].0 == c
  }

  function Amounts(payments: seq<Payment>): seq<Priced> {
    seq(|payments|, i requires 0 <= i < |payments| => (payments[i].currency, payments[i].amount))
  }

  function Authorizations(payments: seq<Payment>): seq<Priced> {
    seq(|payments|, i requires 0 <= i < |payments| => (payments[i].currency, payments[i].authorized))
  }

  function Effects(ledger: seq<LedgerEntry>): seq<Priced> {
    seq(|ledger|, i requires 0 <= i < |ledger| => (ledger[i].currency, ledger[i].amount))
  }

  function ExpectedAmounts(expected: seq<ExpectedPayment>): seq<Priced> {
    seq(|expected|, i requires 0 <= i < |expected| => (expected[i].currency, expected[i].amount))
  }

  /** The approved payments only. */
  function ExpectedEffects(expected: seq<ExpectedPayment>): seq<Priced> {
    if expected == [] then []
    else
      var last := expected[|expected| - 1];
      ExpectedEffects(expected[..|expected| - 1]) + if last.approved then [(last.currency, last.amount)] else []
  }

  function ObservedLine(payments: seq<Payment>, ledger: seq<LedgerEntry>, c: Currency): Line {
    Line(CountIn(Amounts(payments), c), SumIn(Amounts(payments), c), SumIn(Authorizations(payments), c),
         CountIn(Effects(ledger), c), SumIn(Effects(ledger), c))
  }

  function ExpectedLine(expected: seq<ExpectedPayment>, c: Currency): Line {
    var amounts, effects := ExpectedAmounts(expected), ExpectedEffects(expected);
    Line(CountIn(amounts, c), SumIn(amounts, c), SumIn(effects, c), CountIn(effects, c), SumIn(effects, c))
  }

  ghost predicate CurrencyTotalsAgree(expected: seq<ExpectedPayment>, rows: Rows) {
    forall c ::
      && (Occurs(ExpectedAmounts(expected), c) <==>
            Occurs(Amounts(rows.payments), c) || Occurs(Effects(rows.ledger), c))
      && ExpectedLine(expected, c) == ObservedLine(rows.payments, rows.ledger, c)
  }

  function LineIn(summary: map<Currency, Line>, c: Currency): Line {
    if c in summary then summary[c] else NOTHING
  }

  lemma SumAppend(amounts: seq<Priced>, a: Priced)
    ensures forall c :: SumIn(amounts + [a], c) == SumIn(amounts, c) + if a.0 == c then a.1 else 0
    ensures forall c :: CountIn(amounts + [a], c) == CountIn(amounts, c) + if a.0 == c then 1 else 0
    ensures forall c :: Occurs(amounts + [a], c) <==> Occurs(amounts, c) || a.0 == c
  {
    assert (amounts + [a])[..|amounts|] == amounts;
    assert (amounts + [a])[|amounts|] == a;
    assert forall i :: 0 <= i < |amounts| ==> (amounts + [a])[i] == amounts[i];
  }

  function AddPayment(line: Line, p: Payment): Line {
    line.(payments := line.payments + 1,
          paymentUnits := line.paymentUnits + p.amount,
          authorizedUnits := line.authorizedUnits + p.authorized)
  }

  function AddEffect(line: Line, amount: int): Line {
    line.(entries := line.entries + 1, entryUnits := line.entryUnits + amount)
  }

  lemma ObservePayment(payments: seq<Payment>, p: Payment, c: Currency)
    ensures ObservedLine(payments + [p], [], c) ==
            if c == p.currency then AddPayment(ObservedLine(payments, [], c), p) else ObservedLine(payments, [], c)
  {
    assert Amounts(payments + [p]) == Amounts(payments) + [(p.currency, p.amount)];
    assert Authorizations(payments + [p]) == Authorizations(payments) + [(p.currency, p.authorized)];
    SumAppend(Amounts(payments), (p.currency, p.amount));
    SumAppend(Authorizations(payments), (p.currency, p.authorized));
  }

  lemma ObserveEffect(payments: seq<Payment>, ledger: seq<LedgerEntry>, e: LedgerEntry, c: Currency)
    ensures ObservedLine(payments, ledger + [e], c) ==
            var line := ObservedLine(payments, ledger, c); if c == e.currency then AddEffect(line, e.amount) else line
  {
    assert Effects(ledger + [e]) == Effects(ledger) + [(e.currency, e.amount)];
    SumAppend(Effects(ledger), (e.currency, e.amount));
  }

  lemma ExpectMore(expected: seq<ExpectedPayment>, e: ExpectedPayment, c: Currency)
    ensures Occurs(ExpectedAmounts(expected + [e]), c) <==> Occurs(ExpectedAmounts(expected), c) || c == e.currency
    ensures ExpectedLine(expected + [e], c) ==
            if c == e.currency then AddExpected(ExpectedLine(expected, c), e) else ExpectedLine(expected, c)
  {
    assert (expected + [e])[..|expected|] == expected;
    assert ExpectedAmounts(expected + [e]) == ExpectedAmounts(expected) + [(e.currency, e.amount)];
    SumAppend(ExpectedAmounts(expected), (e.currency, e.amount));
    SumAppend(ExpectedEffects(expected), (e.currency, e.amount));
    assert ExpectedEffects(expected) + [] == ExpectedEffects(expected);
  }

  function AddExpected(line: Line, e: ExpectedPayment): Line {
    var counted := line.(payments := line.payments + 1, paymentUnits := line.paymentUnits + e.amount);
    if e.approved then AddEffect(counted.(authorizedUnits := counted.authorizedUnits + e.amount), e.amount)
    else counted
  }

  ghost predicate Summarises(summary: map<Currency, Line>, payments: seq<Payment>, ledger: seq<LedgerEntry>) {
    forall c ::
      && (c in summary <==> Occurs(Amounts(payments), c) || Occurs(Effects(ledger), c))
      && LineIn(summary, c) == ObservedLine(payments, ledger, c)
  }

  ghost predicate SummarisesExpected(summary: map<Currency, Line>, expected: seq<ExpectedPayment>) {
    forall c ::
      && (c in summary <==> Occurs(ExpectedAmounts(expected), c))
      && LineIn(summary, c) == ExpectedLine(expected, c)
  }

  /** Payment columns first, then ledger columns, each row added to the line of its own currency. */
  method CurrencySummary(payments: seq<Payment>, ledger: seq<LedgerEntry>) returns (summary: map<Currency, Line>)
    ensures Summarises(summary, payments, ledger)
  {
    summary := map[];
    for i := 0 to |payments|
      invariant Summarises(summary, payments[..i], [])
    {
      ghost var before := summary;
      var p := payments[i];
      summary := summary[p.currency := AddPayment(LineIn(summary, p.currency), p)];
      assert payments[..i + 1] == payments[..i] + [p];
      PaymentCounted(before, payments[..i], p);
    }
    assert payments[..|payments|] == payments;
    for i := 0 to |ledger|
      invariant Summarises(summary, payments, ledger[..i])
    {
      ghost var before := summary;
      var e := ledger[i];
      summary := summary[e.currency := AddEffect(LineIn(summary, e.currency), e.amount)];
      assert ledger[..i + 1] == ledger[..i] + [e];
      EffectCounted(before, payments, ledger[..i], e);
    }
    assert ledger[..|ledger|] == ledger;
  }

  lemma PaymentCounted(summary: map<Currency, Line>, payments: seq<Payment>, p: Payment)
    requires Summarises(summary, payments, [])
    ensures Summarises(summary[p.currency := AddPayment(LineIn(summary, p.currency), p)], payments + [p], [])
  {
    assert Amounts(payments + [p]) == Amounts(payments) + [(p.currency, p.amount)];
    SumAppend(Amounts(payments), (p.currency, p.amount));
    forall c {:trigger LineIn(summary, c)}
      ensures ObservedLine(payments + [p], [], c) ==
              if c == p.currency then AddPayment(LineIn(summary, c), p) else LineIn(summary, c)
    {
      ObservePayment(payments, p, c);
    }
  }

  lemma EffectCounted(summary: map<Currency, Line>, payments: seq<Payment>, ledger: seq<LedgerEntry>, e: LedgerEntry)
    requires Summarises(summary, payments, ledger)
    ensures Summarises(summary[e.currency := AddEffect(LineIn(summary, e.currency), e.amount)], payments, ledger + [e])
  {
    assert Effects(ledger + [e]) == Effects(ledger) + [(e.currency, e.amount)];
    SumAppend(Effects(ledger), (e.currency, e.amount));
    forall c {:trigger LineIn(summary, c)}
      ensures ObservedLine(payments, ledger + [e], c) ==
              if c == e.currency then AddEffect(LineIn(summary, c), e.amount) else LineIn(summary, c)
    {
      ObserveEffect(payments, ledger, e, c);
    }
  }

  method ExpectedCurrencySummary(expected: seq<ExpectedPayment>) returns (summary: map<Currency, Line>)
    ensures SummarisesExpected(summary, expected)
  {
    summary := map[];
    for i := 0 to |expected|
      invariant SummarisesExpected(summary, expected[..i])
    {
      ghost var before := summary;
      var e := expected[i];
      summary := summary[e.currency := AddExpected(LineIn(summary, e.currency), e)];
      assert expected[..i + 1] == expected[..i] + [e];
      ExpectedCounted(before, expected[..i], e);
    }
    assert expected[..|expected|] == expected;
  }

  lemma ExpectedCounted(summary: map<Currency, Line>, expected: seq<ExpectedPayment>, e: ExpectedPayment)
    requires SummarisesExpected(summary, expected)
    ensures SummarisesExpected(summary[e.currency := AddExpected(LineIn(summary, e.currency), e)], expected + [e])
  {
    forall c {:trigger LineIn(summary, c)}
      ensures Occurs(ExpectedAmounts(expected + [e]), c) <==> c in summary || c == e.currency
      ensures ExpectedLine(expected + [e], c) ==
              if c == e.currency then AddExpected(LineIn(summary, c), e) else LineIn(summary, c)
    {
      ExpectMore(expected, e, c);
    }
  }

  ghost predicate Passes(expected: seq<ExpectedPayment>, rows: Rows) {
    && PaymentChecksPass(expected, rows)
    && LedgerChecksPass(expected, rows)
    && RecordChecksPass(expected, rows)
    && EventChecksPass(expected, rows)
    && CurrencyTotalsAgree(expected, rows)
  }

  method VerifyDatabase(expected: seq<ExpectedPayment>, rows: Rows) returns (passed: bool)
    ensures passed <==> Passes(expected, rows)
  {
    var observedTotals := CurrencySummary(rows.payments, rows.ledger);
    var expectedTotals := ExpectedCurrencySummary(expected);
    passed := && PaymentChecksPass(expected, rows)
              && LedgerChecksPass(expected, rows)
              && RecordChecksPass(expected, rows)
              && EventChecksPass(expected, rows)
              && expectedTotals == observedTotals;
    TotalsCompare(expectedTotals, observedTotals);
  }

  lemma TotalsCompare(a: map<Currency, Line>, b: map<Currency, Line>)
    ensures a == b <==> forall c :: (c in a <==> c in b) && LineIn(a, c) == LineIn(b, c)
  {
    if forall c :: (c in a <==> c in b) && LineIn(a, c) == LineIn(b, c) {
      forall c | c in a
        ensures a[c] == b[c]
      {
        assert LineIn(a, c) == LineIn(b, c);
      }
    }
  }

  // ----- counting ---------------------------------------------------------------------------------------------

  lemma {:induction false} FewIndices(s: set<int>, n: nat)
    requires forall i :: i in s ==> 0 <= i < n
    ensures |s| <= n
    ensures |s| == n <==> forall i :: 0 <= i < n ==> i in s
    decreases n
  {
    if n == 0 {
      assert forall i :: i in s <==> i in {};
    } else {
      var rest := s - {n - 1};
      FewIndices(rest, n - 1);
      assert s == if n - 1 in s then rest + {n - 1} else rest;
    }
  }

  /** Every value occurs once. */
  ghost predicate Once<T>(s: seq<T>) {
    forall x :: x in s ==> multiset(s)[x] == 1
  }

  function Places<T(==)>(s: seq<T>, x: T): set<int> {
    set i | 0 <= i < |s| && s[i] == x
  }

  lemma {:induction false} Multiplicity<T>(s: seq<T>, x: T)
    ensures multiset(s)[x] == |Places(s, x)|
    decreases |s|
  {
    var at := Places(s, x);
    if s == [] {
      assert at == {};
    } else {
      var last := |s| - 1;
      Multiplicity(s[..last], x);
      assert s == s[..last] + [s[last]];
      var before := Places(s[..last], x);
      assert at == if s[last] == x then before + {last} else before;
    }
  }

  /** There are at most as many values as places, and as many exactly when every value occurs once. */
  lemma {:induction false} MembersFit<T>(s: seq<T>)
    ensures |Members(s)| <= |s|
    ensures |Members(s)| == |s| <==> Once(s)
    decreases |s|
  {
    if s == [] {
      assert Members(s) == {};
    } else {
      var rest, x := s[..|s| - 1], s[|s| - 1];
      assert s == rest + [x];
      MembersFit(rest);
      assert Members(s) == Members(rest) + {x};
      if x in rest {
        assert multiset(s)[x] >= 2;
      } else {
        assert multiset(rest)[x] == 0;
        assert forall y :: y in rest ==> y != x && multiset(s)[y] == multiset(rest)[y] && y in s;
      }
    }
  }

  /** The pigeonhole: the same values in as many places as there are values. */
  lemma EachOnce<T>(xs: seq<T>, ys: seq<T>)
    requires Once(xs) && |xs| == |ys| && Members(xs) == Members(ys)
    ensures multiset(xs) == multiset(ys)
  {
    MembersFit(xs);
    MembersFit(ys);
    forall x | x in xs || x in ys
      ensures x in xs && x in ys
    {
      assert x in Members(xs) && x in Members(ys);
    }
  }

  lemma SameMultiset<T>(xs: seq<T>, ys: seq<T>)
    requires multiset(xs) == multiset(ys)
    ensures |xs| == |ys| && Members(xs) == Members(ys) && Counter(xs) == Counter(ys)
  {
    assert |xs| == |multiset(xs)| == |multiset(ys)| == |ys|;
    assert forall x :: x in xs <==> x in multiset(xs);
    assert forall x :: x in ys <==> x in multiset(ys);
  }

  lemma SameCounter<T>(xs: seq<T>, ys: seq<T>)
    requires Counter(xs) == Counter(ys)
    ensures multiset(xs) == multiset(ys)
  {
    forall x
      ensures multiset(xs)[x] == multiset(ys)[x]
    {
      assert x in Counter(xs) <==> x in xs;
      assert x in Counter(ys) <==> x in ys;
    }
  }

  lemma SubsetOfSameSize<T>(a: set<T>, b: set<T>)
    requires a <= b && |a| == |b|
    ensures a == b
  {
    assert b == a + (b - a);
    assert |b - a| == 0;
  }

  lemma Constant<T>(s: seq<T>, x: T)
    ensures (forall i :: 0 <= i < |s| ==> s[i] == x) && s != [] <==> map[x := |s|] == Counter(s) && s != []
  {
    Multiplicity(s, x);
    var at := Places(s, x);
    FewIndices(at, |s|);
    assert forall i :: 0 <= i < |s| ==> (s[i] == x <==> i in at);
    if s != [] && |at| == |s| {
      assert s[0] == x && forall y :: y in s ==> y == x;
      assert Counter(s).Keys == {x};
    }
    if s != [] && map[x := |s|] == Counter(s) {
      assert x in map[x := |s|];
      assert |s| == Counter(s)[x] == multiset(s)[x];
    }
  }

  // ----- what the checks force --------------------------------------------------------------------------------

  /** Primary keys, the foreign key of ledger entries, their check constraint, and the queries by payment. */
  ghost predicate Loaded(rows: Rows) {
    && Once(PaymentIds(rows.payments))
    && Once(Keys(rows.records))
    && (forall e :: e in rows.ledger ==> e.paymentId in PaymentIds(rows.payments) && e.amount > 0)
  }

  /** Every expected payment has its own merchant reference and its own idempotency key. */
  ghost predicate Named(expected: seq<ExpectedPayment>) {
    Once(ExpectedReferences(expected)) && Once(ExpectedKeys(expected))
  }

  function EntriesFor(rows: Rows, p: Payment): nat {
    multiset(Owners(rows.ledger))[p.id]
  }

  /** An authorized payment has exactly one ledger entry, a declined one has none. */
  ghost predicate LedgerSound(rows: Rows) {
    && (forall p :: p in rows.payments ==> EntriesFor(rows, p) == if p.status == Authorized then 1 else 0)
    && (forall e :: e in rows.ledger ==> Authorizes(rows, e))
  }

  predicate Backs(p: Payment, e: LedgerEntry) {
    p.status == Authorized && p.id == e.paymentId && p.amount == e.amount && p.currency == e.currency
  }

  /** The entry records the authorization of its payment, with the amount and the currency of that payment. */
  ghost predicate Authorizes(rows: Rows, e: LedgerEntry) {
    && e.operation == AuthorizationEntry
    && exists p :: p in rows.payments && Backs(p, e)
  }

  /** Every payment is an initial one, and each expected reference belongs to exactly one. */
  ghost predicate PaymentsSound(expected: seq<ExpectedPayment>, rows: Rows) {
    && multiset(References(rows.payments)) == multiset(ExpectedReferences(expected))
    && forall p :: p in rows.payments ==> Initial(p)
  }

  /** Completed authorization records stand one to one with the payments, and with the expected keys. */
  ghost predicate RecordsSound(expected: seq<ExpectedPayment>, rows: Rows) {
    && (forall k :: k in rows.records ==> CompletedFor(rows, k))
    && multiset(Keys(rows.records)) == multiset(ExpectedKeys(expected))
    && forall id :: multiset(RecordPayments(rows.records))[Some(id)] == multiset(PaymentIds(rows.payments))[id]
  }

  /** Every payment has exactly one event, of version one and not sent yet. */
  ghost predicate EventsSound(rows: Rows) {
    && (forall e :: e in rows.events ==> e.status == Pending)
    && multiset(EventVersions(rows.events)) == multiset(FirstVersions(rows.payments))
  }

  function FirstVersions(payments: seq<Payment>): seq<(Id, int)> {
    seq(|payments|, i requires 0 <= i < |payments| => (payments[i].id, 1))
  }

  ghost predicate Sound(expected: seq<ExpectedPayment>, rows: Rows) {
    && PaymentsSound(expected, rows) && LedgerSound(rows) && RecordsSound(expected, rows) && EventsSound(rows)
  }

  /** What is compared in total only: no single payment is tied to its own outcome by these. */
  ghost predicate AggregatesAgree(expected: seq<ExpectedPayment>, rows: Rows) {
    && Approved(expected) > 0
    && Counter(ExpectedStatuses(expected)) == Counter(Statuses(rows.payments))
    && Counter(ExpectedTypes(expected)) == Counter(EventTypes(rows.events))
    && CurrencyTotalsAgree(expected, rows)
  }

  lemma PaymentsForced(expected: seq<ExpectedPayment>, rows: Rows)
    requires Named(expected) && Counter(ExpectedStatuses(expected)) == Counter(Statuses(rows.payments))
    ensures PaymentChecksPass(expected, rows) <==> PaymentsSound(expected, rows)
  {
    var initial := InitialIn(rows);
    FewIndices(initial, |rows.payments|);
    assert forall i :: 0 <= i < |rows.payments| ==> (Initial(rows.payments[i]) <==> i in initial);
    if PaymentChecksPass(expected, rows) {
      EachOnce(ExpectedReferences(expected), References(rows.payments));
    }
    if PaymentsSound(expected, rows) {
      SameMultiset(References(rows.payments), ExpectedReferences(expected));
    }
  }

  lemma EventsForced(expected: seq<ExpectedPayment>, rows: Rows)
    requires Loaded(rows) && |rows.payments| == |expected| && expected != []
    requires Counter(ExpectedTypes(expected)) == Counter(EventTypes(rows.events))
    ensures EventChecksPass(expected, rows) <==> EventsSound(rows)
  {
    var pairs := set id | id in PaymentIds(rows.payments) :: (id, 1);
    assert pairs == Members(FirstVersions(rows.payments)) by { PairsOfIds(rows.payments); }
    FirstVersionsOnce(rows.payments);
    Constant(EventStatuses(rows.events), Pending);
    assert forall i :: 0 <= i < |rows.events| ==> EventStatuses(rows.events)[i] == rows.events[i].status;
    if EventChecksPass(expected, rows) {
      EachOnce(FirstVersions(rows.payments), EventVersions(rows.events));
    }
    if EventsSound(rows) {
      SameMultiset(EventVersions(rows.events), FirstVersions(rows.payments));
    }
  }

  lemma PairsOfIds(payments: seq<Payment>)
    ensures (set id | id in PaymentIds(payments) :: (id, 1)) == Members(FirstVersions(payments))
  {
    forall i | 0 <= i < |payments|
      ensures FirstVersions(payments)[i] == (PaymentIds(payments)[i], 1)
    {
    }
    forall id | id in PaymentIds(payments)
      ensures (id, 1) in FirstVersions(payments)
    {
      var i :| 0 <= i < |payments| && PaymentIds(payments)[i] == id;
      assert FirstVersions(payments)[i] == (id, 1);
    }
  }

  lemma FirstVersionsOnce(payments: seq<Payment>)
    requires Once(PaymentIds(payments))
    ensures Once(FirstVersions(payments))
  {
    var ids, pairs := PaymentIds(payments), FirstVersions(payments);
    forall x | x in pairs
      ensures multiset(pairs)[x] == 1
    {
      var k :| 0 <= k < |pairs| && pairs[k] == x;
      assert ids[k] == x.0 && x.0 in ids;
      Multiplicity(pairs, x);
      Multiplicity(ids, x.0);
      assert forall i :: 0 <= i < |ids| ==> (pairs[i] == x <==> ids[i] == x.0);
      assert Places(pairs, x) == Places(ids, x.0);
    }
  }

  lemma RecordsForced(expected: seq<ExpectedPayment>, rows: Rows)
    requires Loaded(rows) && Named(expected) && |rows.payments| == |expected|
    ensures RecordChecksPass(expected, rows) <==> RecordsSound(expected, rows)
  {
    var completed := CompletedIn(rows);
    FewIndices(completed, |rows.records|);
    assert forall i :: 0 <= i < |rows.records| ==> (CompletedFor(rows, rows.records[i]) <==> i in completed);
    if RecordChecksPass(expected, rows) {
      EachOnce(ExpectedKeys(expected), Keys(rows.records));
    }
    if RecordsSound(expected, rows) {
      SameMultiset(Keys(rows.records), ExpectedKeys(expected));
    }
    if |rows.records| == |expected| && forall k :: k in rows.records ==> CompletedFor(rows, k) {
      RecordOwners(rows);
    }
  }

  function OwnerOf(k: KeyRow): Id {
    if k.record.paymentId.Some? then k.record.paymentId.value else 0
  }

  function OwnersOf(rows: Rows): seq<Id> {
    seq(|rows.records|, i requires 0 <= i < |rows.records| => OwnerOf(rows.records[i]))
  }

  lemma RecordOwners(rows: Rows)
    requires Loaded(rows) && |rows.records| == |rows.payments|
    requires forall k :: k in rows.records ==> CompletedFor(rows, k)
    ensures Members(PaymentIds(rows.payments)) == PaymentsNamed(rows.records) <==>
            forall id :: multiset(RecordPayments(rows.records))[Some(id)] == multiset(PaymentIds(rows.payments))[id]
  {
    var ids, owners, wrapped := PaymentIds(rows.payments), OwnersOf(rows), RecordPayments(rows.records);
    forall i | 0 <= i < |owners|
      ensures wrapped[i] == Some(owners[i])
    {
      assert CompletedFor(rows, rows.records[i]);
    }
    forall id
      ensures multiset(wrapped)[Some(id)] == multiset(owners)[id]
    {
      Multiplicity(wrapped, Some(id));
      Multiplicity(owners, id);
      assert Places(wrapped, Some(id)) == Places(owners, id);
    }
    var named := PaymentsNamed(rows.records);
    forall id
      ensures id in named <==> id in owners
    {
      if id in owners {
        var i :| 0 <= i < |owners| && owners[i] == id;
        assert rows.records[i] in rows.records;
      }
      if id in named {
        var k :| k in rows.records && k.record.paymentId == Some(id);
        var i :| 0 <= i < |rows.records| && rows.records[i] == k;
        assert owners[i] == id;
      }
    }
    if Members(ids) == named {
      assert named == Members(owners);
      EachOnce(ids, owners);
    }
    if forall id :: multiset(wrapped)[Some(id)] == multiset(ids)[id] {
      assert forall id :: multiset(owners)[id] == multiset(ids)[id];
      assert multiset(owners) == multiset(ids);
      SameMultiset(owners, ids);
    }
  }

  ghost function AuthorizedPlaces(payments: seq<Payment>): set<int> {
    set i | 0 <= i < |payments| && payments[i].status == Authorized
  }

  /** One ledger entry per approval, as the sorted list of counts has it. */
  function Shape(approved: nat, n: nat): seq<int>
    requires approved <= n
  {
    seq(approved, i => 1) + seq(n - approved, i => 0)
  }

  lemma ShapeCounts(approved: nat, n: nat)
    requires approved <= n
    ensures multiset(Shape(approved, n))[1] == approved && multiset(Shape(approved, n))[0] == n - approved
  {
    var s := Shape(approved, n);
    Multiplicity(s, 1);
    Multiplicity(s, 0);
    var ones, zeros := Places(s, 1), Places(s, 0);
    FewIndices(ones, approved);
    assert forall i :: 0 <= i < approved ==> s[i] == 1 && i in ones;
    assert forall i :: i in zeros <==> 0 <= i < n && i !in ones;
    Complement(ones, zeros, n);
  }

  lemma Complement(a: set<int>, b: set<int>, n: nat)
    requires forall i :: i in a ==> 0 <= i < n
    requires forall i :: i in b <==> 0 <= i < n && i !in a
    ensures |a| + |b| == n
  {
    FewIndices(a + b, n);
    assert |a + b| == |a| + |b| by { assert a !! b; }
  }

  lemma ApprovedPlaces(expected: seq<ExpectedPayment>, payments: seq<Payment>)
    requires Counter(ExpectedStatuses(expected)) == Counter(Statuses(payments))
    ensures |AuthorizedPlaces(payments)| == Approved(expected)
  {
    var wanted, found := ExpectedStatuses(expected), Statuses(payments);
    SameCounter(wanted, found);
    Multiplicity(wanted, Authorized);
    Multiplicity(found, Authorized);
    assert forall i :: 0 <= i < |found| ==> found[i] == payments[i].status;
    assert AuthorizedPlaces(payments) == Places(found, Authorized);
    assert ApprovedIn(expected) == Places(wanted, Authorized);
  }

  lemma OnePlace(ids: seq<Id>, i: nat, j: nat)
    requires Once(ids) && i < |ids| && j < |ids| && ids[i] == ids[j]
    ensures i == j
  {
    Multiplicity(ids, ids[i]);
    var at := Places(ids, ids[i]);
    assert ids[i] in ids;
    assert i in at && |at - {i}| == 0;
    assert j !in at - {i};
  }

  lemma SamePayment(rows: Rows, p: Payment, q: Payment)
    requires Loaded(rows) && p in rows.payments && q in rows.payments && p.id == q.id
    ensures p == q
  {
    var i :| 0 <= i < |rows.payments| && rows.payments[i] == p;
    var j :| 0 <= j < |rows.payments| && rows.payments[j] == q;
    assert PaymentIds(rows.payments)[i] == p.id && PaymentIds(rows.payments)[j] == q.id;
    OnePlace(PaymentIds(rows.payments), i, j);
  }

  lemma AllMatch(rows: Rows)
    ensures |MatchingIn(rows)| == |rows.ledger| <==> forall e :: e in rows.ledger ==> Matching(rows, e)
  {
    FewIndices(MatchingIn(rows), |rows.ledger|);
    assert forall i :: 0 <= i < |rows.ledger| ==> (Matching(rows, rows.ledger[i]) <==> i in MatchingIn(rows));
  }

  /** Someone owns an entry exactly when their count is not zero, and then they are authorized. */
  lemma OwnersAreAuthorized(rows: Rows, p: Payment)
    requires Loaded(rows) && p in rows.payments && Initial(p) && EntriesFor(rows, p) > 0
    requires forall e :: e in rows.ledger ==> Matching(rows, e)
    ensures p.status == Authorized
  {
    assert p.id in multiset(Owners(rows.ledger));
    var j :| 0 <= j < |rows.ledger| && Owners(rows.ledger)[j] == p.id;
    assert rows.ledger[j] in rows.ledger;
    var q :| q in rows.payments && MatchesPayment(rows.ledger[j], q);
    SamePayment(rows, p, q);
  }

  lemma MatchingAuthorizes(rows: Rows, e: LedgerEntry)
    requires Loaded(rows) && e in rows.ledger && forall p :: p in rows.payments ==> Initial(p)
    ensures Matching(rows, e) <==> Authorizes(rows, e)
  {
    if Matching(rows, e) {
      var p :| p in rows.payments && MatchesPayment(e, p);
      assert Initial(p);
    }
    if Authorizes(rows, e) {
      var p :| p in rows.payments && Backs(p, e);
      assert MatchesPayment(e, p);
    }
  }

  /** The counts are those of the shape exactly when each is zero or one and as many are one as were approved. */
  lemma ShapeMeans(counts: seq<int>, approved: nat)
    requires approved <= |counts|
    ensures multiset(Shape(approved, |counts|)) == multiset(counts)
            <==> (forall i :: 0 <= i < |counts| ==> counts[i] in {0, 1}) && |Places(counts, 1)| == approved
  {
    var n, shape := |counts|, Shape(approved, |counts|);
    ShapeCounts(approved, n);
    Multiplicity(counts, 1);
    Multiplicity(counts, 0);
    if multiset(shape) == multiset(counts) {
      forall i | 0 <= i < n
        ensures counts[i] in {0, 1}
      {
        assert counts[i] in multiset(shape);
        assert counts[i] in shape;
      }
    }
    if (forall i :: 0 <= i < n ==> counts[i] in {0, 1}) && |Places(counts, 1)| == approved {
      Complement(Places(counts, 1), Places(counts, 0), n);
      forall x
        ensures multiset(shape)[x] == multiset(counts)[x]
      {
        if x > 1 { assert x !in shape && x !in counts; }
      }
    }
  }

  lemma LedgerForces(expected: seq<ExpectedPayment>, rows: Rows)
    requires Loaded(rows) && LedgerChecksPass(expected, rows) && |rows.payments| == |expected|
    requires Counter(ExpectedStatuses(expected)) == Counter(Statuses(rows.payments))
    requires forall p :: p in rows.payments ==> Initial(p)
    ensures LedgerSound(rows) && Approved(expected) > 0
  {
    var counts := EntryCounts(rows);
    var ones, authorized := Places(counts, 1), AuthorizedPlaces(rows.payments);
    AllMatch(rows);
    forall e | e in rows.ledger
      ensures Authorizes(rows, e)
    {
      MatchingAuthorizes(rows, e);
    }
    ShapeMeans(counts, Approved(expected));
    forall i | i in ones
      ensures i in authorized
    {
      assert counts[i] == EntriesFor(rows, rows.payments[i]);
      OwnersAreAuthorized(rows, rows.payments[i]);
    }
    ApprovedPlaces(expected, rows.payments);
    SubsetOfSameSize(ones, authorized);
    forall p | p in rows.payments
      ensures EntriesFor(rows, p) == if p.status == Authorized then 1 else 0
    {
      var i :| 0 <= i < |rows.payments| && rows.payments[i] == p;
      assert counts[i] == EntriesFor(rows, p);
      assert i in ones <==> i in authorized;
    }
    assert AuthorizationEntry in Counter(Operations(rows.ledger));
  }

  function IdsAt(ids: seq<Id>, places: set<int>): set<Id> {
    set i | i in places && 0 <= i < |ids| :: ids[i]
  }

  lemma {:induction false} DifferentIds(ids: seq<Id>, places: set<int>, n: nat)
    requires Once(ids) && n <= |ids| && forall i :: i in places ==> 0 <= i < n
    ensures |IdsAt(ids, places)| == |places|
    decreases n
  {
    if n == 0 {
      FewIndices(places, 0);
      assert IdsAt(ids, places) == {};
    } else {
      var rest, last := places - {n - 1}, ids[n - 1];
      DifferentIds(ids, rest, n - 1);
      forall j | j in rest
        ensures ids[j] != last
      {
        if ids[j] == last { OnePlace(ids, j, n - 1); }
      }
      if n - 1 in places {
        assert places == rest + {n - 1};
        assert IdsAt(ids, places) == IdsAt(ids, rest) + {last};
      } else {
        assert places == rest;
      }
    }
  }

  /** One entry for each authorized payment and no other: there are as many entries as such payments. */
  lemma AsManyEntries(rows: Rows)
    requires Loaded(rows) && LedgerSound(rows)
    ensures |rows.ledger| == |AuthorizedPlaces(rows.payments)|
  {
    var ids, owners, places := PaymentIds(rows.payments), Owners(rows.ledger), AuthorizedPlaces(rows.payments);
    forall id
      ensures id in owners <==> id in IdsAt(ids, places)
      ensures id in owners ==> multiset(owners)[id] == 1
    {
      if id in owners {
        var j :| 0 <= j < |owners| && owners[j] == id;
        assert rows.ledger[j] in rows.ledger && id in ids;
        var i :| 0 <= i < |ids| && ids[i] == id;
        assert EntriesFor(rows, rows.payments[i]) == multiset(owners)[id] > 0;
        assert i in places;
      }
      if id in IdsAt(ids, places) {
        var i :| i in places && ids[i] == id;
        assert rows.payments[i] in rows.payments;
        assert multiset(owners)[id] == EntriesFor(rows, rows.payments[i]) == 1;
      }
    }
    assert Members(owners) == IdsAt(ids, places);
    MembersFit(owners);
    DifferentIds(ids, places, |ids|);
  }

  lemma LedgerForced(expected: seq<ExpectedPayment>, rows: Rows)
    requires Loaded(rows) && LedgerSound(rows) && Approved(expected) > 0 && |rows.payments| == |expected|
    requires Counter(ExpectedStatuses(expected)) == Counter(Statuses(rows.payments))
    requires forall p :: p in rows.payments ==> Initial(p)
    ensures LedgerChecksPass(expected, rows)
  {
    AsManyEntries(rows);
    ApprovedPlaces(expected, rows.payments);
    OneEntryEach(rows);
    ShapeMeans(EntryCounts(rows), Approved(expected));
    EntriesMatch(rows);
    AllMatch(rows);
    Constant(Operations(rows.ledger), AuthorizationEntry);
  }

  lemma OneEntryEach(rows: Rows)
    requires LedgerSound(rows)
    ensures forall i :: 0 <= i < |rows.payments| ==> EntryCounts(rows)[i] in {0, 1}
    ensures Places(EntryCounts(rows), 1) == AuthorizedPlaces(rows.payments)
  {
    forall i | 0 <= i < |rows.payments|
      ensures EntryCounts(rows)[i] == if rows.payments[i].status == Authorized then 1 else 0
    {
      assert rows.payments[i] in rows.payments;
      assert EntryCounts(rows)[i] == EntriesFor(rows, rows.payments[i]);
    }
  }

  lemma EntriesMatch(rows: Rows)
    requires Loaded(rows) && LedgerSound(rows) && forall p :: p in rows.payments ==> Initial(p)
    ensures forall e :: e in rows.ledger ==> Matching(rows, e)
    ensures forall i :: 0 <= i < |rows.ledger| ==> Operations(rows.ledger)[i] == AuthorizationEntry
  {
    forall e | e in rows.ledger
      ensures Matching(rows, e)
    {
      MatchingAuthorizes(rows, e);
    }
    forall i | 0 <= i < |rows.ledger|
      ensures Operations(rows.ledger)[i] == AuthorizationEntry
    {
      assert rows.ledger[i] in rows.ledger;
    }
  }

  /**
   * The verdict is right in both directions. The checks pass exactly when every authorized payment has one
   * authorization entry of its amount and currency and every declined one none, every payment has one unsent event
   * of version one, records, keys and payments match one to one, and the compared totals agree.
   */
  lemma PassesExactly(expected: seq<ExpectedPayment>, rows: Rows)
    requires Loaded(rows) && Named(expected)
    ensures Passes(expected, rows) <==> Sound(expected, rows) && AggregatesAgree(expected, rows)
  {
    if Counter(ExpectedStatuses(expected)) == Counter(Statuses(rows.payments)) {
      PaymentsForced(expected, rows);
      if PaymentsSound(expected, rows) {
        SameMultiset(References(rows.payments), ExpectedReferences(expected));
        RecordsForced(expected, rows);
        if LedgerChecksPass(expected, rows) { LedgerForces(expected, rows); }
        if LedgerSound(rows) && Approved(expected) > 0 { LedgerForced(expected, rows); }
        if expected != [] && Counter(ExpectedTypes(expected)) == Counter(EventTypes(rows.events)) {
          EventsForced(expected, rows);
        }
      }
    }
  }

  lemma OtherChecksIgnoreEvents(rows: Rows, other: Rows)
    requires other == rows.(events := other.events)
    ensures InitialIn(other) == InitialIn(rows) && EntryCounts(other) == EntryCounts(rows)
    ensures MatchingIn(other) == MatchingIn(rows) && CompletedIn(other) == CompletedIn(rows)
  {
    assert forall e :: Matching(other, e) <==> Matching(rows, e);
    assert forall k :: CompletedFor(other, k) <==> CompletedFor(rows, k);
  }

  /**
   * What the checks leave open: event types are compared in total only, so the same rows with the types handed out
   * to other payments get the same verdict.
   */
  lemma TypesAreOnlyCounted(expected: seq<ExpectedPayment>, rows: Rows, events: seq<OutboxRow>)
    requires EventVersions(events) == EventVersions(rows.events) && EventStatuses(events) == EventStatuses(rows.events)
    requires multiset(EventTypes(events)) == multiset(EventTypes(rows.events))
    ensures Passes(expected, rows.(events := events)) <==> Passes(expected, rows)
  {
    SameMultiset(EventTypes(events), EventTypes(rows.events));
    assert |events| == |EventVersions(events)| == |rows.events|;
    OtherChecksIgnoreEvents(rows, rows.(events := events));
  }

  // ----- the workload profiles --------------------------------------------------------------------------------

  const JPY_AMOUNT := 2_500
  const USD_AMOUNT := 1_099

  datatype Profile = Smoke | AuthorizationLoad | Retrieval | IdempotentBurst | Mixed

  datatype Phase = Setup | Warmup | Load

  /** Names are numbers here; like the originals they tell phase and index apart within one run. */
  function NameOf(phase: Phase, index: nat): Id {
    3 * index + match phase case Setup => 0 case Warmup => 1 case Load => 2
  }

  function Work(phase: Phase, index: nat, approved: bool): ExpectedPayment {
    var currency := if index % 2 == 0 then JPY else USD;
    ExpectedPayment(NameOf(phase, index), NameOf(phase, index),
                    if currency == JPY then JPY_AMOUNT else USD_AMOUNT, currency, approved)
  }

  /** The payments of one phase, of which the first ones are approved. */
  function PhaseOf(phase: Phase, n: nat, approved: nat): seq<ExpectedPayment> {
    seq(n, i requires 0 <= i < n => Work(phase, i, i < approved))
  }

  function ExpectedPayments(profile: Profile): seq<ExpectedPayment> {
    match profile
    case Smoke => PhaseOf(Phase.Load, 5, 4)
    case AuthorizationLoad => PhaseOf(Warmup, 5, 5) + PhaseOf(Phase.Load, 150, 150)
    case Retrieval => PhaseOf(Setup, 20, 20)
    case IdempotentBurst => PhaseOf(Setup, 1, 1)
    case Mixed => PhaseOf(Setup, 20, 20) + PhaseOf(Phase.Load, 120, 120)
  }

  lemma DistinctIsOnce(s: seq<Id>)
    requires Distinct(s)
    ensures Once(s)
  {
    forall x | x in s
      ensures multiset(s)[x] == 1
    {
      var i :| 0 <= i < |s| && s[i] == x;
      Multiplicity(s, x);
      assert Places(s, x) == {i};
    }
  }

  /** Two phases, or one phase and nothing else. */
  lemma PhasesApart(a: Phase, n: nat, k: nat, b: Phase, m: nat, l: nat)
    requires a != b
    ensures var all := PhaseOf(a, n, k) + PhaseOf(b, m, l);
            Distinct(ExpectedReferences(all)) && Distinct(ExpectedKeys(all))
  {
    var all := PhaseOf(a, n, k) + PhaseOf(b, m, l);
    forall i | 0 <= i < |all|
      ensures all[i].reference == all[i].key == if i < n then NameOf(a, i) else NameOf(b, i - n)
    {
      assert all[i] == if i < n then PhaseOf(a, n, k)[i] else PhaseOf(b, m, l)[i - n];
      assert all[i] == if i < n then Work(a, i, i < k) else Work(b, i - n, i - n < l);
    }
    forall i, j | 0 <= i < j < |all|
      ensures all[i].reference != all[j].reference
    {
      var x, y := if i < n then i else i - n, if j < n then j else j - n;
      if all[i].reference == all[j].reference {
        assert false;
      }
    }
  }

  lemma SomeApproved(expected: seq<ExpectedPayment>)
    requires expected != [] && expected[0].approved
    ensures Approved(expected) > 0
  {
    assert 0 in ApprovedIn(expected);
  }

  lemma FirstApproved(profile: Profile)
    ensures ExpectedPayments(profile) != [] && ExpectedPayments(profile)[0].approved
  {
    forall phase, n: nat, k: nat | 0 < n && 0 < k
      ensures PhaseOf(phase, n, k)[0].approved
    {
      assert PhaseOf(phase, n, k)[0] == Work(phase, 0, 0 < k);
    }
  }

  /** Every profile names its payments apart and approves at least one. */
  lemma ProfilesAreNamed(profile: Profile)
    ensures Named(ExpectedPayments(profile)) && Approved(ExpectedPayments(profile)) > 0
  {
    var expected := ExpectedPayments(profile);
    match profile {
      case AuthorizationLoad => PhasesApart(Warmup, 5, 5, Phase.Load, 150, 150);
      case Mixed => PhasesApart(Setup, 20, 20, Phase.Load, 120, 120);
      case Smoke => PhasesApart(Phase.Load, 5, 4, Setup, 0, 0);
      case Retrieval => PhasesApart(Setup, 20, 20, Warmup, 0, 0);
      case IdempotentBurst => PhasesApart(Setup, 1, 1, Warmup, 0, 0);
    }
    assert forall phase :: PhaseOf(phase, 0, 0) == [];
    assert expected + [] == expected;
    FirstApproved(profile);
    SomeApproved(expected);
    DistinctIsOnce(ExpectedReferences(expected));
    DistinctIsOnce(ExpectedKeys(expected));
  }

  /** For the profiles the code has, the verdict is the per-payment facts and the compared totals, nothing else. */
  lemma ProfileVerdict(profile: Profile, rows: Rows)
    requires Loaded(rows)
    ensures
      var expected := ExpectedPayments(profile);
      Passes(expected, rows) <==>
        && Sound(expected, rows)
        && Counter(ExpectedStatuses(expected)) == Counter(Statuses(rows.payments))
        && Counter(ExpectedTypes(expected)) == Counter(EventTypes(rows.events))
        && CurrencyTotalsAgree(expected, rows)
  {
    ProfilesAreNamed(profile);
    PassesExactly(ExpectedPayments(profile), rows);
  }

  /** How many payments each profile has, how many of them are approved, and what they cost. */
  lemma ProfileSizes(profile: Profile)
    ensures
      var n := |ExpectedPayments(profile)|;
      && (profile == Smoke ==> n == 5) && (profile == AuthorizationLoad ==> n == 155)
      && (profile == Retrieval ==> n == 20) && (profile == IdempotentBurst ==> n == 1)
      && (profile == Mixed ==> n == 140)
    ensures
      forall i :: 0 <= i < |ExpectedPayments(profile)| ==>
        var e := ExpectedPayments(profile)[i];
        && e.amount == (if e.currency == JPY then 2500 else 1099)
        && (e.approved <==> profile != Smoke || i < 4)
  {
    forall phase, n: nat, k: nat
      ensures |PhaseOf(phase, n, k)| == n
      ensures forall i :: 0 <= i < n ==> PhaseOf(phase, n, k)[i] == Work(phase, i, i < k)
    {
    }
  }

  /**
   * What passing says of each payment, spelled out: it is as it was created, with one entry of its amount if it was
   * authorized and none if not, one completed record, and one unsent event of version one.
   */
  lemma PassingMeans(expected: seq<ExpectedPayment>, rows: Rows, p: Payment)
    requires Loaded(rows) && Named(expected) && Passes(expected, rows) && p in rows.payments
    ensures p.version == 1 && p.captured == 0 && p.refunded == 0
    ensures (p.status == Authorized && p.authorized == p.amount) || (p.status == Declined && p.authorized == 0)
    ensures multiset(Owners(rows.ledger))[p.id] == if p.status == Authorized then 1 else 0
    ensures forall e :: e in rows.ledger && e.paymentId == p.id ==>
              e.operation == AuthorizationEntry && e.amount == p.amount && e.currency == p.currency
    ensures multiset(RecordPayments(rows.records))[Some(p.id)] == 1
    ensures forall k :: k in rows.records ==> k.record.fingerprint.AuthorizeRequest? && k.record.snapshot.Some?
    ensures multiset(EventVersions(rows.events))[(p.id, 1)] == 1
    ensures forall e :: e in rows.events ==> e.status == Pending
  {
    PassesExactly(expected, rows);
    assert EntriesFor(rows, p) == if p.status == Authorized then 1 else 0;
    forall e | e in rows.ledger && e.paymentId == p.id
      ensures e.operation == AuthorizationEntry && e.amount == p.amount && e.currency == p.currency
    {
      var q :| q in rows.payments && Backs(q, e);
      SamePayment(rows, p, q);
    }
    var i :| 0 <= i < |rows.payments| && rows.payments[i] == p;
    assert PaymentIds(rows.payments)[i] == p.id && FirstVersions(rows.payments)[i] == (p.id, 1);
    FirstVersionsOnce(rows.payments);
    forall k | k in rows.records
      ensures k.record.fingerprint.AuthorizeRequest? && k.record.snapshot.Some?
    {
      assert CompletedFor(rows, k);
    }
  }
}
