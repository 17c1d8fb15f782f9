/**
 * The verifier joined with the runs it judges: a run whose committed requests are the authorizations of a workload,
 * in any order and with retries, replays, refusals and timeouts among them, leaves rows that pass.
 */
module ProfileRuns {
  import opened Wrappers
  import opened Domain
  import opened Tables
  import opened Ordering
  import opened Payments
  import opened Confirmations
  import opened Runs
  import opened Invariants
  import opened CoreRuns
  import opened Evidence
  import opened Retries
  import opened Verifier
  import opened QueryOrder

  // ----- workload runs ----------------------------------------------------------------------------------------

  /** The step asks for this payment of the workload. */
  predicate Asks(s: Step, e: ExpectedPayment) {
    && s.AuthorizeStep?
    && s.key == e.key && s.merchantReference == e.reference && s.amount == e.amount && s.currency == e.currency
    && (if e.approved then s.token == Approve else s.token != Approve && s.token != AwaitConfirmation)
  }

  ghost predicate InWorkload(t: Tables, s: Step, expected: seq<ExpectedPayment>) {
    s.IsRequest() && Committed(t, s) ==> exists e :: e in expected && Asks(s, e)
  }

  /** Only authorizations of the workload commit; whatever else is tried is refused or replayed. */
  ghost predicate WorkloadRun(t: Tables, steps: seq<Step>, expected: seq<ExpectedPayment>)
    decreases |steps|
  {
    steps == [] || (InWorkload(t, steps[0], expected) && WorkloadRun(Apply(t, steps[0]), steps[1..], expected))
  }

  /** Every payment of the workload has been committed. */
  ghost predicate AllCommitted(t: Tables, expected: seq<ExpectedPayment>) {
    forall e :: e in expected ==> e.key in t.idempotency
  }

  /** The rows of the store as the queries return them, with no delivery attempted. */
  ghost predicate Listed(t: Tables, rows: Rows) {
    && Once(PaymentIds(rows.payments)) && Once(Keys(rows.records))
    && (forall p: Payment :: p in rows.payments <==> p.id in t.payments && t.payments[p.id] == p)
    && (forall k: KeyRow :: k in rows.records <==> k.key in t.idempotency && t.idempotency[k.key] == k.record)
    && multiset(rows.ledger) == multiset(t.ledger)
    && multiset(rows.events) == multiset(PendingRows(t.outbox))
  }

  function PendingRows(outbox: seq<Event>): seq<OutboxRow> {
    seq(|outbox|, i requires 0 <= i < |outbox| => OutboxRow(outbox[i], Delivery.Pending))
  }

  // ----- what such a run builds -------------------------------------------------------------------------------

  /** One payment of the workload, the request that asked for it, and the row it became. */
  datatype Made = Made(expected: ExpectedPayment, request: Request, row: Payment)

  ghost predicate Fits(m: Made) {
    && m.request.AuthorizeRequest?
    && Verifier.Initial(m.row)
    && m.row.merchantReference == m.expected.reference
    && m.row.amount == m.expected.amount > 0 && m.row.currency == m.expected.currency
    && m.row.flow == Synchronous && m.row.reference == None
    && m.row.status == (if m.expected.approved then Authorized else Declined)
  }

  function MadePayments(log: seq<Made>): seq<Payment> {
    seq(|log|, i requires 0 <= i < |log| => log[i].row)
  }

  function MadeExpected(log: seq<Made>): seq<ExpectedPayment> {
    seq(|log|, i requires 0 <= i < |log| => log[i].expected)
  }

  function MadeRecords(log: seq<Made>): seq<KeyRow> {
    seq(|log|, i requires 0 <= i < |log| =>
      KeyRow(log[i].expected.key, RecordOf(log[i])))
  }

  function MadeEvents(log: seq<Made>): seq<Event> {
    seq(|log|, i requires 0 <= i < |log| => OutboxEvent(i, log[i].row, InitialEvent(log[i].row)))
  }

  function MadeLedger(log: seq<Made>): seq<LedgerEntry> {
    if log == [] then [] else MadeLedger(log[..|log| - 1]) + InitialEntries(log[|log| - 1].row)
  }

  ghost predicate PaymentsBuilt(payments: map<Id, Payment>, log: seq<Made>) {
    && Distinct(PaymentIds(MadePayments(log)))
    && (forall id :: id in payments <==> id in PaymentIds(MadePayments(log)))
    && forall p :: p in MadePayments(log) ==> p.id in payments && payments[p.id] == p
  }

  ghost predicate KeysBuilt(records: map<Id, IdempotencyRecord>, log: seq<Made>) {
    && Distinct(Keys(MadeRecords(log)))
    && (forall key :: key in records <==> key in Keys(MadeRecords(log)))
    && forall k :: k in MadeRecords(log) ==> k.key in records && records[k.key] == k.record
  }

  /** The store holds exactly what the log says. */
  ghost predicate Built(t: Tables, log: seq<Made>) {
    && (forall m :: m in log ==> Fits(m))
    && PaymentsBuilt(t.payments, log)
    && KeysBuilt(t.idempotency, log)
    && t.ledger == MadeLedger(log)
    && t.outbox == MadeEvents(log)
  }

  function RecordOf(m: Made): IdempotencyRecord {
    IdempotencyRecord(m.request, Some(m.row.id), Some(m.row))
  }

  lemma PaymentsGrow(payments: map<Id, Payment>, log: seq<Made>, m: Made)
    requires PaymentsBuilt(payments, log) && m.row.id !in payments
    ensures PaymentsBuilt(payments[m.row.id := m.row], log + [m])
  {
    assert MadePayments(log + [m]) == MadePayments(log) + [m.row];
    assert PaymentIds(MadePayments(log) + [m.row]) == PaymentIds(MadePayments(log)) + [m.row.id];
  }

  lemma KeysGrow(records: map<Id, IdempotencyRecord>, log: seq<Made>, m: Made)
    requires KeysBuilt(records, log) && m.expected.key !in records
    ensures KeysBuilt(records[m.expected.key := RecordOf(m)], log + [m])
  {
    var k := KeyRow(m.expected.key, RecordOf(m));
    assert MadeRecords(log + [m]) == MadeRecords(log) + [k];
    assert Keys(MadeRecords(log) + [k]) == Keys(MadeRecords(log)) + [k.key];
  }

  lemma BuiltGrows(t: Tables, log: seq<Made>, m: Made)
    requires Built(t, log) && Fits(m) && m.row.id !in t.payments && m.expected.key !in t.idempotency
    ensures
      var staged := StageRow(t, m.row, InitialEntries(m.row), InitialEvent(m.row));
      Built(staged.(idempotency := t.idempotency[m.expected.key := RecordOf(m)]), log + [m])
  {
    PaymentsGrow(t.payments, log, m);
    KeysGrow(t.idempotency, log, m);
    assert (log + [m])[..|log|] == log;
    assert MadeEvents(log + [m]) == MadeEvents(log) + [OutboxEvent(|log|, m.row, InitialEvent(m.row))];
  }

  lemma AuthorizationBuilds(t: Tables, log: seq<Made>, s: Step, e: ExpectedPayment) returns (m: Made)
    requires Built(t, log) && s.IsRequest() && Committed(t, s) && Asks(s, e)
    ensures m.expected == e && Built(Apply(t, s), log + [m])
  {
    UncommittedLeavesNoTrace(t, s);
    match s
    case AuthorizeStep(key, _, _, _, _, now, id, reference, failure) =>
      var q := AuthorizeCommit(t, key, s.Request(), now, id, reference, failure);
      m := Made(e, s.Request(), q);
      BuiltGrows(t, log, m);
  }

  lemma NothingWaits(t: Tables, log: seq<Made>, id: Id)
    requires Built(t, log) && id in t.payments
    ensures t.payments[id].status != AwaitingPayment
  {
    var i :| 0 <= i < |log| && PaymentIds(MadePayments(log))[i] == id;
    assert log[i] in log && log[i].row in MadePayments(log);
  }

  lemma ResolutionIgnored(t: Tables, log: seq<Made>, id: Id)
    requires CoreInv(t) && Built(t, log)
    ensures Built(Complete(t, id).tables, log)
  {
    if id in t.receipts && id !in t.confirmations {
      var k, staged, q, entries, eventType := CompletionCommit(t, id);
      if q.Some? {
        NothingWaits(t, log, q.value.id);
        assert false;
      }
    }
  }

  lemma SweepIgnored(t: Tables, log: seq<Made>, now: Time, limit: int)
    requires Built(t, log)
    ensures Built(ExpireDue(t, now, limit).tables, log)
  {
    forall id | id in t.payments
      ensures !IsDue(t, t.payments[id], now)
    {
      NothingWaits(t, log, id);
    }
    assert Due(t, now) == map[];
  }

  /** Nothing waits for a confirmation, so resolutions and sweeps leave the payments alone. */
  lemma OthersIgnore(t: Tables, log: seq<Made>, s: Step)
    requires CoreInv(t) && Built(t, log) && !s.IsRequest()
    ensures Built(Apply(t, s), log)
  {
    match s
    case AcceptStep(_, _) =>
    case CompleteStep(id) => ResolutionIgnored(t, log, id);
    case SweepStep(now, limit) => SweepIgnored(t, log, now, limit);
  }

  lemma {:induction false} RunBuilds(t: Tables, log: seq<Made>, steps: seq<Step>, expected: seq<ExpectedPayment>)
    returns (all: seq<Made>)
    requires CoreInv(t) && Built(t, log) && HonestRun(t, steps) && WorkloadRun(t, steps, expected)
    requires forall m :: m in log ==> m.expected in expected
    ensures Built(Run(t, steps), all) && forall m :: m in all ==> m.expected in expected
    decreases |steps|
  {
    all := log;
    if steps != [] {
      var s := steps[0];
      StepKeepsCore(t, s);
      if !s.IsRequest() {
        OthersIgnore(t, log, s);
      } else if Committed(t, s) {
        var e :| e in expected && Asks(s, e);
        var m := AuthorizationBuilds(t, log, s, e);
        all := log + [m];
      } else {
        UncommittedLeavesNoTrace(t, s);
      }
      all := RunBuilds(Apply(t, s), all, steps[1..], expected);
    }
  }

  // ----- these rows pass --------------------------------------------------------------------------------------

  /** The rows in the order in which they were made. */
  function InOrderMade(log: seq<Made>): Rows {
    Rows(MadePayments(log), MadeLedger(log), MadeRecords(log), PendingRows(MadeEvents(log)))
  }

  function EntryOf(m: Made): LedgerEntry {
    LedgerEntry(m.row.id, AuthorizationEntry, m.row.amount, m.row.currency, m.row.createdAt)
  }

  lemma EntriesMade(m: Made)
    requires Fits(m)
    ensures InitialEntries(m.row) == if m.expected.approved then [EntryOf(m)] else []
  {
  }

  /** Every entry is the one of an approved payment. */
  lemma {:induction false} EntryIsMade(log: seq<Made>, e: LedgerEntry) returns (m: Made)
    requires (forall x :: x in log ==> Fits(x)) && e in MadeLedger(log)
    ensures m in log && m.expected.approved && e == EntryOf(m)
    decreases |log|
  {
    var init, last := log[..|log| - 1], log[|log| - 1];
    assert log == init + [last];
    EntriesMade(last);
    if e in MadeLedger(init) {
      m := EntryIsMade(init, e);
    } else {
      m := last;
    }
  }

  lemma DistinctInit(ids: seq<Id>, id: Id)
    requires Distinct(ids + [id])
    ensures Distinct(ids) && id !in ids
  {
    var all := ids + [id];
    assert all[|ids|] == id && forall i :: 0 <= i < |ids| ==> all[i] == ids[i];
  }

  lemma {:induction false} EntriesOwned(log: seq<Made>, id: Id)
    requires (forall x :: x in log ==> Fits(x)) && Distinct(PaymentIds(MadePayments(log)))
    ensures id !in PaymentIds(MadePayments(log)) ==> multiset(Owners(MadeLedger(log)))[id] == 0
    ensures forall m :: m in log && m.row.id == id ==>
              multiset(Owners(MadeLedger(log)))[id] == if m.expected.approved then 1 else 0
    decreases |log|
  {
    if log != [] {
      var init, last := log[..|log| - 1], log[|log| - 1];
      assert log == init + [last];
      assert PaymentIds(MadePayments(log)) == PaymentIds(MadePayments(init)) + [last.row.id];
      DistinctInit(PaymentIds(MadePayments(init)), last.row.id);
      EntriesMade(last);
      EntriesOwned(init, id);
      assert Owners(MadeLedger(log)) == Owners(MadeLedger(init)) + if last.expected.approved then [last.row.id] else [];
      forall m | m in init
        ensures m.row.id in PaymentIds(MadePayments(init))
      {
        var i :| 0 <= i < |init| && init[i] == m;
        assert PaymentIds(MadePayments(init))[i] == m.row.id;
      }
    }
  }

  lemma MadeRowsLoaded(t: Tables, log: seq<Made>)
    requires Built(t, log)
    ensures Loaded(InOrderMade(log))
  {
    DistinctIsOnce(PaymentIds(MadePayments(log)));
    DistinctIsOnce(Keys(MadeRecords(log)));
    forall e | e in MadeLedger(log)
      ensures e.paymentId in PaymentIds(MadePayments(log)) && e.amount > 0
    {
      var m := EntryIsMade(log, e);
      RowIsMade(log, m);
    }
  }

  lemma RowIsMade(log: seq<Made>, m: Made)
    requires m in log
    ensures m.row in MadePayments(log) && m.row.id in PaymentIds(MadePayments(log))
  {
    var i :| 0 <= i < |log| && log[i] == m;
    assert MadePayments(log)[i] == m.row && PaymentIds(MadePayments(log))[i] == m.row.id;
  }

  lemma RowWasMade(log: seq<Made>, p: Payment) returns (m: Made)
    requires p in MadePayments(log)
    ensures m in log && m.row == p
  {
    var i :| 0 <= i < |log| && MadePayments(log)[i] == p;
    m := log[i];
  }

  lemma MadeLedgerSound(t: Tables, log: seq<Made>)
    requires Built(t, log)
    ensures LedgerSound(InOrderMade(log))
  {
    var rows := InOrderMade(log);
    forall p | p in rows.payments
      ensures EntriesFor(rows, p) == if p.status == Authorized then 1 else 0
    {
      var m := RowWasMade(log, p);
      EntriesOwned(log, p.id);
    }
    forall e | e in rows.ledger
      ensures Authorizes(rows, e)
    {
      var m := EntryIsMade(log, e);
      RowIsMade(log, m);
    }
  }

  lemma MadeColumns(log: seq<Made>)
    requires forall m :: m in log ==> Fits(m)
    ensures References(MadePayments(log)) == ExpectedReferences(MadeExpected(log))
    ensures Statuses(MadePayments(log)) == ExpectedStatuses(MadeExpected(log))
    ensures Amounts(MadePayments(log)) == ExpectedAmounts(MadeExpected(log))
    ensures Keys(MadeRecords(log)) == ExpectedKeys(MadeExpected(log))
    ensures EventVersions(PendingRows(MadeEvents(log))) == FirstVersions(MadePayments(log))
    ensures EventTypes(PendingRows(MadeEvents(log))) == ExpectedTypes(MadeExpected(log))
  {
    assert forall i :: 0 <= i < |log| ==> log[i] in log && Fits(log[i]);
  }

  lemma MadeRecordsSound(t: Tables, log: seq<Made>)
    requires Built(t, log)
    ensures RecordsSound(MadeExpected(log), InOrderMade(log))
  {
    var rows := InOrderMade(log);
    forall k | k in rows.records
      ensures CompletedFor(rows, k)
    {
      var i :| 0 <= i < |log| && MadeRecords(log)[i] == k;
      assert log[i] in log;
      RowIsMade(log, log[i]);
    }
    assert Keys(MadeRecords(log)) == ExpectedKeys(MadeExpected(log));
    RecordForEach(log);
  }

  lemma RecordForEach(log: seq<Made>)
    ensures forall id ::
              multiset(RecordPayments(MadeRecords(log)))[Some(id)] == multiset(PaymentIds(MadePayments(log)))[id]
  {
    var owners, ids := RecordPayments(MadeRecords(log)), PaymentIds(MadePayments(log));
    assert |owners| == |ids| && forall i :: 0 <= i < |ids| ==> owners[i] == Some(ids[i]);
    forall id
      ensures multiset(owners)[Some(id)] == multiset(ids)[id]
    {
      Multiplicity(owners, Some(id));
      Multiplicity(ids, id);
      assert Places(owners, Some(id)) == Places(ids, id);
    }
  }

  lemma EffectsGrow(init: seq<Made>, last: Made)
    requires Fits(last)
    ensures Effects(MadeLedger(init + [last])) ==
            Effects(MadeLedger(init))
            + if last.expected.approved then [(last.expected.currency, last.expected.amount)] else []
    ensures ExpectedEffects(MadeExpected(init + [last])) ==
            ExpectedEffects(MadeExpected(init))
            + if last.expected.approved then [(last.expected.currency, last.expected.amount)] else []
  {
    EntriesMade(last);
    assert (init + [last])[..|init|] == init;
    assert MadeExpected(init + [last]) == MadeExpected(init) + [last.expected];
    assert MadeExpected(init + [last])[..|init|] == MadeExpected(init);
  }

  lemma {:induction false} MadeEffects(log: seq<Made>)
    requires forall m :: m in log ==> Fits(m)
    ensures Effects(MadeLedger(log)) == ExpectedEffects(MadeExpected(log))
    decreases |log|
  {
    if log != [] {
      var init, last := log[..|log| - 1], log[|log| - 1];
      assert log == init + [last];
      MadeEffects(init);
      EffectsGrow(init, last);
    }
  }

  /** Declined payments authorize nothing. */
  lemma AuthorizedGrows(init: seq<Made>, last: Made, c: Currency)
    requires Fits(last)
    ensures
      var more := if last.expected.approved && last.expected.currency == c then last.expected.amount else 0;
      && SumIn(Authorizations(MadePayments(init + [last])), c) == SumIn(Authorizations(MadePayments(init)), c) + more
      && SumIn(ExpectedEffects(MadeExpected(init + [last])), c) == SumIn(ExpectedEffects(MadeExpected(init)), c) + more
  {
    var authorized, effects := Authorizations(MadePayments(init)), ExpectedEffects(MadeExpected(init));
    assert Authorizations(MadePayments(init + [last])) == authorized + [(last.row.currency, last.row.authorized)];
    SumAppend(authorized, (last.row.currency, last.row.authorized));
    EffectsGrow(init, last);
    SumAppend(effects, (last.expected.currency, last.expected.amount));
    assert effects + [] == effects;
  }

  lemma {:induction false} MadeAuthorized(log: seq<Made>, c: Currency)
    requires forall m :: m in log ==> Fits(m)
    ensures SumIn(Authorizations(MadePayments(log)), c) == SumIn(ExpectedEffects(MadeExpected(log)), c)
    decreases |log|
  {
    if log != [] {
      var init, last := log[..|log| - 1], log[|log| - 1];
      assert log == init + [last];
      MadeAuthorized(init, c);
      AuthorizedGrows(init, last, c);
    }
  }

  lemma EffectsOccur(log: seq<Made>, c: Currency)
    requires (forall m :: m in log ==> Fits(m)) && Occurs(Effects(MadeLedger(log)), c)
    ensures Occurs(Amounts(MadePayments(log)), c)
  {
    var k :| 0 <= k < |Effects(MadeLedger(log))| && Effects(MadeLedger(log))[k].0 == c;
    assert MadeLedger(log)[k] in MadeLedger(log);
    var m := EntryIsMade(log, MadeLedger(log)[k]);
    var i :| 0 <= i < |log| && log[i] == m;
    assert Amounts(MadePayments(log))[i].0 == c;
  }

  lemma MadeTotalsAgree(t: Tables, log: seq<Made>)
    requires Built(t, log)
    ensures CurrencyTotalsAgree(MadeExpected(log), InOrderMade(log))
  {
    MadeColumns(log);
    MadeEffects(log);
    forall c
      ensures SumIn(Authorizations(MadePayments(log)), c) == SumIn(ExpectedEffects(MadeExpected(log)), c)
      ensures Occurs(Effects(MadeLedger(log)), c) ==> Occurs(Amounts(MadePayments(log)), c)
    {
      MadeAuthorized(log, c);
      if Occurs(Effects(MadeLedger(log)), c) { EffectsOccur(log, c); }
    }
  }

  lemma MadeRowsPass(t: Tables, log: seq<Made>)
    requires Built(t, log) && Named(MadeExpected(log)) && Approved(MadeExpected(log)) > 0
    ensures Loaded(InOrderMade(log)) && Passes(MadeExpected(log), InOrderMade(log))
  {
    MadeRowsLoaded(t, log);
    MadeColumns(log);
    MadeLedgerSound(t, log);
    MadeRecordsSound(t, log);
    MadeTotalsAgree(t, log);
    forall p | p in MadePayments(log)
      ensures Verifier.Initial(p)
    {
      var m := RowWasMade(log, p);
    }
    assert Sound(MadeExpected(log), InOrderMade(log));
    PassesExactly(MadeExpected(log), InOrderMade(log));
  }

  // ----- in any order -----------------------------------------------------------------------------------------

  lemma OnceByColumn<T, U>(s: seq<T>, f: T -> U)
    requires Once(Column(s, f))
    ensures Once(s)
  {
    forall x | x in s
      ensures multiset(s)[x] == 1
    {
      var i :| 0 <= i < |s| && s[i] == x;
      assert Column(s, f)[i] == f(x) && f(x) in Column(s, f);
      Multiplicity(s, x);
      Multiplicity(Column(s, f), f(x));
      assert Places(Column(s, f), f(x)) == Places(s, x) + (Places(Column(s, f), f(x)) - Places(s, x));
    }
  }

  lemma OnceEach<T>(a: seq<T>, b: seq<T>)
    requires Once(a) && Once(b) && forall x :: x in a <==> x in b
    ensures multiset(a) == multiset(b)
  {
  }

  lemma ListedPayments(t: Tables, log: seq<Made>, rows: Rows)
    requires Built(t, log) && Listed(t, rows)
    ensures multiset(MadePayments(log)) == multiset(rows.payments)
  {
    DistinctIsOnce(PaymentIds(MadePayments(log)));
    assert PaymentIds(MadePayments(log)) == Column(MadePayments(log), (p: Payment) => p.id);
    assert PaymentIds(rows.payments) == Column(rows.payments, (p: Payment) => p.id);
    OnceByColumn(MadePayments(log), (p: Payment) => p.id);
    OnceByColumn(rows.payments, (p: Payment) => p.id);
    forall p: Payment | p.id in t.payments && t.payments[p.id] == p
      ensures p in MadePayments(log)
    {
      var i :| 0 <= i < |log| && PaymentIds(MadePayments(log))[i] == p.id;
      assert MadePayments(log)[i] in MadePayments(log);
    }
    OnceEach(MadePayments(log), rows.payments);
  }

  lemma ListedRecords(t: Tables, log: seq<Made>, rows: Rows)
    requires Built(t, log) && Listed(t, rows)
    ensures multiset(MadeRecords(log)) == multiset(rows.records)
  {
    DistinctIsOnce(Keys(MadeRecords(log)));
    assert Keys(MadeRecords(log)) == Column(MadeRecords(log), (k: KeyRow) => k.key);
    assert Keys(rows.records) == Column(rows.records, (k: KeyRow) => k.key);
    OnceByColumn(MadeRecords(log), (k: KeyRow) => k.key);
    OnceByColumn(rows.records, (k: KeyRow) => k.key);
    forall k: KeyRow | k.key in t.idempotency && t.idempotency[k.key] == k.record
      ensures k in MadeRecords(log)
    {
      var i :| 0 <= i < |log| && Keys(MadeRecords(log))[i] == k.key;
      assert MadeRecords(log)[i] in MadeRecords(log);
    }
    OnceEach(MadeRecords(log), rows.records);
  }

  lemma ExpectedOnce(expected: seq<ExpectedPayment>)
    requires Once(ExpectedKeys(expected))
    ensures Once(expected)
  {
    assert ExpectedKeys(expected) == Column(expected, (e: ExpectedPayment) => e.key);
    OnceByColumn(expected, (e: ExpectedPayment) => e.key);
  }

  lemma MadeOnce(t: Tables, log: seq<Made>)
    requires Built(t, log)
    ensures Once(MadeExpected(log))
  {
    DistinctIsOnce(Keys(MadeRecords(log)));
    assert Keys(MadeRecords(log)) == ExpectedKeys(MadeExpected(log));
    ExpectedOnce(MadeExpected(log));
  }

  lemma CommittedIsMade(t: Tables, log: seq<Made>, expected: seq<ExpectedPayment>, e: ExpectedPayment)
    requires Built(t, log) && Named(expected) && e in expected && e.key in t.idempotency
    requires forall m :: m in log ==> m.expected in expected
    ensures e in MadeExpected(log)
  {
    var i :| 0 <= i < |log| && Keys(MadeRecords(log))[i] == e.key;
    assert log[i] in log;
    SameKey(expected, e, log[i].expected);
    assert MadeExpected(log)[i] == e;
  }

  lemma ListedExpected(t: Tables, log: seq<Made>, expected: seq<ExpectedPayment>)
    requires Built(t, log) && Named(expected) && AllCommitted(t, expected)
    requires forall m :: m in log ==> m.expected in expected
    ensures multiset(expected) == multiset(MadeExpected(log))
  {
    MadeOnce(t, log);
    ExpectedOnce(expected);
    forall e | e in expected
      ensures e in MadeExpected(log)
    {
      CommittedIsMade(t, log, expected, e);
    }
    forall e | e in MadeExpected(log)
      ensures e in expected
    {
      var i :| 0 <= i < |log| && MadeExpected(log)[i] == e;
      assert log[i] in log;
    }
    OnceEach(expected, MadeExpected(log));
  }

  lemma SameKey(expected: seq<ExpectedPayment>, a: ExpectedPayment, b: ExpectedPayment)
    requires Named(expected) && a in expected && b in expected && a.key == b.key
    ensures a == b
  {
    var i :| 0 <= i < |expected| && expected[i] == a;
    var j :| 0 <= j < |expected| && expected[j] == b;
    assert ExpectedKeys(expected)[i] == ExpectedKeys(expected)[j];
    OnePlace(ExpectedKeys(expected), i, j);
  }

  // ----- the result -------------------------------------------------------------------------------------------

  /**
   * From an empty store: when every payment of a workload has been committed and no other request was, the verifier
   * passes on the rows of the store, in whatever order they are returned.
   */
  lemma WorkloadPasses(steps: seq<Step>, expected: seq<ExpectedPayment>, rows: Rows)
    requires Named(expected) && Approved(expected) > 0
    requires HonestRun(EMPTY, steps) && WorkloadRun(EMPTY, steps, expected) && AllCommitted(Run(EMPTY, steps), expected)
    requires Listed(Run(EMPTY, steps), rows)
    ensures Loaded(rows) && Passes(expected, rows)
  {
    var t := Run(EMPTY, steps);
    var log := RunBuilds(EMPTY, [], steps, expected);
    ListedExpected(t, log, expected);
    ListedPayments(t, log, rows);
    ListedRecords(t, log, rows);
    NamedInAnyOrder(expected, MadeExpected(log));
    SameApprovals(expected, MadeExpected(log));
    MadeRowsPass(t, log);
    VerdictInAnyOrder(MadeExpected(log), InOrderMade(log), expected, rows);
  }

  lemma NamedInAnyOrder(a: seq<ExpectedPayment>, b: seq<ExpectedPayment>)
    requires Named(a) && multiset(a) == multiset(b)
    ensures Named(b)
  {
    ExpectedColumns(a, b);
    SameElements(ExpectedReferences(a), ExpectedReferences(b));
    SameElements(ExpectedKeys(a), ExpectedKeys(b));
  }

  /** The same for each of the five profiles. */
  lemma ProfileRunPasses(profile: Profile, steps: seq<Step>, rows: Rows)
    requires HonestRun(EMPTY, steps) && WorkloadRun(EMPTY, steps, ExpectedPayments(profile))
    requires AllCommitted(Run(EMPTY, steps), ExpectedPayments(profile))
    requires Listed(Run(EMPTY, steps), rows)
    ensures Loaded(rows) && Passes(ExpectedPayments(profile), rows)
  {
    ProfilesAreNamed(profile);
    WorkloadPasses(steps, ExpectedPayments(profile), rows);
  }
}
