/** The verifier's queries have no order, and its verdict does not depend on the order in which they return rows. */
module QueryOrder {
  import opened Domain
  import opened Tables
  import opened Verifier

  function Column<T, U>(s: seq<T>, f: T -> U): seq<U> {
    seq(|s|, i requires 0 <= i < |s| => f(s[i]))
  }

  /** Takes the last element of one list out of the other. */
  lemma TakeOut<T>(a: seq<T>, b: seq<T>) returns (left: seq<T>, right: seq<T>)
    requires a != [] && multiset(a) == multiset(b)
    ensures b == left + [a[|a| - 1]] + right
    ensures multiset(a[..|a| - 1]) == multiset(left + right)
  {
    var init, x := a[..|a| - 1], a[|a| - 1];
    assert a == init + [x];
    assert x in multiset(b);
    var k :| 0 <= k < |b| && b[k] == x;
    left, right := b[..k], b[k + 1..];
    assert b == left + [x] + right;
    assert multiset(b) == multiset(left) + multiset{x} + multiset(right);
    assert multiset(left + right) == multiset(left) + multiset(right) == multiset(b) - multiset{x};
    assert multiset(init) == multiset(a) - multiset{x};
  }

  lemma {:induction false} ColumnPermutes<T, U>(a: seq<T>, b: seq<T>, f: T -> U)
    requires multiset(a) == multiset(b)
    ensures multiset(Column(a, f)) == multiset(Column(b, f))
    decreases |a|
  {
    if a == [] {
      assert |multiset(b)| == 0;
    } else {
      var init, x := a[..|a| - 1], a[|a| - 1];
      var left, right := TakeOut(a, b);
      ColumnPermutes(init, left + right, f);
      assert Column(a, f) == Column(init, f) + [f(x)];
      assert Column(b, f) == Column(left, f) + [f(x)] + Column(right, f);
      assert Column(left + right, f) == Column(left, f) + Column(right, f);
    }
  }

  lemma SameElements<T>(a: seq<T>, b: seq<T>)
    requires multiset(a) == multiset(b)
    ensures forall x :: x in a <==> x in b
  {
    assert forall x :: x in a <==> x in multiset(a);
    assert forall x :: x in b <==> x in multiset(b);
  }

  // ----- sums -------------------------------------------------------------------------------------------------

  lemma {:induction false} SumsConcat(a: seq<Priced>, b: seq<Priced>, c: Currency)
    ensures SumIn(a + b, c) == SumIn(a, c) + SumIn(b, c)
    ensures CountIn(a + b, c) == CountIn(a, c) + CountIn(b, c)
    decreases |b|
  {
    if b == [] {
      assert a + b == a;
    } else {
      var init, x := b[..|b| - 1], b[|b| - 1];
      assert a + b == (a + init) + [x] && b == init + [x];
      SumsConcat(a, init, c);
      SumAppend(a + init, x);
      SumAppend(init, x);
    }
  }

  lemma {:induction false} SumsPermute(a: seq<Priced>, b: seq<Priced>, c: Currency)
    requires multiset(a) == multiset(b)
    ensures SumIn(a, c) == SumIn(b, c) && CountIn(a, c) == CountIn(b, c)
    decreases |a|
  {
    if a == [] {
      assert |multiset(b)| == 0;
    } else {
      var init, x := a[..|a| - 1], a[|a| - 1];
      var left, right := TakeOut(a, b);
      SumsPermute(init, left + right, c);
      assert a == init + [x];
      SumAppend(init, x);
      SumsConcat(left + [x], right, c);
      SumAppend(left, x);
      SumsConcat(left, right, c);
    }
  }

  lemma OccursPermutes(a: seq<Priced>, b: seq<Priced>, c: Currency)
    requires multiset(a) == multiset(b)
    ensures Occurs(a, c) <==> Occurs(b, c)
  {
    SameElements(a, b);
    assert Occurs(a, c) <==> exists x :: x in a && x.0 == c;
    assert Occurs(b, c) <==> exists x :: x in b && x.0 == c;
  }

  lemma {:induction false} EffectsConcat(a: seq<ExpectedPayment>, b: seq<ExpectedPayment>)
    ensures ExpectedEffects(a + b) == ExpectedEffects(a) + ExpectedEffects(b)
    decreases |b|
  {
    if b == [] {
      assert a + b == a;
    } else {
      assert (a + b)[..|a + b| - 1] == a + b[..|b| - 1];
      EffectsConcat(a, b[..|b| - 1]);
    }
  }

  lemma {:induction false} EffectsPermute(a: seq<ExpectedPayment>, b: seq<ExpectedPayment>)
    requires multiset(a) == multiset(b)
    ensures multiset(ExpectedEffects(a)) == multiset(ExpectedEffects(b))
    decreases |a|
  {
    if a == [] {
      assert |multiset(b)| == 0;
    } else {
      var init, x := a[..|a| - 1], a[|a| - 1];
      var left, right := TakeOut(a, b);
      EffectsPermute(init, left + right);
      assert a == init + [x];
      EffectsConcat(init, [x]);
      EffectsConcat(left + [x], right);
      EffectsConcat(left, [x]);
      EffectsConcat(left, right);
    }
  }

  // ----- the verdict ------------------------------------------------------------------------------------------

  /** The same rows, in any order. */
  ghost predicate SameRows(a: Rows, b: Rows) {
    && multiset(a.payments) == multiset(b.payments)
    && multiset(a.ledger) == multiset(b.ledger)
    && multiset(a.records) == multiset(b.records)
    && multiset(a.events) == multiset(b.events)
  }

  lemma PaymentColumns(a: seq<Payment>, b: seq<Payment>)
    requires multiset(a) == multiset(b)
    ensures multiset(PaymentIds(a)) == multiset(PaymentIds(b))
    ensures multiset(References(a)) == multiset(References(b))
    ensures multiset(Statuses(a)) == multiset(Statuses(b))
    ensures multiset(FirstVersions(a)) == multiset(FirstVersions(b))
    ensures multiset(Amounts(a)) == multiset(Amounts(b))
    ensures multiset(Authorizations(a)) == multiset(Authorizations(b))
  {
    forall s: seq<Payment>
      ensures PaymentIds(s) == Column(s, (p: Payment) => p.id)
      ensures References(s) == Column(s, (p: Payment) => p.merchantReference)
      ensures Statuses(s) == Column(s, (p: Payment) => p.status)
      ensures FirstVersions(s) == Column(s, (p: Payment) => (p.id, 1))
      ensures Amounts(s) == Column(s, (p: Payment) => (p.currency, p.amount))
      ensures Authorizations(s) == Column(s, (p: Payment) => (p.currency, p.authorized))
    {
    }
    ColumnPermutes(a, b, (p: Payment) => p.id);
    ColumnPermutes(a, b, (p: Payment) => p.merchantReference);
    ColumnPermutes(a, b, (p: Payment) => p.status);
    ColumnPermutes(a, b, (p: Payment) => (p.id, 1));
    ColumnPermutes(a, b, (p: Payment) => (p.currency, p.amount));
    ColumnPermutes(a, b, (p: Payment) => (p.currency, p.authorized));
  }

  lemma LedgerColumns(a: seq<LedgerEntry>, b: seq<LedgerEntry>)
    requires multiset(a) == multiset(b)
    ensures multiset(Owners(a)) == multiset(Owners(b)) && multiset(Effects(a)) == multiset(Effects(b))
  {
    forall s: seq<LedgerEntry>
      ensures Owners(s) == Column(s, (e: LedgerEntry) => e.paymentId)
      ensures Effects(s) == Column(s, (e: LedgerEntry) => (e.currency, e.amount))
    {
    }
    ColumnPermutes(a, b, (e: LedgerEntry) => e.paymentId);
    ColumnPermutes(a, b, (e: LedgerEntry) => (e.currency, e.amount));
  }

  lemma RecordColumns(a: seq<KeyRow>, b: seq<KeyRow>)
    requires multiset(a) == multiset(b)
    ensures multiset(Keys(a)) == multiset(Keys(b)) && multiset(RecordPayments(a)) == multiset(RecordPayments(b))
  {
    forall s: seq<KeyRow>
      ensures Keys(s) == Column(s, (k: KeyRow) => k.key)
      ensures RecordPayments(s) == Column(s, (k: KeyRow) => k.record.paymentId)
    {
    }
    ColumnPermutes(a, b, (k: KeyRow) => k.key);
    ColumnPermutes(a, b, (k: KeyRow) => k.record.paymentId);
  }

  lemma EventColumns(a: seq<OutboxRow>, b: seq<OutboxRow>)
    requires multiset(a) == multiset(b)
    ensures multiset(EventTypes(a)) == multiset(EventTypes(b))
    ensures multiset(EventVersions(a)) == multiset(EventVersions(b))
  {
    forall s: seq<OutboxRow>
      ensures EventTypes(s) == Column(s, (e: OutboxRow) => e.event.eventType)
      ensures EventVersions(s) == Column(s, (e: OutboxRow) => (e.event.paymentId, e.event.version))
    {
    }
    ColumnPermutes(a, b, (e: OutboxRow) => e.event.eventType);
    ColumnPermutes(a, b, (e: OutboxRow) => (e.event.paymentId, e.event.version));
  }

  lemma ExpectedColumns(a: seq<ExpectedPayment>, b: seq<ExpectedPayment>)
    requires multiset(a) == multiset(b)
    ensures multiset(ExpectedReferences(a)) == multiset(ExpectedReferences(b))
    ensures multiset(ExpectedKeys(a)) == multiset(ExpectedKeys(b))
    ensures multiset(ExpectedStatuses(a)) == multiset(ExpectedStatuses(b))
    ensures multiset(ExpectedTypes(a)) == multiset(ExpectedTypes(b))
    ensures multiset(ExpectedAmounts(a)) == multiset(ExpectedAmounts(b))
  {
    forall s: seq<ExpectedPayment>
      ensures ExpectedReferences(s) == Column(s, (e: ExpectedPayment) => e.reference)
      ensures ExpectedKeys(s) == Column(s, (e: ExpectedPayment) => e.key)
      ensures ExpectedStatuses(s) == Column(s, (e: ExpectedPayment) => if e.approved then Authorized else Declined)
      ensures ExpectedTypes(s) ==
              Column(s, (e: ExpectedPayment) => if e.approved then AuthorizedEvent else DeclinedEvent)
      ensures ExpectedAmounts(s) == Column(s, (e: ExpectedPayment) => (e.currency, e.amount))
    {
    }
    ColumnPermutes(a, b, (e: ExpectedPayment) => e.reference);
    ColumnPermutes(a, b, (e: ExpectedPayment) => e.key);
    ColumnPermutes(a, b, (e: ExpectedPayment) => if e.approved then Authorized else Declined);
    ColumnPermutes(a, b, (e: ExpectedPayment) => if e.approved then AuthorizedEvent else DeclinedEvent);
    ColumnPermutes(a, b, (e: ExpectedPayment) => (e.currency, e.amount));
  }

  lemma SoundInAnyOrder(expected: seq<ExpectedPayment>, a: Rows, other: seq<ExpectedPayment>, b: Rows)
    requires multiset(expected) == multiset(other) && SameRows(a, b) && Sound(expected, a)
    ensures Sound(other, b)
  {
    ExpectedColumns(expected, other);
    PaymentColumns(a.payments, b.payments);
    LedgerColumns(a.ledger, b.ledger);
    RecordColumns(a.records, b.records);
    EventColumns(a.events, b.events);
    SameElements(a.payments, b.payments);
    SameElements(a.ledger, b.ledger);
    SameElements(a.records, b.records);
    SameElements(a.events, b.events);
    SameElements(PaymentIds(a.payments), PaymentIds(b.payments));
    forall e | e in b.ledger
      ensures Authorizes(b, e)
    {
      assert Authorizes(a, e);
    }
    forall p | p in b.payments
      ensures EntriesFor(b, p) == EntriesFor(a, p)
    {
    }
    forall k | k in b.records
      ensures CompletedFor(b, k)
    {
      assert CompletedFor(a, k);
    }
  }

  lemma CountersInAnyOrder(expected: seq<ExpectedPayment>, a: Rows, other: seq<ExpectedPayment>, b: Rows)
    requires multiset(expected) == multiset(other) && SameRows(a, b)
    requires Counter(ExpectedStatuses(expected)) == Counter(Statuses(a.payments))
    requires Counter(ExpectedTypes(expected)) == Counter(EventTypes(a.events))
    ensures Counter(ExpectedStatuses(other)) == Counter(Statuses(b.payments))
    ensures Counter(ExpectedTypes(other)) == Counter(EventTypes(b.events))
  {
    ExpectedColumns(expected, other);
    PaymentColumns(a.payments, b.payments);
    EventColumns(a.events, b.events);
    SameMultiset(ExpectedStatuses(expected), ExpectedStatuses(other));
    SameMultiset(ExpectedTypes(expected), ExpectedTypes(other));
    SameMultiset(Statuses(a.payments), Statuses(b.payments));
    SameMultiset(EventTypes(a.events), EventTypes(b.events));
  }

  lemma TotalsInAnyOrder(expected: seq<ExpectedPayment>, a: Rows, other: seq<ExpectedPayment>, b: Rows)
    requires multiset(expected) == multiset(other) && SameRows(a, b) && CurrencyTotalsAgree(expected, a)
    ensures CurrencyTotalsAgree(other, b)
  {
    ExpectedColumns(expected, other);
    EffectsPermute(expected, other);
    PaymentColumns(a.payments, b.payments);
    LedgerColumns(a.ledger, b.ledger);
    forall c
      ensures ExpectedLine(other, c) == ExpectedLine(expected, c)
      ensures ObservedLine(b.payments, b.ledger, c) == ObservedLine(a.payments, a.ledger, c)
      ensures Occurs(ExpectedAmounts(other), c) <==> Occurs(ExpectedAmounts(expected), c)
      ensures Occurs(Amounts(b.payments), c) <==> Occurs(Amounts(a.payments), c)
      ensures Occurs(Effects(b.ledger), c) <==> Occurs(Effects(a.ledger), c)
    {
      SumsPermute(ExpectedAmounts(expected), ExpectedAmounts(other), c);
      SumsPermute(ExpectedEffects(expected), ExpectedEffects(other), c);
      SumsPermute(Amounts(a.payments), Amounts(b.payments), c);
      SumsPermute(Authorizations(a.payments), Authorizations(b.payments), c);
      SumsPermute(Effects(a.ledger), Effects(b.ledger), c);
      OccursPermutes(ExpectedAmounts(expected), ExpectedAmounts(other), c);
      OccursPermutes(Amounts(a.payments), Amounts(b.payments), c);
      OccursPermutes(Effects(a.ledger), Effects(b.ledger), c);
    }
  }

  lemma LoadedInAnyOrder(a: Rows, b: Rows)
    requires SameRows(a, b) && Loaded(a)
    ensures Loaded(b)
  {
    PaymentColumns(a.payments, b.payments);
    RecordColumns(a.records, b.records);
    SameElements(a.ledger, b.ledger);
    SameElements(PaymentIds(a.payments), PaymentIds(b.payments));
    SameElements(Keys(a.records), Keys(b.records));
  }

  /** The verdict is the same in whatever order the rows come and the expected payments are listed. */
  lemma VerdictInAnyOrder(expected: seq<ExpectedPayment>, a: Rows, other: seq<ExpectedPayment>, b: Rows)
    requires Named(expected) && Loaded(a) && multiset(expected) == multiset(other) && SameRows(a, b)
    requires Passes(expected, a)
    ensures Named(other) && Loaded(b) && Passes(other, b)
  {
    ExpectedColumns(expected, other);
    SameElements(ExpectedReferences(expected), ExpectedReferences(other));
    SameElements(ExpectedKeys(expected), ExpectedKeys(other));
    LoadedInAnyOrder(a, b);
    PassesExactly(expected, a);
    SoundInAnyOrder(expected, a, other, b);
    CountersInAnyOrder(expected, a, other, b);
    TotalsInAnyOrder(expected, a, other, b);
    SameApprovals(expected, other);
    PassesExactly(other, b);
  }

  lemma SameApprovals(expected: seq<ExpectedPayment>, other: seq<ExpectedPayment>)
    requires multiset(expected) == multiset(other) && Approved(expected) > 0
    ensures Approved(other) > 0
  {
    SameElements(expected, other);
    if ApprovedIn(expected) == {} { assert false; }
    var i :| i in ApprovedIn(expected);
    assert expected[i] in other;
    var j :| 0 <= j < |other| && other[j] == expected[i];
    assert j in ApprovedIn(other);
  }
}
