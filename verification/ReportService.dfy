/** The confirmation section as it is generated: counted in loops over the rows, then saved once per batch. */
module ReportService {
  import opened Wrappers
  import opened Tables
  import opened Sessions
  import opened ConfirmationReport

  datatype ReportError = BatchNotFound

  /** For every key the counter holds how many entries have that value. */
  ghost predicate Counts<K>(counts: map<K, nat>, keys: set<K>, m: map<Id, K>) {
    counts.Keys == keys && forall k :: k in keys ==> counts[k] == |With(m, k)|
  }

  lemma CountOneMore<K>(counts: map<K, nat>, keys: set<K>, m: map<Id, K>, id: Id, value: K)
    requires Counts(counts, keys, m) && id !in m && value in keys
    ensures Counts(counts[value := counts[value] + 1], keys, m[id := value])
  {
    forall k | k in keys
      ensures |With(m[id := value], k)| == |With(m, k)| + if k == value then 1 else 0
    {
      WithOneMore(m, id, value, k);
    }
  }

  lemma WithOneMore<K>(m: map<Id, K>, id: Id, value: K, k: K)
    requires id !in m
    ensures |With(m[id := value], k)| == |With(m, k)| + if k == value then 1 else 0
  {
    assert With(m[id := value], k) == if k == value then With(m, k) + {id} else With(m, k);
  }

  /** What has been visited of a table. */
  ghost predicate Visited<V>(seen: map<Id, V>, all: map<Id, V>, rest: set<Id>) {
    && (forall id :: id in seen <==> id in all && id !in rest)
    && forall id :: id in seen ==> seen[id] == all[id]
  }

  lemma OutcomeCounted(
    counts: map<DelayedOutcome, nat>, seen: map<Id, DelayedOutcome>, id: Id, outcome: DelayedOutcome)
    requires Counts(counts, OUTCOMES, seen) && id !in seen
    ensures outcome in counts && Counts(counts[outcome := counts[outcome] + 1], OUTCOMES, seen[id := outcome])
  {
    assert outcome in OUTCOMES;
    CountOneMore(counts, OUTCOMES, seen, id, outcome);
  }

  lemma VisitOne<V>(seen: map<Id, V>, all: map<Id, V>, rest: set<Id>, id: Id)
    requires Visited(seen, all, rest) && id in rest
    ensures id !in seen
    ensures Visited(if id in all then seen[id := all[id]] else seen, all, rest - {id})
  {
  }

  /** One pass over the delayed payments created by the cutoff. */
  method CountOutcomes(t: Tables, cutoff: Time) returns (counts: map<DelayedOutcome, nat>)
    ensures Counts(counts, OUTCOMES, OutcomesBy(t, cutoff))
  {
    counts := map[StillPending := 0, ConfirmedOnTime := 0, ExpiredUnconfirmed := 0, CancelledUnconfirmed := 0];
    ghost var seen: map<Id, DelayedOutcome>, all := map[], OutcomesBy(t, cutoff);
    var rest := t.payments.Keys;
    while rest != {}
      invariant rest <= t.payments.Keys && Visited(seen, all, rest) && Counts(counts, OUTCOMES, seen)
      decreases |rest|
    {
      var id :| id in rest;
      VisitOne(seen, all, rest, id);
      rest := rest - {id};
      if Eligible(t.payments[id], cutoff) {
        var outcome := OutcomeOf(EventsOf(t.outbox, id), cutoff);
        OutcomeCounted(counts, seen, id, outcome);
        counts := counts[outcome := counts[outcome] + 1];
        seen := seen[id := outcome];
      }
    }
    assert seen == all;
  }

  function AnomalyIn(anomalies: map<AnomalyKey, Anomaly>, key: AnomalyKey): Anomaly {
    if key in anomalies then anomalies[key] else Anomaly(0, 0)
  }

  function Tally(anomalies: map<AnomalyKey, Anomaly>, k: Confirmation): map<AnomalyKey, Anomaly> {
    if k.disposition == Applied then anomalies
    else
      var bucket := AnomalyIn(anomalies, KeyOf(k));
      anomalies[KeyOf(k) := Anomaly(bucket.count + 1, bucket.amount + k.command.amount)]
  }

  lemma AmountGrows(records: map<Id, Confirmation>, more: map<Id, Confirmation>, ids: set<Id>, c: Id)
    requires ids <= records.Keys && ids <= more.Keys && c in more && c !in ids
    requires forall d :: d in ids ==> more[d] == records[d]
    ensures AmountOf(more, ids) == AmountOf(records, ids)
    ensures AmountOf(more, ids + {c}) == AmountOf(records, ids) + more[c].command.amount
  {
    AmountDependsOnMembers(records, more, ids);
    AmountWithout(more, ids + {c}, c);
    assert ids + {c} - {c} == ids;
  }

  lemma BucketMembers(records: map<Id, Confirmation>, c: Id, k: Confirmation, key: AnomalyKey)
    requires c !in records
    ensures Bucket(records[c := k], key) ==
            if k.disposition != Applied && KeyOf(k) == key then Bucket(records, key) + {c} else Bucket(records, key)
  {
    forall d
      ensures d in Bucket(records[c := k], key) <==>
              d in Bucket(records, key) || (d == c && k.disposition != Applied && KeyOf(k) == key)
    {
    }
  }

  lemma BucketGrows(records: map<Id, Confirmation>, c: Id, k: Confirmation, key: AnomalyKey)
    requires c !in records
    ensures BucketOf(records[c := k], key) ==
            if k.disposition != Applied && KeyOf(k) == key
            then Anomaly(BucketOf(records, key).count + 1, BucketOf(records, key).amount + k.command.amount)
            else BucketOf(records, key)
  {
    BucketMembers(records, c, k, key);
    AmountGrows(records, records[c := k], Bucket(records, key), c);
  }

  lemma KeysGrow(records: map<Id, Confirmation>, c: Id, k: Confirmation)
    requires c !in records
    ensures AnomalyKeys(records[c := k]) == AnomalyKeys(records) + if k.disposition == Applied then {} else {KeyOf(k)}
  {
    var more := records[c := k];
    forall key
      ensures key in AnomalyKeys(more) <==> key in AnomalyKeys(records) || (k.disposition != Applied && key == KeyOf(k))
    {
      if key in AnomalyKeys(records) {
        var d :| d in records && records[d].disposition != Applied && KeyOf(records[d]) == key;
        assert more[d] == records[d];
      }
      if k.disposition != Applied && key == KeyOf(k) {
        assert more[c] == k;
      }
    }
  }

  lemma UnseenBucket(records: map<Id, Confirmation>, key: AnomalyKey)
    requires key !in AnomalyKeys(records)
    ensures BucketOf(records, key) == Anomaly(0, 0)
  {
    assert Bucket(records, key) == {};
  }

  ghost predicate Buckets(anomalies: map<AnomalyKey, Anomaly>, records: map<Id, Confirmation>) {
    && anomalies.Keys == AnomalyKeys(records)
    && forall key :: key in anomalies ==> anomalies[key] == BucketOf(records, key)
  }

  lemma BucketsGrow(anomalies: map<AnomalyKey, Anomaly>, records: map<Id, Confirmation>, c: Id, k: Confirmation)
    requires Buckets(anomalies, records) && c !in records
    ensures Buckets(Tally(anomalies, k), records[c := k])
  {
    KeysGrow(records, c, k);
    forall key | key in Tally(anomalies, k)
      ensures Tally(anomalies, k)[key] == BucketOf(records[c := k], key)
    {
      BucketGrows(records, c, k, key);
      if key !in anomalies { UnseenBucket(records, key); }
    }
  }

  lemma CountsGrow(dispositions: map<Disposition, nat>, records: map<Id, Confirmation>, c: Id, k: Confirmation)
    requires Counts(dispositions, DISPOSITIONS, DispositionsOf(records)) && c !in records
    ensures k.disposition in dispositions
    ensures Counts(dispositions[k.disposition := dispositions[k.disposition] + 1], DISPOSITIONS,
                   DispositionsOf(records[c := k]))
  {
    AllDispositions(k.disposition);
    CountOneMore(dispositions, DISPOSITIONS, DispositionsOf(records), c, k.disposition);
    assert DispositionsOf(records[c := k]) == DispositionsOf(records)[c := k.disposition];
  }

  lemma AllDispositions(d: Disposition)
    ensures d in DISPOSITIONS
  {
    match d
    case Applied => case Late => case AmountMismatch =>
    case CurrencyMismatch => case UnknownReference => case AlreadyResolved =>
  }

  /** Adds a record to the bucket of its currency and disposition, unless it was applied. */
  method AddAnomaly(anomalies: map<AnomalyKey, Anomaly>, k: Confirmation) returns (more: map<AnomalyKey, Anomaly>)
    ensures more == Tally(anomalies, k)
  {
    more := anomalies;
    if k.disposition != Applied {
      var bucket := AnomalyIn(anomalies, KeyOf(k));
      bucket := bucket.(count := bucket.count + 1);
      bucket := bucket.(amount := bucket.amount + k.command.amount);
      more := anomalies[KeyOf(k) := bucket];
    }
  }

  /** One pass over the final records of the receipts received by the cutoff. */
  method TallyRecords(t: Tables, cutoff: Time)
    returns (dispositions: map<Disposition, nat>, anomalies: map<AnomalyKey, Anomaly>)
    ensures Counts(dispositions, DISPOSITIONS, DispositionsOf(RecordsBy(t, cutoff)))
    ensures Buckets(anomalies, RecordsBy(t, cutoff))
  {
    dispositions :=
      map[Applied := 0, Late := 0, AmountMismatch := 0, CurrencyMismatch := 0, UnknownReference := 0,
          AlreadyResolved := 0];
    anomalies := map[];
    ghost var seen: map<Id, Confirmation>, all := map[], RecordsBy(t, cutoff);
    var rest := t.confirmations.Keys;
    while rest != {}
      invariant rest <= t.confirmations.Keys && Visited(seen, all, rest)
      invariant Counts(dispositions, DISPOSITIONS, DispositionsOf(seen)) && Buckets(anomalies, seen)
      decreases |rest|
    {
      var c :| c in rest;
      VisitOne(seen, all, rest, c);
      rest := rest - {c};
      var k := t.confirmations[c];
      if k.receivedAt <= cutoff {
        CountsGrow(dispositions, seen, c, k);
        BucketsGrow(anomalies, seen, c, k);
        dispositions := dispositions[k.disposition := dispositions[k.disposition] + 1];
        anomalies := AddAnomaly(anomalies, k);
        seen := seen[c := k];
      }
    }
    assert seen == all;
  }

  function AllOutcomes(counts: map<DelayedOutcome, nat>): nat
    requires counts.Keys == OUTCOMES
  {
    counts[StillPending] + counts[ConfirmedOnTime] + counts[ExpiredUnconfirmed] + counts[CancelledUnconfirmed]
  }

  lemma OutcomesAddUp(counts: map<DelayedOutcome, nat>, m: map<Id, DelayedOutcome>)
    requires Counts(counts, OUTCOMES, m)
    ensures AllOutcomes(counts) == |m|
  {
    FourWays(m);
  }

  /** The section of a batch: what was saved if anything was, otherwise freshly computed, and saved from then on. */
  method ConfirmationSection(session: Session, batchId: Id, now: Time) returns (result: Result<Section, ReportError>)
    requires session.Valid()
    modifies session, session.database`reports
    ensures session.Valid() && session.database.tables == old(session.database.tables)
    ensures
      var d := session.database;
      if batchId in old(d.reports) then
        result == Ok(old(d.reports)[batchId]) && d.reports == old(d.reports)
      else if batchId !in d.batches then
        result == Err(BatchNotFound) && d.reports == old(d.reports)
      else
        && result == Ok(FreshSection(d.tables, d.batches[batchId], now))
        && d.reports == old(d.reports)[batchId := result.value]
  {
    session.BeginCoordinatedWrite();
    if batchId in session.database.reports {
      return Ok(session.database.reports[batchId]);
    }
    if batchId !in session.database.batches {
      session.Rollback();
      return Err(BatchNotFound);
    }
    var cutoff := session.database.batches[batchId];
    var section := ComputeSection(session.work, cutoff, now);
    session.database.reports := session.database.reports[batchId := section];
    return Ok(section);
  }

  method ComputeSection(t: Tables, cutoff: Time, now: Time) returns (section: Section)
    ensures section == FreshSection(t, cutoff, now)
  {
    var outcomes := CountOutcomes(t, cutoff);
    var dispositions, anomalies := TallyRecords(t, cutoff);
    var pending := PendingBy(t, cutoff);
    OutcomesAddUp(outcomes, OutcomesBy(t, cutoff));
    var count := AllOutcomes(outcomes);
    section := Section(cutoff, now, count, outcomes, dispositions, |pending|, anomalies);
    SameSection(t, cutoff, now, section);
  }

  lemma SameSection(t: Tables, cutoff: Time, now: Time, s: Section)
    requires s.cutoff == cutoff && s.generatedAt == now && s.paymentCount == |OutcomesBy(t, cutoff)|
    requires Counts(s.outcomes, OUTCOMES, OutcomesBy(t, cutoff))
    requires Counts(s.dispositions, DISPOSITIONS, DispositionsOf(RecordsBy(t, cutoff)))
    requires Buckets(s.anomalies, RecordsBy(t, cutoff))
    requires s.pendingReceipts == |PendingBy(t, cutoff)|
    ensures s == FreshSection(t, cutoff, now)
  {
    var computed := FreshSection(t, cutoff, now);
    assert s.outcomes == computed.outcomes;
    assert s.dispositions == computed.dispositions;
    assert s.anomalies == computed.anomalies;
  }
}
