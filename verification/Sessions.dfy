/** The database and the sessions that work on it: a transaction's own copy of the tables, and rows read earlier. */
module Sessions {
  import opened Wrappers
  import opened Tables
  import opened Payments
  import opened Runs
  import opened Invariants
  import opened ConfirmationReport

  class Database {
    var tables: Tables
    var batches: map<Id, Time>
    var reports: map<Id, Section>

    constructor ()
      ensures tables == EMPTY && batches == map[] && reports == map[]
    {
      tables, batches, reports := EMPTY, map[], map[];
    }
  }

  /** A payment row stays in the session's cache after a commit, and may be older than the stored row. */
  class Session {
    const database: Database
    var work: Tables
    var cached: map<Id, Payment>

    /** Stored rows agree with each other, and every cached row is some version that was committed. */
    ghost predicate Valid()
      reads this, database
    {
      CoreInv(database.tables) && forall id :: id in cached ==> Seen(database.tables, id, cached[id])
    }

    constructor (database: Database)
      requires CoreInv(database.tables)
      ensures this.database == database && work == database.tables && cached == map[] && Valid()
    {
      this.database := database;
      work, cached := database.tables, map[];
    }

    /** What a lookup by identifier returns: the cached row if there is one. */
    function View(id: Id): Option<Payment>
      reads this, database
    {
      if id in cached then Some(cached[id]) else Stored(database.tables, id)
    }

    method Rollback()
      modifies this
      ensures work == database.tables && cached == map[]
    {
      work, cached := database.tables, map[];
    }

    /** Takes the writer lock: nothing of an earlier transaction and no cached row is left. */
    method BeginCoordinatedWrite()
      modifies this
      ensures work == database.tables && cached == map[]
    {
      Rollback();
    }

    /** Starts a transaction and keeps the cache. */
    method Begin()
      modifies this`work
      ensures work == database.tables
    {
      work := database.tables;
    }

    method Commit()
      modifies database`tables
      ensures database.tables == work
    {
      database.tables := work;
    }

    /** Loads a payment through the cache. */
    method GetPayment(id: Id) returns (found: Option<Payment>)
      requires work.payments == database.tables.payments
      modifies this`cached
      ensures found == old(View(id))
      ensures cached == if found.Some? then old(cached)[id := found.value] else old(cached)
    {
      if id in cached {
        return Some(cached[id]);
      }
      if id !in work.payments {
        return None;
      }
      cached := cached[id := work.payments[id]];
      return Some(work.payments[id]);
    }

    /** Writes a changed row if the stored version is still the one it was read at, and raises the version. */
    method Flush(p: Payment) returns (result: Result<Payment, Error>)
      modifies this`work
      ensures
        result == if p.id !in old(work).payments || old(work).payments[p.id].version != p.version
                  then Err(ConcurrentPaymentUpdate)
                  else if !PaymentChecks(p.(version := p.version + 1)) then Err(ConstraintViolated)
                  else Ok(p.(version := p.version + 1))
      ensures work == if result.Ok? then old(work).(payments := old(work).payments[p.id := result.value]) else old(work)
    {
      if p.id !in work.payments || work.payments[p.id].version != p.version {
        return Err(ConcurrentPaymentUpdate);
      }
      var row := p.(version := p.version + 1);
      if !PaymentChecks(row) {
        return Err(ConstraintViolated);
      }
      work := work.(payments := work.payments[p.id := row]);
      return Ok(row);
    }

    /** Appends one ledger row, unless its amount is not positive. */
    method AddEntry(e: LedgerEntry) returns (ok: bool)
      modifies this`work
      ensures ok == (e.amount > 0)
      ensures work == if ok then old(work).(ledger := old(work).ledger + [e]) else old(work)
    {
      ok := e.amount > 0;
      if ok {
        work := work.(ledger := work.ledger + [e]);
      }
    }

    /** Stages the event for the version the row has just reached. */
    method CreateOutboxEvent(p: Payment, eventType: EventType)
      modifies this`work
      ensures work == old(work).(outbox := old(work).outbox + [OutboxEvent(|old(work).outbox|, p, eventType)])
    {
      work := work.(outbox := work.outbox + [OutboxEvent(|work.outbox|, p, eventType)]);
    }
  }

  /** Rows that were committed stay committed versions, so what other sessions commit never invalidates a cache. */
  lemma SeenStays(t: Tables, t': Tables, id: Id, p: Payment)
    requires Seen(t, id, p) && t.outbox <= t'.outbox
    ensures Seen(t', id, p)
  {
    var e :| e in t.outbox && e.paymentId == id && e.snapshot == p;
    assert e in t'.outbox;
  }
}
