/** The database as one object whose tables the queries update in place. A transaction
    works on the tables directly and keeps the tables it would roll back to. */
module Database {
  import opened Prelude
  import opened Text
  import opened Amounts
  import opened Domain
  import opened Tables

  /** What the query answered and left behind is what its function on tables says: the new
      tables, or an error and the tables as they were. */
  ghost predicate Performed<T, E>(before: Db, after: Db, spec: Result<Db, E>, r: Result<T, E>) {
    match spec
    case Ok(db) => after == db && r.Ok?
    case Err(e) => after == before && r == Err(e)
  }

  /** How one transaction goes apart from its body: it may not begin, and its commit may
      report an error after having been applied or not. */
  datatype TxCourse = Smooth | BeginFails | CommitFails(applied: bool)

  /** The tables after a transaction whose body succeeded with the tables `after`. */
  function Ended(course: TxCourse, before: Db, after: Db): Db {
    if course.BeginFails? || course == CommitFails(false) then before else after
  }

  class Database {
    var clients: map<Id, Client>
    var sources: map<Id, FundingSource>
    var payouts: map<Id, Payout>
    var keys: map<(Id, string), KeyRow>
    var events: map<Id, Event>
    /** The tables without the writes of the open transaction, if one is open. */
    var saved: Option<Db>

    function View(): Db
      reads this
    {
      Db(clients, sources, payouts, keys, events)
    }

    constructor (db: Db)
      ensures View() == db && saved == None
    {
      clients, sources, payouts, keys, events := db.clients, db.sources, db.payouts, db.keys, db.events;
      saved := None;
    }

    // -------------------------------------------------------------- transactions

    method SetTables(db: Db)
      modifies this`clients, this`sources, this`payouts, this`keys, this`events
      ensures View() == db
    {
      clients, sources, payouts, keys, events := db.clients, db.sources, db.payouts, db.keys, db.events;
    }

    method Begin()
      requires saved == None
      modifies this`saved
      ensures saved == Some(View())
    {
      saved := Some(View());
    }

    method Commit(course: TxCourse) returns (ok: bool)
      requires saved.Some?
      modifies this
      ensures saved == None && ok == !course.CommitFails?
      ensures View() == if course == CommitFails(false) then old(saved.value) else old(View())
    {
      if course == CommitFails(false) {
        SetTables(saved.value);
      }
      saved := None;
      ok := !course.CommitFails?;
    }

    method Rollback()
      requires saved.Some?
      modifies this
      ensures saved == None && View() == old(saved.value)
    {
      SetTables(saved.value);
      saved := None;
    }

    /** Other connections commit. An open transaction that has written nothing sees it. */
    method OthersCommit(db: Db)
      requires saved.Some? ==> saved.value == View()
      modifies this
      ensures View() == db && saved == if old(saved).Some? then Some(db) else None
    {
      SetTables(db);
      if saved.Some? {
        saved := Some(db);
      }
    }

    // -------------------------------------------------------------- clients, sources, payouts

    method GetClientById(id: Id) returns (r: Result<Client, DbError>)
      ensures r == if id in clients then Ok(clients[id]) else Err(NoRows)
    {
      if id !in clients {
        return Err(NoRows);
      }
      return Ok(clients[id]);
    }

    method GetFundingSourceByClientID(clientId: Id, id: Id) returns (r: Result<FundingSource, DbError>)
      ensures r == GetFundingSource(View(), clientId, id)
    {
      if id !in sources || sources[id].clientId != clientId {
        return Err(NoRows);
      }
      return Ok(sources[id]);
    }

    method GetPayoutByClientID(clientId: Id, id: Id) returns (r: Result<Payout, DbError>)
      ensures r == GetPayout(View(), clientId, id)
    {
      if id !in payouts || payouts[id].clientId != clientId {
        return Err(NoRows);
      }
      return Ok(payouts[id]);
    }

    method CreatePayout(id: Id, row: Payout) returns (r: Result<Payout, DbError>)
      modifies this`payouts
      ensures Performed(old(View()), View(), InsertPayout(old(View()), id, row), r)
      ensures r.Ok? ==> id in payouts && r.value == payouts[id]
    {
      if !TextOk(row.externalId) || !TextOk(row.recipientName) || !TextOk(row.recipientAccountId) || !NulFree(row.currency) {
        return Err(InvalidText);
      }
      var amount := AmountColumn(row.amount);
      if amount.Err? {
        return Err(InvalidAmount(amount.error));
      }
      if id in payouts {
        return Err(UniqueViolation("payouts_pkey"));
      }
      if ExternalIdTaken(View(), row.clientId, row.externalId) {
        return Err(UniqueViolation(EXTERNAL_ID_INDEX));
      }
      if row.clientId !in clients || row.fundingSourceId !in sources {
        return Err(ForeignKey);
      }
      payouts := payouts[id := row.(amount := amount.value)];
      return Ok(payouts[id]);
    }

    method UpdatePayoutStatus(id: Id, status: Status) returns (r: Result<Payout, DbError>)
      modifies this`payouts
      ensures Performed(old(View()), View(), Tables.UpdatePayoutStatus(old(View()), id, status), r)
      ensures r.Ok? ==> id in payouts && r.value == payouts[id]
    {
      if id !in payouts {
        return Err(NoRows);
      }
      payouts := payouts[id := payouts[id].(status := status)];
      return Ok(payouts[id]);
    }

    method UpdatePayoutFailure(id: Id, reason: Option<string>) returns (r: Result<Payout, DbError>)
      modifies this`payouts
      ensures Performed(old(View()), View(), Tables.UpdatePayoutFailure(old(View()), id, reason), r)
      ensures r.Ok? ==> id in payouts && r.value == payouts[id]
    {
      if !TextOk(reason) {
        return Err(InvalidText);
      }
      if id !in payouts {
        return Err(NoRows);
      }
      payouts := payouts[id := payouts[id].(status := Failed, failureReason := reason)];
      return Ok(payouts[id]);
    }

    // -------------------------------------------------------------- idempotency keys

    method GetIdempotencyKey(clientId: Id, key: string) returns (r: Result<KeyRow, DbError>)
      ensures r == Tables.GetIdempotencyKey(View(), clientId, key)
    {
      if !NulFree(key) {
        return Err(InvalidText);
      }
      if (clientId, key) !in keys {
        return Err(NoRows);
      }
      return Ok(keys[(clientId, key)]);
    }

    method CreateIdempotencyKey(clientId: Id, key: string, row: KeyRow) returns (r: Result<KeyRow, DbError>)
      modifies this`keys
      ensures Performed(old(View()), View(), InsertIdempotencyKey(old(View()), clientId, key, row), r)
    {
      if !NulFree(key) {
        return Err(InvalidText);
      }
      if (clientId, key) in keys {
        return Err(UniqueViolation("idempotency_keys_pkey"));
      }
      if exists k :: k in keys && keys[k].payoutId == row.payoutId {
        return Err(UniqueViolation("idempotency_keys_payout_id_key"));
      }
      if clientId !in clients || row.payoutId !in payouts {
        return Err(ForeignKey);
      }
      keys := keys[(clientId, key) := row];
      return Ok(row);
    }

    // -------------------------------------------------------------- outbox events

    method CreateOutboxEvent(id: Id, eventType: EventType, entityId: Id, payload: Payload, now: int)
      returns (r: Result<Event, DbError>)
      modifies this`events
      ensures Performed(old(View()), View(), InsertOutboxEvent(old(View()), id, eventType, entityId, payload, now), r)
    {
      if id in events {
        return Err(UniqueViolation("outbox_events_pkey"));
      }
      if entityId !in payouts {
        return Err(ForeignKey);
      }
      events := events[id := Event(eventType, entityId, payload, EventPending, now, None, None)];
      return Ok(events[id]);
    }

    /** Picks an oldest eligible row that no other transaction has locked, and stamps it.
        Without such a row there is nothing to pick and nothing changes. */
    method ClaimNextPendingOutboxEvent(types: seq<EventType>, reclaimBefore: int, locked: set<Id>, now: int)
      returns (r: Result<Id, DbError>)
      modifies this`events
      ensures r.Ok? ==>
        && IsNext(old(View()), types, reclaimBefore, locked, r.value)
        && View() == ClaimEvent(old(View()), r.value, now)
      ensures r.Err? ==>
        && r == Err(NoRows) && View() == old(View())
        && Candidates(View(), types, reclaimBefore, locked) == {}
    {
      ghost var before := View();
      var candidates := set id | id in events && id !in locked && Eligible(events[id], types, reclaimBefore);
      assert candidates == Candidates(before, types, reclaimBefore, locked);
      if candidates == {} {
        return Err(NoRows);
      }
      var id := Oldest(candidates);
      events := events[id := events[id].(status := EventProcessing, claimedAt := Some(now))];
      return Ok(id);
    }

    /** ORDER BY created_at ASC LIMIT 1. */
    method Oldest(ids: set<Id>) returns (oldest: Id)
      requires ids != {} && ids <= events.Keys
      ensures oldest in ids
      ensures forall id :: id in ids ==> events[oldest].createdAt <= events[id].createdAt
    {
      oldest :| oldest in ids;
      var rest := ids - {oldest};
      while rest != {}
        invariant rest <= ids && oldest in ids
        invariant forall id :: id in ids - rest ==> events[oldest].createdAt <= events[id].createdAt
        decreases |rest|
      {
        var id :| id in rest;
        if events[id].createdAt < events[oldest].createdAt {
          oldest := id;
        }
        rest := rest - {id};
      }
    }

    method MarkOutboxEventAsProcessed(id: Id, now: int) returns (r: Result<Event, DbError>)
      modifies this`events
      ensures Performed(old(View()), View(), MarkProcessed(old(View()), id, now), r)
    {
      if id !in events {
        return Err(NoRows);
      }
      events := events[id := events[id].(status := EventProcessed, processedAt := Some(now), claimedAt := None)];
      return Ok(events[id]);
    }

    method ReleaseOutboxEventClaim(id: Id) returns (r: Result<Event, DbError>)
      modifies this`events
      ensures Performed(old(View()), View(), ReleaseClaim(old(View()), id), r)
    {
      if id !in events {
        return Err(NoRows);
      }
      events := events[id := events[id].(status := EventPending, claimedAt := None)];
      return Ok(events[id]);
    }
  }
}
