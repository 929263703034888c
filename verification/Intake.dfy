/** The service's CreatePayout: validation, the transaction and the fallback read, with
    other connections committing in between. */
module Intake {
  import opened Prelude
  import opened Decimal
  import opened Text
  import opened Tables
  import opened Transactions
  import opened Database

  /** What happens to one create call: how its transaction goes, and the tables that other
      commits have left when the insert runs and when the fallback reads. */
  datatype CreateCourse = CreateCourse(tx: TxCourse, atInsert: Db, atReload: Db)

  /** What a create call answers and the tables it leaves. */
  function CreateResult(db: Db, input: CreateInput, id: Id, eventId: Id, now: int, course: CreateCourse): (Result<Id, CreateError>, Db) {
    match Normalize(input)
    case Err(e) => (Err(e), db)
    case Ok(call) =>
      if course.tx.BeginFails? then (Err(CreateError.Database(Unavailable)), db)
      else
        match LoadIdempotentPayout(db, call)
        case Err(e) => (Err(e), db)
        case Ok(Existing(found, row)) =>
          (if course.tx.CommitFails? then Err(CreateError.Database(Unavailable)) else ReplyWith(found, row), db)
        case Ok(NotFound) => InsertResult(call, id, eventId, now, course)
  }

  function InsertResult(call: Transactions.Call, id: Id, eventId: Id, now: int, course: CreateCourse): (Result<Id, CreateError>, Db) {
    match InsertTx(course.atInsert, call, id, eventId, now)
    case Err(ConcurrentKeyInsert) => (ReloadResult(call, course.atReload), course.atReload)
    case Err(e) => (Err(e), course.atInsert)
    case Ok(written) =>
      (if course.tx.CommitFails? then Err(CreateError.Database(Unavailable)) else ReplyWith(id, NewRow(call)),
       Ended(course.tx, course.atInsert, written))
  }

  function ReloadResult(call: Transactions.Call, db: Db): Result<Id, CreateError> {
    var found :- LoadIdempotentPayout(db, call);
    ReplyFound(found)
  }

  class Service {
    const store: Database

    constructor (store: Database)
      ensures this.store == store
    {
      this.store := store;
    }

    method LoadPayout(call: Transactions.Call) returns (r: Result<Found, CreateError>)
      ensures r == LoadIdempotentPayout(store.View(), call)
    {
      var key := store.GetIdempotencyKey(call.clientId, call.key);
      match key {
        case Err(NoRows) => return Ok(NotFound);
        case Err(e) => return Err(CreateError.Database(e));
        case Ok(row) =>
          var hash := CreatePayoutRequestHash(Fields(call));
          if row.requestHash != hash {
            return Err(IdempotencyConflict);
          }
          var payout := store.GetPayoutByClientID(call.clientId, row.payoutId);
          match payout {
            case Err(e) => return Err(CreateError.Database(e));
            case Ok(existing) => return Ok(Existing(row.payoutId, existing));
          }
      }
    }

    /** The writes of the create transaction. An error leaves part of them for the
        rollback to undo. */
    method InsertInTx(call: Transactions.Call, id: Id, eventId: Id, now: int) returns (r: Result<Payout, CreateError>)
      modifies store
      ensures store.saved == old(store.saved)
      ensures match InsertTx(old(store.View()), call, id, eventId, now)
        case Ok(written) => store.View() == written && r == Ok(NewRow(call))
        case Err(e) => r == Err(e)
    {
      var source := store.GetFundingSourceByClientID(call.clientId, call.fundingSourceId);
      match source {
        case Err(NoRows) => return Err(FundingSourceNotFound);
        case Err(e) => return Err(CreateError.Database(e));
        case Ok(_) =>
      }
      var created := store.CreatePayout(id, PayoutParams(call));
      if created.Err? {
        return Err(if created.error == UniqueViolation(EXTERNAL_ID_INDEX) then DuplicateExternalId
                   else CreateError.Database(created.error));
      }
      var hash := CreatePayoutRequestHash(Fields(call));
      var key := store.CreateIdempotencyKey(call.clientId, call.key, KeyRow(hash, id));
      if key.Err? {
        return Err(if key.error.UniqueViolation? then ConcurrentKeyInsert else CreateError.Database(key.error));
      }
      var event := store.CreateOutboxEvent(eventId, ProcessPayout, id, ProcessPayload(id, created.value.clientId), now);
      if event.Err? {
        return Err(CreateError.Database(event.error));
      }
      return Ok(created.value);
    }

    /** Validation, in its order. */
    method Validate(input: CreateInput) returns (r: Result<Transactions.Call, CreateError>)
      ensures r == Normalize(input)
    {
      if input.clientId == None {
        return Err(InvalidClientId);
      }
      if input.fundingSourceId == None {
        return Err(InvalidFundingSourceId);
      }
      var externalId := NormalizeOptional(input.externalId, 255);
      var recipientName := NormalizeRequired(input.recipientName, 255);
      var recipientAccountId := NormalizeRequired(input.recipientAccountId, 255);
      var currency := Trim(input.currency);
      if externalId == None || recipientName == None || recipientAccountId == None
        || PositiveAmount(input.amount) == None || currency == "" || ByteLength(currency) > 12
      {
        return Err(InvalidPayout);
      }
      var key := Trim(input.idempotencyKey);
      if key == "" {
        return Err(InvalidIdempotencyKey);
      }
      match NumericString(input.amount.value) {
        case Unsupported => return Err(UnsupportedAmount);
        case Panics => return Err(AmountPanic);
        case Printed(text) =>
          return Ok(Transactions.Call(input.clientId.value, input.fundingSourceId.value, key, externalId.value,
            recipientName.value, recipientAccountId.value, input.amount.value, text, currency));
      }
    }

    method CreatePayout(input: CreateInput, id: Id, eventId: Id, now: int, course: CreateCourse)
      returns (reply: Result<Id, CreateError>)
      requires store.saved == None
      modifies store
      ensures store.saved == None
      ensures (reply, store.View()) == CreateResult(old(store.View()), input, id, eventId, now, course)
    {
      var call :- Validate(input);
      if course.tx.BeginFails? {
        return Err(CreateError.Database(Unavailable));
      }
      store.Begin();
      var found := LoadPayout(call);
      if found.Err? {
        store.Rollback();
        return Err(found.error);
      }
      if found.value.Existing? {
        var committed := store.Commit(course.tx);
        if !committed {
          return Err(CreateError.Database(Unavailable));
        }
        return ReplyWith(found.value.payoutId, found.value.payout);
      }
      store.OthersCommit(course.atInsert);
      var created := InsertInTx(call, id, eventId, now);
      if created.Err? {
        store.Rollback();
        if created.error != ConcurrentKeyInsert {
          return Err(created.error);
        }
        store.OthersCommit(course.atReload);
        var again :- LoadPayout(call);
        return ReplyFound(again);
      }
      var committed := store.Commit(course.tx);
      if !committed {
        return Err(CreateError.Database(Unavailable));
      }
      return ReplyWith(id, created.value);
    }
  }
}
