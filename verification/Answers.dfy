/** What the methods answer, told from the tables, the request and the course of events
    alone: when a create call succeeds and with which error it fails, when a delivery is
    acknowledged, what a relay's round returns. */
module Answers {
  import opened Prelude
  import opened Decimal
  import opened Amounts
  import opened Text
  import opened Domain
  import opened Tables
  import opened Transactions
  import opened Database
  import opened Pipeline
  import opened Intake
  import opened Outbox
  import opened Execution
  import opened Consistency
  import opened Safety
  import opened SafetySteps
  import opened Guarantees

  // ---------------------------------------------------------------- validation

  predicate TooLong(text: string, limit: nat) { ByteLength(Trim(text)) > limit }

  predicate BadName(text: string, limit: nat) { AllSpace(text) || TooLong(text, limit) }

  predicate BadAmount(amount: Option<Numeric>) {
    amount == None || !amount.value.IsFinite() || amount.value.mantissa.value <= 0
  }

  /** The error a request is refused with, in the order of the checks. */
  lemma RefusedWith(input: CreateInput)
    requires input.amount.Some? ==> input.amount.value.WellTyped()
    ensures input.clientId == None ==> Normalize(input) == Err(InvalidClientId)
    ensures input.clientId.Some? && input.fundingSourceId == None ==> Normalize(input) == Err(InvalidFundingSourceId)
    ensures input.clientId.Some? && input.fundingSourceId.Some? ==>
      var invalid := TooLong(input.externalId, 255) || BadName(input.recipientName, 255) || BadName(input.recipientAccountId, 255)
        || BadAmount(input.amount) || BadName(input.currency, 12);
      && (invalid ==> Normalize(input) == Err(InvalidPayout))
      && (!invalid && AllSpace(input.idempotencyKey) ==> Normalize(input) == Err(InvalidIdempotencyKey))
      && (!invalid && !AllSpace(input.idempotencyKey) ==>
            if input.amount.value.exp == MIN_INT32 then Normalize(input) == Err(AmountPanic) else Normalize(input).Ok?)
  {
    TrimEmptyIff(input.recipientName);
    TrimEmptyIff(input.recipientAccountId);
    TrimEmptyIff(input.currency);
    TrimEmptyIff(input.idempotencyKey);
    if input.amount.Some? {
      PrintedTextIsExact(input.amount.value);
    }
    hide Trim, AllSpace, ByteLength, NumericString, Exact, ReadDecimal;
  }

  // ---------------------------------------------------------------- the create transaction

  predicate SourceOfClient(db: Db, call: Transactions.Call) {
    call.fundingSourceId in db.sources && db.sources[call.fundingSourceId].clientId == call.clientId
  }

  predicate TextsStorable(call: Transactions.Call) {
    NulFree(call.externalId) && NulFree(call.recipientName) && NulFree(call.recipientAccountId) && NulFree(call.currency)
  }

  /** The amount is less than 0.005. */
  predicate TooSmall(amount: Reading) { 200 * amount.coefficient < Pow10(amount.decimals) }

  /** The amount is at least 10^8 - 0.005. */
  predicate TooLarge(amount: Reading) { 200 * amount.coefficient >= 19_999_999_999 * Pow10(amount.decimals) }

  predicate ExternalIdUsed(db: Db, call: Transactions.Call) {
    && call.externalId != ""
    && exists p :: p in db.payouts && db.payouts[p].clientId == call.clientId && db.payouts[p].externalId == Some(call.externalId)
  }

  /** The first thing in the tables or the call that refuses the payout row. */
  function RowRefusal(db: Db, call: Transactions.Call, id: Id): Option<CreateError>
    requires call.amount.IsFinite()
  {
    if !TextsStorable(call) then Some(CreateError.Database(InvalidText))
    else if TooSmall(Exact(call.amount)) then Some(CreateError.Database(InvalidAmount(CheckViolation)))
    else if TooLarge(Exact(call.amount)) then Some(CreateError.Database(InvalidAmount(OutOfRange)))
    else if id in db.payouts then Some(CreateError.Database(UniqueViolation("payouts_pkey")))
    else if ExternalIdUsed(db, call) then Some(DuplicateExternalId)
    else None
  }

  /** The first thing that refuses the insert. */
  function Refusal(db: Db, call: Transactions.Call, id: Id, eventId: Id): Option<CreateError>
    requires call.amount.IsFinite()
  {
    if !SourceOfClient(db, call) then Some(FundingSourceNotFound)
    else if RowRefusal(db, call, id).Some? then RowRefusal(db, call, id)
    else if !NulFree(call.key) then Some(CreateError.Database(InvalidText))
    else if (call.clientId, call.key) in db.keys then Some(ConcurrentKeyInsert)
    else if eventId in db.events then Some(CreateError.Database(UniqueViolation("outbox_events_pkey")))
    else None
  }

  lemma WellFormedIsFinite(call: Transactions.Call)
    requires WellFormed(call)
    ensures call.amount.IsFinite() && call.amount.mantissa.value > 0
  {
  }

  lemma ColumnAnswers(v: Numeric)
    requires v.IsFinite() && v.mantissa.value > 0
    ensures TooSmall(Exact(v)) ==> AmountColumn(v) == Err(CheckViolation)
    ensures TooLarge(Exact(v)) ==> AmountColumn(v) == Err(OutOfRange)
    ensures !TooSmall(Exact(v)) && !TooLarge(Exact(v)) ==>
      AmountColumn(v).Ok? && exists h :: NearestHundredth(h, Exact(v)) && AmountColumn(v).value == InHundredths(h)
  {
    FitsIff(Exact(v));
    HundredthsNear(Exact(v));
    PositiveRounds(v);
    hide Exact, Hundredths, NearestHundredth;
  }

  lemma PositiveRounds(v: Numeric)
    requires v.IsFinite() && v.mantissa.value > 0
    ensures Hundredths(Exact(v)) >= 0
  {
    ZeroIffZeroCoefficient(v);
    if v.exp >= 0 {
      MulPositive(v.mantissa.value, Pow10(v.exp));
    }
    hide Exact;
  }

  lemma ExternalIdTakenIff(db: Db, call: Transactions.Call)
    ensures ExternalIdTaken(db, call.clientId, TextParam(call.externalId)) <==> ExternalIdUsed(db, call)
  {
  }

  lemma NoKeyFor(db: Db, id: Id)
    requires KeysOk(db) && id !in db.payouts
    ensures forall k :: k in db.keys ==> db.keys[k].payoutId != id
  {
    assert forall k :: k in db.keys ==> KeyOk(db, k);
    hide StoredFor;
  }

  /** The create transaction over consistent tables: the error it ends with, if any, is that
      of the first thing that refuses it. */
  lemma InsertTxAnswers(db: Db, call: Transactions.Call, id: Id, eventId: Id, now: int)
    requires Consistent(db) && WellFormed(call)
    ensures call.amount.IsFinite()
    ensures match Refusal(db, call, id, eventId)
      case Some(e) => InsertTx(db, call, id, eventId, now) == Err(e)
      case None => InsertTx(db, call, id, eventId, now).Ok?
  {
    WellFormedIsFinite(call);
    hide WellFormed, RowRefusal, FindSource, InsertPayoutRow, InsertKeyRow, InsertOutboxEvent, SourceOfClient, RequestHash, Consistent,
      NulFree, NewRow;
    SourceAnswers(db, call);
    EventRowAnswers(db, call, id, eventId, now);
    if SourceOfClient(db, call) {
      PayoutRowAnswers(db, call, id);
      if RowRefusal(db, call, id) == None {
        KeyRowAnswers(db, call, id);
      }
    }
  }

  lemma SourceAnswers(db: Db, call: Transactions.Call)
    ensures FindSource(db, call)
         == if SourceOfClient(db, call) then Ok(db.sources[call.fundingSourceId]) else Err(FundingSourceNotFound)
  {
  }

  lemma EventRowAnswers(db: Db, call: Transactions.Call, id: Id, eventId: Id, now: int)
    ensures var written := db.(
        payouts := db.payouts[id := NewRow(call)],
        keys := db.keys[(call.clientId, call.key) := KeyRow(RequestHash(call), id)]);
      var out := InsertOutboxEvent(written, eventId, ProcessPayout, id, ProcessPayload(id, call.clientId), now);
      if eventId in db.events then out == Err(UniqueViolation("outbox_events_pkey")) else out.Ok?
  {
    hide NewRow, RequestHash;
  }

  lemma PayoutRowAnswers(db: Db, call: Transactions.Call, id: Id)
    requires Consistent(db) && call.amount.IsFinite() && call.amount.mantissa.value > 0 && SourceOfClient(db, call)
    ensures match RowRefusal(db, call, id)
      case Some(e) => InsertPayoutRow(db, id, PayoutParams(call)) == Err(e)
      case None => id !in db.payouts && InsertPayoutRow(db, id, PayoutParams(call)) == Ok(db.(payouts := db.payouts[id := NewRow(call)]))
  {
    hide AmountColumn, TooSmall, TooLarge, ExternalIdUsed, ExternalIdTaken, NulFree, PayoutsOk, KeysOk, EventsOk, Complete,
      OneKeyEach, OneProcessEventEach, ExternalIdsUnique, NearestHundredth, Exact;
    TextParamOk(call.externalId);
    TextParamOk(call.recipientName);
    TextParamOk(call.recipientAccountId);
    ColumnAnswers(call.amount);
    ExternalIdTakenIff(db, call);
  }

  lemma TextParamOk(text: string)
    ensures TextOk(TextParam(text)) <==> NulFree(text)
  {
  }

  lemma KeyRowAnswers(db: Db, call: Transactions.Call, id: Id)
    requires Consistent(db) && id !in db.payouts && SourceOfClient(db, call)
    ensures var key := (call.clientId, call.key);
      InsertKeyRow(db.(payouts := db.payouts[id := NewRow(call)]), call, id)
      == if !NulFree(call.key) then Err(CreateError.Database(InvalidText))
         else if key in db.keys then Err(ConcurrentKeyInsert)
         else Ok(db.(payouts := db.payouts[id := NewRow(call)], keys := db.keys[key := KeyRow(RequestHash(call), id)]))
  {
    hide RequestHash, NewRow, NulFree, PayoutsOk, KeysOk, EventsOk, Complete, OneKeyEach, OneProcessEventEach, ExternalIdsUnique;
    KeysOkOf(db);
    NoKeyFor(db, id);
  }

  /** The row the create transaction stores: the call's columns, absent for empty texts, the
      amount in hundredths, nearest to the requested one. */
  lemma StoresTheRequest(db: Db, call: Transactions.Call, id: Id, eventId: Id, now: int) returns (h: int)
    requires WellFormed(call) && InsertTx(db, call, id, eventId, now).Ok?
    ensures call.amount.IsFinite() && NearestHundredth(h, Exact(call.amount))
    ensures id in InsertTx(db, call, id, eventId, now).value.payouts
    ensures InsertTx(db, call, id, eventId, now).value.payouts[id] == Payout(
      call.clientId, call.fundingSourceId,
      if call.externalId == "" then None else Some(call.externalId),
      if call.recipientName == "" then None else Some(call.recipientName),
      if call.recipientAccountId == "" then None else Some(call.recipientAccountId),
      Numeric(Some(h), -2, false, Finite, true), call.currency, Pending, None)
  {
    WellFormedIsFinite(call);
    InsertTxEffect(db, call, id, eventId, now);
    HundredthsNear(Exact(call.amount));
    h := Hundredths(Exact(call.amount));
    hide WellFormed, InsertTx, Exact, Hundredths, NearestHundredth, RequestHash;
  }

  // ---------------------------------------------------------------- create calls

  /** The key's stored hash is the call's. */
  lemma ReadsKey(db: Db, call: Transactions.Call)
    requires Consistent(db)
    ensures var k := (call.clientId, call.key);
      var found := LoadIdempotentPayout(db, call);
      && (!NulFree(call.key) ==> found == Err(CreateError.Database(InvalidText)))
      && (NulFree(call.key) && k !in db.keys ==> found == Ok(NotFound))
      && (NulFree(call.key) && k in db.keys ==>
            if RequestStored(db, call)
            then var w := db.keys[k].payoutId;
                 w in db.payouts && found == Ok(Existing(w, db.payouts[w])) && ReplyWith(w, db.payouts[w]) == Ok(w)
            else found == Err(IdempotencyConflict))
  {
    hide Consistent, RequestHash, NulFree;
    if RequestStored(db, call) {
      StoredRequestFound(db, call);
    }
  }

  /** The answer after losing the key to another call, from the tables of the fallback read. */
  function LoserAnswer(db: Db, call: Transactions.Call): Result<Id, CreateError> {
    if (call.clientId, call.key) !in db.keys then Err(UnsupportedAmount)
    else if db.keys[(call.clientId, call.key)].requestHash != RequestHash(call) then Err(IdempotencyConflict)
    else Ok(db.keys[(call.clientId, call.key)].payoutId)
  }

  lemma LoserReads(db: Db, call: Transactions.Call)
    requires Consistent(db) && NulFree(call.key)
    ensures ReloadResult(call, db) == LoserAnswer(db, call)
  {
    hide Consistent, RequestHash, NulFree, LoadIdempotentPayout, ReplyWith;
    ReadsKey(db, call);
  }

  /** What a create call with a valid request answers: with the stored payout if its key is
      stored for its request, whoever stored it; with a conflict if for another; with its
      own new payout if no key is there and nothing refuses the insert; with what refuses it
      otherwise; and after losing the key, with what the fallback reads. */
  lemma CreateAnswers(db: Db, input: CreateInput, id: Id, eventId: Id, now: int, course: CreateCourse)
    requires Consistent(db) && Consistent(course.atInsert) && Consistent(course.atReload) && Normalize(input).Ok?
    ensures Normalize(input).value.amount.IsFinite()
    ensures var call := Normalize(input).value;
      var k := (call.clientId, call.key);
      var reply := CreateResult(db, input, id, eventId, now, course).0;
      if course.tx.BeginFails? then reply == Err(CreateError.Database(Unavailable))
      else if !NulFree(call.key) then reply == Err(CreateError.Database(InvalidText))
      else if k in db.keys && db.keys[k].requestHash != RequestHash(call) then reply == Err(IdempotencyConflict)
      else if k in db.keys then reply == if course.tx == Smooth then Ok(db.keys[k].payoutId) else Err(CreateError.Database(Unavailable))
      else
        match Refusal(course.atInsert, call, id, eventId)
        case None => reply == if course.tx == Smooth then Ok(id) else Err(CreateError.Database(Unavailable))
        case Some(ConcurrentKeyInsert) => reply == LoserAnswer(course.atReload, call)
        case Some(e) => reply == Err(e)
  {
    NormalizedIsWellFormed(input);
    var call := Normalize(input).value;
    WellFormedIsFinite(call);
    hide Normalize, Consistent, WellFormed, RequestHash, NulFree, CreateResult, InsertResult, Refusal, LoserAnswer;
    ReadAnswers(db, input, id, eventId, now, course);
    if NulFree(call.key) {
      InsertAnswers(call, id, eventId, now, course);
    }
  }

  lemma ReadAnswers(db: Db, input: CreateInput, id: Id, eventId: Id, now: int, course: CreateCourse)
    requires Consistent(db) && Normalize(input).Ok?
    ensures var call := Normalize(input).value;
      var k := (call.clientId, call.key);
      var reply := CreateResult(db, input, id, eventId, now, course).0;
      if course.tx.BeginFails? then reply == Err(CreateError.Database(Unavailable))
      else if !NulFree(call.key) then reply == Err(CreateError.Database(InvalidText))
      else if k in db.keys && db.keys[k].requestHash != RequestHash(call) then reply == Err(IdempotencyConflict)
      else if k in db.keys then reply == if course.tx == Smooth then Ok(db.keys[k].payoutId) else Err(CreateError.Database(Unavailable))
      else reply == InsertResult(call, id, eventId, now, course).0
  {
    hide Normalize, Consistent, RequestHash, NulFree, LoadIdempotentPayout, ReplyWith, InsertResult;
    ReadsKey(db, Normalize(input).value);
  }

  lemma InsertAnswers(call: Transactions.Call, id: Id, eventId: Id, now: int, course: CreateCourse)
    requires Consistent(course.atInsert) && Consistent(course.atReload) && WellFormed(call) && NulFree(call.key)
    ensures call.amount.IsFinite()
    ensures var reply := InsertResult(call, id, eventId, now, course).0;
      match Refusal(course.atInsert, call, id, eventId)
      case None => reply == if course.tx.CommitFails? then Err(CreateError.Database(Unavailable)) else Ok(id)
      case Some(ConcurrentKeyInsert) => reply == LoserAnswer(course.atReload, call)
      case Some(e) => reply == Err(e)
  {
    hide Consistent, WellFormed, RequestHash, NulFree, InsertTx, ReplyWith, ReloadResult, NewRow, Refusal, LoserAnswer;
    InsertTxAnswers(course.atInsert, call, id, eventId, now);
    LoserReads(course.atReload, call);
    if InsertTx(course.atInsert, call, id, eventId, now).Ok? {
      hide RequestHash, ExternalIdTaken;
      InsertTxEffect(course.atInsert, call, id, eventId, now);
      PrintsItsAmount(call, id);
    }
  }

  /** A create call succeeds if and only if one of three things holds: its key was stored for
      its request, and the transaction commits; no key was there, nothing refuses the insert,
      and the transaction commits; or only the key refuses the insert, and the fallback read
      finds it stored for its request. */
  lemma CreateSucceedsIff(db: Db, input: CreateInput, id: Id, eventId: Id, now: int, course: CreateCourse)
    requires Consistent(db) && Consistent(course.atInsert) && Consistent(course.atReload) && Normalize(input).Ok?
    ensures Normalize(input).value.amount.IsFinite()
    ensures var call := Normalize(input).value;
      var key := (call.clientId, call.key);
      CreateResult(db, input, id, eventId, now, course).0.Ok? <==>
        || (course.tx == Smooth && RequestStored(db, call))
        || (course.tx == Smooth && key !in db.keys && Refusal(course.atInsert, call, id, eventId) == None)
        || (!course.tx.BeginFails? && key !in db.keys
            && Refusal(course.atInsert, call, id, eventId) == Some(ConcurrentKeyInsert) && RequestStored(course.atReload, call))
  {
    hide Normalize, Consistent, RequestHash, CreateResult, SourceOfClient, TextsStorable, TooSmall, TooLarge, ExternalIdUsed, NulFree;
    CreateAnswers(db, input, id, eventId, now, course);
    if KeyStored(db, Normalize(input).value) {
      StoredKeyNulFree(db, Normalize(input).value);
    }
  }

  lemma StoredKeyNulFree(db: Db, call: Transactions.Call)
    requires Consistent(db) && KeyStored(db, call)
    ensures NulFree(call.key)
  {
    assert KeyOk(db, (call.clientId, call.key));
    hide RequestHash, Fields, WellFormed, NewRow, AmountColumn;
  }

  // ---------------------------------------------------------------- recordings

  /** What is kept of a failure's reason is the provider's own text, or nothing if it is
      white space. */
  lemma KeptReason(r: ProviderResult)
    ensures StoredReason(r) == if AllSpace(r.failureReason) then None else Some(r.failureReason)
  {
    TrimEmptyIff(r.failureReason);
  }

  predicate Storable(r: ProviderResult) {
    r.status == Succeeded || (r.status == Failed && NulFree(r.failureReason))
  }

  lemma RecordableIff(r: ProviderResult)
    ensures Recordable(r) <==> Storable(r)
  {
    KeptReason(r);
    if AllSpace(r.failureReason) {
      assert forall i :: 0 <= i < |r.failureReason| ==> IsSpace(r.failureReason[i]);
    }
    hide StoredReason;
  }

  /** The row after a result is recorded. */
  function RowAfter(row: Payout, r: ProviderResult): Payout {
    row.(status := r.status,
         failureReason := if r.status == Succeeded then row.failureReason
                          else if AllSpace(r.failureReason) then None else Some(r.failureReason))
  }

  /** Recording a result: it succeeds exactly for a success or a failure whose reason has no
      zero byte, with a new event identifier if the client's webhook column holds more than
      white space. Then the row has the result's status and, after a failure, its reason, and
      one event more is there exactly if the column does, addressed to what it holds between
      white space. */
  lemma RecordTxAnswers(db: Db, p: Id, r: ProviderResult, eventId: Id, now: int)
    requires p in db.payouts && db.payouts[p].clientId in db.clients
    ensures var column := db.clients[db.payouts[p].clientId].webhookUrl;
      var out := RecordTx(db, p, r, eventId, now);
      && (!r.status.Final() ==> out == Err(UnsupportedProviderResult))
      && (r.status.Final() && !Storable(r) ==> out == Err(StoreError(InvalidText)))
      && (Storable(r) && HasTarget(column) && eventId in db.events ==> out == Err(StoreError(UniqueViolation("outbox_events_pkey"))))
      && (Storable(r) && !HasTarget(column) ==> out == Ok(db.(payouts := db.payouts[p := RowAfter(db.payouts[p], r)])))
      && (Storable(r) && HasTarget(column) && eventId !in db.events ==>
            exists url :: Addresses(column, url) && out == Ok(Announced(db, p, RowAfter(db.payouts[p], r), eventId, url, now)))
  {
    RecordableIff(r);
    KeptReason(r);
    var column := db.clients[db.payouts[p].clientId].webhookUrl;
    TargetUrlIff(column, TargetUrl(column).GetOr(""));
    hide TargetUrl, HasTarget, Addresses, StoredReason, AllSpace, NulFree;
    if TargetUrl(column).Some? {
      assert Addresses(column, TargetUrl(column).value);
    }
  }

  /** Without its payout, or without the payout's client, a storable result is not recorded. */
  lemma RecordTxMissing(db: Db, p: Id, r: ProviderResult, eventId: Id, now: int)
    requires Storable(r) && (p in db.payouts ==> db.payouts[p].clientId !in db.clients)
    ensures RecordTx(db, p, r, eventId, now) == Err(StoreError(NoRows))
  {
    RecordableIff(r);
    hide StoredReason;
  }

  /** The tables with the row and its webhook event. */
  function Announced(db: Db, p: Id, row: Payout, eventId: Id, url: string, now: int): Db {
    db.(payouts := db.payouts[p := row],
        events := db.events[eventId := Event(PayoutResultWebhook, p,
          WebhookPayload(p, row.clientId, url, row.status, row.failureReason.GetOr("")), EventPending, now, None, None)])
  }

  /** A column written as a trimmed text between white space: a recording sends the webhook
      to exactly that text, and sends none if it is empty. */
  lemma WebhookGoesToCore(db: Db, p: Id, r: ProviderResult, eventId: Id, now: int, before: string, core: string, after: string)
    requires p in db.payouts && db.payouts[p].clientId in db.clients && Storable(r) && eventId !in db.events
    requires AllSpace(before) && AllSpace(after) && Trimmed(core)
    requires db.clients[db.payouts[p].clientId].webhookUrl == Some(before + core + after)
    ensures var row := RowAfter(db.payouts[p], r);
      RecordTx(db, p, r, eventId, now)
      == if core == "" then Ok(db.(payouts := db.payouts[p := row])) else Ok(Announced(db, p, row, eventId, core, now))
  {
    var column := db.clients[db.payouts[p].clientId].webhookUrl;
    RecordTxAnswers(db, p, r, eventId, now);
    TrimFindsCore(before, core, after);
    TrimEmptyIff(before + core + after);
    TargetUrlIff(column, core);
    if HasTarget(column) {
      var url :| Addresses(column, url)
        && RecordTx(db, p, r, eventId, now) == Ok(Announced(db, p, RowAfter(db.payouts[p], r), eventId, url, now));
      TargetUrlIff(column, url);
    }
    hide RecordTx, Trim, AllSpace, TargetUrl;
  }

  // ---------------------------------------------------------------- deliveries

  /** The message is a job of a payout that is stored for the client it names. */
  predicate NamesPayout(db: Db, msg: Msg) {
    && msg.Job? && msg.eventType == ProcessPayout && !msg.payload.Unreadable?
    && msg.payload.payoutId in db.payouts && db.payouts[msg.payload.payoutId].clientId == msg.payload.clientId
  }

  /** What recording a result of payout `p` asks of the course and of the tables at the time. */
  predicate RecordsSmoothly(db: Db, p: Id, course: ExecCourse)
    requires p in db.payouts && db.payouts[p].clientId in db.clients
  {
    && course.record == Smooth && course.answer.Some? && Storable(course.answer.value)
    && (HasTarget(db.clients[db.payouts[p].clientId].webhookUrl) ==> course.eventId !in db.events)
  }

  lemma RecordAnswers(db: Db, p: Id, course: ExecCourse)
    requires p in db.payouts && db.payouts[p].clientId in db.clients && course.answer.Some?
    ensures RecordResult(db, p, course.answer.value, course).0.Ok? <==> RecordsSmoothly(db, p, course)
  {
    RecordTxAnswers(db, p, course.answer.value, course.eventId, course.now);
    hide RecordTx, HasTarget, Addresses, RowAfter;
  }

  /** Other connections only move the tables on. */
  ghost predicate MovedOn(db: Db, course: ExecCourse) {
    course.atRecord.Some? ==> Consistent(course.atRecord.value) && Evolves(db, course.atRecord.value)
  }

  lemma TablesAtRecord(db: Db, clientId: Id, p: Id, course: ExecCourse)
    requires Consistent(db) && MovedOn(db, course) && PrepareTx(db, clientId, p).Ok?
    ensures p in db.payouts && p in course.atRecord.GetOr(db).payouts
    ensures var at := course.atRecord.GetOr(PrepareTx(db, clientId, p).value.0);
      && p in at.payouts && at.payouts[p].clientId == db.payouts[p].clientId && db.payouts[p].clientId in at.clients
      && at.clients == course.atRecord.GetOr(db).clients && at.events == course.atRecord.GetOr(db).events
  {
    hide PrepareTx, InputOf, Complete, KeysOk, EventsOk, OneKeyEach, OneProcessEventEach, ExternalIdsUnique, NumericString;
    PrepareTxEffect(db, clientId, p);
    assert PayoutOk(db, p);
  }

  /** A delivery handled over consistent tables: it is acknowledged if and only if it is a
      job of a stored payout, its preparation commits, and the payout was succeeded already
      or was not final and a storable result was recorded. A message that does not decode is
      dropped, and every other one goes back to the queue. */
  lemma AcknowledgedIff(db: Db, msg: Msg, course: ExecCourse)
    requires Consistent(db) && MovedOn(db, course)
    ensures var p := if msg.Job? && !msg.payload.Unreadable? then msg.payload.payoutId else 0;
      var at := course.atRecord.GetOr(db);
      && (NamesPayout(db, msg) ==> p in at.payouts && at.payouts[p].clientId in at.clients)
      && (SettlementFor(db, msg, course) == Acked <==>
            && NamesPayout(db, msg) && course.prepare == Smooth
            && (db.payouts[p].status == Succeeded
                || ((db.payouts[p].status == Pending || db.payouts[p].status == Processing) && RecordsSmoothly(at, p, course))))
    ensures SettlementFor(db, msg, course) == Nacked(false) <==> msg.Malformed?
    ensures SettlementFor(db, msg, course) != Unsettled
  {
    hide Consistent, PrepareTx, RecordResult, HasTarget, Evolves;
    if msg.Job? && msg.eventType == ProcessPayout && !msg.payload.Unreadable? {
      var p := msg.payload.payoutId;
      PayoutsOkOf(db);
      PrepareTxEffect(db, msg.payload.clientId, p);
      if NamesPayout(db, msg) {
        NamedClient(db, course, p);
      }
      if PrepareTx(db, msg.payload.clientId, p).Ok? && course.answer.Some? {
        TablesAtRecord(db, msg.payload.clientId, p, course);
        RecordAnswers(course.atRecord.GetOr(PrepareTx(db, msg.payload.clientId, p).value.0), p, course);
      }
    }
  }

  lemma PayoutsOkOf(db: Db)
    requires Consistent(db)
    ensures PayoutsOk(db) && forall p :: p in db.payouts ==> db.payouts[p].status.Valid()
  {
    forall p | p in db.payouts ensures db.payouts[p].status.Valid() {
      assert PayoutOk(db, p);
    }
  }

  lemma NamedClient(db: Db, course: ExecCourse, p: Id)
    requires Consistent(db) && MovedOn(db, course) && p in db.payouts
    ensures var at := course.atRecord.GetOr(db);
      p in at.payouts && at.payouts[p].clientId == db.payouts[p].clientId && db.payouts[p].clientId in at.clients
  {
    hide Complete, KeysOk, EventsOk, OneKeyEach, OneProcessEventEach, ExternalIdsUnique, NumericString;
    assert PayoutOk(db, p);
  }

  /** The provider is called exactly for a job of a stored payout that was not final, when
      the preparation commits, and with the payout's own input. */
  lemma CalledIff(db: Db, msg: Msg, course: ExecCourse)
    requires Consistent(db) && msg.Job?
    ensures var called := HandleResult(db, msg.eventType, msg.payload, course).called;
      && (called.Some? <==>
            && NamesPayout(db, msg) && course.prepare == Smooth
            && (db.payouts[msg.payload.payoutId].status == Pending || db.payouts[msg.payload.payoutId].status == Processing))
      && (called.Some? ==> InputKnown(db, msg.payload.payoutId) && called.value == InputOf(db, msg.payload.payoutId))
  {
    hide Consistent, PrepareTx, RecordResult, InputOf;
    if msg.eventType == ProcessPayout && !msg.payload.Unreadable? {
      PayoutsOkOf(db);
      PrepareTxEffect(db, msg.payload.clientId, msg.payload.payoutId);
      if msg.payload.payoutId in db.payouts {
        InputIsKnown(db, msg.payload.payoutId);
      }
    }
  }

  // ---------------------------------------------------------------- the relay's round

  /** What a round that claimed `event` returns: true exactly when the publish succeeded and
      every transaction did, the failed dispatch exactly when only the publish failed, and
      otherwise the error of the first transaction that failed. */
  lemma RunOnceAnswers(db: Db, event: Id, course: RelayCourse)
    requires event in db.events && !course.claim.BeginFails?
    ensures var r := RunOnceResult(db, event, course).0;
      var there := course.atFinish.Some? ==> event in course.atFinish.value.events;
      var smooth := course.claim == Smooth && course.finish == Smooth && there;
      && (r == Ok(true) <==> smooth && course.outcome == Delivered)
      && (r == Err(DispatchFailed) <==> smooth && course.outcome != Delivered)
      && (r == Err(StoreFailed(NoRows)) <==> course.claim == Smooth && !course.finish.BeginFails? && !there)
      && (r == Err(StoreFailed(Unavailable)) <==>
            course.claim != Smooth || course.finish.BeginFails? || (there && course.finish.CommitFails?))
  {
  }

  /** What a smooth round leaves of the tables, alone at work: after a dispatch the event is
      processed, with the time; after a failed publish it is pending, to be claimed again at
      once; nothing else changes. */
  lemma RoundLeaves(db: Db, event: Id, course: RelayCourse, types: seq<EventType>, reclaimBefore: int)
    requires event in db.events && course.claim == Smooth && course.finish == Smooth && course.atFinish == None
    requires types == [] || db.events[event].eventType in types
    ensures var after := RunOnceResult(db, event, course).1;
      && after == db.(events := after.events) && after.events.Keys == db.events.Keys
      && (forall e :: e in db.events && e != event ==> after.events[e] == db.events[e])
      && (course.outcome == Delivered ==>
            && after.events[event].status == EventProcessed && after.events[event].processedAt == Some(course.finishedAt)
            && !Eligible(after.events[event], types, reclaimBefore))
      && (course.outcome != Delivered ==>
            && after.events[event].status == EventPending && after.events[event].processedAt == db.events[event].processedAt
            && Eligible(after.events[event], types, reclaimBefore))
      && after.events[event].claimedAt == None
  {
  }
}
