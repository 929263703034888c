/** The database tables as values, and each query of the generated database layer as a
    function from tables to tables. Times and generated identifiers are parameters. */
module Tables {
  import opened Prelude
  import opened Decimal
  import opened Amounts
  import opened Text
  import opened Domain

  type Id = nat

  /** The text of an identifier: injective, and free of the zero byte. */
  function IdText(id: Id): string { Digits(id) }

  datatype Client = Client(webhookUrl: Option<string>)

  datatype FundingSource = FundingSource(clientId: Id, paymentAccountId: string)

  datatype Payout = Payout(
    clientId: Id, fundingSourceId: Id,
    externalId: Option<string>, recipientName: Option<string>, recipientAccountId: Option<string>,
    amount: Numeric, currency: string,
    status: Status, failureReason: Option<string>)

  datatype KeyRow = KeyRow(requestHash: string, payoutId: Id)

  datatype EventType = ProcessPayout | PayoutResultWebhook

  /** Decoding an encoded payload gives it back; `Unreadable` is text that does not decode. */
  datatype Payload =
    | Unreadable
    | ProcessPayload(payoutId: Id, clientId: Id)
    | WebhookPayload(payoutId: Id, clientId: Id, targetUrl: string, status: Status, failureReason: string)

  datatype EventStatus = EventPending | EventProcessing | EventProcessed

  datatype Event = Event(
    eventType: EventType, entityId: Id, payload: Payload,
    status: EventStatus, createdAt: int, claimedAt: Option<int>, processedAt: Option<int>)

  datatype Db = Db(
    clients: map<Id, Client>,
    sources: map<Id, FundingSource>,
    payouts: map<Id, Payout>,
    keys: map<(Id, string), KeyRow>,
    events: map<Id, Event>)

  datatype DbError =
    | NoRows | ForeignKey | InvalidText | InvalidAmount(error: ColumnError) | UniqueViolation(constraint: string) | Unavailable

  const EXTERNAL_ID_INDEX := "ux_payouts_client_external_id"

  // ---------------------------------------------------------------- payouts

  function GetPayout(db: Db, clientId: Id, id: Id): Result<Payout, DbError> {
    if id in db.payouts && db.payouts[id].clientId == clientId then Ok(db.payouts[id]) else Err(NoRows)
  }

  function GetFundingSource(db: Db, clientId: Id, id: Id): Result<FundingSource, DbError> {
    if id in db.sources && db.sources[id].clientId == clientId then Ok(db.sources[id]) else Err(NoRows)
  }

  predicate TextOk(t: Option<string>) { t.Some? ==> NulFree(t.value) }

  /** The partial unique index on (client_id, external_id). */
  predicate ExternalIdTaken(db: Db, clientId: Id, externalId: Option<string>) {
    && externalId.Some? && externalId.value != ""
    && exists id :: id in db.payouts && db.payouts[id].clientId == clientId && db.payouts[id].externalId == externalId
  }

  /** INSERT INTO payouts; Postgres text never holds a zero byte, and the amount is rounded. */
  function InsertPayout(db: Db, id: Id, row: Payout): Result<Db, DbError> {
    if !TextOk(row.externalId) || !TextOk(row.recipientName) || !TextOk(row.recipientAccountId) || !NulFree(row.currency) then
      Err(InvalidText)
    else if AmountColumn(row.amount).Err? then Err(InvalidAmount(AmountColumn(row.amount).error))
    else if id in db.payouts then Err(UniqueViolation("payouts_pkey"))
    else if ExternalIdTaken(db, row.clientId, row.externalId) then Err(UniqueViolation(EXTERNAL_ID_INDEX))
    else if row.clientId !in db.clients || row.fundingSourceId !in db.sources then Err(ForeignKey)
    else Ok(db.(payouts := db.payouts[id := row.(amount := AmountColumn(row.amount).value)]))
  }

  function UpdatePayoutStatus(db: Db, id: Id, status: Status): Result<Db, DbError> {
    if id in db.payouts then Ok(db.(payouts := db.payouts[id := db.payouts[id].(status := status)]))
    else Err(NoRows)
  }

  function UpdatePayoutFailure(db: Db, id: Id, reason: Option<string>): Result<Db, DbError> {
    if !TextOk(reason) then Err(InvalidText)
    else if id in db.payouts then
      Ok(db.(payouts := db.payouts[id := db.payouts[id].(status := Failed, failureReason := reason)]))
    else Err(NoRows)
  }

  // ---------------------------------------------------------------- idempotency keys

  function GetIdempotencyKey(db: Db, clientId: Id, key: string): Result<KeyRow, DbError> {
    if !NulFree(key) then Err(InvalidText)
    else if (clientId, key) in db.keys then Ok(db.keys[(clientId, key)])
    else Err(NoRows)
  }

  function InsertIdempotencyKey(db: Db, clientId: Id, key: string, row: KeyRow): Result<Db, DbError> {
    if !NulFree(key) then Err(InvalidText)
    else if (clientId, key) in db.keys then Err(UniqueViolation("idempotency_keys_pkey"))
    else if exists k :: k in db.keys && db.keys[k].payoutId == row.payoutId then
      Err(UniqueViolation("idempotency_keys_payout_id_key"))
    else if clientId !in db.clients || row.payoutId !in db.payouts then Err(ForeignKey)
    else Ok(db.(keys := db.keys[(clientId, key) := row]))
  }

  // ---------------------------------------------------------------- outbox events

  function InsertOutboxEvent(db: Db, id: Id, eventType: EventType, entityId: Id, payload: Payload, now: int): Result<Db, DbError> {
    if id in db.events then Err(UniqueViolation("outbox_events_pkey"))
    else if entityId !in db.payouts then Err(ForeignKey)
    else Ok(db.(events := db.events[id := Event(eventType, entityId, payload, EventPending, now, None, None)]))
  }

  /** The WHERE clause of the claim query; an empty list of types means no filter. */
  predicate Eligible(e: Event, types: seq<EventType>, reclaimBefore: int) {
    && (types == [] || e.eventType in types)
    && (e.status == EventPending
        || (e.status == EventProcessing && e.claimedAt.Some? && e.claimedAt.value < reclaimBefore))
  }

  /** `id` is a row the claim query may pick: eligible, not locked by another
      transaction, and none such is older. */
  predicate IsNext(db: Db, types: seq<EventType>, reclaimBefore: int, locked: set<Id>, id: Id) {
    && id in db.events && id !in locked && Eligible(db.events[id], types, reclaimBefore)
    && forall other :: other in db.events && other !in locked && Eligible(db.events[other], types, reclaimBefore)
         ==> db.events[id].createdAt <= db.events[other].createdAt
  }

  function ClaimEvent(db: Db, id: Id, now: int): Db
    requires id in db.events
  {
    db.(events := db.events[id := db.events[id].(status := EventProcessing, claimedAt := Some(now))])
  }

  function MarkProcessed(db: Db, id: Id, now: int): Result<Db, DbError> {
    if id in db.events then
      Ok(db.(events := db.events[id := db.events[id].(status := EventProcessed, processedAt := Some(now), claimedAt := None)]))
    else Err(NoRows)
  }

  function ReleaseClaim(db: Db, id: Id): Result<Db, DbError> {
    if id in db.events then
      Ok(db.(events := db.events[id := db.events[id].(status := EventPending, claimedAt := None)]))
    else Err(NoRows)
  }

  // ---------------------------------------------------------------- the claim query's choice

  function Candidates(db: Db, types: seq<EventType>, reclaimBefore: int, locked: set<Id>): set<Id> {
    set id | id in db.events && id !in locked && Eligible(db.events[id], types, reclaimBefore)
  }

  /** The query finds a row exactly when some unlocked row is eligible. */
  lemma NextExists(db: Db, types: seq<EventType>, reclaimBefore: int, locked: set<Id>)
    ensures Candidates(db, types, reclaimBefore, locked) != {}
       <==> exists id :: IsNext(db, types, reclaimBefore, locked, id)
  {
    var all := Candidates(db, types, reclaimBefore, locked);
    assert forall id :: IsNext(db, types, reclaimBefore, locked, id) ==> id in all;
    if all != {} {
      var id := OldestOf(db, all);
      assert IsNext(db, types, reclaimBefore, locked, id);
    }
  }

  lemma {:induction false} OldestOf(db: Db, ids: set<Id>) returns (oldest: Id)
    requires ids != {} && ids <= db.events.Keys
    ensures oldest in ids
    ensures forall id :: id in ids ==> db.events[oldest].createdAt <= db.events[id].createdAt
    decreases |ids|
  {
    var id :| id in ids;
    if ids == {id} {
      oldest := id;
    } else {
      assert ids - {id} != {};
      oldest := OldestOf(db, ids - {id});
      if db.events[id].createdAt < db.events[oldest].createdAt {
        oldest := id;
      }
    }
  }
}
