/** The bodies of the service's and the worker's transactions, as functions from the
    tables before to the tables after. An error rolls back: it carries no tables. */
module Transactions {
  import opened Prelude
  import opened Decimal
  import opened Amounts
  import opened Text
  import opened Domain
  import opened Tables

  // ---------------------------------------------------------------- the create request

  /** A create request as it arrives: identifiers and the amount are None when their
      text does not parse. */
  datatype CreateInput = CreateInput(
    clientId: Option<Id>, fundingSourceId: Option<Id>, idempotencyKey: string, externalId: string,
    recipientName: string, recipientAccountId: string, amount: Option<Numeric>, currency: string)

  /** A validated and normalised create call. */
  datatype Call = Call(
    clientId: Id, fundingSourceId: Id, key: string, externalId: string,
    recipientName: string, recipientAccountId: string, amount: Numeric, amountText: string, currency: string)

  datatype CreateError =
    | InvalidClientId | InvalidFundingSourceId | InvalidPayout | InvalidIdempotencyKey
    | UnsupportedAmount | AmountPanic
    | FundingSourceNotFound | DuplicateExternalId | IdempotencyConflict | ConcurrentKeyInsert
    | Database(error: DbError)

  function NormalizeOptional(raw: string, maxLen: nat): Option<string> {
    var value := Trim(raw);
    if ByteLength(value) > maxLen then None else Some(value)
  }

  function NormalizeRequired(raw: string, maxLen: nat): Option<string> {
    var value := Trim(raw);
    if value == "" || ByteLength(value) > maxLen then None else Some(value)
  }

  function PositiveAmount(amount: Option<Numeric>): Option<Numeric> {
    if amount.Some? && amount.value.IsFinite() && amount.value.mantissa.value > 0 then amount else None
  }

  function Require<T>(o: Option<T>, e: CreateError): Result<T, CreateError> {
    if o.Some? then Ok(o.value) else Err(e)
  }

  /** The validation at the head of CreatePayout, in its order. */
  function Normalize(input: CreateInput): Result<Call, CreateError> {
    var clientId :- Require(input.clientId, InvalidClientId);
    var fundingSourceId :- Require(input.fundingSourceId, InvalidFundingSourceId);
    var externalId :- Require(NormalizeOptional(input.externalId, 255), InvalidPayout);
    var recipientName :- Require(NormalizeRequired(input.recipientName, 255), InvalidPayout);
    var recipientAccountId :- Require(NormalizeRequired(input.recipientAccountId, 255), InvalidPayout);
    var amount :- Require(PositiveAmount(input.amount), InvalidPayout);
    var currency := Trim(input.currency);
    if currency == "" || ByteLength(currency) > 12 then Err(InvalidPayout)
    else
      var key := Trim(input.idempotencyKey);
      if key == "" then Err(InvalidIdempotencyKey)
      else
        match NumericString(amount)
        case Unsupported => Err(UnsupportedAmount)
        case Panics => Err(AmountPanic)
        case Printed(text) =>
          Ok(Call(clientId, fundingSourceId, key, externalId, recipientName, recipientAccountId, amount, text, currency))
  }

  /** The request with white space around each of its trimmed texts. */
  function Padded(input: CreateInput, before: seq<string>, after: seq<string>): CreateInput
    requires |before| == |after| == 5
  {
    input.(
      idempotencyKey := before[0] + input.idempotencyKey + after[0],
      externalId := before[1] + input.externalId + after[1],
      recipientName := before[2] + input.recipientName + after[2],
      recipientAccountId := before[3] + input.recipientAccountId + after[3],
      currency := before[4] + input.currency + after[4])
  }

  /** Requests that differ only in white space around the trimmed texts are the same call,
      so they have one key and one hash, or fail alike. */
  lemma PaddingChangesNothing(input: CreateInput, before: seq<string>, after: seq<string>)
    requires |before| == |after| == 5
    requires forall i :: 0 <= i < 5 ==> AllSpace(before[i]) && AllSpace(after[i])
    ensures Normalize(Padded(input, before, after)) == Normalize(input)
  {
    hide Trim, Normalize, AllSpace;
    TrimIgnoresPadding(before[0], input.idempotencyKey, after[0]);
    TrimIgnoresPadding(before[1], input.externalId, after[1]);
    TrimIgnoresPadding(before[2], input.recipientName, after[2]);
    TrimIgnoresPadding(before[3], input.recipientAccountId, after[3]);
    TrimIgnoresPadding(before[4], input.currency, after[4]);
    TrimmedAlike(input, Padded(input, before, after));
  }

  lemma TrimmedAlike(a: CreateInput, b: CreateInput)
    requires a.clientId == b.clientId && a.fundingSourceId == b.fundingSourceId && a.amount == b.amount
    requires Trim(a.idempotencyKey) == Trim(b.idempotencyKey) && Trim(a.externalId) == Trim(b.externalId)
    requires Trim(a.recipientName) == Trim(b.recipientName) && Trim(a.recipientAccountId) == Trim(b.recipientAccountId)
    requires Trim(a.currency) == Trim(b.currency)
    ensures Normalize(a) == Normalize(b)
  {
    hide Trim, ByteLength, NumericString, PositiveAmount;
    assert NormalizeOptional(a.externalId, 255) == NormalizeOptional(b.externalId, 255);
    assert NormalizeRequired(a.recipientName, 255) == NormalizeRequired(b.recipientName, 255);
    assert NormalizeRequired(a.recipientAccountId, 255) == NormalizeRequired(b.recipientAccountId, 255);
    hide NormalizeOptional, NormalizeRequired;
  }

  /** A request is accepted exactly when its identifiers and amount parse, its amount is
      positive, finite and printable, and its trimmed texts are there and short enough. */
  lemma AcceptedIff(input: CreateInput)
    requires input.amount.Some? ==> input.amount.value.WellTyped()
    ensures Normalize(input).Ok? <==>
      && input.clientId.Some? && input.fundingSourceId.Some? && input.amount.Some?
      && input.amount.value.IsFinite() && input.amount.value.mantissa.value > 0 && input.amount.value.exp != MIN_INT32
      && ByteLength(Trim(input.externalId)) <= 255
      && Trim(input.recipientName) != "" && ByteLength(Trim(input.recipientName)) <= 255
      && Trim(input.recipientAccountId) != "" && ByteLength(Trim(input.recipientAccountId)) <= 255
      && Trim(input.currency) != "" && ByteLength(Trim(input.currency)) <= 12
      && Trim(input.idempotencyKey) != ""
    ensures Normalize(input).Ok? ==>
      var call := Normalize(input).value;
      && Some(call.clientId) == input.clientId && Some(call.fundingSourceId) == input.fundingSourceId
      && call.key == Trim(input.idempotencyKey) && call.externalId == Trim(input.externalId)
      && call.recipientName == Trim(input.recipientName) && call.recipientAccountId == Trim(input.recipientAccountId)
      && call.currency == Trim(input.currency) && Some(call.amount) == input.amount
      && ReadDecimal(call.amountText) == Some(Exact(call.amount))
  {
    if input.amount.Some? {
      PrintedTextIsExact(input.amount.value);
    }
    hide Trim, ByteLength, NumericString, ReadDecimal, Exact;
  }

  /** The request fields that are hashed, in their order. */
  function Fields(call: Call): seq<string> {
    [IdText(call.clientId), IdText(call.fundingSourceId), call.externalId, call.recipientName,
     call.recipientAccountId, call.amountText, call.currency]
  }

  function RequestHash(call: Call): string { Encode(Fields(call)) }

  function TextParam(value: string): Option<string> {
    if value == "" then None else Some(value)
  }

  /** The row as the service hands it over. */
  function PayoutParams(call: Call): Payout {
    Payout(call.clientId, call.fundingSourceId, TextParam(call.externalId), TextParam(call.recipientName),
           TextParam(call.recipientAccountId), call.amount, call.currency, Pending, None)
  }

  /** The row as it is stored, if the column takes the amount. */
  function NewRow(call: Call): Payout {
    match AmountColumn(call.amount)
    case Ok(amount) => PayoutParams(call).(amount := amount)
    case Err(_) => PayoutParams(call)
  }

  // ---------------------------------------------------------------- the create transaction

  datatype Found = NotFound | Existing(payoutId: Id, payout: Payout)

  /** loadIdempotentPayout. */
  function LoadIdempotentPayout(db: Db, call: Call): Result<Found, CreateError> {
    match GetIdempotencyKey(db, call.clientId, call.key)
    case Err(NoRows) => Ok(NotFound)
    case Err(e) => Err(Database(e))
    case Ok(row) =>
      if row.requestHash != RequestHash(call) then Err(IdempotencyConflict)
      else
        match GetPayout(db, call.clientId, row.payoutId)
        case Err(e) => Err(Database(e))
        case Ok(payout) => Ok(Existing(row.payoutId, payout))
  }

  function MapDbError<T>(r: Result<T, DbError>): Result<T, CreateError> {
    match r
    case Ok(v) => Ok(v)
    case Err(e) => Err(Database(e))
  }

  function InsertPayoutRow(db: Db, id: Id, row: Payout): Result<Db, CreateError> {
    var r := InsertPayout(db, id, row);
    if r.Err? && r.error == UniqueViolation(EXTERNAL_ID_INDEX) then Err(DuplicateExternalId) else MapDbError(r)
  }

  function InsertKeyRow(db: Db, call: Call, id: Id): Result<Db, CreateError> {
    var r := InsertIdempotencyKey(db, call.clientId, call.key, KeyRow(RequestHash(call), id));
    if r.Err? && r.error.UniqueViolation? then Err(ConcurrentKeyInsert) else MapDbError(r)
  }

  function FindSource(db: Db, call: Call): Result<FundingSource, CreateError> {
    var r := GetFundingSource(db, call.clientId, call.fundingSourceId);
    if r.Err? && r.error == NoRows then Err(FundingSourceNotFound) else MapDbError(r)
  }

  /** The part of the create transaction after the key was not found. The generated
      identifiers `id` and `eventId` and the time are parameters. */
  function InsertTx(db: Db, call: Call, id: Id, eventId: Id, now: int): Result<Db, CreateError> {
    var _ :- FindSource(db, call);
    var withPayout :- InsertPayoutRow(db, id, PayoutParams(call));
    var withKey :- InsertKeyRow(withPayout, call, id);
    MapDbError(InsertOutboxEvent(withKey, eventId, ProcessPayout, id, ProcessPayload(id, call.clientId), now))
  }

  /** payoutFromDB fails when the amount of the row does not print. */
  function ReplyWith(id: Id, payout: Payout): Result<Id, CreateError> {
    match NumericString(payout.amount)
    case Printed(_) => Ok(id)
    case Unsupported => Err(UnsupportedAmount)
    case Panics => Err(AmountPanic)
  }

  /** The read after losing a concurrent insert: a missing key leaves the zero payout,
      whose amount does not print. */
  function ReplyFound(found: Found): Result<Id, CreateError> {
    match found
    case Existing(id, payout) => ReplyWith(id, payout)
    case NotFound => Err(UnsupportedAmount)
  }

  // ---------------------------------------------------------------- the worker's transactions

  datatype ExecError =
    | UnsupportedEvent | InvalidOutboxPayload | PayoutNotReady | UnsupportedProviderResult
    | UnsupportedNumeric | NumericPanic | StoreError(error: DbError) | ProviderError

  /** The outcome of the worker's first transaction. */
  datatype Prepared = Prepared(payoutId: Id, input: ProviderInput, shouldExecute: bool)

  function MapExecError<T>(r: Result<T, DbError>): Result<T, ExecError> {
    match r
    case Ok(v) => Ok(v)
    case Err(e) => Err(StoreError(e))
  }

  function PrepareTx(db: Db, clientId: Id, payoutId: Id): Result<(Db, Prepared), ExecError> {
    var payout :- MapExecError(GetPayout(db, clientId, payoutId));
    var source :- MapExecError(GetFundingSource(db, clientId, payout.fundingSourceId));
    match payout.status
    case Pending =>
      var started :- MapExecError(UpdatePayoutStatus(db, payoutId, Processing));
      PrepareInput(started, payoutId, payout, source)
    case Processing => PrepareInput(db, payoutId, payout, source)
    case Succeeded =>
      Ok((db, Prepared(payoutId, ProviderInput(payoutId, payout.fundingSourceId, source.paymentAccountId, "", payout.currency), false)))
    case _ => Err(PayoutNotReady)
  }

  function PrepareInput(db: Db, payoutId: Id, payout: Payout, source: FundingSource): Result<(Db, Prepared), ExecError> {
    match NumericString(payout.amount)
    case Unsupported => Err(UnsupportedNumeric)
    case Panics => Err(NumericPanic)
    case Printed(text) =>
      Ok((db, Prepared(payoutId, ProviderInput(payoutId, payout.fundingSourceId, source.paymentAccountId, text, payout.currency), true)))
  }

  /** The stored reason: null when the provider's is blank. */
  function StoredReason(r: ProviderResult): Option<string> {
    if Blank(r.failureReason) then None else Some(r.failureReason)
  }

  /** A result that the database can store: final, and without a zero byte in the stored reason. */
  predicate Recordable(r: ProviderResult) {
    r.status.Final() && (r.status == Failed ==> TextOk(StoredReason(r)))
  }

  /** The URL a webhook goes to, None when the client's column has none but white space. */
  function TargetUrl(column: Option<string>): Option<string> {
    if column.Some? && !Blank(column.value) then Some(Trim(column.value)) else None
  }

  /** The column holds more than white space. */
  predicate HasTarget(column: Option<string>) { column.Some? && !AllSpace(column.value) }

  /** `url` is what the column holds between white space. */
  ghost predicate Addresses(column: Option<string>, url: string) {
    && column.Some? && url != "" && Trimmed(url)
    && exists before, after :: AllSpace(before) && AllSpace(after) && column.value == before + url + after
  }

  /** A webhook is due exactly when the column holds more than white space, and it goes to
      the one text that the white space surrounds. */
  lemma TargetUrlIff(column: Option<string>, url: string)
    ensures TargetUrl(column).Some? <==> HasTarget(column)
    ensures TargetUrl(column) == Some(url) <==> Addresses(column, url)
  {
    if column.Some? {
      TrimEmptyIff(column.value);
      var before, core, after := TrimSplits(column.value);
      hide Trim, AllSpace;
      if Addresses(column, url) {
        var b, a :| AllSpace(b) && AllSpace(a) && column.value == b + url + a;
        TrimFindsCore(b, url, a);
      }
    }
  }

  function WebhookTx(db: Db, payoutId: Id, eventId: Id, now: int): Result<Db, ExecError>
    requires payoutId in db.payouts
  {
    var payout := db.payouts[payoutId];
    if payout.clientId !in db.clients then Err(StoreError(NoRows))
    else
      match TargetUrl(db.clients[payout.clientId].webhookUrl)
      case None => Ok(db)
      case Some(url) =>
        MapExecError(InsertOutboxEvent(db, eventId, PayoutResultWebhook, payoutId,
          WebhookPayload(payoutId, payout.clientId, url, payout.status, payout.failureReason.GetOr("")), now))
  }

  function RecordTx(db: Db, payoutId: Id, result: ProviderResult, eventId: Id, now: int): Result<Db, ExecError> {
    match result.status
    case Succeeded =>
      var updated :- MapExecError(UpdatePayoutStatus(db, payoutId, Succeeded));
      WebhookTx(updated, payoutId, eventId, now)
    case Failed =>
      var updated :- MapExecError(UpdatePayoutFailure(db, payoutId, StoredReason(result)));
      WebhookTx(updated, payoutId, eventId, now)
    case _ => Err(UnsupportedProviderResult)
  }
}
