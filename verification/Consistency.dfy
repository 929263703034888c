/** What every committed transaction keeps true of the tables, and how the tables may
    change from one transaction to the next. */
module Consistency {
  import opened Prelude
  import opened Decimal
  import opened Amounts
  import opened Text
  import opened Domain
  import opened Tables
  import opened Transactions

  // ---------------------------------------------------------------- the invariant of the tables

  function AmountText(p: Payout): string {
    match NumericString(p.amount)
    case Printed(text) => text
    case _ => ""
  }

  /** The request that a key was stored for: its hash is the key's, its row the payout's. */
  ghost predicate StoredFor(db: Db, k: (Id, string), call: Call) {
    && k in db.keys && db.keys[k].payoutId in db.payouts
    && WellFormed(call) && k == (call.clientId, call.key)
    && NulFree(call.key) && AllNulFree(Fields(call))
    && db.keys[k].requestHash == RequestHash(call)
    && AmountColumn(call.amount).Ok?
    && SamePayout(NewRow(call), db.payouts[db.keys[k].payoutId])
  }

  ghost predicate PayoutOk(db: Db, id: Id)
    requires id in db.payouts
  {
    var p := db.payouts[id];
    && p.clientId in db.clients
    && p.fundingSourceId in db.sources && db.sources[p.fundingSourceId].clientId == p.clientId
    && p.status.Valid()
    && NumericString(p.amount).Printed?
  }

  ghost predicate KeyOk(db: Db, k: (Id, string))
    requires k in db.keys
  {
    var row := db.keys[k];
    && row.payoutId in db.payouts
    && db.payouts[row.payoutId].clientId == k.0
    && exists call :: StoredFor(db, k, call)
  }

  ghost predicate EventOk(db: Db, id: Id)
    requires id in db.events
  {
    var e := db.events[id];
    && e.entityId in db.payouts
    && (e.status == EventProcessing <==> e.claimedAt.Some?)
    && match e.eventType
       case ProcessPayout => e.payload == ProcessPayload(e.entityId, db.payouts[e.entityId].clientId)
       case PayoutResultWebhook =>
         && e.payload.WebhookPayload? && e.payload.payoutId == e.entityId
         && e.payload.clientId == db.payouts[e.entityId].clientId && e.payload.status.Final()
  }

  ghost predicate IsKeyOf(db: Db, k: (Id, string), p: Id) {
    k in db.keys && db.keys[k].payoutId == p
  }

  ghost predicate IsProcessEventOf(db: Db, e: Id, p: Id) {
    e in db.events && db.events[e].eventType == ProcessPayout && db.events[e].entityId == p
  }

  ghost predicate HasKey(db: Db, p: Id) { exists k :: IsKeyOf(db, k, p) }

  ghost predicate HasProcessEvent(db: Db, p: Id) { exists e :: IsProcessEventOf(db, e, p) }

  ghost predicate OneKeyEach(db: Db) {
    forall j, k :: j in db.keys && k in db.keys && db.keys[j].payoutId == db.keys[k].payoutId ==> j == k
  }

  ghost predicate OneProcessEventEach(db: Db) {
    forall d, e, p :: IsProcessEventOf(db, d, p) && IsProcessEventOf(db, e, p) ==> d == e
  }

  ghost predicate ExternalIdsUnique(db: Db) {
    forall p, q :: p in db.payouts && q in db.payouts
      && db.payouts[p].clientId == db.payouts[q].clientId
      && db.payouts[p].externalId == db.payouts[q].externalId
      && db.payouts[p].externalId.GetOr("") != ""
      ==> p == q
  }

  ghost predicate PayoutsOk(db: Db) { forall p :: p in db.payouts ==> PayoutOk(db, p) }

  ghost predicate KeysOk(db: Db) { forall k :: k in db.keys ==> KeyOk(db, k) }

  ghost predicate EventsOk(db: Db) { forall e :: e in db.events ==> EventOk(db, e) }

  /** Every payout has its key and its process event. */
  ghost predicate Complete(db: Db) { forall p :: p in db.payouts ==> HasKey(db, p) && HasProcessEvent(db, p) }

  ghost predicate SourcesOk(db: Db) {
    forall s :: s in db.sources ==> db.sources[s].clientId in db.clients
  }

  /** Payouts, idempotency keys and process events correspond one to one, every row
      agrees with the row it points to, and a key's hash is the hash of its payout. */
  ghost predicate Consistent(db: Db) {
    && SourcesOk(db) && PayoutsOk(db) && KeysOk(db) && EventsOk(db) && Complete(db)
    && OneKeyEach(db) && OneProcessEventEach(db) && ExternalIdsUnique(db)
  }

  // ---------------------------------------------------------------- how tables evolve

  /** The columns of a payout that no query ever changes. */
  ghost predicate SamePayout(a: Payout, b: Payout) {
    a == b.(status := a.status, failureReason := a.failureReason)
  }

  ghost predicate SameEvent(a: Event, b: Event) {
    a == b.(status := a.status, claimedAt := a.claimedAt, processedAt := a.processedAt)
  }

  /** No row disappears, only a payout's status and reason and an event's claim change,
      and a payout's status never falls in rank. */
  ghost predicate Evolves(db: Db, db': Db) {
    && db.clients.Keys <= db'.clients.Keys
    && (forall s :: s in db.sources ==> s in db'.sources && db'.sources[s] == db.sources[s])
    && (forall p :: p in db.payouts ==>
          && p in db'.payouts
          && SamePayout(db.payouts[p], db'.payouts[p])
          && Rank(db.payouts[p].status) <= Rank(db'.payouts[p].status))
    && (forall k :: k in db.keys ==> k in db'.keys && db'.keys[k] == db.keys[k])
    && (forall e :: e in db.events ==> e in db'.events && SameEvent(db.events[e], db'.events[e]))
  }

  lemma EvolvesReflexive(db: Db)
    ensures Evolves(db, db)
  {
  }

  lemma EvolvesTransitive(a: Db, b: Db, c: Db)
    requires Evolves(a, b) && Evolves(b, c)
    ensures Evolves(a, c)
  {
  }

  lemma KeyAndEventStay(db: Db, db': Db, p: Id)
    requires Evolves(db, db') && HasKey(db, p) && HasProcessEvent(db, p)
    ensures HasKey(db', p) && HasProcessEvent(db', p)
  {
    var k :| IsKeyOf(db, k, p);
    var e :| IsProcessEventOf(db, e, p);
    assert IsKeyOf(db', k, p) && IsProcessEventOf(db', e, p);
  }

  /** A row that evolved from a good one is good, whatever its status and reason are now. */
  lemma PayoutStaysOk(db: Db, db': Db, p: Id)
    requires p in db.payouts && PayoutOk(db, p) && Evolves(db, db') && db'.payouts[p].status.Valid()
    ensures PayoutOk(db', p)
  {
  }

  lemma RequestStays(db: Db, db': Db, k: (Id, string), call: Call)
    requires StoredFor(db, k, call) && Evolves(db, db')
    ensures StoredFor(db', k, call)
  {
    hide WellFormed, RequestHash, Fields, NewRow;
  }

  lemma KeyStaysOk(db: Db, db': Db, k: (Id, string))
    requires k in db.keys && KeyOk(db, k) && Evolves(db, db')
    ensures k in db'.keys && KeyOk(db', k)
  {
    hide StoredFor;
    var call :| StoredFor(db, k, call);
    RequestStays(db, db', k, call);
  }

  // ---------------------------------------------------------------- texts without zero bytes

  lemma {:induction false} DigitsNulFree(s: string)
    requires AllDigits(s)
    ensures NulFree(s)
  {
    forall i | 0 <= i < |s| ensures s[i] != NUL {
      assert IsDigit(s[i]);
    }
  }

  lemma PrintedNulFree(v: Numeric)
    requires NumericString(v).Printed?
    ensures NulFree(NumericString(v).text)
  {
    var digits := Digits(Abs(v.mantissa.value));
    DigitsNulFree(digits);
    if v.exp >= 0 {
      DigitsNulFree(Zeros(v.exp));
    } else if |digits| <= NegateInt32(v.exp) {
      DigitsNulFree(Zeros(NegateInt32(v.exp) - |digits|));
    }
  }

  // ---------------------------------------------------------------- the create transaction

  ghost predicate WellFormed(call: Call) {
    NumericString(call.amount) == Printed(call.amountText) && call.amount.mantissa.value > 0
  }

  lemma NormalizedIsWellFormed(input: CreateInput)
    ensures Normalize(input).Ok? ==> WellFormed(Normalize(input).value)
    ensures Normalize(input).Ok? ==> Trimmed(Normalize(input).value.key) && Normalize(input).value.key != ""
  {
    hide Trim, NumericString, ByteLength;
  }

  /** A row made for a request has its clients and texts, and an amount that prints. */
  lemma NewRowOk(call: Call)
    requires WellFormed(call) && AmountColumn(call.amount).Ok?
    ensures var row := NewRow(call);
      && row.clientId == call.clientId && row.fundingSourceId == call.fundingSourceId && row.currency == call.currency
      && row.externalId == TextParam(call.externalId) && row.status == Pending && row.failureReason == None
      && NumericString(row.amount).Printed?
  {
    ColumnTakesIff(call.amount);
    hide NumericString, AmountColumn;
  }

  lemma FieldsNulFree(call: Call)
    requires WellFormed(call)
    requires NulFree(call.externalId) && NulFree(call.recipientName) && NulFree(call.recipientAccountId) && NulFree(call.currency)
    ensures AllNulFree(Fields(call))
  {
    DigitsNulFree(IdText(call.clientId));
    DigitsNulFree(IdText(call.fundingSourceId));
    PrintedNulFree(call.amount);
    hide NumericString, Digits;
  }

  /** What the create transaction needs and what it leaves behind. */
  lemma InsertTxEffect(db: Db, call: Call, id: Id, eventId: Id, now: int)
    requires InsertTx(db, call, id, eventId, now).Ok?
    ensures id !in db.payouts && (call.clientId, call.key) !in db.keys && eventId !in db.events
    ensures GetFundingSource(db, call.clientId, call.fundingSourceId).Ok?
    ensures call.clientId in db.clients
    ensures !ExternalIdTaken(db, call.clientId, TextParam(call.externalId))
    ensures NulFree(call.externalId) && NulFree(call.recipientName) && NulFree(call.recipientAccountId) && NulFree(call.currency)
    ensures NulFree(call.key) && AmountColumn(call.amount).Ok?
    ensures InsertTx(db, call, id, eventId, now).value == db.(
      payouts := db.payouts[id := NewRow(call)],
      keys := db.keys[(call.clientId, call.key) := KeyRow(RequestHash(call), id)],
      events := db.events[eventId :=
        Event(ProcessPayout, id, ProcessPayload(id, call.clientId), EventPending, now, None, None)])
  {
  }

  lemma NewPayoutOk(db: Db, db': Db, call: Call, id: Id, eventId: Id, now: int)
    requires Consistent(db) && WellFormed(call) && InsertTx(db, call, id, eventId, now) == Ok(db')
    ensures id in db'.payouts && PayoutOk(db', id) && HasKey(db', id) && HasProcessEvent(db', id)
    ensures (call.clientId, call.key) in db'.keys && KeyOk(db', (call.clientId, call.key))
    ensures eventId in db'.events && EventOk(db', eventId)
  {
    hide Fields, RequestHash, NumericString, AmountColumn, NewRow, InsertTx, NulFree, StoredFor;
    InsertTxEffect(db, call, id, eventId, now);
    NewRowOk(call);
    RequestIsStored(db, db', call, id, eventId, now);
    assert IsKeyOf(db', (call.clientId, call.key), id);
    assert IsProcessEventOf(db', eventId, id);
  }

  lemma RequestIsStored(db: Db, db': Db, call: Call, id: Id, eventId: Id, now: int)
    requires WellFormed(call) && InsertTx(db, call, id, eventId, now) == Ok(db')
    ensures StoredFor(db', (call.clientId, call.key), call) && db'.keys[(call.clientId, call.key)].payoutId == id
  {
    hide WellFormed, Fields, RequestHash, AmountColumn, NewRow, InsertTx, NulFree, AllNulFree;
    InsertTxEffect(db, call, id, eventId, now);
    FieldsNulFree(call);
  }

  lemma InsertTxEvolves(db: Db, db': Db, call: Call, id: Id, eventId: Id, now: int)
    requires InsertTx(db, call, id, eventId, now) == Ok(db')
    ensures Evolves(db, db')
  {
    InsertTxEffect(db, call, id, eventId, now);
  }

  lemma InsertTxOneKeyEach(db: Db, db': Db, call: Call, id: Id, eventId: Id, now: int)
    requires KeysOk(db) && OneKeyEach(db) && InsertTx(db, call, id, eventId, now) == Ok(db')
    ensures OneKeyEach(db')
  {
    InsertTxEffect(db, call, id, eventId, now);
    hide InsertTx, RequestHash, StoredFor, NewRow;
    assert forall k :: k in db.keys ==> KeyOk(db, k);
  }

  lemma InsertTxOneEventEach(db: Db, db': Db, call: Call, id: Id, eventId: Id, now: int)
    requires EventsOk(db) && OneProcessEventEach(db) && InsertTx(db, call, id, eventId, now) == Ok(db')
    ensures OneProcessEventEach(db')
  {
    InsertTxEffect(db, call, id, eventId, now);
    hide InsertTx, RequestHash, NewRow;
    forall d, e, p | IsProcessEventOf(db', d, p) && IsProcessEventOf(db', e, p) ensures d == e {
      assert d != eventId ==> IsProcessEventOf(db, d, p) && EventOk(db, d);
      assert e != eventId ==> IsProcessEventOf(db, e, p) && EventOk(db, e);
    }
  }

  lemma InsertTxExternalUnique(db: Db, db': Db, call: Call, id: Id, eventId: Id, now: int)
    requires ExternalIdsUnique(db) && InsertTx(db, call, id, eventId, now) == Ok(db')
    ensures ExternalIdsUnique(db')
  {
    InsertTxEffect(db, call, id, eventId, now);
    hide InsertTx, RequestHash;
  }

  lemma InsertTxPayoutsOk(db: Db, db': Db, call: Call, id: Id, eventId: Id, now: int)
    requires Consistent(db) && WellFormed(call) && InsertTx(db, call, id, eventId, now) == Ok(db')
    ensures PayoutsOk(db') && Complete(db')
  {
    InsertTxEffect(db, call, id, eventId, now);
    InsertTxEvolves(db, db', call, id, eventId, now);
    NewPayoutOk(db, db', call, id, eventId, now);
    hide InsertTx, RequestHash, NumericString, PayoutOk, HasKey, HasProcessEvent;
    forall p | p in db'.payouts ensures PayoutOk(db', p) && HasKey(db', p) && HasProcessEvent(db', p) {
      if p != id {
        ValidStatus(db, p);
        PayoutStaysOk(db, db', p);
        KeyAndEventStay(db, db', p);
      }
    }
  }

  lemma ValidStatus(db: Db, p: Id)
    requires p in db.payouts && PayoutOk(db, p)
    ensures db.payouts[p].status.Valid()
  {
  }

  lemma InsertTxKeysOk(db: Db, db': Db, call: Call, id: Id, eventId: Id, now: int)
    requires Consistent(db) && WellFormed(call) && InsertTx(db, call, id, eventId, now) == Ok(db')
    ensures KeysOk(db')
  {
    InsertTxEffect(db, call, id, eventId, now);
    InsertTxEvolves(db, db', call, id, eventId, now);
    NewPayoutOk(db, db', call, id, eventId, now);
    hide InsertTx, RequestHash, NewRow, KeyOk, Evolves, WellFormed, PayoutsOk, EventsOk, Complete,
      OneKeyEach, OneProcessEventEach, ExternalIdsUnique, PayoutOk, EventOk, HasKey, HasProcessEvent;
    forall k | k in db'.keys ensures KeyOk(db', k) {
      if k != (call.clientId, call.key) {
        KeyStaysOk(db, db', k);
      }
    }
  }

  lemma EventStaysOk(db: Db, db': Db, e: Id, p: Id)
    requires e in db.events && e in db'.events && db'.events[e] == db.events[e] && EventOk(db, e)
    requires p !in db.payouts && p in db'.payouts && db'.payouts == db.payouts[p := db'.payouts[p]]
    ensures EventOk(db', e)
  {
  }

  lemma InsertTxEventsOk(db: Db, db': Db, call: Call, id: Id, eventId: Id, now: int)
    requires Consistent(db) && WellFormed(call) && InsertTx(db, call, id, eventId, now) == Ok(db')
    ensures EventsOk(db')
  {
    InsertTxEffect(db, call, id, eventId, now);
    NewPayoutOk(db, db', call, id, eventId, now);
    hide InsertTx, RequestHash, NewRow, PayoutsOk, KeysOk, Complete, SourcesOk, WellFormed, HasKey, HasProcessEvent,
      OneKeyEach, OneProcessEventEach, ExternalIdsUnique, PayoutOk, KeyOk, EventOk;
    forall e | e in db'.events ensures EventOk(db', e) {
      if e != eventId {
        EventStaysOk(db, db', e, id);
      }
    }
  }

  lemma InsertTxSourcesOk(db: Db, db': Db, call: Call, id: Id, eventId: Id, now: int)
    requires SourcesOk(db) && InsertTx(db, call, id, eventId, now) == Ok(db')
    ensures SourcesOk(db')
  {
    InsertTxEffect(db, call, id, eventId, now);
  }

  lemma InsertTxConsistent(db: Db, db': Db, call: Call, id: Id, eventId: Id, now: int)
    requires Consistent(db) && WellFormed(call) && InsertTx(db, call, id, eventId, now) == Ok(db')
    ensures Consistent(db') && Evolves(db, db')
  {
    InsertTxEvolves(db, db', call, id, eventId, now);
    InsertTxSourcesOk(db, db', call, id, eventId, now);
    InsertTxPayoutsOk(db, db', call, id, eventId, now);
    InsertTxKeysOk(db, db', call, id, eventId, now);
    InsertTxEventsOk(db, db', call, id, eventId, now);
    InsertTxOneKeyEach(db, db', call, id, eventId, now);
    InsertTxOneEventEach(db, db', call, id, eventId, now);
    InsertTxExternalUnique(db, db', call, id, eventId, now);
    hide InsertTx, WellFormed, SourcesOk, PayoutsOk, KeysOk, EventsOk, Complete,
      OneKeyEach, OneProcessEventEach, ExternalIdsUnique, Evolves;
  }

  // ---------------------------------------------------------------- status updates and claims

  /** A change that touches statuses, reasons, claims and new webhook events only. */
  ghost predicate Touches(db: Db, db': Db) {
    && db'.clients == db.clients && db'.sources == db.sources && db'.keys == db.keys
    && db'.payouts.Keys == db.payouts.Keys
    && Evolves(db, db')
    && (forall p :: p in db'.payouts ==> db'.payouts[p].status.Valid())
    && (forall e :: e in db'.events && e !in db.events ==> db'.events[e].eventType == PayoutResultWebhook && EventOk(db', e))
    && (forall e :: e in db.events ==> (db'.events[e].status == EventProcessing <==> db'.events[e].claimedAt.Some?))
  }

  lemma TouchPayoutsOk(db: Db, db': Db)
    requires PayoutsOk(db) && Complete(db) && Touches(db, db')
    ensures PayoutsOk(db') && Complete(db')
  {
    hide PayoutOk, HasKey, HasProcessEvent;
    forall p | p in db'.payouts ensures PayoutOk(db', p) && HasKey(db', p) && HasProcessEvent(db', p) {
      PayoutStaysOk(db, db', p);
      KeyAndEventStay(db, db', p);
    }
  }

  lemma TouchKeysOk(db: Db, db': Db)
    requires KeysOk(db) && Touches(db, db')
    ensures KeysOk(db')
  {
    hide KeyOk, Evolves;
    forall k | k in db'.keys ensures KeyOk(db', k) {
      KeyStaysOk(db, db', k);
    }
  }

  lemma TouchEventsOk(db: Db, db': Db)
    requires EventsOk(db) && OneProcessEventEach(db) && Touches(db, db')
    ensures EventsOk(db') && OneProcessEventEach(db')
  {
    forall e | e in db'.events ensures EventOk(db', e) {
      assert e in db.events ==> EventOk(db, e);
    }
    forall d, e, p | IsProcessEventOf(db', d, p) && IsProcessEventOf(db', e, p) ensures d == e {
      assert IsProcessEventOf(db, d, p) && IsProcessEventOf(db, e, p);
    }
  }

  lemma TouchConsistent(db: Db, db': Db)
    requires Consistent(db) && Touches(db, db')
    ensures Consistent(db') && Evolves(db, db')
  {
    TouchPayoutsOk(db, db');
    TouchKeysOk(db, db');
    TouchEventsOk(db, db');
    hide PayoutsOk, KeysOk, EventsOk, Complete, OneProcessEventEach;
  }

  /** Setting one event's claim columns, as the claim, mark and release queries do. */
  lemma ClaimColumnsConsistent(db: Db, id: Id, e: Event)
    requires Consistent(db) && id in db.events && SameEvent(db.events[id], e)
    requires e.status == EventProcessing <==> e.claimedAt.Some?
    ensures var db' := db.(events := db.events[id := e]); Consistent(db') && Evolves(db, db')
  {
    var db' := db.(events := db.events[id := e]);
    EventTouch(db, db', id, e);
    TouchConsistent(db, db');
  }

  lemma EventTouch(db: Db, db': Db, id: Id, e: Event)
    requires PayoutsOk(db) && EventsOk(db) && id in db.events && SameEvent(db.events[id], e)
    requires e.status == EventProcessing <==> e.claimedAt.Some?
    requires db' == db.(events := db.events[id := e])
    ensures Touches(db, db')
  {
    hide NumericString;
    assert forall p :: p in db.payouts ==> PayoutOk(db, p);
    assert forall e :: e in db.events ==> EventOk(db, e);
  }

  lemma ClaimConsistent(db: Db, id: Id, now: int)
    requires Consistent(db) && id in db.events
    ensures Consistent(ClaimEvent(db, id, now)) && Evolves(db, ClaimEvent(db, id, now))
  {
    hide Consistent, Evolves;
    ClaimColumnsConsistent(db, id, db.events[id].(status := EventProcessing, claimedAt := Some(now)));
  }

  lemma MarkConsistent(db: Db, id: Id, now: int)
    requires Consistent(db) && id in db.events
    ensures Consistent(MarkProcessed(db, id, now).value) && Evolves(db, MarkProcessed(db, id, now).value)
  {
    hide Consistent, Evolves;
    ClaimColumnsConsistent(db, id, db.events[id].(status := EventProcessed, processedAt := Some(now), claimedAt := None));
  }

  lemma ReleaseConsistent(db: Db, id: Id)
    requires Consistent(db) && id in db.events
    ensures Consistent(ReleaseClaim(db, id).value) && Evolves(db, ReleaseClaim(db, id).value)
  {
    hide Consistent, Evolves;
    ClaimColumnsConsistent(db, id, db.events[id].(status := EventPending, claimedAt := None));
  }

  /** New clients and funding sources, and new webhook URLs. */
  lemma AccountsConsistent(db: Db, db': Db)
    requires Consistent(db) && SourcesOk(db')
    requires db' == db.(clients := db'.clients, sources := db'.sources)
    requires db.clients.Keys <= db'.clients.Keys
    requires forall s :: s in db.sources ==> s in db'.sources && db'.sources[s] == db.sources[s]
    ensures Consistent(db') && Evolves(db, db')
  {
    hide PayoutOk, HasKey, HasProcessEvent, KeysOk, EventsOk, OneKeyEach, OneProcessEventEach, ExternalIdsUnique;
    AccountsRowsOk(db, db');
    forall p | p in db'.payouts ensures PayoutOk(db', p) && HasKey(db', p) && HasProcessEvent(db', p) {
      AccountsPayoutOk(db, db', p);
    }
  }

  lemma AccountsPayoutOk(db: Db, db': Db, p: Id)
    requires PayoutsOk(db) && Complete(db) && p in db.payouts
    requires db' == db.(clients := db'.clients, sources := db'.sources)
    requires db.clients.Keys <= db'.clients.Keys
    requires forall s :: s in db.sources ==> s in db'.sources && db'.sources[s] == db.sources[s]
    ensures PayoutOk(db', p) && HasKey(db', p) && HasProcessEvent(db', p)
  {
    assert PayoutOk(db, p);
    hide NumericString;
    var k :| IsKeyOf(db, k, p);
    var e :| IsProcessEventOf(db, e, p);
    assert IsKeyOf(db', k, p) && IsProcessEventOf(db', e, p);
  }

  lemma SameRowsKeyOk(db: Db, db': Db, k: (Id, string))
    requires k in db.keys && KeyOk(db, k) && db'.keys == db.keys && db'.payouts == db.payouts
    ensures KeyOk(db', k)
  {
    hide WellFormed, RequestHash, Fields, NewRow;
    var call :| StoredFor(db, k, call);
    assert StoredFor(db', k, call);
  }

  lemma AccountsRowsOk(db: Db, db': Db)
    requires KeysOk(db) && EventsOk(db) && OneKeyEach(db) && OneProcessEventEach(db) && ExternalIdsUnique(db)
    requires db' == db.(clients := db'.clients, sources := db'.sources)
    ensures KeysOk(db') && EventsOk(db') && OneKeyEach(db') && OneProcessEventEach(db') && ExternalIdsUnique(db')
  {
    hide StoredFor, NumericString;
    forall k | k in db'.keys ensures KeyOk(db', k) {
      SameRowsKeyOk(db, db', k);
    }
    assert forall e :: e in db.events ==> EventOk(db, e);
    assert forall e, p :: IsProcessEventOf(db', e, p) ==> IsProcessEventOf(db, e, p);
  }

  // ---------------------------------------------------------------- the worker's transactions

  /** The provider input that a payout determines; none of its fields ever changes. */
  function InputOf(db: Db, p: Id): ProviderInput
    requires p in db.payouts && db.payouts[p].fundingSourceId in db.sources
  {
    var row := db.payouts[p];
    ProviderInput(p, row.fundingSourceId, db.sources[row.fundingSourceId].paymentAccountId, AmountText(row), row.currency)
  }

  /** What the first worker transaction decides, in terms of the payout's status. */
  lemma PrepareTxEffect(db: Db, clientId: Id, p: Id)
    requires PayoutsOk(db)
    ensures var r := PrepareTx(db, clientId, p);
      && (r.Ok? <==> p in db.payouts && db.payouts[p].clientId == clientId && db.payouts[p].status != Failed)
      && (r.Ok? ==>
            && r.value.1.payoutId == p
            && (r.value.1.shouldExecute <==> !db.payouts[p].status.Final())
            && (r.value.1.shouldExecute ==> r.value.1.input == InputOf(db, p))
            && r.value.0 == if db.payouts[p].status == Pending
                            then db.(payouts := db.payouts[p := db.payouts[p].(status := Processing)]) else db)
  {
    if p in db.payouts && db.payouts[p].clientId == clientId {
      assert PayoutOk(db, p);
      hide NumericString, PayoutsOk;
    }
  }

  lemma StatusTouch(db: Db, db': Db, p: Id, row: Payout)
    requires PayoutsOk(db) && EventsOk(db) && p in db.payouts && SamePayout(db.payouts[p], row)
    requires row.status.Valid() && Rank(db.payouts[p].status) <= Rank(row.status)
    requires db' == db.(payouts := db.payouts[p := row])
    ensures Touches(db, db')
  {
    hide PayoutOk, EventOk;
    forall q | q in db'.payouts ensures db'.payouts[q].status.Valid() {
      if q != p {
        ValidStatus(db, q);
      }
    }
    forall e | e in db.events ensures db.events[e].status == EventProcessing <==> db.events[e].claimedAt.Some? {
      ClaimMatches(db, e);
    }
  }

  lemma ClaimMatches(db: Db, e: Id)
    requires e in db.events && EventOk(db, e)
    ensures db.events[e].status == EventProcessing <==> db.events[e].claimedAt.Some?
  {
  }

  lemma PrepareTxConsistent(db: Db, clientId: Id, p: Id)
    requires Consistent(db) && PrepareTx(db, clientId, p).Ok?
    ensures Consistent(PrepareTx(db, clientId, p).value.0) && Evolves(db, PrepareTx(db, clientId, p).value.0)
  {
    PrepareTxEffect(db, clientId, p);
    hide PrepareTx, PayoutsOk, EventsOk, KeysOk, Complete, OneKeyEach, OneProcessEventEach, ExternalIdsUnique;
    hide Touches, Evolves, InputOf, SourcesOk;
    if db.payouts[p].status == Pending {
      var row := db.payouts[p].(status := Processing);
      StatusTouch(db, db.(payouts := db.payouts[p := row]), p, row);
      TouchConsistent(db, db.(payouts := db.payouts[p := row]));
    } else {
      EvolvesReflexive(db);
    }
  }

  /** The row after recording a final result. */
  function Recorded(row: Payout, r: ProviderResult): Payout {
    if r.status == Succeeded then row.(status := Succeeded)
    else row.(status := Failed, failureReason := StoredReason(r))
  }

  function WebhookEvent(p: Id, row: Payout, url: string, now: int): Event {
    Event(PayoutResultWebhook, p, WebhookPayload(p, row.clientId, url, row.status, row.failureReason.GetOr("")),
          EventPending, now, None, None)
  }

  /** Recording succeeds exactly for a final result whose stored reason, if failed, has no
      zero byte, and with an event identifier that is new when a URL is set. It changes the
      one row and adds one webhook event exactly when a URL is set. */
  lemma RecordTxEffect(db: Db, p: Id, r: ProviderResult, eventId: Id, now: int)
    requires p in db.payouts && db.payouts[p].clientId in db.clients
    ensures var row := Recorded(db.payouts[p], r);
      var url := TargetUrl(db.clients[row.clientId].webhookUrl);
      var out := RecordTx(db, p, r, eventId, now);
      && (out.Ok? <==> Recordable(r) && (url.Some? ==> eventId !in db.events))
      && (out.Ok? ==> out.value == db.(
           payouts := db.payouts[p := row],
           events := if url.Some? then db.events[eventId := WebhookEvent(p, row, url.value, now)] else db.events))
  {
    hide TargetUrl, StoredReason;
  }

  lemma WebhookTouch(db: Db, db': Db, p: Id, eventId: Id, url: string, now: int)
    requires PayoutsOk(db) && EventsOk(db) && p in db.payouts && db.payouts[p].status.Final() && eventId !in db.events
    requires db' == db.(events := db.events[eventId := WebhookEvent(p, db.payouts[p], url, now)])
    ensures Touches(db, db')
  {
    hide PayoutOk, EventOk;
    NewWebhookOk(db, db', p, eventId, url, now);
    forall q | q in db'.payouts ensures db'.payouts[q].status.Valid() {
      ValidStatus(db, q);
    }
    forall e | e in db.events ensures db.events[e].status == EventProcessing <==> db.events[e].claimedAt.Some? {
      ClaimMatches(db, e);
    }
  }

  lemma NewWebhookOk(db: Db, db': Db, p: Id, eventId: Id, url: string, now: int)
    requires p in db.payouts && db.payouts[p].status.Final()
    requires db' == db.(events := db.events[eventId := WebhookEvent(p, db.payouts[p], url, now)])
    ensures EventOk(db', eventId) && db'.events[eventId].eventType == PayoutResultWebhook
  {
  }

  lemma RankBelowFinal(db: Db, p: Id)
    requires PayoutsOk(db) && p in db.payouts
    ensures Rank(db.payouts[p].status) <= 2
    ensures db.payouts[p].clientId in db.clients
  {
    assert PayoutOk(db, p);
  }

  lemma RecordTxConsistent(db: Db, p: Id, r: ProviderResult, eventId: Id, now: int)
    requires Consistent(db) && p in db.payouts && RecordTx(db, p, r, eventId, now).Ok?
    ensures Consistent(RecordTx(db, p, r, eventId, now).value) && Evolves(db, RecordTx(db, p, r, eventId, now).value)
  {
    RankBelowFinal(db, p);
    RecordTxEffect(db, p, r, eventId, now);
    hide RecordTx, PayoutsOk, EventsOk, KeysOk, Complete, OneKeyEach, OneProcessEventEach, ExternalIdsUnique,
      StoredReason, TargetUrl;
    var row := Recorded(db.payouts[p], r);
    var url := TargetUrl(db.clients[row.clientId].webhookUrl);
    var updated := db.(payouts := db.payouts[p := row]);
    StatusTouch(db, updated, p, row);
    TouchConsistent(db, updated);
    if url.Some? {
      var db' := RecordTx(db, p, r, eventId, now).value;
      WebhookTouch(updated, db', p, eventId, url.value, now);
      TouchConsistent(updated, db');
      EvolvesTransitive(db, updated, db');
    }
  }

  // ---------------------------------------------------------------- identical inputs

  lemma InputStays(db: Db, db': Db, p: Id)
    requires Consistent(db) && p in db.payouts && Evolves(db, db')
    ensures db.payouts[p].fundingSourceId in db.sources
    ensures db'.payouts[p].fundingSourceId in db'.sources
    ensures InputOf(db', p) == InputOf(db, p)
  {
    assert PayoutOk(db, p);
  }
}
