/** The guarantees of the pipeline over every run, without any restriction. */
module Guarantees {
  import opened Prelude
  import opened Decimal
  import opened Amounts
  import opened Text
  import opened Domain
  import opened Tables
  import opened Transactions
  import opened Consistency
  import opened Pipeline
  import opened Safety
  import opened SafetySteps

  // ---------------------------------------------------------------- nothing is lost

  /** In every reachable state a payout that is not final has its process event open,
      or a copy of that event's message is queued or with a worker the broker waits for. */
  lemma NoAcceptedPayoutIsLost(pol: Policy, s: Sys, p: Id)
    requires Reachable(pol, s) && p in s.db.payouts && !s.db.payouts[p].status.Final()
    ensures exists e ::
              && IsProcessEventOf(s.db, e, p)
              && (s.db.events[e].status != EventProcessed || InTransit(s.queue, s.workers, JobOf(e, s.db.events[e])))
  {
    hide Reachable, Inv, InTransit, Consistent, ProcessesOk, NothingLost, DispatchedHandedOver;
    ReachableInv(pol, s);
    InvParts(s);
    if HasOpenEvent(s.db, p) {
      var e :| IsOpenEventOf(s.db, e, p);
    } else {
      NotLost(s, p);
      var m :| Carries(m, p) && InTransit(s.queue, s.workers, m);
      TransitIsOk(s, m);
      assert IsProcessEventOf(s.db, m.eventId, p);
    }
  }

  lemma NotLost(s: Sys, p: Id)
    requires Inv(s) && p in s.db.payouts && !s.db.payouts[p].status.Final() && !HasOpenEvent(s.db, p)
    ensures exists m :: Carries(m, p) && InTransit(s.queue, s.workers, m)
  {
    hide Consistent, ProcessesOk, InTransit, DispatchedHandedOver;
  }

  lemma TransitIsOk(s: Sys, m: Msg)
    requires ProcessesOk(s) && InTransit(s.queue, s.workers, m)
    ensures MsgOk(s.db, m)
  {
    hide MsgOk, RelaysOk, CreatorsOk, RepliesOk, CallsOk, TimesOk, PreparedOk;
    if m !in s.queue {
      var w :| IsHeld(s.workers, w, m);
      assert WorkerOk(s.db, s.workers[w]);
    }
  }

  // ---------------------------------------------------------------- idempotent creation

  /** Equal field lists come from calls that agree field by field, the amount up to its
      representation. */
  lemma SameFieldsSameCall(x: Transactions.Call, y: Transactions.Call)
    requires WellFormed(x) && WellFormed(y) && Fields(x) == Fields(y)
    ensures x.clientId == y.clientId && x.fundingSourceId == y.fundingSourceId
    ensures x.externalId == y.externalId && x.recipientName == y.recipientName
    ensures x.recipientAccountId == y.recipientAccountId && x.currency == y.currency
    ensures x.amountText == y.amountText && SameValue(x.amount, y.amount)
  {
    FieldsAt(x);
    FieldsAt(y);
    hide Fields, SameValue, NumericString;
    IdTextInjective(x.clientId, y.clientId);
    IdTextInjective(x.fundingSourceId, y.fundingSourceId);
    EqualTextsEqualValues(x.amount, y.amount);
  }

  /** Two calls have one hash exactly when they agree in every hashed field, provided the
      texts of one of them are free of the zero byte, which those of a stored payout are. */
  lemma SameHashIffSameFields(x: Transactions.Call, y: Transactions.Call)
    requires WellFormed(x) && WellFormed(y)
    requires NulFree(x.externalId) && NulFree(x.recipientName) && NulFree(x.recipientAccountId) && NulFree(x.currency)
    ensures RequestHash(x) == RequestHash(y) <==>
      && x.clientId == y.clientId && x.fundingSourceId == y.fundingSourceId && x.externalId == y.externalId
      && x.recipientName == y.recipientName && x.recipientAccountId == y.recipientAccountId
      && x.amountText == y.amountText && x.currency == y.currency
  {
    DigitsNulFree(IdText(x.clientId));
    DigitsNulFree(IdText(x.fundingSourceId));
    PrintedNulFree(x.amount);
    FieldsAt(x);
    FieldsAt(y);
    assert AllNulFree(Fields(x));
    hide Encode, NumericString, WellFormed, Digits, AllNulFree;
    if RequestHash(x) == RequestHash(y) {
      EncodeSeparates(Fields(x), Fields(y));
      SameFieldsSameCall(x, y);
    }
  }

  /** The request with a zero byte of its external id taken for the end of that field. */
  function Shifted(input: CreateInput, p: string, q: string): CreateInput {
    input.(externalId := p, recipientName := q + [NUL] + Trim(input.recipientName))
  }

  lemma ShiftedTexts(p: string, q: string, name: string)
    requires Trimmed(p + [NUL] + q) && Trimmed(p) && (q != "" ==> !IsSpace(q[0])) && Trimmed(name) && name != ""
    requires ByteLength(p + [NUL] + q) <= 255 && ByteLength(q) + 1 + ByteLength(name) <= 255
    ensures NormalizeOptional(p, 255) == Some(p)
    ensures NormalizeRequired(q + [NUL] + name, 255) == Some(q + [NUL] + name)
  {
    var shifted := q + [NUL] + name;
    TrimTrimmed(p);
    assert shifted[|shifted| - 1] == name[|name| - 1];
    TrimTrimmed(shifted);
    ByteLengthAppend(p + [NUL], q);
    ByteLengthAppend(p, [NUL]);
    ByteLengthAppend(q + [NUL], name);
    ByteLengthAppend(q, [NUL]);
    assert [NUL][1..] == "";
    hide Trim;
  }

  /** An accepted request stays accepted with other acceptable texts in these two fields. */
  lemma RenamedCall(input: CreateInput, externalId: string, name: string)
    requires Normalize(input).Ok?
    requires NormalizeOptional(externalId, 255) == Some(externalId) && NormalizeRequired(name, 255) == Some(name)
    ensures Normalize(input.(externalId := externalId, recipientName := name))
         == Ok(Normalize(input).value.(externalId := externalId, recipientName := name))
  {
    hide NormalizeOptional, NormalizeRequired, Trim, ByteLength, NumericString;
  }

  /** Accepted requests need not be so free, and then two of them can share a hash: an
      external id with a zero byte, and the same bytes with the field ending there. */
  lemma ZeroByteSharesHash(input: CreateInput, p: string, q: string)
    requires Normalize(input).Ok? && Trim(input.externalId) == p + [NUL] + q
    requires Trimmed(p) && (q != "" ==> !IsSpace(q[0]))
    requires ByteLength(q) + 1 + ByteLength(Trim(input.recipientName)) <= 255
    ensures var other := Shifted(input, p, q);
      && Normalize(other).Ok?
      && RequestHash(Normalize(other).value) == RequestHash(Normalize(input).value)
      && Fields(Normalize(other).value) != Fields(Normalize(input).value)
  {
    hide Normalize, NormalizeOptional, NormalizeRequired, Trim, ByteLength, Trimmed, RequestHash, Fields;
    var name := Trim(input.recipientName);
    NormalizedTexts(input);
    ShiftedTexts(p, q, name);
    RenamedCall(input, p, q + [NUL] + name);
    ShiftedFields(Normalize(input).value, p, q, name);
  }

  lemma ShiftedFields(x: Transactions.Call, p: string, q: string, name: string)
    requires x.externalId == p + [NUL] + q && x.recipientName == name
    ensures var y := x.(externalId := p, recipientName := q + [NUL] + name);
      RequestHash(x) == RequestHash(y) && Fields(x) != Fields(y)
  {
    hide Encode;
    var y := x.(externalId := p, recipientName := q + [NUL] + name);
    var ids, rest := [IdText(x.clientId), IdText(x.fundingSourceId)], [x.recipientAccountId, x.amountText, x.currency];
    SameEncoding(ids, p, q, name, rest);
    assert Fields(x) == ids + [p + [NUL] + q, name] + rest;
    assert Fields(y) == ids + [p, q + [NUL] + name] + rest;
    assert Fields(x)[2] != Fields(y)[2];
  }

  lemma NormalizedTexts(input: CreateInput)
    requires Normalize(input).Ok?
    ensures Normalize(input).value.externalId == Trim(input.externalId) && ByteLength(Trim(input.externalId)) <= 255
    ensures Normalize(input).value.recipientName == Trim(input.recipientName) != ""
    ensures Trimmed(Trim(input.externalId)) && Trimmed(Trim(input.recipientName))
  {
    hide ByteLength, NumericString;
  }

  lemma EqualTextsEqualValues(a: Numeric, b: Numeric)
    requires NumericString(a).Printed? && NumericString(a) == NumericString(b)
    requires a.mantissa.value > 0 && b.mantissa.value > 0
    ensures SameValue(a, b)
  {
    assert a.exp != MIN_INT32 && b.exp != MIN_INT32;
    hide NumericString, SameValue;
    TextsEqualIffSameValueAndDecimals(a, b);
  }

  lemma RepliesOf(s: Sys, x: Reply)
    requires Inv(s) && x in s.history.replies
    ensures ReplyOk(s.db, x)
  {
  }

  /** Any two create calls of one client under one trimmed key that both succeeded, at
      any points of any run, got the same payout for the same normalised request. */
  lemma CreationIsIdempotent(pol: Policy, s: Sys, x: Reply, y: Reply)
    requires Reachable(pol, s) && x in s.history.replies && y in s.history.replies
    requires x.call.clientId == y.call.clientId && x.call.key == y.call.key
    ensures x.payoutId == y.payoutId && x.payoutId in s.db.payouts
    ensures x.call.fundingSourceId == y.call.fundingSourceId && x.call.externalId == y.call.externalId
    ensures x.call.recipientName == y.call.recipientName && x.call.recipientAccountId == y.call.recipientAccountId
    ensures x.call.currency == y.call.currency && x.call.amountText == y.call.amountText
    ensures x.call.amount.IsFinite() && y.call.amount.IsFinite() && SameValue(x.call.amount, y.call.amount)
  {
    ReachableInv(pol, s);
    RepliesOf(s, x);
    RepliesOf(s, y);
    hide Inv, Reachable, Fields, SameValue, NewRow, AmountColumn, Encode;
    EncodeSeparates(Fields(x.call), Fields(y.call));
    SameFieldsSameCall(x.call, y.call);
  }

  /** Replies, once given, stay on record: the history of replies only grows. */
  lemma {:induction false} RepliesStay(pol: Policy, s: Sys, acts: seq<Action>, s': Sys)
    requires Runs(pol, s, acts, s')
    ensures s.history.replies <= s'.history.replies
    decreases |acts|
  {
    if acts != [] {
      ReplyStep(s, acts[0]);
      hide Do, Allowed;
      RepliesStay(pol, Do(s, acts[0]).value, acts[1..], s');
    }
  }

  lemma ReplyStep(s: Sys, a: Action)
    requires Do(s, a).Some?
    ensures s.history.replies <= Do(s, a).value.history.replies
  {
    hide Normalize, LoadIdempotentPayout, InsertTx, PrepareTx, RecordTx, IsNext, SeenColumn, ReplyWith, ReplyFound;
  }

  /** A create action either leaves the tables untouched, whatever it had inserted before
      failing, or adds exactly one payout, one key and one process event, linked. */
  lemma CreateIsAllOrNothing(s: Sys, a: Action, s': Sys)
    requires a.Begin? || a.ReadKey? || a.Insert? || a.Reload? || a.Abandon?
    requires Do(s, a) == Some(s') && s'.db != s.db
    ensures a.Insert? && a.c in s.creators
    ensures a.id !in s.db.payouts && s'.db.payouts.Keys == s.db.payouts.Keys + {a.id}
    ensures a.eventId !in s.db.events && s'.db.events.Keys == s.db.events.Keys + {a.eventId}
    ensures var k := (s.creators[a.c].call.clientId, s.creators[a.c].call.key);
      && k !in s.db.keys && s'.db.keys.Keys == s.db.keys.Keys + {k} && IsKeyOf(s'.db, k, a.id)
      && IsProcessEventOf(s'.db, a.eventId, a.id)
      && s'.db.events[a.eventId].payload == ProcessPayload(a.id, k.0) && s'.db.payouts[a.id].clientId == k.0
  {
    if a.Insert? {
      InsertWrites(s, a.c, a.id, a.eventId, a.replied, s');
      hide InsertTx, RequestHash, NewRow;
      InsertTxEffect(s.db, s.creators[a.c].call, a.id, a.eventId, s.now);
    } else {
      OthersWriteNothing(s, a, s');
    }
  }

  lemma InsertWrites(s: Sys, c: nat, id: Id, eventId: Id, replied: bool, s': Sys)
    requires DoInsert(s, c, id, eventId, replied) == Some(s')
    ensures c in s.creators
    ensures s'.db == s.db || InsertTx(s.db, s.creators[c].call, id, eventId, s.now) == Ok(s'.db)
  {
    hide InsertTx, ReplyWith;
  }

  lemma OthersWriteNothing(s: Sys, a: Action, s': Sys)
    requires a.Begin? || a.ReadKey? || a.Reload? || a.Abandon?
    requires Do(s, a) == Some(s')
    ensures s'.db == s.db
  {
    hide Normalize, LoadIdempotentPayout, ReplyWith, ReplyFound;
  }

  // ---------------------------------------------------------------- losing a concurrent insert

  ghost predicate KeyStored(db: Db, call: Transactions.Call) { (call.clientId, call.key) in db.keys }

  /** The call's key is stored for the very request the call makes. */
  ghost predicate RequestStored(db: Db, call: Transactions.Call) {
    KeyStored(db, call) && db.keys[(call.clientId, call.key)].requestHash == RequestHash(call)
  }

  lemma StoredRequestFound(db: Db, call: Transactions.Call)
    requires Consistent(db) && RequestStored(db, call)
    ensures var w := db.keys[(call.clientId, call.key)].payoutId;
      && w in db.payouts && LoadIdempotentPayout(db, call) == Ok(Existing(w, db.payouts[w]))
      && ReplyWith(w, db.payouts[w]) == Ok(w)
  {
    assert KeyOk(db, (call.clientId, call.key));
    assert PayoutOk(db, db.keys[(call.clientId, call.key)].payoutId);
    hide RequestHash, StoredFor, NumericString, Complete, EventsOk, OneKeyEach, OneProcessEventEach, ExternalIdsUnique;
  }

  /** The stored payout has the call's fields, and its account and source are the call's. */
  lemma StoredRequestRow(db: Db, call: Transactions.Call)
    requires Consistent(db) && WellFormed(call) && RequestStored(db, call)
    ensures AllNulFree(Fields(call)) && NulFree(call.key) && call.clientId in db.clients && AmountColumn(call.amount).Ok?
    ensures GetFundingSource(db, call.clientId, call.fundingSourceId).Ok?
    ensures var w := db.keys[(call.clientId, call.key)].payoutId;
      && w in db.payouts && SamePayout(NewRow(call), db.payouts[w]) && db.payouts[w].clientId == call.clientId
      && db.payouts[w].externalId == TextParam(call.externalId)
  {
    var w := db.keys[(call.clientId, call.key)].payoutId;
    StoredRequestFound(db, call);
    FoundReplyOk(db, call, w, db.payouts[w]);
    NewRowOk(call);
    assert PayoutOk(db, w);
    hide Encode, NumericString, LoadIdempotentPayout, WellFormed, Digits, Complete, EventsOk, OneKeyEach,
      OneProcessEventEach, ExternalIdsUnique, AmountColumn, NewRow, RequestHash, Fields;
  }

  lemma StoredRequestRefused(db: Db, call: Transactions.Call, id: Id, eventId: Id, now: int)
    requires Consistent(db) && WellFormed(call) && RequestStored(db, call) && id !in db.payouts
    ensures InsertTx(db, call, id, eventId, now)
         == Err(if call.externalId == "" then ConcurrentKeyInsert else DuplicateExternalId)
  {
    hide Consistent, Encode, Fields, NumericString, NulFree, WellFormed, AmountColumn;
    StoredRequestRow(db, call);
    FieldsAt(call);
    assert NulFree(Fields(call)[2]) && NulFree(Fields(call)[3]) && NulFree(Fields(call)[4]) && NulFree(Fields(call)[6]);
    if call.externalId != "" {
      assert db.payouts[db.keys[(call.clientId, call.key)].payoutId].externalId == TextParam(call.externalId);
      assert ExternalIdTaken(db, call.clientId, TextParam(call.externalId));
    } else {
      assert !ExternalIdTaken(db, call.clientId, TextParam(call.externalId));
      KeyInsertFails(db, call, id, NewRow(call));
    }
  }

  lemma KeyInsertFails(db: Db, call: Transactions.Call, id: Id, row: Payout)
    requires (call.clientId, call.key) in db.keys && NulFree(call.key)
    ensures InsertKeyRow(db.(payouts := db.payouts[id := row]), call, id) == Err(ConcurrentKeyInsert)
  {
  }

  /** In every reachable state where a call's key is stored for its request, however long
      ago and whatever happened since: the call's insert fails on the key or, with an
      external id, earlier on the payout row, and reading the key finds the stored payout. */
  lemma SecondInsertFails(pol: Policy, s: Sys, call: Transactions.Call, id: Id, eventId: Id)
    requires Reachable(pol, s) && WellFormed(call) && RequestStored(s.db, call) && id !in s.db.payouts
    ensures InsertTx(s.db, call, id, eventId, s.now)
         == Err(if call.externalId == "" then ConcurrentKeyInsert else DuplicateExternalId)
    ensures var w := s.db.keys[(call.clientId, call.key)].payoutId;
      w in s.db.payouts && LoadIdempotentPayout(s.db, call) == Ok(Existing(w, s.db.payouts[w]))
  {
    hide Reachable, Inv, Consistent, InsertTx, LoadIdempotentPayout, RequestStored, WellFormed;
    ReachableInv(pol, s);
    InvParts(s);
    StoredRequestRefused(s.db, call, id, eventId, s.now);
    StoredRequestFound(s.db, call);
  }

  // ---------------------------------------------------------------- the fallback read

  /** A create call about to read again has its key in the tables. */
  ghost predicate ReloadersKeyed(s: Sys) {
    forall c :: c in s.creators && s.creators[c].stage == Reloading ==> KeyStored(s.db, s.creators[c].call)
  }

  /** An insert loses its key only to a stored one: the payout id it brings is new. */
  lemma LostKeyIsStored(db: Db, call: Transactions.Call, id: Id, eventId: Id, now: int)
    requires KeysOk(db) && InsertTx(db, call, id, eventId, now) == Err(ConcurrentKeyInsert)
    ensures KeyStored(db, call)
  {
    hide StoredFor, RequestHash, AmountColumn, NulFree, ExternalIdTaken;
    assert forall k :: k in db.keys ==> KeyOk(db, k);
    assert id !in db.payouts;
  }

  /** The stages of create calls after a step: reading again comes from a lost insert. */
  lemma ReloadersFollow(s: Sys, a: Action, s': Sys, c: nat)
    requires Do(s, a) == Some(s') && c in s'.creators && s'.creators[c].stage == Reloading
    ensures c in s.creators && s.creators[c].call == s'.creators[c].call
    ensures s.creators[c].stage == Reloading
         || exists id, eventId :: InsertTx(s.db, s.creators[c].call, id, eventId, s.now) == Err(ConcurrentKeyInsert)
  {
    if a.Insert? {
      hide InsertTx, ReplyWith;
      if a.c == c && s.creators[c].stage != Reloading {
        assert InsertTx(s.db, s.creators[c].call, a.id, a.eventId, s.now) == Err(ConcurrentKeyInsert);
      }
    } else {
      hide Do;
      StagesBut(s, a, s', c);
    }
  }

  lemma StagesBut(s: Sys, a: Action, s': Sys, c: nat)
    requires !a.Insert? && Do(s, a) == Some(s') && c in s'.creators && s'.creators[c].stage == Reloading
    ensures c in s.creators && s.creators[c] == s'.creators[c]
  {
    hide Do;
    if a.Begin? || a.ReadKey? || a.Reload? || a.Abandon? {
      CreatorStages(s, a, s', c);
    } else {
      SameCreators(s, a, s');
    }
  }

  lemma CreatorStages(s: Sys, a: Action, s': Sys, c: nat)
    requires a.Begin? || a.ReadKey? || a.Reload? || a.Abandon?
    requires Do(s, a) == Some(s') && c in s'.creators && s'.creators[c].stage == Reloading
    ensures c in s.creators && s.creators[c] == s'.creators[c]
  {
    hide Normalize, LoadIdempotentPayout, ReplyWith, ReplyFound;
  }

  lemma SameCreators(s: Sys, a: Action, s': Sys)
    requires !a.Begin? && !a.ReadKey? && !a.Insert? && !a.Reload? && !a.Abandon?
    requires Do(s, a) == Some(s')
    ensures s'.creators == s.creators
  {
    hide Do;
    if a.Deliver? || a.Finish? || a.WorkerCrash? || a.Disconnect? {
      DeliveriesLeaveCreators(s, a, s');
    } else if ByWorker(a) {
      HandlingLeavesCreators(s, a, s');
    } else if a.Claim? || a.Dispatch? || a.Mark? || a.Release? || a.RelayCrash? {
      RelaysLeaveCreators(s, a, s');
    } else {
      EnvironmentLeavesCreators(s, a, s');
    }
  }

  lemma DeliveriesLeaveCreators(s: Sys, a: Action, s': Sys)
    requires a.Deliver? || a.Finish? || a.WorkerCrash? || a.Disconnect?
    requires Do(s, a) == Some(s')
    ensures s'.creators == s.creators
  {
    hide GiveBack, GivenUp;
  }

  lemma HandlingLeavesCreators(s: Sys, a: Action, s': Sys)
    requires a.Prepare? || a.CallProvider? || a.Answer? || a.Record? || a.WorkerError?
    requires Do(s, a) == Some(s')
    ensures s'.creators == s.creators
  {
    hide PrepareTx, RecordTx, SeenColumn, GivenUp;
  }

  lemma RelaysLeaveCreators(s: Sys, a: Action, s': Sys)
    requires a.Claim? || a.Dispatch? || a.Mark? || a.Release? || a.RelayCrash?
    requires Do(s, a) == Some(s')
    ensures s'.creators == s.creators
  {
    hide IsNext, MarkProcessed, ReleaseClaim, ClaimEvent, JobOf;
  }

  lemma EnvironmentLeavesCreators(s: Sys, a: Action, s': Sys)
    requires a.AddClient? || a.SetWebhook? || a.AddSource? || a.Tick? || a.StrayMessage?
    requires Do(s, a) == Some(s')
    ensures s'.creators == s.creators
  {
  }

  lemma ReloadersStep(s: Sys, a: Action, s': Sys)
    requires Inv(s) && ReloadersKeyed(s) && Do(s, a) == Some(s')
    ensures ReloadersKeyed(s')
  {
    hide Inv, Do, Consistent, Evolves, InsertTx, KeysOk, KeyStored;
    StepKeepsInv(s, a, s');
    InvParts(s);
    KeysOkOf(s.db);
    forall c | c in s'.creators && s'.creators[c].stage == Reloading ensures KeyStored(s'.db, s'.creators[c].call) {
      ReloadersFollow(s, a, s', c);
      if s.creators[c].stage != Reloading {
        var id, eventId :| InsertTx(s.db, s.creators[c].call, id, eventId, s.now) == Err(ConcurrentKeyInsert);
        LostKeyIsStored(s.db, s.creators[c].call, id, eventId, s.now);
      }
      StoredKeyStays(s.db, s'.db, s.creators[c].call);
    }
  }

  lemma KeysOkOf(db: Db)
    requires Consistent(db)
    ensures KeysOk(db)
  {
  }

  lemma StoredKeyStays(db: Db, db': Db, call: Transactions.Call)
    requires Evolves(db, db') && KeyStored(db, call)
    ensures KeyStored(db', call) && db'.keys[(call.clientId, call.key)] == db.keys[(call.clientId, call.key)]
  {
  }

  lemma {:induction false} RunKeepsReloaders(pol: Policy, s: Sys, acts: seq<Action>, s': Sys)
    requires Inv(s) && ReloadersKeyed(s) && Runs(pol, s, acts, s')
    ensures ReloadersKeyed(s')
    decreases |acts|
  {
    hide Inv, Do, Allowed, Evolves, ReloadersKeyed;
    if acts != [] {
      var s1 := Do(s, acts[0]).value;
      StepKeepsInv(s, acts[0], s1);
      ReloadersStep(s, acts[0], s1);
      RunKeepsReloaders(pol, s1, acts[1..], s');
    }
  }

  lemma ReachableReloaders(pol: Policy, s: Sys)
    requires Reachable(pol, s)
    ensures ReloadersKeyed(s)
  {
    var s0, acts :| Initial(s0) && Runs(pol, s0, acts, s);
    InitialInv(s0);
    assert ReloadersKeyed(s0);
    hide Inv, ReloadersKeyed, Runs, Initial;
    RunKeepsReloaders(pol, s0, acts, s);
  }

  /** Whenever the fallback read runs it finds the key: it answers with the stored payout
      if the key was stored for this request, with a conflict if for another, and never
      with the error that a missing key would give. */
  lemma ReloadFindsKey(pol: Policy, s: Sys, c: nat)
    requires Reachable(pol, s) && c in s.creators && s.creators[c].stage == Reloading
    ensures KeyStored(s.db, s.creators[c].call)
    ensures var call := s.creators[c].call;
      Do(s, Reload(c)) == Some(Answering(s, c,
        if RequestStored(s.db, call) then Ok(s.db.keys[(call.clientId, call.key)].payoutId) else Err(IdempotencyConflict)))
  {
    hide Reachable, Inv, Consistent, ReloadersKeyed, KeyStored, RequestStored, RequestHash, ReplyWith, Answering, LoadIdempotentPayout;
    ReachableInv(pol, s);
    InvParts(s);
    ReachableReloaders(pol, s);
    ReloaderKeyed(s, c);
    StoredKeyRead(s.db, s.creators[c].call);
  }

  lemma StoredKeyNulFree(db: Db, k: (Id, string))
    requires KeysOk(db) && k in db.keys
    ensures NulFree(k.1)
  {
    assert KeyOk(db, k);
  }

  lemma StoredKeyRead(db: Db, call: Transactions.Call)
    requires Consistent(db) && KeyStored(db, call)
    ensures (call.clientId, call.key) in db.keys
    ensures var w := db.keys[(call.clientId, call.key)].payoutId;
      if RequestStored(db, call)
      then w in db.payouts && LoadIdempotentPayout(db, call) == Ok(Existing(w, db.payouts[w])) && ReplyWith(w, db.payouts[w]) == Ok(w)
      else LoadIdempotentPayout(db, call) == Err(IdempotencyConflict)
  {
    hide Consistent, RequestHash, ReplyWith, NulFree, KeyOk;
    KeysOkOf(db);
    StoredKeyNulFree(db, (call.clientId, call.key));
    if RequestStored(db, call) {
      StoredRequestFound(db, call);
    }
  }

  lemma ReloaderKeyed(s: Sys, c: nat)
    requires ReloadersKeyed(s) && c in s.creators && s.creators[c].stage == Reloading
    ensures KeyStored(s.db, s.creators[c].call)
  {
  }

  // ---------------------------------------------------------------- two concurrent calls

  /** Two calls with one client, key and request. `c` commits first, from `s` to `s1`. Any
      run of anything may follow before `d`, which found no key either, inserts from `s2` to
      `s3`, and any other run before it reads again at `s4`. `d` leaves no row. Without an
      external id it comes to read again and answers with `c`'s payout; with one it is
      refused as a duplicate external id, and answers nothing. */
  lemma LoserOfConcurrentInsert(pol: Policy, s: Sys, c: nat, id: Id, eventId: Id, replied: bool, s1: Sys,
                                between: seq<Action>, s2: Sys, d: nat, id': Id, eventId': Id, replied': bool, s3: Sys,
                                later: seq<Action>, s4: Sys)
    requires Reachable(pol, s) && c in s.creators && Step(pol, s, Insert(c, id, eventId, replied), s1) && s1.db != s.db
    requires Runs(pol, s1, between, s2) && d in s2.creators && s2.creators[d].stage == Inserting
    requires var x, y := s.creators[c].call, s2.creators[d].call;
      x.clientId == y.clientId && x.key == y.key && RequestHash(x) == RequestHash(y)
    requires id' !in s2.db.payouts && Step(pol, s2, Insert(d, id', eventId', replied'), s3)
    requires d in s3.creators ==> Runs(pol, s3, later, s4) && d in s4.creators && s4.creators[d] == s3.creators[d]
    ensures s3.db == s2.db
    ensures d in s3.creators <==> s2.creators[d].call.externalId == ""
    ensures d !in s3.creators ==> s3.history.replies == s2.history.replies
    ensures d in s3.creators ==>
      Do(s4, Reload(d)) == Some(Answering(s4, d, Ok(id))) && s4.creators[d].call == s2.creators[d].call
  {
    hide Reachable, Runs, Do, DoInsert, RequestStored, WellFormed, RequestHash, Answering;
    var x, y := s.creators[c].call, s2.creators[d].call;
    ReachableAfter(pol, s, [Insert(c, id, eventId, replied)], s1) by {
      RunOne(pol, s, Insert(c, id, eventId, replied), s1);
    }
    ReachableAfter(pol, s1, between, s2);
    ReachableAfter(pol, s2, [Insert(d, id', eventId', replied')], s3) by {
      RunOne(pol, s2, Insert(d, id', eventId', replied'), s3);
    }
    InsertAction(pol, s, c, id, eventId, replied, s1);
    InsertAction(pol, s2, d, id', eventId', replied', s3);
    WinnerStores(s, c, id, eventId, replied, s1, y);
    StoredRequestStays(pol, s1, between, s2, y);
    CreatorWellFormed(pol, s2, d);
    SecondInsertFails(pol, s2, y, id', eventId');
    InsertRefused(s2, d, id', eventId', replied', s3);
    if d in s3.creators {
      ReachableAfter(pol, s3, later, s4);
      StoredRequestStays(pol, s3, later, s4, y);
      ReloadFindsKey(pol, s4, d);
    }
  }

  lemma InsertAction(pol: Policy, s: Sys, c: nat, id: Id, eventId: Id, replied: bool, s': Sys)
    requires Step(pol, s, Insert(c, id, eventId, replied), s')
    ensures DoInsert(s, c, id, eventId, replied) == Some(s')
  {
    hide DoInsert;
  }

  lemma ReachableAfter(pol: Policy, s: Sys, acts: seq<Action>, s': Sys)
    requires Reachable(pol, s) && Runs(pol, s, acts, s')
    ensures Reachable(pol, s')
  {
    var s0, before :| Initial(s0) && Runs(pol, s0, before, s);
    hide Runs, Initial;
    RunJoin(pol, s0, before, s, acts, s');
  }

  lemma CreatorWellFormed(pol: Policy, s: Sys, d: nat)
    requires Reachable(pol, s) && d in s.creators
    ensures WellFormed(s.creators[d].call)
  {
    hide Reachable, Inv, ProcessesOk, WellFormed;
    ReachableInv(pol, s);
    InvParts(s);
    CallWellFormed(s, d);
  }

  /** The winner's commit stores the request of both. */
  lemma WinnerStores(s: Sys, c: nat, id: Id, eventId: Id, replied: bool, s1: Sys, y: Transactions.Call)
    requires c in s.creators && DoInsert(s, c, id, eventId, replied) == Some(s1) && s1.db != s.db
    requires var x := s.creators[c].call; x.clientId == y.clientId && x.key == y.key && RequestHash(x) == RequestHash(y)
    ensures RequestStored(s1.db, y) && s1.db.keys[(y.clientId, y.key)].payoutId == id
  {
    hide RequestHash, InsertTx, DoInsert;
    InsertWrites(s, c, id, eventId, replied, s1);
    InsertTxEffect(s.db, s.creators[c].call, id, eventId, s.now);
  }

  lemma StoredRequestStays(pol: Policy, s: Sys, acts: seq<Action>, s': Sys, call: Transactions.Call)
    requires Reachable(pol, s) && Runs(pol, s, acts, s') && RequestStored(s.db, call)
    ensures RequestStored(s'.db, call)
    ensures s'.db.keys[(call.clientId, call.key)] == s.db.keys[(call.clientId, call.key)]
  {
    hide Reachable, Runs, Inv, Evolves, RequestHash, KeyStored;
    ReachableInv(pol, s);
    RunKeepsInv(pol, s, acts, s');
    StoredKeyStays(s.db, s'.db, call);
  }

  lemma PrintsItsAmount(call: Transactions.Call, id: Id)
    requires WellFormed(call) && AmountColumn(call.amount).Ok?
    ensures ReplyWith(id, NewRow(call)) == Ok(id)
  {
    NewRowOk(call);
    hide NumericString, NewRow;
  }

  lemma InsertRefused(s: Sys, d: nat, id: Id, eventId: Id, replied: bool, s': Sys)
    requires d in s.creators && DoInsert(s, d, id, eventId, replied) == Some(s')
    requires InsertTx(s.db, s.creators[d].call, id, eventId, s.now)
          == Err(if s.creators[d].call.externalId == "" then ConcurrentKeyInsert else DuplicateExternalId)
    ensures s' == if s.creators[d].call.externalId == ""
                  then s.(creators := s.creators[d := s.creators[d].(stage := Reloading)])
                  else s.(creators := s.creators - {d})
  {
    hide InsertTx;
  }

  // ---------------------------------------------------------------- correspondence

  /** Payouts, idempotency keys and process events correspond one to one, with matching
      payout and client in the row, the key and the event's payload. */
  lemma OneToOne(pol: Policy, s: Sys)
    requires Reachable(pol, s)
    ensures forall p :: p in s.db.payouts ==> exists k :: IsKeyOf(s.db, k, p)
    ensures forall p, j, k :: IsKeyOf(s.db, j, p) && IsKeyOf(s.db, k, p) ==> j == k
    ensures forall k :: k in s.db.keys ==>
              && s.db.keys[k].payoutId in s.db.payouts && s.db.payouts[s.db.keys[k].payoutId].clientId == k.0
    ensures forall p :: p in s.db.payouts ==> exists e :: IsProcessEventOf(s.db, e, p)
    ensures forall p, d, e :: IsProcessEventOf(s.db, d, p) && IsProcessEventOf(s.db, e, p) ==> d == e
    ensures forall e, p :: IsProcessEventOf(s.db, e, p) ==>
              && p in s.db.payouts && s.db.events[e].payload == ProcessPayload(p, s.db.payouts[p].clientId)
  {
    ReachableInv(pol, s);
    hide Reachable, PayoutOk, StoredFor, ExternalIdsUnique, ProcessesOk, NothingLost, DispatchedHandedOver;
    assert forall p :: p in s.db.payouts ==> HasKey(s.db, p) && HasProcessEvent(s.db, p);
    assert forall k :: k in s.db.keys ==> KeyOk(s.db, k);
    assert forall e :: e in s.db.events ==> EventOk(s.db, e);
  }

  // ---------------------------------------------------------------- provider calls

  /** All provider calls ever made for one payout carry identical input: its amount and
      currency, and the account of its funding source, which belongs to its client. */
  lemma CallsAreIdentical(pol: Policy, s: Sys, i: ProviderInput, j: ProviderInput)
    requires Reachable(pol, s) && i in s.history.calls && j in s.history.calls && i.payoutId == j.payoutId
    ensures i == j
    ensures i.payoutId in s.db.payouts && i.fundingSourceId in s.db.sources
    ensures var row, source := s.db.payouts[i.payoutId], s.db.sources[i.fundingSourceId];
      && i.fundingSourceId == row.fundingSourceId && source.clientId == row.clientId
      && i.paymentAccountId == source.paymentAccountId && i.currency == row.currency
      && NumericString(row.amount) == Printed(i.amount)
  {
    ReachableInv(pol, s);
    hide Reachable, NumericString, Complete, KeysOk, EventsOk, OneKeyEach, OneProcessEventEach, ExternalIdsUnique,
      QueueOk, RelaysOk, WorkersOk, CreatorsOk, RepliesOk, TimesOk, NothingLost, DispatchedHandedOver;
    assert CallOk(s.db, i) && CallOk(s.db, j);
    assert PayoutOk(s.db, i.payoutId);
  }

  /** What the provider is asked to pay for an answered create call, however often and
      whenever: from the call's own source, in its currency, the amount rounded to the
      nearest hundredth and written with two decimals. That is the requested amount itself
      exactly when the amount is a whole number of hundredths. */
  lemma PaysNearestHundredth(pol: Policy, s: Sys, x: Reply, i: ProviderInput)
    requires Reachable(pol, s) && x in s.history.replies && i in s.history.calls && i.payoutId == x.payoutId
    ensures i.fundingSourceId == x.call.fundingSourceId && i.currency == x.call.currency
    ensures x.call.amount.IsFinite() && ReadDecimal(x.call.amountText) == Some(Exact(x.call.amount))
    ensures ReadDecimal(i.amount).Some? && ReadDecimal(i.amount).value.decimals == 2
    ensures var asked, paid := Exact(x.call.amount), ReadDecimal(i.amount).value.coefficient;
      && NearestHundredth(paid, asked) && 1 <= paid < HUNDREDTHS_LIMIT
      && (paid * Pow10(asked.decimals) == 100 * asked.coefficient <==> 100 * asked.coefficient % Pow10(asked.decimals) == 0)
  {
    hide Reachable, Inv, WellFormed, NumericString, AmountColumn, NearestHundredth, ReadDecimal, Exact;
    ReachableInv(pol, s);
    RepliesOf(s, x);
    CallsAreIdentical(pol, s, i, i);
    StoredAmount(s.db, x);
    StoredHundredths(x.call);
  }

  /** A payout that a create call was answered with holds, in every later state, what that call
      asked for: its columns one by one, absent for an empty external id, and the nearest
      hundredth of its amount. */
  lemma StoredAsRequested(pol: Policy, s: Sys, x: Reply)
    requires Reachable(pol, s) && x in s.history.replies
    ensures x.payoutId in s.db.payouts && x.call.amount.IsFinite()
    ensures var row, call := s.db.payouts[x.payoutId], x.call;
      && row.clientId == call.clientId && row.fundingSourceId == call.fundingSourceId && row.currency == call.currency
      && row.externalId == (if call.externalId == "" then None else Some(call.externalId))
      && row.recipientName == (if call.recipientName == "" then None else Some(call.recipientName))
      && row.recipientAccountId == (if call.recipientAccountId == "" then None else Some(call.recipientAccountId))
      && row.amount.IsFinite() && row.amount.exp == -2 && NearestHundredth(row.amount.mantissa.value, Exact(call.amount))
  {
    hide Reachable, Inv, WellFormed, NumericString, AmountColumn, NearestHundredth, ReadDecimal, Exact, RequestHash, Fields;
    ReachableInv(pol, s);
    RepliesOf(s, x);
    StoredAmount(s.db, x);
    StoredHundredths(x.call);
  }

  lemma StoredAmount(db: Db, x: Reply)
    requires ReplyOk(db, x)
    ensures WellFormed(x.call) && AmountColumn(x.call.amount).Ok? && x.payoutId in db.payouts
    ensures db.payouts[x.payoutId].amount == AmountColumn(x.call.amount).value
    ensures db.payouts[x.payoutId].fundingSourceId == x.call.fundingSourceId && db.payouts[x.payoutId].currency == x.call.currency
  {
    hide WellFormed, AmountColumn, RequestHash, Fields;
  }

  lemma StoredHundredths(call: Transactions.Call)
    requires WellFormed(call) && AmountColumn(call.amount).Ok?
    ensures call.amount.IsFinite() && ReadDecimal(call.amountText) == Some(Exact(call.amount))
    ensures var asked, h := Exact(call.amount), Hundredths(Exact(call.amount));
      && AmountColumn(call.amount).value == InHundredths(h)
      && NearestHundredth(h, asked) && 1 <= h < HUNDREDTHS_LIMIT
      && (h * Pow10(asked.decimals) == 100 * asked.coefficient <==> 100 * asked.coefficient % Pow10(asked.decimals) == 0)
      && NumericString(InHundredths(h)).Printed?
      && ReadDecimal(NumericString(InHundredths(h)).text) == Some(Decimal.Reading.Reading(h, 2))
  {
    PrintedNumeric(call.amount);
    PrintsAndReads(call.amount);
    hide NumericString, ReadDecimal, Exact, Hundredths, NearestHundredth;
    var asked := Exact(call.amount);
    HundredthsNear(asked);
    HundredthsExactIff(asked);
    HundredthsPrint(Hundredths(asked));
  }

  // ---------------------------------------------------------------- status rank

  /** Over any run from a reachable state no row disappears, only a payout's status and
      reason change in it, and the status never falls in rank. */
  lemma RankNeverFalls(pol: Policy, s: Sys, acts: seq<Action>, s': Sys, p: Id)
    requires Reachable(pol, s) && Runs(pol, s, acts, s') && p in s.db.payouts
    ensures p in s'.db.payouts && Rank(s.db.payouts[p].status) <= Rank(s'.db.payouts[p].status)
    ensures s'.db.payouts[p].status.Valid() && SamePayout(s.db.payouts[p], s'.db.payouts[p])
  {
    hide Reachable, Runs, Inv, ProcessesOk, NumericString;
    ReachableInv(pol, s);
    RunKeepsInv(pol, s, acts, s');
    InvParts(s');
    PayoutIsOk(s'.db, p);
    hide Consistent;
  }

  lemma PayoutIsOk(db: Db, p: Id)
    requires Consistent(db)
    ensures p in db.payouts ==> PayoutOk(db, p)
  {
  }
}
