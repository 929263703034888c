/** Every action keeps the safety invariant, one lemma for each. */
module SafetySteps {
  import opened Prelude
  import opened Decimal
  import opened Amounts
  import opened Text
  import opened Domain
  import opened Tables
  import opened Transactions
  import opened Consistency
  import opened Pipeline
  import opened Safety

  // ---------------------------------------------------------------- updates of one process

  lemma SetWorker(s: Sys, w: nat, worker: Worker)
    requires ProcessesOk(s) && WorkerOk(s.db, worker)
    ensures ProcessesOk(s.(workers := s.workers[w := worker]))
  {
    hide WorkerOk, RelayOk, ReplyOk, CallOk, MsgOk;
  }

  lemma DropWorker(s: Sys, w: nat)
    requires ProcessesOk(s)
    ensures ProcessesOk(s.(workers := s.workers - {w}))
  {
    hide WorkerOk, RelayOk, ReplyOk, CallOk, MsgOk;
  }

  lemma SetRelay(s: Sys, r: nat, relay: Relay)
    requires ProcessesOk(s) && RelayOk(s.db, s.now, relay)
    ensures ProcessesOk(s.(relays := s.relays[r := relay]))
  {
    hide WorkerOk, RelayOk, ReplyOk, CallOk, MsgOk;
  }

  lemma DropRelay(s: Sys, r: nat)
    requires ProcessesOk(s)
    ensures ProcessesOk(s.(relays := s.relays - {r}))
  {
    hide WorkerOk, RelayOk, ReplyOk, CallOk, MsgOk;
  }

  lemma SetCreator(s: Sys, c: nat, creator: Creator)
    requires ProcessesOk(s) && WellFormed(creator.call)
    ensures ProcessesOk(s.(creators := s.creators[c := creator]))
  {
    hide WorkerOk, RelayOk, ReplyOk, CallOk, MsgOk, WellFormed;
  }

  lemma DropCreator(s: Sys, c: nat)
    requires ProcessesOk(s)
    ensures ProcessesOk(s.(creators := s.creators - {c}))
  {
    hide WorkerOk, RelayOk, ReplyOk, CallOk, MsgOk, WellFormed;
  }

  lemma AddMessage(s: Sys, m: Msg)
    requires ProcessesOk(s) && MsgOk(s.db, m)
    ensures ProcessesOk(s.(queue := s.queue + multiset{m}))
  {
    hide WorkerOk, RelayOk, ReplyOk, CallOk, MsgOk;
    var queue := s.queue + multiset{m};
    forall n | n in queue ensures MsgOk(s.db, n) { assert n == m || n in s.queue; }
  }

  lemma TakeMessage(s: Sys, m: Msg)
    requires ProcessesOk(s)
    ensures ProcessesOk(s.(queue := s.queue - multiset{m}))
    ensures m in s.queue ==> MsgOk(s.db, m)
  {
    hide WorkerOk, RelayOk, ReplyOk, CallOk, MsgOk;
    var queue := s.queue - multiset{m};
    forall n | n in queue ensures MsgOk(s.db, n) { assert n in s.queue; }
  }

  lemma AddReply(s: Sys, reply: Reply)
    requires ProcessesOk(s) && ReplyOk(s.db, reply)
    ensures ProcessesOk(s.(history := s.history.(replies := s.history.replies + {reply})))
  {
    hide WorkerOk, RelayOk, ReplyOk, CallOk, MsgOk;
  }

  lemma AddCall(s: Sys, input: ProviderInput)
    requires ProcessesOk(s) && CallOk(s.db, input)
    ensures ProcessesOk(s.(history := s.history.(calls := s.history.calls + multiset{input})))
  {
    hide WorkerOk, RelayOk, ReplyOk, CallOk, MsgOk;
  }

  /** The parts of the history that the processes do not depend on. */
  lemma OtherHistory(s: Sys, history: History)
    requires ProcessesOk(s) && history.replies == s.history.replies && history.calls == s.history.calls
    ensures ProcessesOk(s.(history := history))
  {
    hide QueueOk, RelaysOk, WorkersOk, CreatorsOk, RepliesOk, CallsOk, TimesOk;
  }

  /** New tables and a later time. */
  lemma Advance(s: Sys, db': Db, now': int)
    requires Consistent(s.db) && Consistent(db') && ProcessesOk(s) && Evolves(s.db, db') && s.now <= now'
    requires TimesOk(db', now')
    ensures ProcessesOk(s.(db := db', now := now'))
  {
    hide Consistent, Evolves, QueueOk, RelaysOk, WorkersOk, CreatorsOk, RepliesOk, CallsOk, TimesOk;
    ProcessesStay(s, db', now');
  }

  lemma TimesOfEvent(db: Db, id: Id, e: Event, now: int)
    requires TimesOk(db, now) && StampsOk(e, now)
    ensures TimesOk(db.(events := db.events[id := e]), now)
  {
  }

  lemma StampsOf(db: Db, id: Id, now: int)
    requires TimesOk(db, now) && id in db.events
    ensures StampsOk(db.events[id], now)
  {
  }

  lemma TimesOf(s: Sys)
    requires ProcessesOk(s)
    ensures TimesOk(s.db, s.now)
  {
  }

  lemma WorkerIsOk(s: Sys, w: nat)
    requires ProcessesOk(s) && w in s.workers
    ensures WorkerOk(s.db, s.workers[w])
  {
  }

  lemma RelayIsOk(s: Sys, r: nat)
    requires ProcessesOk(s) && r in s.relays
    ensures RelayOk(s.db, s.now, s.relays[r])
  {
  }

  lemma CallWellFormed(s: Sys, c: nat)
    requires ProcessesOk(s) && c in s.creators
    ensures WellFormed(s.creators[c].call)
  {
  }

  // ---------------------------------------------------------------- copies across a step

  lemma QueueGrows(s: Sys, s': Sys)
    requires s.queue <= s'.queue && s'.workers == s.workers
    ensures CopiesKept(s, s')
  {
    forall m: Msg | m.Job? && InTransit(s.queue, s.workers, m) ensures InTransit(s'.queue, s'.workers, m) {
      assert m in s.queue ==> m in s'.queue;
    }
  }

  lemma WorkerKeeps(s: Sys, s': Sys, w: nat, worker: Worker)
    requires w in s.workers && worker.held == s.workers[w].held && worker.msg == s.workers[w].msg
    requires s'.queue == s.queue && s'.workers == s.workers[w := worker]
    ensures CopiesKept(s, s')
  {
    forall m: Msg | m.Job? && InTransit(s.queue, s.workers, m) ensures InTransit(s'.queue, s'.workers, m) {
      if m !in s.queue {
        var v :| IsHeld(s.workers, v, m);
        assert IsHeld(s'.workers, v, m);
      }
    }
  }

  lemma WorkerTakes(s: Sys, s': Sys, w: nat, msg: Msg)
    requires w !in s.workers && s'.queue == s.queue - multiset{msg}
    requires s'.workers == s.workers[w := Worker(true, msg, Received)]
    ensures CopiesKept(s, s')
  {
    forall m: Msg | m.Job? && InTransit(s.queue, s.workers, m) ensures InTransit(s'.queue, s'.workers, m) {
      if m == msg {
        assert IsHeld(s'.workers, w, m);
      } else if m in s.queue {
        assert m in s'.queue;
      } else {
        var v :| IsHeld(s.workers, v, m);
        assert IsHeld(s'.workers, v, m);
      }
    }
  }

  /** A worker loses its message: to the queue, or because the payout is final. */
  lemma WorkerLoses(s: Sys, s': Sys, w: nat)
    requires w in s.workers && s'.db == s.db
    requires s'.workers == s.workers - {w} || s'.workers == s.workers[w := s.workers[w].(held := false)]
    requires
      || s'.queue == GiveBack(s, w)
      || (s'.queue == s.queue && (s.workers[w].msg.Malformed? || IsFinal(s.db, s.workers[w].msg.entityId)))
    ensures CopiesKept(s, s')
  {
    hide IsFinal;
    forall m: Msg | m.Job? && InTransit(s.queue, s.workers, m)
      ensures InTransit(s'.queue, s'.workers, m) || IsFinal(s'.db, m.entityId)
    {
      if m in s.queue {
        assert m in s'.queue;
      } else {
        var v :| IsHeld(s.workers, v, m);
        if v != w {
          assert IsHeld(s'.workers, v, m);
        }
      }
    }
  }

  // ---------------------------------------------------------------- shared steps

  /** No open event is closed. */
  ghost predicate NothingClosed(db: Db, db': Db) {
    forall e :: e in db.events && db.events[e].status != EventProcessed
      ==> e in db'.events && db'.events[e].status != EventProcessed
  }

  lemma ClosesNothing(db: Db, id: Id, e: Event)
    requires e.status != EventProcessed
    ensures NothingClosed(db, db.(events := db.events[id := e]))
  {
  }

  lemma OpenStay(s: Sys, s': Sys)
    requires Evolves(s.db, s'.db) && NothingClosed(s.db, s'.db)
    ensures OpenEventsKept(s, s')
  {
    hide HandedOver;
  }

  ghost predicate NoNewDispatch(s: Sys, s': Sys) {
    forall r :: r in s'.relays && s'.relays[r].stage == Dispatched ==> r in s.relays && s'.relays[r] == s.relays[r]
  }

  lemma InvParts(s: Sys)
    requires Inv(s)
    ensures Consistent(s.db) && ProcessesOk(s) && NothingLost(s) && DispatchedHandedOver(s)
  {
  }

  lemma InvFromParts(s: Sys)
    requires Consistent(s.db) && ProcessesOk(s) && NothingLost(s) && DispatchedHandedOver(s)
    ensures Inv(s)
  {
  }

  lemma DispatchedStays(s: Sys, s': Sys)
    requires Inv(s) && Consistent(s'.db) && Evolves(s.db, s'.db) && CopiesKept(s, s') && NoNewDispatch(s, s')
    ensures DispatchedHandedOver(s')
  {
    hide Consistent, Evolves, CopiesKept, DispatchedHandedOver, RelaysOk;
    DispatchedStay(s, s');
  }

  ghost predicate NewPayoutsOpen(db: Db, db': Db) {
    forall p :: p in db'.payouts && p !in db.payouts ==> HasOpenEvent(db', p)
  }

  /** The frame of every action that dispatches nothing. */
  lemma NoDispatch(s: Sys, s': Sys)
    requires Inv(s) && Consistent(s'.db) && Evolves(s.db, s'.db) && ProcessesOk(s')
    requires CopiesKept(s, s') && OpenEventsKept(s, s') && NewPayoutsOpen(s.db, s'.db) && NoNewDispatch(s, s')
    ensures Inv(s')
  {
    hide Inv, Consistent, Evolves, ProcessesOk, CopiesKept, OpenEventsKept, NothingLost, DispatchedHandedOver;
    InvParts(s);
    NothingLostStays(s, s');
    DispatchedStays(s, s');
    InvFromParts(s');
  }

  /** The frame of actions that moreover close no event and add no payout. */
  lemma Quiet(s: Sys, s': Sys)
    requires Inv(s) && Consistent(s'.db) && Evolves(s.db, s'.db) && ProcessesOk(s')
    requires CopiesKept(s, s') && NothingClosed(s.db, s'.db) && s'.db.payouts.Keys == s.db.payouts.Keys && NoNewDispatch(s, s')
    ensures Inv(s')
  {
    hide Inv, Consistent, Evolves, ProcessesOk, CopiesKept, NothingClosed, OpenEventsKept, NoNewDispatch, HasOpenEvent;
    OpenStay(s, s');
    NoDispatch(s, s');
  }

  /** The frame of actions that leave the tables alone. */
  lemma QuietTables(s: Sys, s': Sys)
    requires Inv(s) && s'.db == s.db && ProcessesOk(s') && CopiesKept(s, s') && NoNewDispatch(s, s')
    ensures Inv(s') && Evolves(s.db, s'.db)
  {
    EvolvesReflexive(s.db);
    hide Inv, Consistent, Evolves, ProcessesOk, CopiesKept;
    InvParts(s);
    Quiet(s, s');
  }

  // ---------------------------------------------------------------- the environment

  lemma AccountsStep(s: Sys, db': Db)
    requires Inv(s) && SourcesOk(db')
    requires db' == s.db.(clients := db'.clients, sources := db'.sources)
    requires s.db.clients.Keys <= db'.clients.Keys
    requires forall k :: k in s.db.sources ==> k in db'.sources && db'.sources[k] == s.db.sources[k]
    ensures Inv(s.(db := db')) && Evolves(s.db, db')
  {
    hide Inv, Consistent, Evolves, ProcessesOk, CopiesKept, NothingClosed, SourcesOk;
    InvParts(s);
    AccountsConsistent(s.db, db');
    TimesOf(s);
    SameEventTimes(s.db, db', s.now);
    Advance(s, db', s.now);
    SameTransit(s, s.(db := db'));
    Quiet(s, s.(db := db'));
  }

  lemma SameEventTimes(db: Db, db': Db, now: int)
    requires TimesOk(db, now) && db'.events == db.events
    ensures TimesOk(db', now) && NothingClosed(db, db')
  {
  }

  lemma SourcesOkOf(s: Sys)
    requires Inv(s)
    ensures SourcesOk(s.db)
  {
  }

  lemma AddClientStep(s: Sys, client: Id, url: Option<string>, s': Sys)
    requires Inv(s) && DoAddClient(s, client, url) == Some(s')
    ensures Inv(s') && Evolves(s.db, s'.db)
  {
    hide Inv, Evolves;
    SourcesOkOf(s);
    AccountsStep(s, s'.db);
  }

  lemma SetWebhookStep(s: Sys, client: Id, url: Option<string>, s': Sys)
    requires Inv(s) && DoSetWebhook(s, client, url) == Some(s')
    ensures Inv(s') && Evolves(s.db, s'.db)
  {
    hide Inv, Evolves;
    SourcesOkOf(s);
    AccountsStep(s, s'.db);
  }

  lemma AddSourceStep(s: Sys, source: Id, row: FundingSource, s': Sys)
    requires Inv(s) && DoAddSource(s, source, row) == Some(s')
    ensures Inv(s') && Evolves(s.db, s'.db)
  {
    hide Inv, Evolves;
    SourcesOkOf(s);
    AccountsStep(s, s'.db);
  }

  lemma TickStep(s: Sys, d: nat, s': Sys)
    requires Inv(s) && DoTick(s, d) == Some(s')
    ensures Inv(s') && Evolves(s.db, s'.db)
  {
    EvolvesReflexive(s.db);
    SameTransit(s, s');
    hide Inv, Consistent, Evolves, ProcessesOk, CopiesKept, NothingClosed;
    InvParts(s);
    TimesOf(s);
    Advance(s, s.db, s'.now);
    QuietTables(s, s');
  }

  lemma StrayMessageStep(s: Sys, s': Sys)
    requires Inv(s) && DoStrayMessage(s) == Some(s')
    ensures Inv(s') && Evolves(s.db, s'.db)
  {
    hide Inv, Consistent, Evolves, ProcessesOk, CopiesKept, NothingClosed;
    InvParts(s);
    AddMessage(s, Malformed);
    QueueGrows(s, s');
    QuietTables(s, s');
  }

  // ---------------------------------------------------------------- create calls

  lemma BeginStep(s: Sys, c: nat, input: CreateInput, s': Sys)
    requires Inv(s) && DoBegin(s, c, input) == Some(s')
    ensures Inv(s') && Evolves(s.db, s'.db)
  {
    NormalizedIsWellFormed(input);
    hide Inv, Consistent, Evolves, ProcessesOk, CopiesKept, NothingClosed, Normalize, WellFormed;
    InvParts(s);
    SetCreator(s, c, s'.creators[c]);
    SameTransit(s, s');
    QuietTables(s, s');
  }

  lemma FoundRow(db: Db, call: Transactions.Call, id: Id, payout: Payout)
    requires Consistent(db) && LoadIdempotentPayout(db, call) == Ok(Existing(id, payout))
    ensures (call.clientId, call.key) in db.keys && db.keys[(call.clientId, call.key)].payoutId == id
    ensures db.keys[(call.clientId, call.key)].requestHash == RequestHash(call)
    ensures id in db.payouts && payout == db.payouts[id]
    ensures exists x :: StoredFor(db, (call.clientId, call.key), x)
  {
    assert KeyOk(db, (call.clientId, call.key));
    hide Encode, StoredFor, EventsOk, Complete, OneKeyEach, OneProcessEventEach, ExternalIdsUnique;
  }

  lemma FieldsAt(x: Transactions.Call)
    ensures |Fields(x)| == 7 && Fields(x)[0] == IdText(x.clientId) && Fields(x)[1] == IdText(x.fundingSourceId)
    ensures Fields(x)[2] == x.externalId && Fields(x)[3] == x.recipientName && Fields(x)[4] == x.recipientAccountId
    ensures Fields(x)[5] == x.amountText && Fields(x)[6] == x.currency
  {
  }

  lemma IdTextInjective(a: Id, b: Id)
    requires IdText(a) == IdText(b)
    ensures a == b
  {
    ReadDigits(a);
    ReadDigits(b);
  }

  /** Amounts that print alike are stored alike. */
  lemma SameTextSameColumn(x: Transactions.Call, y: Transactions.Call)
    requires WellFormed(x) && WellFormed(y) && x.amountText == y.amountText
    ensures AmountColumn(x.amount) == AmountColumn(y.amount)
  {
    PrintedNumeric(x.amount);
    PrintedNumeric(y.amount);
    PrintsAndReads(x.amount);
    PrintsAndReads(y.amount);
    hide NumericString, ReadDecimal, Exact, Hundredths;
  }

  lemma PrintedNumeric(v: Numeric)
    requires NumericString(v).Printed?
    ensures v.IsFinite() && v.exp != MIN_INT32
  {
  }

  /** Calls with equal fields make equal rows. */
  lemma SameFieldsSameRow(x: Transactions.Call, y: Transactions.Call)
    requires WellFormed(x) && WellFormed(y) && Fields(x) == Fields(y) && AmountColumn(x.amount).Ok?
    ensures NewRow(x) == NewRow(y) && AmountColumn(y.amount).Ok?
  {
    hide Fields, WellFormed, AmountColumn, Digits;
    FieldsAt(x);
    FieldsAt(y);
    IdTextInjective(x.clientId, y.clientId);
    IdTextInjective(x.fundingSourceId, y.fundingSourceId);
    SameTextSameColumn(x, y);
  }

  /** A key stored for one request is stored for any other with its hash. */
  lemma SameHashStored(db: Db, x: Transactions.Call, y: Transactions.Call)
    requires StoredFor(db, (y.clientId, y.key), x) && WellFormed(y) && RequestHash(x) == RequestHash(y)
    ensures StoredFor(db, (y.clientId, y.key), y)
  {
    FieldsAt(x);
    FieldsAt(y);
    EncodeSeparates(Fields(x), Fields(y));
    SameFieldsSameRow(x, y);
    hide Encode, Fields, WellFormed, NewRow, AmountColumn;
  }

  /** A payout found under the key belongs to the call: equal hashes mean equal fields. */
  lemma FoundReplyOk(db: Db, call: Transactions.Call, id: Id, payout: Payout)
    requires Consistent(db) && WellFormed(call) && LoadIdempotentPayout(db, call) == Ok(Existing(id, payout))
    ensures ReplyOk(db, Reply(call, id)) && payout == db.payouts[id]
  {
    hide Consistent, StoredFor, LoadIdempotentPayout, WellFormed, RequestHash;
    FoundRow(db, call, id, payout);
    var x :| StoredFor(db, (call.clientId, call.key), x);
    StoredHash(db, (call.clientId, call.key), x);
    SameHashStored(db, x, call);
    assert IsKeyOf(db, (call.clientId, call.key), id);
  }

  lemma StoredHash(db: Db, k: (Id, string), x: Transactions.Call)
    requires StoredFor(db, k, x)
    ensures k in db.keys && db.keys[k].requestHash == RequestHash(x)
  {
  }

  /** Ending a create call, with or without a reply. */
  lemma AnsweringKeeps(s: Sys, c: nat, reply: Result<Id, CreateError>, s': Sys)
    requires Inv(s) && c in s.creators && s' == Answering(s, c, reply)
    requires reply.Ok? ==> ReplyOk(s.db, Reply(s.creators[c].call, reply.value))
    ensures Inv(s') && Evolves(s.db, s'.db) && s'.db == s.db
  {
    hide Inv, Consistent, Evolves, ProcessesOk, CopiesKept, NothingClosed, ReplyOk;
    InvParts(s);
    DropCreator(s, c);
    if reply.Ok? {
      AddReply(s.(creators := s.creators - {c}), Reply(s.creators[c].call, reply.value));
    }
    SameTransit(s, s');
    QuietTables(s, s');
  }

  lemma ChangeStage(s: Sys, c: nat, stage: CreateStage, s': Sys)
    requires Inv(s) && c in s.creators && s' == s.(creators := s.creators[c := s.creators[c].(stage := stage)])
    ensures Inv(s') && Evolves(s.db, s'.db)
  {
    hide Inv, Consistent, Evolves, ProcessesOk, CopiesKept, NothingClosed, WellFormed;
    InvParts(s);
    CallWellFormed(s, c);
    SetCreator(s, c, s.creators[c].(stage := stage));
    SameTransit(s, s');
    QuietTables(s, s');
  }

  lemma ReadKeyStep(s: Sys, c: nat, s': Sys)
    requires Inv(s) && DoReadKey(s, c) == Some(s')
    ensures Inv(s') && Evolves(s.db, s'.db)
  {
    hide Inv, Consistent, Evolves, ProcessesOk, CopiesKept, NothingClosed, ReplyOk, Answering, LoadIdempotentPayout, WellFormed;
    InvParts(s);
    CallWellFormed(s, c);
    match LoadIdempotentPayout(s.db, s.creators[c].call)
    case Err(e) => AnsweringKeeps(s, c, Err(e), s');
    case Ok(Existing(id, payout)) =>
      FoundReplyOk(s.db, s.creators[c].call, id, payout);
      AnsweringKeeps(s, c, ReplyWith(id, payout), s');
    case Ok(NotFound) => ChangeStage(s, c, Inserting, s');
  }

  lemma ReloadStep(s: Sys, c: nat, s': Sys)
    requires Inv(s) && DoReload(s, c) == Some(s')
    ensures Inv(s') && Evolves(s.db, s'.db)
  {
    hide Inv, Consistent, Evolves, ProcessesOk, CopiesKept, NothingClosed, ReplyOk, Answering, LoadIdempotentPayout, WellFormed;
    InvParts(s);
    CallWellFormed(s, c);
    match LoadIdempotentPayout(s.db, s.creators[c].call)
    case Err(e) => AnsweringKeeps(s, c, Err(e), s');
    case Ok(found) =>
      if found.Existing? {
        FoundReplyOk(s.db, s.creators[c].call, found.payoutId, found.payout);
      }
      AnsweringKeeps(s, c, ReplyFound(found), s');
  }

  lemma AbandonStep(s: Sys, c: nat, s': Sys)
    requires Inv(s) && DoAbandon(s, c) == Some(s')
    ensures Inv(s') && Evolves(s.db, s'.db)
  {
    hide Inv, Evolves, ReplyOk;
    AnsweringKeeps(s, c, Err(IdempotencyConflict), s');
  }

  lemma CommittedTables(s: Sys, call: Transactions.Call, id: Id, eventId: Id, db': Db)
    requires TimesOk(s.db, s.now) && InsertTx(s.db, call, id, eventId, s.now) == Ok(db')
    ensures TimesOk(db', s.now) && NothingClosed(s.db, db') && NewPayoutsOpen(s.db, db')
  {
    InsertTxEffect(s.db, call, id, eventId, s.now);
    assert IsOpenEventOf(db', eventId, id);
  }

  /** The tables after a committed create transaction. */
  lemma CommitKeeps(s: Sys, call: Transactions.Call, id: Id, eventId: Id, s': Sys)
    requires Inv(s) && WellFormed(call) && InsertTx(s.db, call, id, eventId, s.now) == Ok(s'.db) && s' == s.(db := s'.db)
    ensures Inv(s') && Evolves(s.db, s'.db)
  {
    hide Inv, Consistent, Evolves, ProcessesOk, CopiesKept, NothingClosed, InsertTx, WellFormed, OpenEventsKept,
      NewPayoutsOpen, TimesOk;
    InvParts(s);
    TimesOf(s);
    InsertTxConsistent(s.db, s'.db, call, id, eventId, s.now);
    CommittedTables(s, call, id, eventId, s'.db);
    Advance(s, s'.db, s.now);
    SameTransit(s, s');
    OpenStay(s, s');
    NoDispatch(s, s');
  }

  lemma CreatedReplyOk(db: Db, db': Db, call: Transactions.Call, id: Id, eventId: Id, now: int)
    requires WellFormed(call) && InsertTx(db, call, id, eventId, now) == Ok(db')
    ensures ReplyOk(db', Reply(call, id))
  {
    hide InsertTx, StoredFor, WellFormed;
    RequestIsStored(db, db', call, id, eventId, now);
    StoredHash(db', (call.clientId, call.key), call);
    assert IsKeyOf(db', (call.clientId, call.key), id);
  }

  lemma InsertStep(s: Sys, c: nat, id: Id, eventId: Id, replied: bool, s': Sys)
    requires Inv(s) && DoInsert(s, c, id, eventId, replied) == Some(s')
    ensures Inv(s') && Evolves(s.db, s'.db)
  {
    hide Inv, Consistent, Evolves, ProcessesOk, CopiesKept, NothingClosed, ReplyOk, Answering, InsertTx, WellFormed;
    InvParts(s);
    CallWellFormed(s, c);
    var call := s.creators[c].call;
    match InsertTx(s.db, call, id, eventId, s.now)
    case Ok(db) =>
      var committed := s.(db := db);
      CommitKeeps(s, call, id, eventId, committed);
      CreatedReplyOk(s.db, db, call, id, eventId, s.now);
      if replied {
        AnsweringKeeps(committed, c, ReplyWith(id, NewRow(call)), s');
      } else {
        AbandonStep(committed, c, s');
      }
    case Err(ConcurrentKeyInsert) => ChangeStage(s, c, Reloading, s');
    case Err(e) => AnsweringKeeps(s, c, Err(e), s');
  }

  // ---------------------------------------------------------------- relays

  lemma ClaimedRelayOk(db: Db, event: Id, now: int)
    requires event in db.events && db.events[event].eventType == ProcessPayout
    ensures RelayOk(ClaimEvent(db, event, now), now, Relay(Claimed, event, JobOf(event, db.events[event]), now))
  {
  }

  lemma ClaimStep(s: Sys, r: nat, started: int, locked: set<Id>, event: Id, s': Sys)
    requires Inv(s) && DoClaim(s, r, started, locked, event) == Some(s')
    ensures Inv(s') && Evolves(s.db, s'.db)
  {
    hide Inv, Consistent, Evolves, ProcessesOk, CopiesKept, NothingClosed, RelayOk, TimesOk;
    InvParts(s);
    TimesOf(s);
    var e := s.db.events[event].(status := EventProcessing, claimedAt := Some(s.now));
    StampsOf(s.db, event, s.now);
    TimesOfEvent(s.db, event, e, s.now);
    ClosesNothing(s.db, event, e);
    ClaimConsistent(s.db, event, s.now);
    Advance(s, s'.db, s.now);
    ClaimedRelayOk(s.db, event, s.now);
    SetRelay(s.(db := s'.db), r, s'.relays[r]);
    SameTransit(s, s');
    Quiet(s, s');
  }

  /** The dispatching relay's payout is handed over, the others' still are. */
  lemma DispatchedNow(s: Sys, r: nat, outcome: PublishOutcome, s': Sys)
    requires Consistent(s.db) && DispatchedHandedOver(s) && CopiesKept(s, s')
    requires r in s.relays && RelayOk(s.db, s.now, s.relays[r])
    requires DoDispatch(s, r, outcome) == Some(s') && Evolves(s.db, s.db)
    ensures DispatchedHandedOver(s')
  {
    hide Consistent, Evolves, CopiesKept, IsFinal;
    var job := s.relays[r].job;
    var p := s.db.events[s.relays[r].event].entityId;
    if outcome.Delivered? {
      assert Carries(job, p) && InTransit(s'.queue, s'.workers, job);
    }
    forall q | q in s'.relays && s'.relays[q].stage == Dispatched && s'.relays[q].event in s'.db.events
      ensures HandedOver(s', s'.db.events[s'.relays[q].event].entityId)
    {
      if q != r {
        HandedOverStays(s, s', s.db.events[s.relays[q].event].entityId);
      }
    }
  }

  lemma DispatchKeepsProcesses(s: Sys, r: nat, outcome: PublishOutcome, s': Sys)
    requires ProcessesOk(s) && DoDispatch(s, r, outcome) == Some(s')
    ensures ProcessesOk(s')
  {
    hide ProcessesOk;
    RelayIsOk(s, r);
    var job := s.relays[r].job;
    AddMessage(s, job);
    var published := s.(queue := s'.queue);
    SetRelay(published, r, s'.relays[r]);
    OtherHistory(published.(relays := s'.relays), s'.history);
  }

  lemma DispatchKeepsTables(s: Sys, r: nat, outcome: PublishOutcome, s': Sys)
    requires DoDispatch(s, r, outcome) == Some(s')
    ensures r in s.relays && s'.db == s.db && s'.now == s.now && s.queue <= s'.queue && s'.workers == s.workers
  {
  }

  lemma DispatchStep(s: Sys, r: nat, outcome: PublishOutcome, s': Sys)
    requires Inv(s) && DoDispatch(s, r, outcome) == Some(s')
    ensures Inv(s') && Evolves(s.db, s'.db)
  {
    DispatchKeepsTables(s, r, outcome, s');
    hide Inv, Consistent, Evolves, ProcessesOk, CopiesKept, NothingClosed, NothingLost, OpenEventsKept, DispatchedHandedOver, RelayOk,
      DoDispatch, TimesOk;
    InvParts(s);
    TimesOf(s);
    SameEventTimes(s.db, s'.db, s.now);
    EvolvesReflexive(s.db);
    QueueGrows(s, s');
    DispatchKeepsProcesses(s, r, outcome, s');
    OpenStay(s, s');
    NothingLostStays(s, s');
    RelayIsOk(s, r);
    DispatchedNow(s, r, outcome, s');
    InvFromParts(s');
  }

  lemma MarkedOpenEvents(s: Sys, event: Id, p: Id, s': Sys)
    requires event in s.db.events && event in s'.db.events && s.db.events[event].entityId == p && HandedOver(s', p)
    requires s'.db.events == s.db.events[event := s'.db.events[event]]
    ensures OpenEventsKept(s, s')
  {
    hide HandedOver;
    forall e, q | IsOpenEventOf(s.db, e, q) ensures IsOpenEventOf(s'.db, e, q) || HandedOver(s', q) {
      assert e == event ==> q == p;
    }
  }

  lemma MarkStep(s: Sys, r: nat, s': Sys)
    requires Inv(s) && DoMark(s, r) == Some(s')
    ensures Inv(s') && Evolves(s.db, s'.db)
  {
    hide Inv, Consistent, Evolves, ProcessesOk, CopiesKept, OpenEventsKept, HandedOver, TimesOk, NothingLost,
      DispatchedHandedOver;
    InvParts(s);
    RelayIsOk(s, r);
    var event := s.relays[r].event;
    var p := s.db.events[event].entityId;
    HandedOverByRelay(s, r);
    MarkConsistent(s.db, event, s.now);
    TimesOf(s);
    StampsOf(s.db, event, s.now);
    TimesOfEvent(s.db, event, s'.db.events[event], s.now);
    Advance(s, s'.db, s.now);
    DropRelay(s.(db := s'.db), r);
    SameTransit(s, s');
    HandedOverStays(s, s', p);
    MarkedOpenEvents(s, event, p, s');
    NoDispatch(s, s');
  }

  lemma HandedOverByRelay(s: Sys, r: nat)
    requires DispatchedHandedOver(s) && r in s.relays && s.relays[r].stage == Dispatched && s.relays[r].event in s.db.events
    ensures HandedOver(s, s.db.events[s.relays[r].event].entityId)
  {
  }

  lemma ReleaseStep(s: Sys, r: nat, s': Sys)
    requires Inv(s) && DoRelease(s, r) == Some(s')
    ensures Inv(s') && Evolves(s.db, s'.db)
  {
    hide Inv, Consistent, Evolves, ProcessesOk, CopiesKept, NothingClosed, TimesOk;
    InvParts(s);
    RelayIsOk(s, r);
    var event := s.relays[r].event;
    ReleaseConsistent(s.db, event);
    TimesOf(s);
    StampsOf(s.db, event, s.now);
    TimesOfEvent(s.db, event, s'.db.events[event], s.now);
    ClosesNothing(s.db, event, s'.db.events[event]);
    Advance(s, s'.db, s.now);
    DropRelay(s.(db := s'.db), r);
    SameTransit(s, s');
    Quiet(s, s');
  }

  lemma RelayCrashStep(s: Sys, r: nat, s': Sys)
    requires Inv(s) && DoRelayCrash(s, r) == Some(s')
    ensures Inv(s') && Evolves(s.db, s'.db)
  {
    hide Inv, Consistent, Evolves, ProcessesOk, CopiesKept, NothingClosed;
    InvParts(s);
    DropRelay(s, r);
    OtherHistory(s.(relays := s'.relays), s'.history);
    SameTransit(s, s');
    QuietTables(s, s');
  }

  // ---------------------------------------------------------------- workers

  /** A worker that only changes its stage. */
  lemma StageMoves(s: Sys, w: nat, stage: WorkerStage, s': Sys)
    requires Inv(s) && w in s.workers && s' == SetStage(s, w, stage) && WorkerOk(s.db, s.workers[w].(stage := stage))
    ensures Inv(s') && Evolves(s.db, s'.db)
  {
    hide Inv, Consistent, Evolves, ProcessesOk, CopiesKept, NothingClosed, WorkerOk;
    InvParts(s);
    SetWorker(s, w, s.workers[w].(stage := stage));
    WorkerKeeps(s, s', w, s.workers[w].(stage := stage));
    QuietTables(s, s');
  }

  /** A worker that gives up and will give its message back. */
  lemma GivesUp(s: Sys, w: nat, s': Sys)
    requires Inv(s) && w in s.workers && s' == SetStage(s, w, Requeueing).(history := GivenUp(s, w))
    ensures Inv(s') && Evolves(s.db, s'.db)
  {
    hide Inv, Consistent, Evolves, ProcessesOk, CopiesKept, NothingClosed, WorkerOk;
    InvParts(s);
    WorkerIsOk(s, w);
    RequeueingOk(s.db, s.workers[w]);
    SetWorker(s, w, s.workers[w].(stage := Requeueing));
    OtherHistory(SetStage(s, w, Requeueing), s'.history);
    WorkerKeeps(s, s', w, s.workers[w].(stage := Requeueing));
    QuietTables(s, s');
  }

  /** A worker whose transaction committed. */
  lemma CommitMoves(s: Sys, w: nat, stage: WorkerStage, db': Db, s': Sys)
    requires Inv(s) && Consistent(db') && Evolves(s.db, db') && TimesOk(db', s.now)
    requires NothingClosed(s.db, db') && db'.payouts.Keys == s.db.payouts.Keys
    requires w in s.workers && WorkerOk(db', s.workers[w].(stage := stage))
    requires s' == SetStage(s.(db := db'), w, stage).(history := s'.history)
    requires s'.history.replies == s.history.replies && s'.history.calls == s.history.calls
    ensures Inv(s')
  {
    hide Inv, Consistent, Evolves, ProcessesOk, CopiesKept, NothingClosed, WorkerOk, TimesOk;
    InvParts(s);
    var committed := s.(db := db');
    Advance(s, db', s.now);
    SetWorker(committed, w, s.workers[w].(stage := stage));
    OtherHistory(SetStage(committed, w, stage), s'.history);
    WorkerKeeps(s, s', w, s.workers[w].(stage := stage));
    Quiet(s, s');
  }

  lemma DeliverStep(s: Sys, w: nat, msg: Msg, s': Sys)
    requires Inv(s) && DoDeliver(s, w, msg) == Some(s')
    ensures Inv(s') && Evolves(s.db, s'.db)
  {
    hide Inv, Consistent, Evolves, ProcessesOk, CopiesKept, NothingClosed, MsgOk;
    InvParts(s);
    TakeMessage(s, msg);
    SetWorker(s.(queue := s'.queue), w, Worker(true, msg, Received));
    WorkerTakes(s, s', w, msg);
    QuietTables(s, s');
  }

  lemma MessageNamesPayout(db: Db, m: Msg)
    requires EventsOk(db) && MsgOk(db, m) && m.Job?
    ensures m.payload.ProcessPayload? && m.payload.payoutId == m.entityId && m.entityId in db.payouts
    ensures m.payload.clientId == db.payouts[m.entityId].clientId
  {
    assert EventOk(db, m.eventId);
  }

  lemma MessageType(db: Db, m: Msg)
    requires MsgOk(db, m) && m.Job?
    ensures m.eventType == ProcessPayout
  {
  }

  lemma InputIsKnown(db: Db, p: Id)
    requires Consistent(db) && p in db.payouts
    ensures InputKnown(db, p)
  {
    assert PayoutOk(db, p);
  }

  lemma EventsOkOf(db: Db)
    requires Consistent(db)
    ensures EventsOk(db) && PayoutsOk(db)
  {
  }

  lemma PreparedWorkerOk(db: Db, db': Db, clientId: Id, worker: Worker, prepared: Prepared)
    requires Consistent(db) && Consistent(db') && Evolves(db, db') && MsgOk(db, worker.msg) && worker.msg.Job?
    requires PrepareTx(db, clientId, worker.msg.entityId) == Ok((db', prepared))
    ensures WorkerOk(db', worker.(stage := if prepared.shouldExecute then Ready(prepared) else Acking))
  {
    hide PrepareTx, InputOf, Consistent, MsgOk, Evolves, PayoutsOk, EventsOk;
    var p := worker.msg.entityId;
    EventsOkOf(db);
    PrepareTxEffect(db, clientId, p);
    MsgStays(db, db', worker.msg);
    InputStays(db, db', p);
    StatusAfterPrepare(db, clientId, p);
  }

  lemma StatusAfterPrepare(db: Db, clientId: Id, p: Id)
    requires PayoutsOk(db) && PrepareTx(db, clientId, p).Ok?
    ensures var (db', prepared) := PrepareTx(db, clientId, p).value;
      && p in db'.payouts && db'.payouts.Keys == db.payouts.Keys && db'.events == db.events
      && (prepared.shouldExecute ==> db'.payouts[p].status == Processing)
      && (!prepared.shouldExecute ==> db'.payouts[p].status == Succeeded)
  {
    PrepareTxEffect(db, clientId, p);
    assert PayoutOk(db, p);
    hide PrepareTx, NumericString, InputOf;
  }

  lemma PreparedMoves(s: Sys, w: nat, db': Db, prepared: Prepared, s': Sys)
    requires Inv(s) && w in s.workers && s.workers[w].msg.Job? && WorkerOk(s.db, s.workers[w])
    requires PrepareTx(s.db, s.workers[w].msg.payload.clientId, s.workers[w].msg.entityId) == Ok((db', prepared))
    requires s' == SetStage(s.(db := db'), w, if prepared.shouldExecute then Ready(prepared) else Acking)
    ensures Inv(s') && Evolves(s.db, s'.db)
  {
    var worker := s.workers[w];
    assert MsgOk(s.db, worker.msg);
    hide Inv, Consistent, Evolves, ProcessesOk, CopiesKept, NothingClosed, PrepareTx, WorkerOk, MsgOk, TimesOk, EventsOk, PayoutsOk;
    InvParts(s);
    EventsOkOf(s.db);
    PrepareTxConsistent(s.db, worker.msg.payload.clientId, worker.msg.entityId);
    PreparedWorkerOk(s.db, db', worker.msg.payload.clientId, worker, prepared);
    StatusAfterPrepare(s.db, worker.msg.payload.clientId, worker.msg.entityId);
    TimesOf(s);
    SameEventTimes(s.db, db', s.now);
    CommitMoves(s, w, if prepared.shouldExecute then Ready(prepared) else Acking, db', s');
  }

  lemma RequeueingOk(db: Db, worker: Worker)
    requires WorkerOk(db, worker)
    ensures WorkerOk(db, worker.(stage := Requeueing))
    ensures worker.msg.Malformed? ==> WorkerOk(db, worker.(stage := Dropping))
    ensures MsgOk(db, worker.msg)
  {
  }

  lemma PrepareStep(s: Sys, w: nat, s': Sys)
    requires Inv(s) && DoPrepare(s, w) == Some(s')
    ensures Inv(s') && Evolves(s.db, s'.db)
  {
    hide Inv, Consistent, Evolves, ProcessesOk, CopiesKept, NothingClosed, PrepareTx, WorkerOk, MsgOk, SetStage, EventsOk, PayoutsOk;
    InvParts(s);
    WorkerIsOk(s, w);
    RequeueingOk(s.db, s.workers[w]);
    match s.workers[w].msg
    case Malformed => StageMoves(s, w, Dropping, s');
    case Job(_, eventType, entityId, payload) =>
      EventsOkOf(s.db);
      MessageNamesPayout(s.db, s.workers[w].msg);
      if eventType != ProcessPayout || PrepareTx(s.db, payload.clientId, payload.payoutId).Err? {
        StageMoves(s, w, Requeueing, s');
      } else {
        var (db', prepared) := PrepareTx(s.db, payload.clientId, payload.payoutId).value;
        PreparedMoves(s, w, db', prepared, s');
      }
  }

  lemma CallingOk(db: Db, worker: Worker)
    requires WorkerOk(db, worker) && worker.stage.Ready?
    ensures WorkerOk(db, worker.(stage := Calling(worker.stage.prepared)))
    ensures CallOk(db, worker.stage.prepared.input)
  {
    hide MsgOk;
  }

  lemma CallProviderStep(s: Sys, w: nat, s': Sys)
    requires Inv(s) && DoCallProvider(s, w) == Some(s')
    ensures Inv(s') && Evolves(s.db, s'.db)
  {
    hide Inv, Consistent, Evolves, ProcessesOk, CopiesKept, NothingClosed, WorkerOk, CallOk;
    InvParts(s);
    WorkerIsOk(s, w);
    CallingOk(s.db, s.workers[w]);
    var prepared := s.workers[w].stage.prepared;
    var calling := SetStage(s, w, Calling(prepared));
    SetWorker(s, w, s.workers[w].(stage := Calling(prepared)));
    AddCall(calling, prepared.input);
    WorkerKeeps(s, s', w, s.workers[w].(stage := Calling(prepared)));
    QuietTables(s, s');
  }

  lemma AnsweredOk(db: Db, worker: Worker, result: ProviderResult)
    requires WorkerOk(db, worker) && worker.stage.Calling?
    ensures WorkerOk(db, worker.(stage := Answered(worker.stage.prepared, result)))
  {
    hide MsgOk, PreparedOk;
  }

  lemma AnswerStep(s: Sys, w: nat, answer: Option<ProviderResult>, s': Sys)
    requires Inv(s) && DoAnswer(s, w, answer) == Some(s')
    ensures Inv(s') && Evolves(s.db, s'.db)
  {
    hide Inv, Consistent, Evolves, ProcessesOk, CopiesKept, NothingClosed, WorkerOk, SetStage;
    InvParts(s);
    WorkerIsOk(s, w);
    RequeueingOk(s.db, s.workers[w]);
    if answer.None? {
      GivesUp(s, w, s');
    } else {
      AnsweredOk(s.db, s.workers[w], answer.value);
      StageMoves(s, w, Answered(s.workers[w].stage.prepared, answer.value), s');
    }
  }

  lemma RecordedTables(db: Db, p: Id, result: ProviderResult, eventId: Id, now: int)
    requires p in db.payouts && db.payouts[p].clientId in db.clients && TimesOk(db, now)
    requires RecordTx(db, p, result, eventId, now).Ok?
    ensures var db' := RecordTx(db, p, result, eventId, now).value;
      NothingClosed(db, db') && db'.payouts.Keys == db.payouts.Keys && TimesOk(db', now) && IsFinal(db', p)
  {
    RecordTxEffect(db, p, result, eventId, now);
    hide RecordTx, TargetUrl, StoredReason;
  }

  lemma AnsweredPayout(db: Db, worker: Worker)
    requires Consistent(db) && WorkerOk(db, worker) && worker.stage.Answered?
    ensures worker.msg.Job? && worker.stage.prepared.payoutId == worker.msg.entityId
    ensures worker.msg.entityId in db.payouts && db.payouts[worker.msg.entityId].clientId in db.clients
  {
    EventsOkOf(db);
    hide Consistent, MsgOk, NumericString;
    assert PayoutOk(db, worker.msg.entityId);
  }

  lemma AckingOk(db: Db, db': Db, worker: Worker)
    requires WorkerOk(db, worker) && Evolves(db, db') && worker.msg.Job? && IsFinal(db', worker.msg.entityId)
    ensures WorkerOk(db', worker.(stage := Acking))
  {
    MsgStays(db, db', worker.msg);
    hide MsgOk, PreparedOk, Evolves;
  }

  lemma RecordStep(s: Sys, w: nat, eventId: Id, s': Sys)
    requires Inv(s) && DoRecord(s, w, eventId) == Some(s')
    ensures Inv(s') && Evolves(s.db, s'.db)
  {
    hide Inv, Consistent, Evolves, ProcessesOk, CopiesKept, NothingClosed, WorkerOk, RecordTx, SeenColumn, TimesOk, IsFinal;
    InvParts(s);
    WorkerIsOk(s, w);
    var worker := s.workers[w];
    AnsweredPayout(s.db, worker);
    var p, result := worker.msg.entityId, worker.stage.result;
    match RecordTx(s.db, p, result, eventId, s.now)
    case Err(_) =>
      GivesUp(s, w, s');
    case Ok(db') =>
      TimesOf(s);
      RecordTxConsistent(s.db, p, result, eventId, s.now);
      RecordedTables(s.db, p, result, eventId, s.now);
      AckingOk(s.db, db', worker);
      CommitMoves(s, w, Acking, db', s');
  }

  lemma SettledMessage(db: Db, worker: Worker)
    requires WorkerOk(db, worker) && (worker.stage.Acking? || worker.stage.Dropping?)
    ensures worker.msg.Malformed? || IsFinal(db, worker.msg.entityId)
  {
  }

  lemma UnheldOk(db: Db, worker: Worker)
    requires WorkerOk(db, worker)
    ensures WorkerOk(db, worker.(held := false))
  {
    hide MsgOk, PreparedOk, IsFinal;
  }

  /** A worker ends or loses its delivery; the message goes back to the queue if it was
      held, unless it has been settled. */
  lemma WorkerLeaves(s: Sys, w: nat, s': Sys)
    requires Inv(s) && w in s.workers
    requires s' == s.(queue := s'.queue, workers := s'.workers, history := s'.history)
    requires s'.history.replies == s.history.replies && s'.history.calls == s.history.calls
    requires s'.workers == s.workers - {w} || s'.workers == s.workers[w := s.workers[w].(held := false)]
    requires s'.queue == GiveBack(s, w) || (s'.queue == s.queue && (s.workers[w].stage.Acking? || s.workers[w].stage.Dropping?))
    ensures Inv(s') && Evolves(s.db, s'.db)
  {
    hide Inv, Consistent, Evolves, ProcessesOk, CopiesKept, NothingClosed, WorkerOk, MsgOk, IsFinal;
    InvParts(s);
    WorkerIsOk(s, w);
    RequeueingOk(s.db, s.workers[w]);
    if s'.queue != GiveBack(s, w) {
      SettledMessage(s.db, s.workers[w]);
    }
    WorkerLoses(s, s', w);
    AddMessage(s, s.workers[w].msg);
    var queued := s.(queue := s'.queue);
    DropWorker(queued, w);
    UnheldOk(s.db, s.workers[w]);
    SetWorker(queued, w, s.workers[w].(held := false));
    OtherHistory(queued.(workers := s'.workers), s'.history);
    QuietTables(s, s');
  }

  lemma WorkerErrorStep(s: Sys, w: nat, s': Sys)
    requires Inv(s) && DoWorkerError(s, w) == Some(s')
    ensures Inv(s') && Evolves(s.db, s'.db)
  {
    hide Inv, Evolves, GivenUp;
    GivesUp(s, w, s');
  }

  // ---------------------------------------------------------------- every step, every run

  lemma StepKeepsInv(s: Sys, a: Action, s': Sys)
    requires Inv(s) && Do(s, a) == Some(s')
    ensures Inv(s') && Evolves(s.db, s'.db)
  {
    hide Inv, Evolves, DoAddClient, DoSetWebhook, DoAddSource, DoTick, DoStrayMessage, DoBegin, DoReadKey, DoInsert,
      DoReload, DoAbandon, DoClaim, DoDispatch, DoMark, DoRelease, DoRelayCrash, DoDeliver, DoPrepare, DoCallProvider,
      DoAnswer, DoRecord, DoWorkerError;
    match a
    case AddClient(client, url) => AddClientStep(s, client, url, s');
    case SetWebhook(client, url) => SetWebhookStep(s, client, url, s');
    case AddSource(source, row) => AddSourceStep(s, source, row, s');
    case Tick(d) => TickStep(s, d, s');
    case StrayMessage => StrayMessageStep(s, s');
    case Begin(c, input) => BeginStep(s, c, input, s');
    case ReadKey(c) => ReadKeyStep(s, c, s');
    case Insert(c, id, eventId, replied) => InsertStep(s, c, id, eventId, replied, s');
    case Reload(c) => ReloadStep(s, c, s');
    case Abandon(c) => AbandonStep(s, c, s');
    case Claim(r, started, locked, event) => ClaimStep(s, r, started, locked, event, s');
    case Dispatch(r, outcome) => DispatchStep(s, r, outcome, s');
    case Mark(r) => MarkStep(s, r, s');
    case Release(r) => ReleaseStep(s, r, s');
    case RelayCrash(r) => RelayCrashStep(s, r, s');
    case Deliver(w, msg) => DeliverStep(s, w, msg, s');
    case Prepare(w) => PrepareStep(s, w, s');
    case CallProvider(w) => CallProviderStep(s, w, s');
    case Answer(w, answer) => AnswerStep(s, w, answer, s');
    case Record(w, eventId) => RecordStep(s, w, eventId, s');
    case Finish(w) => WorkerLeaves(s, w, s');
    case WorkerError(w) => WorkerErrorStep(s, w, s');
    case WorkerCrash(w) => WorkerLeaves(s, w, s');
    case Disconnect(w) => WorkerLeaves(s, w, s');
  }

  lemma InitialInv(s: Sys)
    requires Initial(s)
    ensures Inv(s)
  {
  }

  lemma {:induction false} RunKeepsInv(pol: Policy, s: Sys, acts: seq<Action>, s': Sys)
    requires Inv(s) && Runs(pol, s, acts, s')
    ensures Inv(s') && Evolves(s.db, s'.db)
    decreases |acts|
  {
    hide Inv, Evolves, Do, Allowed;
    if acts == [] {
      EvolvesReflexive(s.db);
    } else {
      var s1 := Do(s, acts[0]).value;
      StepKeepsInv(s, acts[0], s1);
      RunKeepsInv(pol, s1, acts[1..], s');
      EvolvesTransitive(s.db, s1.db, s'.db);
    }
  }

  lemma ReachableInv(pol: Policy, s: Sys)
    requires Reachable(pol, s)
    ensures Inv(s)
  {
    var s0, acts :| Initial(s0) && Runs(pol, s0, acts, s);
    InitialInv(s0);
    hide Inv, Evolves, Runs, Initial;
    RunKeepsInv(pol, s0, acts, s);
  }
}
