/** The whole payout pipeline as one transition system: create calls, relays and workers
    as processes over the tables, the broker's queue and a clock. Every choice the code
    or its environment makes is part of an action, so a step is a partial function. */
module Pipeline {
  import opened Prelude
  import opened Text
  import opened Domain
  import opened Tables
  import opened Transactions

  // ---------------------------------------------------------------- state

  /** A broker message: the encoding of an event, or bytes that do not decode. */
  datatype Msg = Malformed | Job(eventId: Id, eventType: EventType, entityId: Id, payload: Payload)

  function JobOf(id: Id, e: Event): Msg { Job(id, e.eventType, e.entityId, e.payload) }

  datatype RelayStage = Claimed | Dispatched | Releasing

  /** A relay between its claim and the end of its RunOnce; an idle relay is not listed. */
  datatype Relay = Relay(stage: RelayStage, event: Id, job: Msg, claimedAt: int)

  datatype WorkerStage =
    | Received
    | Ready(prepared: Prepared)
    | Calling(prepared: Prepared)
    | Answered(prepared: Prepared, result: ProviderResult)
    | Acking | Requeueing | Dropping

  /** A worker handling one delivery. `held` is false once the broker has given the
      message back to the queue while the worker goes on. */
  datatype Worker = Worker(held: bool, msg: Msg, stage: WorkerStage)

  datatype CreateStage = Reading | Inserting | Reloading

  datatype Creator = Creator(call: Call, stage: CreateStage)

  /** A create call that answered its caller with a payout. */
  datatype Reply = Reply(call: Call, payoutId: Id)

  /** A committed recording of a provider result, with the client's webhook column it saw. */
  datatype Recording = Recording(payoutId: Id, result: ProviderResult, column: Option<string>)

  datatype History = History(
    replies: set<Reply>, calls: multiset<ProviderInput>, recordings: seq<Recording>,
    dispatches: multiset<Id>, interruptions: multiset<Id>, cutOff: multiset<Id>)

  datatype Sys = Sys(
    db: Db, now: int, timeout: nat,
    queue: multiset<Msg>, relays: map<nat, Relay>, workers: map<nat, Worker>, creators: map<nat, Creator>,
    history: History)

  ghost predicate Initial(s: Sys) {
    && s.db == Db(map[], map[], map[], map[], map[])
    && s.queue == multiset{} && s.relays == map[] && s.workers == map[] && s.creators == map[]
    && s.history == History({}, multiset{}, [], multiset{}, multiset{}, multiset{})
  }

  // ---------------------------------------------------------------- actions

  /** What a publish came to: the message is queued, or an error that may or may not
      have left a copy behind. */
  datatype PublishOutcome = Delivered | Rejected(copied: bool)

  datatype Action =
    // the environment
    | AddClient(client: Id, url: Option<string>)
    | SetWebhook(client: Id, url: Option<string>)
    | AddSource(source: Id, row: FundingSource)
    | Tick(d: nat)
    | StrayMessage
    // create calls
    | Begin(c: nat, input: CreateInput)
    | ReadKey(c: nat)
    | Insert(c: nat, id: Id, eventId: Id, replied: bool)
    | Reload(c: nat)
    | Abandon(c: nat)
    // relays
    | Claim(r: nat, started: int, locked: set<Id>, event: Id)
    | Dispatch(r: nat, outcome: PublishOutcome)
    | Mark(r: nat)
    | Release(r: nat)
    | RelayCrash(r: nat)
    // workers
    | Deliver(w: nat, msg: Msg)
    | Prepare(w: nat)
    | CallProvider(w: nat)
    | Answer(w: nat, answer: Option<ProviderResult>)
    | Record(w: nat, eventId: Id)
    | Finish(w: nat)
    | WorkerError(w: nat)
    | WorkerCrash(w: nat)
    | Disconnect(w: nat)

  function DoAddClient(s: Sys, client: Id, url: Option<string>): Option<Sys> {
    if client in s.db.clients || !TextOk(url) then None
    else Some(s.(db := s.db.(clients := s.db.clients[client := Client(url)])))
  }

  function DoSetWebhook(s: Sys, client: Id, url: Option<string>): Option<Sys> {
    if client !in s.db.clients || !TextOk(url) then None
    else Some(s.(db := s.db.(clients := s.db.clients[client := Client(url)])))
  }

  function DoAddSource(s: Sys, source: Id, row: FundingSource): Option<Sys> {
    if source in s.db.sources || row.clientId !in s.db.clients || !NulFree(row.paymentAccountId) then None
    else Some(s.(db := s.db.(sources := s.db.sources[source := row])))
  }

  function DoTick(s: Sys, d: nat): Option<Sys> { Some(s.(now := s.now + d)) }

  function DoStrayMessage(s: Sys): Option<Sys> { Some(s.(queue := s.queue + multiset{Malformed})) }

  // ---------------------------------------------------------------- create calls

  function DoBegin(s: Sys, c: nat, input: CreateInput): Option<Sys> {
    if c in s.creators then None
    else
      match Normalize(input)
      case Err(_) => None
      case Ok(call) => Some(s.(creators := s.creators[c := Creator(call, Reading)]))
  }

  /** The call answers with a payout, or with an error that leaves no trace. */
  function Answering(s: Sys, c: nat, reply: Result<Id, CreateError>): Sys
    requires c in s.creators
  {
    var ended := s.(creators := s.creators - {c});
    match reply
    case Err(_) => ended
    case Ok(id) =>
      ended.(history := s.history.(replies := s.history.replies + {Reply(s.creators[c].call, id)}))
  }

  function DoReadKey(s: Sys, c: nat): Option<Sys> {
    if c !in s.creators || s.creators[c].stage != Reading then None
    else
      match LoadIdempotentPayout(s.db, s.creators[c].call)
      case Err(e) => Some(Answering(s, c, Err(e)))
      case Ok(Existing(id, payout)) => Some(Answering(s, c, ReplyWith(id, payout)))
      case Ok(NotFound) => Some(s.(creators := s.creators[c := s.creators[c].(stage := Inserting)]))
  }

  /** `replied` is false when the commit happens but the caller never hears of it. */
  function DoInsert(s: Sys, c: nat, id: Id, eventId: Id, replied: bool): Option<Sys> {
    if c !in s.creators || s.creators[c].stage != Inserting then None
    else
      var call := s.creators[c].call;
      match InsertTx(s.db, call, id, eventId, s.now)
      case Ok(db) =>
        var committed := s.(db := db);
        Some(if replied then Answering(committed, c, ReplyWith(id, NewRow(call)))
             else committed.(creators := s.creators - {c}))
      case Err(ConcurrentKeyInsert) => Some(s.(creators := s.creators[c := s.creators[c].(stage := Reloading)]))
      case Err(e) => Some(Answering(s, c, Err(e)))
  }

  function DoReload(s: Sys, c: nat): Option<Sys> {
    if c !in s.creators || s.creators[c].stage != Reloading then None
    else
      match LoadIdempotentPayout(s.db, s.creators[c].call)
      case Err(e) => Some(Answering(s, c, Err(e)))
      case Ok(found) => Some(Answering(s, c, ReplyFound(found)))
  }

  function DoAbandon(s: Sys, c: nat): Option<Sys> {
    if c !in s.creators then None else Some(s.(creators := s.creators - {c}))
  }

  // ---------------------------------------------------------------- relays

  /** The types the API's relay is configured with. */
  const RELAY_TYPES: seq<EventType> := [ProcessPayout]

  /** A claim by a RunOnce that read the clock at `started`. */
  function DoClaim(s: Sys, r: nat, started: int, locked: set<Id>, event: Id): Option<Sys> {
    if r in s.relays || started > s.now || !IsNext(s.db, RELAY_TYPES, started - s.timeout, locked, event) then None
    else
      Some(s.(db := ClaimEvent(s.db, event, s.now),
              relays := s.relays[r := Relay(Claimed, event, JobOf(event, s.db.events[event]), s.now)]))
  }

  function DoDispatch(s: Sys, r: nat, outcome: PublishOutcome): Option<Sys> {
    if r !in s.relays || s.relays[r].stage != Claimed then None
    else
      var relay := s.relays[r];
      match outcome
      case Delivered =>
        Some(s.(queue := s.queue + multiset{relay.job},
                relays := s.relays[r := relay.(stage := Dispatched)],
                history := s.history.(dispatches := s.history.dispatches + multiset{relay.event})))
      case Rejected(copied) =>
        Some(s.(queue := if copied then s.queue + multiset{relay.job} else s.queue,
                relays := s.relays[r := relay.(stage := Releasing)]))
  }

  function DoMark(s: Sys, r: nat): Option<Sys> {
    if r !in s.relays || s.relays[r].stage != Dispatched then None
    else
      match MarkProcessed(s.db, s.relays[r].event, s.now)
      case Ok(db) => Some(s.(db := db, relays := s.relays - {r}))
      case Err(_) => Some(s.(relays := s.relays - {r}))
  }

  function DoRelease(s: Sys, r: nat): Option<Sys> {
    if r !in s.relays || s.relays[r].stage != Releasing then None
    else
      match ReleaseClaim(s.db, s.relays[r].event)
      case Ok(db) => Some(s.(db := db, relays := s.relays - {r}))
      case Err(_) => Some(s.(relays := s.relays - {r}))
  }

  /** A relay dies, or its claim, mark or release fails: it ends without another write. */
  function DoRelayCrash(s: Sys, r: nat): Option<Sys> {
    if r !in s.relays then None
    else if s.relays[r].stage == Dispatched then
      Some(s.(relays := s.relays - {r},
              history := s.history.(interruptions := s.history.interruptions + multiset{s.relays[r].event})))
    else Some(s.(relays := s.relays - {r}))
  }

  // ---------------------------------------------------------------- workers

  function DoDeliver(s: Sys, w: nat, msg: Msg): Option<Sys> {
    if w in s.workers || msg !in s.queue then None
    else Some(s.(queue := s.queue - multiset{msg}, workers := s.workers[w := Worker(true, msg, Received)]))
  }

  function SetStage(s: Sys, w: nat, stage: WorkerStage): Sys
    requires w in s.workers
  {
    s.(workers := s.workers[w := s.workers[w].(stage := stage)])
  }

  /** The worker has called the provider and not yet recorded a result. */
  predicate InCall(stage: WorkerStage) { stage.Calling? || stage.Answered? }

  /** The history when worker `w` gives up: its provider call, if it has made one, is cut
      off before a recording. */
  function GivenUp(s: Sys, w: nat): History
    requires w in s.workers
  {
    if InCall(s.workers[w].stage)
    then s.history.(cutOff := s.history.cutOff + multiset{s.workers[w].stage.prepared.payoutId})
    else s.history
  }

  /** Decoding, the event type and payload checks, and the first transaction. */
  function DoPrepare(s: Sys, w: nat): Option<Sys> {
    if w !in s.workers || s.workers[w].stage != Received then None
    else
      match s.workers[w].msg
      case Malformed => Some(SetStage(s, w, Dropping))
      case Job(_, eventType, _, payload) =>
        if eventType != ProcessPayout || payload.Unreadable? then Some(SetStage(s, w, Requeueing))
        else
          match PrepareTx(s.db, payload.clientId, payload.payoutId)
          case Err(_) => Some(SetStage(s, w, Requeueing))
          case Ok((db, prepared)) =>
            Some(SetStage(s.(db := db), w, if prepared.shouldExecute then Ready(prepared) else Acking))
  }

  function DoCallProvider(s: Sys, w: nat): Option<Sys> {
    if w !in s.workers || !s.workers[w].stage.Ready? then None
    else
      var prepared := s.workers[w].stage.prepared;
      Some(SetStage(s, w, Calling(prepared)).(history := s.history.(calls := s.history.calls + multiset{prepared.input})))
  }

  /** The provider answers with a result or an error. */
  function DoAnswer(s: Sys, w: nat, answer: Option<ProviderResult>): Option<Sys> {
    if w !in s.workers || !s.workers[w].stage.Calling? then None
    else
      match answer
      case None => Some(SetStage(s, w, Requeueing).(history := GivenUp(s, w)))
      case Some(result) => Some(SetStage(s, w, Answered(s.workers[w].stage.prepared, result)))
  }

  function SeenColumn(db: Db, p: Id): Option<string> {
    if p in db.payouts && db.payouts[p].clientId in db.clients
    then db.clients[db.payouts[p].clientId].webhookUrl else None
  }

  function DoRecord(s: Sys, w: nat, eventId: Id): Option<Sys> {
    if w !in s.workers || !s.workers[w].stage.Answered? then None
    else
      var p, result := s.workers[w].stage.prepared.payoutId, s.workers[w].stage.result;
      match RecordTx(s.db, p, result, eventId, s.now)
      case Err(_) => Some(SetStage(s, w, Requeueing).(history := GivenUp(s, w)))
      case Ok(db) =>
        Some(SetStage(s.(db := db), w, Acking).(
          history := s.history.(recordings := s.history.recordings + [Recording(p, result, SeenColumn(s.db, p))])))
  }

  function GiveBack(s: Sys, w: nat): multiset<Msg>
    requires w in s.workers
  {
    if s.workers[w].held then s.queue + multiset{s.workers[w].msg} else s.queue
  }

  /** Ack, nack with requeue, or nack without; none has an effect on a lost delivery. */
  function DoFinish(s: Sys, w: nat): Option<Sys> {
    if w !in s.workers then None
    else
      match s.workers[w].stage
      case Requeueing => Some(s.(queue := GiveBack(s, w), workers := s.workers - {w}))
      case Acking => Some(s.(workers := s.workers - {w}))
      case Dropping => Some(s.(workers := s.workers - {w}))
      case _ => None
  }

  /** A transaction fails, or its commit is reported as failed, or the context ends. */
  function DoWorkerError(s: Sys, w: nat): Option<Sys> {
    if w !in s.workers || s.workers[w].stage.Acking? || s.workers[w].stage.Dropping? then None
    else Some(SetStage(s, w, Requeueing).(history := GivenUp(s, w)))
  }

  function DoWorkerCrash(s: Sys, w: nat): Option<Sys> {
    if w !in s.workers then None
    else Some(s.(queue := GiveBack(s, w), workers := s.workers - {w}, history := GivenUp(s, w)))
  }

  /** The broker loses the worker's connection and requeues; the worker goes on. */
  function DoDisconnect(s: Sys, w: nat): Option<Sys> {
    if w !in s.workers || !s.workers[w].held then None
    else Some(s.(queue := GiveBack(s, w), workers := s.workers[w := s.workers[w].(held := false)]))
  }

  /** The actions of one worker, named by `w`. */
  predicate ByWorker(a: Action) {
    || a.Deliver? || a.Prepare? || a.CallProvider? || a.Answer? || a.Record? || a.Finish? || a.WorkerError? || a.WorkerCrash?
    || a.Disconnect?
  }

  // ---------------------------------------------------------------- steps and runs

  function Do(s: Sys, a: Action): Option<Sys> {
    match a
    case AddClient(client, url) => DoAddClient(s, client, url)
    case SetWebhook(client, url) => DoSetWebhook(s, client, url)
    case AddSource(source, row) => DoAddSource(s, source, row)
    case Tick(d) => DoTick(s, d)
    case StrayMessage => DoStrayMessage(s)
    case Begin(c, input) => DoBegin(s, c, input)
    case ReadKey(c) => DoReadKey(s, c)
    case Insert(c, id, eventId, replied) => DoInsert(s, c, id, eventId, replied)
    case Reload(c) => DoReload(s, c)
    case Abandon(c) => DoAbandon(s, c)
    case Claim(r, started, locked, event) => DoClaim(s, r, started, locked, event)
    case Dispatch(r, outcome) => DoDispatch(s, r, outcome)
    case Mark(r) => DoMark(s, r)
    case Release(r) => DoRelease(s, r)
    case RelayCrash(r) => DoRelayCrash(s, r)
    case Deliver(w, msg) => DoDeliver(s, w, msg)
    case Prepare(w) => DoPrepare(s, w)
    case CallProvider(w) => DoCallProvider(s, w)
    case Answer(w, answer) => DoAnswer(s, w, answer)
    case Record(w, eventId) => DoRecord(s, w, eventId)
    case Finish(w) => DoFinish(s, w)
    case WorkerError(w) => DoWorkerError(s, w)
    case WorkerCrash(w) => DoWorkerCrash(s, w)
    case Disconnect(w) => DoDisconnect(s, w)
  }

  /** Restrictions on a run under which stronger claims hold. Each is off or on:
      deliveries handled one at a time; provider results that meet the provider contract;
      every relay done within the claim timeout; results given by a function of the input. */
  datatype Policy = Policy(oneAtATime: bool, validated: bool, timely: bool, provider: Option<Provider>)

  ghost const UNRESTRICTED: Policy := Policy(false, false, false, None)

  ghost predicate Allowed(pol: Policy, s: Sys, a: Action) {
    match a
    case Deliver(_, _) => pol.oneAtATime ==> s.workers == map[]
    case Answer(w, Some(result)) =>
      && (pol.validated ==> ValidateResult(result))
      && (pol.provider.Some? && w in s.workers && s.workers[w].stage.Calling?
          ==> result == pol.provider.value(s.workers[w].stage.prepared.input))
    case Tick(d) => pol.timely ==> forall r :: r in s.relays ==> s.now + d <= s.relays[r].claimedAt + s.timeout
    case _ => true
  }

  ghost predicate Step(pol: Policy, s: Sys, a: Action, s': Sys) {
    Allowed(pol, s, a) && Do(s, a) == Some(s')
  }

  /** `acts` lead from `s` to `s'`. */
  ghost predicate Runs(pol: Policy, s: Sys, acts: seq<Action>, s': Sys)
    decreases |acts|
  {
    if acts == [] then s' == s
    else Allowed(pol, s, acts[0]) && Do(s, acts[0]).Some? && Runs(pol, Do(s, acts[0]).value, acts[1..], s')
  }

  ghost predicate Reachable(pol: Policy, s: Sys) {
    exists s0, acts :: Initial(s0) && Runs(pol, s0, acts, s)
  }

  lemma RunOne(pol: Policy, s: Sys, a: Action, s': Sys)
    requires Step(pol, s, a, s')
    ensures Runs(pol, s, [a], s')
  {
    hide Do;
    assert [a][1..] == [];
    assert Runs(pol, s', [], s');
  }

  lemma {:induction false} RunJoin(pol: Policy, s: Sys, first: seq<Action>, mid: Sys, second: seq<Action>, s': Sys)
    requires Runs(pol, s, first, mid) && Runs(pol, mid, second, s')
    ensures Runs(pol, s, first + second, s')
    decreases |first|
  {
    hide Do, Allowed;
    if first == [] {
      assert first + second == second;
    } else {
      var s1 := Do(s, first[0]).value;
      RunJoin(pol, s1, first[1..], mid, second, s');
      assert (first + second)[0] == first[0];
      assert (first + second)[1..] == first[1..] + second;
    }
  }
}
