/** Every execution of the service's, the relay's and the worker's methods is a run of the
    pipeline, with other processes' runs in between where the method lets others commit. */
module Refinement {
  import opened Prelude
  import opened Decimal
  import opened Text
  import opened Domain
  import opened Tables
  import opened Transactions
  import opened Database
  import opened Pipeline
  import opened Intake
  import opened Outbox
  import opened Execution
  import opened Consistency
  import opened Guarantees

  ghost predicate Run(s: Sys, acts: seq<Action>, s': Sys) { Runs(UNRESTRICTED, s, acts, s') }

  lemma Stutter(s: Sys)
    ensures Run(s, [], s)
  {
  }

  lemma Then(s: Sys, acts: seq<Action>, mid: Sys, a: Action, s': Sys) returns (all: seq<Action>)
    requires Run(s, acts, mid) && Do(mid, a) == Some(s')
    ensures all == acts + [a] && Run(s, all, s')
  {
    hide Runs, Do;
    assert Step(UNRESTRICTED, mid, a, s');
    RunOne(UNRESTRICTED, mid, a, s');
    RunJoin(UNRESTRICTED, s, acts, mid, [a], s');
    all := acts + [a];
  }

  lemma ThenOthers(s: Sys, acts: seq<Action>, mid: Sys, others: seq<Action>, s': Sys) returns (all: seq<Action>)
    requires Run(s, acts, mid) && Run(mid, others, s')
    ensures all == acts + others && Run(s, all, s')
  {
    hide Runs;
    RunJoin(UNRESTRICTED, s, acts, mid, others, s');
    all := acts + others;
  }

  // ---------------------------------------------------------------- CreatePayout

  /** Other processes run from `s` to `s'`, where the tables are `db`, and leave the
      create call `c` alone. */
  ghost predicate BesideCreate(c: nat, s: Sys, others: seq<Action>, s': Sys, db: Db) {
    && Run(s, others, s') && s'.db == db
    && c in s.creators && c in s'.creators && s'.creators[c] == s.creators[c]
  }

  function AtStage(s: Sys, c: nat, call: Transactions.Call, stage: CreateStage): Sys {
    s.(creators := s.creators[c := Creator(call, stage)])
  }

  predicate FindsNoKey(db: Db, input: CreateInput, course: CreateCourse) {
    Normalize(input).Ok? && !course.tx.BeginFails? && LoadIdempotentPayout(db, Normalize(input).value) == Ok(NotFound)
  }

  predicate LosesKey(db: Db, input: CreateInput, id: Id, eventId: Id, now: int, course: CreateCourse) {
    && FindsNoKey(db, input, course)
    && InsertTx(course.atInsert, Normalize(input).value, id, eventId, now) == Err(ConcurrentKeyInsert)
  }

  /** A successful answer is on record, and the tables are those of the method. */
  ghost predicate Created(s': Sys, input: CreateInput, result: (Result<Id, CreateError>, Db)) {
    && s'.db == result.1
    && (result.0.Ok? ==> Normalize(input).Ok? && Reply(Normalize(input).value, result.0.value) in s'.history.replies)
  }

  lemma BeginAndRead(s: Sys, c: nat, input: CreateInput) returns (acts: seq<Action>, s': Sys)
    requires c !in s.creators && Normalize(input).Ok? && LoadIdempotentPayout(s.db, Normalize(input).value) == Ok(NotFound)
    ensures Run(s, acts, s') && s' == AtStage(s, c, Normalize(input).value, Inserting)
  {
    hide Runs, Normalize, LoadIdempotentPayout, Run;
    var call := Normalize(input).value;
    var begun := AtStage(s, c, call, CreateStage.Reading);
    Stutter(s);
    acts := Then(s, [], s, Begin(c, input), begun);
    s' := AtStage(s, c, call, Inserting);
    assert begun.creators[c := Creator(call, Inserting)] == s'.creators;
    acts := Then(s, acts, begun, ReadKey(c), s');
  }

  lemma FindsExisting(s: Sys, c: nat, input: CreateInput, course: CreateCourse, id: Id, eventId: Id, now: int)
    returns (acts: seq<Action>, s': Sys)
    requires c !in s.creators && Normalize(input).Ok? && course.tx == Smooth
    requires LoadIdempotentPayout(s.db, Normalize(input).value).Ok?
    requires LoadIdempotentPayout(s.db, Normalize(input).value).value.Existing?
    ensures Run(s, acts, s') && Created(s', input, CreateResult(s.db, input, id, eventId, now, course))
  {
    hide Runs, Normalize, LoadIdempotentPayout, Run, ReplyWith, InsertResult;
    var call := Normalize(input).value;
    var begun := AtStage(s, c, call, CreateStage.Reading);
    Stutter(s);
    acts := Then(s, [], s, Begin(c, input), begun);
    s' := DoReadKey(begun, c).value;
    acts := Then(s, acts, begun, ReadKey(c), s');
  }

  lemma InsertRuns(s: Sys, acts0: seq<Action>, mid: Sys, c: nat, input: CreateInput, id: Id, eventId: Id, course: CreateCourse)
    returns (acts: seq<Action>, s': Sys)
    requires Run(s, acts0, mid) && mid.db == course.atInsert && !course.tx.BeginFails?
    requires Normalize(input).Ok? && c in mid.creators && mid.creators[c] == Creator(Normalize(input).value, Inserting)
    requires InsertTx(mid.db, Normalize(input).value, id, eventId, mid.now) != Err(ConcurrentKeyInsert)
    ensures Run(s, acts, s') && Created(s', input, InsertResult(Normalize(input).value, id, eventId, mid.now, course))
  {
    hide Runs, Normalize, Run, ReplyWith, InsertTx, NewRow;
    if course.tx == CommitFails(false) && InsertTx(mid.db, Normalize(input).value, id, eventId, mid.now).Ok? {
      s' := DoAbandon(mid, c).value;
      acts := Then(s, acts0, mid, Abandon(c), s');
    } else {
      s' := DoInsert(mid, c, id, eventId, course.tx == Smooth).value;
      acts := Then(s, acts0, mid, Insert(c, id, eventId, course.tx == Smooth), s');
    }
  }

  lemma ReloadRuns(s: Sys, acts0: seq<Action>, mid: Sys, c: nat, input: CreateInput) returns (acts: seq<Action>, s': Sys)
    requires Run(s, acts0, mid) && Normalize(input).Ok?
    requires c in mid.creators && mid.creators[c] == Creator(Normalize(input).value, Reloading)
    ensures Run(s, acts, s') && Created(s', input, (ReloadResult(Normalize(input).value, mid.db), mid.db))
  {
    hide Runs, Normalize, Run, LoadIdempotentPayout, ReplyFound;
    s' := DoReload(mid, c).value;
    acts := Then(s, acts0, mid, Reload(c), s');
  }

  lemma LosingRuns(s: Sys, acts0: seq<Action>, mid: Sys, c: nat, call: Transactions.Call, id: Id, eventId: Id) returns (acts: seq<Action>)
    requires Run(s, acts0, mid) && c in mid.creators && mid.creators[c] == Creator(call, Inserting)
    requires InsertTx(mid.db, call, id, eventId, mid.now) == Err(ConcurrentKeyInsert)
    ensures Run(s, acts, AtStage(mid, c, call, Reloading))
  {
    hide Runs, Run, InsertTx;
    acts := Then(s, acts0, mid, Insert(c, id, eventId, true), AtStage(mid, c, call, Reloading));
  }

  /** A create call beside other processes is a run of the pipeline that leaves the same
      tables and, when the call succeeds, has its answer on record. `others` run between
      its read of the key and its insert, `later` between a lost insert and the fallback. */
  lemma CreatePayoutIsARun(s: Sys, c: nat, input: CreateInput, id: Id, eventId: Id, course: CreateCourse,
                           others: seq<Action>, atInsert: Sys, later: seq<Action>, atReload: Sys)
    returns (acts: seq<Action>, s': Sys)
    requires c !in s.creators
    requires FindsNoKey(s.db, input, course) ==>
      BesideCreate(c, AtStage(s, c, Normalize(input).value, Inserting), others, atInsert, course.atInsert)
    requires LosesKey(s.db, input, id, eventId, atInsert.now, course) ==>
      BesideCreate(c, AtStage(atInsert, c, Normalize(input).value, Reloading), later, atReload, course.atReload)
    ensures Run(s, acts, s') && Created(s', input, CreateResult(s.db, input, id, eventId, atInsert.now, course))
  {
    hide Runs, Run, Normalize, LoadIdempotentPayout, InsertTx, ReplyWith, ReloadResult;
    Stutter(s);
    acts, s' := [], s;
    if Normalize(input).Err? || course.tx.BeginFails? || LoadIdempotentPayout(s.db, Normalize(input).value).Err? {
    } else if LoadIdempotentPayout(s.db, Normalize(input).value).value.Existing? {
      if course.tx == Smooth {
        acts, s' := FindsExisting(s, c, input, course, id, eventId, atInsert.now);
      }
    } else {
      var call := Normalize(input).value;
      var read;
      acts, read := BeginAndRead(s, c, input);
      acts := ThenOthers(s, acts, read, others, atInsert);
      if InsertTx(atInsert.db, call, id, eventId, atInsert.now) == Err(ConcurrentKeyInsert) {
        acts := LosingRuns(s, acts, atInsert, c, call, id, eventId);
        acts := ThenOthers(s, acts, AtStage(atInsert, c, call, Reloading), later, atReload);
        acts, s' := ReloadRuns(s, acts, atReload, c, input);
      } else {
        acts, s' := InsertRuns(s, acts, atInsert, c, input, id, eventId, course);
      }
    }
  }

  /** Two create calls of one client whose keys trim alike, the second ending anywhere
      later than the first: when both succeed they answer with one payout and had the same
      request. */
  lemma CreatePayoutIsIdempotent(s: Sys, x: CreateInput, first: (Result<Id, CreateError>, Db), acts: seq<Action>,
                                 s': Sys, y: CreateInput, second: (Result<Id, CreateError>, Db))
    requires Reachable(UNRESTRICTED, s) && Created(s, x, first) && first.0.Ok?
    requires Run(s, acts, s') && Created(s', y, second) && second.0.Ok?
    requires x.clientId == y.clientId && Trim(x.idempotencyKey) == Trim(y.idempotencyKey)
    ensures first.0 == second.0
    ensures var a, b := Normalize(x).value, Normalize(y).value;
      && a.fundingSourceId == b.fundingSourceId && a.externalId == b.externalId && a.recipientName == b.recipientName
      && a.recipientAccountId == b.recipientAccountId && a.amountText == b.amountText && a.currency == b.currency
  {
    NormalizedNames(x);
    NormalizedNames(y);
    hide Normalize, Trim, Reachable;
    ReachableAfter(UNRESTRICTED, s, acts, s');
    RepliesStay(UNRESTRICTED, s, acts, s');
    CreationIsIdempotent(UNRESTRICTED, s', Reply(Normalize(x).value, first.0.value), Reply(Normalize(y).value, second.0.value));
  }

  /** A create call that answers with an error has rolled back all it wrote: the tables are
      as it found them, or as other commits left them, unless the commit itself was
      applied and reported as failed. */
  lemma ErrorLeavesNoRows(db: Db, input: CreateInput, id: Id, eventId: Id, now: int, course: CreateCourse)
    requires CreateResult(db, input, id, eventId, now, course).0.Err? && course.tx != CommitFails(true)
    ensures CreateResult(db, input, id, eventId, now, course).1 ==
      if !FindsNoKey(db, input, course) then db
      else if LosesKey(db, input, id, eventId, now, course) then course.atReload
      else course.atInsert
  {
    NormalizedIsWellFormed(input);
    hide Normalize, WellFormed, LoadIdempotentPayout, InsertTx, ReplyWith, NewRow, RequestHash, ExternalIdTaken;
    if Normalize(input).Ok? && InsertTx(course.atInsert, Normalize(input).value, id, eventId, now).Ok? {
      InsertTxEffect(course.atInsert, Normalize(input).value, id, eventId, now);
      PrintsItsAmount(Normalize(input).value, id);
    }
  }

  lemma NormalizedNames(input: CreateInput)
    requires Normalize(input).Ok?
    ensures Some(Normalize(input).value.clientId) == input.clientId && Normalize(input).value.key == Trim(input.idempotencyKey)
  {
    hide Trim, ByteLength, NumericString;
  }

  // ---------------------------------------------------------------- RunOnce

  /** Other processes run from `s` to `s'`, where the tables are `db`, and leave the relay
      `r` alone. */
  ghost predicate BesideRelay(r: nat, s: Sys, others: seq<Action>, s': Sys, db: Db) {
    && Run(s, others, s') && s'.db == db
    && r in s.relays && r in s'.relays && s'.relays[r] == s.relays[r]
  }

  /** The relay has claimed `event` and its publish came to `outcome`. */
  function AfterDispatch(s: Sys, r: nat, event: Id, outcome: PublishOutcome): Sys
    requires event in s.db.events
  {
    var job := JobOf(event, s.db.events[event]);
    s.(db := ClaimEvent(s.db, event, s.now),
       queue := if outcome == Rejected(false) then s.queue else s.queue + multiset{job},
       relays := s.relays[r := Pipeline.Relay(if outcome.Delivered? then Dispatched else Releasing, event, job, s.now)],
       history := if outcome.Delivered? then s.history.(dispatches := s.history.dispatches + multiset{event}) else s.history)
  }

  lemma ClaimRuns(s: Sys, r: nat, started: int, locked: set<Id>, event: Id) returns (acts: seq<Action>, s': Sys)
    requires r !in s.relays && started <= s.now && IsNext(s.db, RELAY_TYPES, started - s.timeout, locked, event)
    ensures Run(s, acts, s')
    ensures s' == s.(db := ClaimEvent(s.db, event, s.now),
                     relays := s.relays[r := Pipeline.Relay(Claimed, event, JobOf(event, s.db.events[event]), s.now)])
  {
    Stutter(s);
    assert event in s.db.events;
    hide Runs, Run, IsNext, ClaimEvent;
    s' := DoClaim(s, r, started, locked, event).value;
    acts := Then(s, [], s, Claim(r, started, locked, event), s');
  }

  lemma DispatchRuns(s: Sys, r: nat, started: int, locked: set<Id>, event: Id, outcome: PublishOutcome) returns (acts: seq<Action>)
    requires r !in s.relays && started <= s.now && IsNext(s.db, RELAY_TYPES, started - s.timeout, locked, event)
    ensures Run(s, acts, AfterDispatch(s, r, event, outcome))
  {
    var claimed;
    acts, claimed := ClaimRuns(s, r, started, locked, event);
    hide Runs, Run, IsNext, ClaimEvent;
    var s' := AfterDispatch(s, r, event, outcome);
    var relay := claimed.relays[r];
    assert claimed.relays[r := relay.(stage := if outcome.Delivered? then Dispatched else Releasing)] == s'.relays;
    acts := Then(s, acts, claimed, Dispatch(r, outcome), s');
  }

  lemma FinishRuns(s: Sys, acts0: seq<Action>, mid: Sys, r: nat, event: Id, course: RelayCourse) returns (acts: seq<Action>, s': Sys)
    requires Run(s, acts0, mid) && r in mid.relays && mid.relays[r].event == event && mid.now == course.finishedAt
    requires mid.relays[r].stage == if course.outcome.Delivered? then Dispatched else Releasing
    ensures Run(s, acts, s') && s'.queue == mid.queue && r !in s'.relays
    ensures s'.db == if course.finish.BeginFails? || FinishTx(mid.db, event, course).Err? then mid.db
                     else Ended(course.finish, mid.db, FinishTx(mid.db, event, course).value)
  {
    hide Runs, Run, MarkProcessed, ReleaseClaim;
    var a := if course.finish.BeginFails? || course.finish == CommitFails(false) then RelayCrash(r)
             else if course.outcome.Delivered? then Mark(r) else Release(r);
    s' := Do(mid, a).value;
    acts := Then(s, acts0, mid, a, s');
  }

  /** A RunOnce that claims `event`, beside other processes that run between its dispatch
      and its mark or release, is a run of the pipeline: the tables are those the method
      leaves, and with nobody beside it so is the queue. */
  lemma RunOnceIsARun(s: Sys, r: nat, started: int, course: RelayCourse, event: Id, others: seq<Action>, atFinish: Sys)
    returns (acts: seq<Action>, s': Sys)
    requires r !in s.relays && started <= s.now && course.claimedAt == s.now && !course.claim.BeginFails?
    requires IsNext(s.db, RELAY_TYPES, started - s.timeout, course.locked, event)
    requires course.claim == Smooth ==>
      BesideRelay(r, AfterDispatch(s, r, event, course.outcome), others, atFinish, course.atFinish.GetOr(ClaimEvent(s.db, event, s.now)))
    requires course.finishedAt == atFinish.now
    ensures Run(s, acts, s') && r !in s'.relays && s'.db == RunOnceResult(s.db, event, course).1
    ensures course.claim == Smooth ==> s'.queue == atFinish.queue
    ensures others == [] || course.claim != Smooth ==> s'.queue == Sent(s.queue, JobOf(event, s.db.events[event]), course)
  {
    Stutter(s);
    acts, s' := [], s;
    if course.claim == CommitFails(true) {
      var claimed;
      acts, claimed := ClaimRuns(s, r, started, course.locked, event);
      hide Runs, Run, IsNext, ClaimEvent;
      s' := DoRelayCrash(claimed, r).value;
      acts := Then(s, acts, claimed, RelayCrash(r), s');
    } else if course.claim == Smooth {
      acts := DispatchRuns(s, r, started, course.locked, event, course.outcome);
      var dispatched := AfterDispatch(s, r, event, course.outcome);
      if others == [] {
        assert atFinish == dispatched;
      }
      hide Runs, Run, IsNext, ClaimEvent, FinishTx;
      acts := ThenOthers(s, acts, dispatched, others, atFinish);
      acts, s' := FinishRuns(s, acts, atFinish, r, event, course);
    }
  }

  // ---------------------------------------------------------------- HandleDelivery

  /** Other processes run from `s` to `s'`, where the tables are `db`, and leave the
      worker `w` alone, except that the broker may lose its connection and requeue. */
  ghost predicate BesideWorker(w: nat, s: Sys, others: seq<Action>, s': Sys, db: Db) {
    && Run(s, others, s') && s'.db == db
    && w in s.workers && w in s'.workers
    && (s'.workers[w] == s.workers[w] || s'.workers[w] == s.workers[w].(held := false))
  }

  function At(s: Sys, w: nat, msg: Msg, stage: WorkerStage): Sys {
    s.(queue := s.queue - multiset{msg}, workers := s.workers[w := Pipeline.Worker(true, msg, stage)])
  }

  /** The worker has prepared the payout and has the provider's answer. */
  function AfterAnswer(s: Sys, w: nat, msg: Msg, db: Db, prepared: Prepared, result: ProviderResult): Sys {
    At(s, w, msg, Answered(prepared, result)).(
      db := db, history := s.history.(calls := s.history.calls + multiset{prepared.input}))
  }

  /** The delivery's end gives the message back, if the broker has not taken it back
      before, or takes it off the queue. */
  ghost predicate Handled(mid: Sys, w: nat, msg: Msg, s': Sys, back: bool) {
    && w !in s'.workers && s'.db == mid.db && s'.history.calls == mid.history.calls
    && s'.queue == if back then mid.queue + multiset{msg} else mid.queue
  }

  lemma EndRuns(s: Sys, acts0: seq<Action>, mid: Sys, w: nat, msg: Msg, gone: bool) returns (acts: seq<Action>, s': Sys)
    requires Run(s, acts0, mid) && w in mid.workers && mid.workers[w].msg == msg
    requires gone ==> mid.workers[w].stage.Acking? || mid.workers[w].stage.Dropping?
    ensures Run(s, acts, s') && Handled(mid, w, msg, s', mid.workers[w].held && !gone)
  {
    hide Runs, Run, Do, Handled;
    var a;
    a, s' := Ends(mid, w, msg, gone);
    acts := Then(s, acts0, mid, a, s');
  }

  lemma Ends(mid: Sys, w: nat, msg: Msg, gone: bool) returns (a: Action, s': Sys)
    requires w in mid.workers && mid.workers[w].msg == msg
    requires gone ==> mid.workers[w].stage.Acking? || mid.workers[w].stage.Dropping?
    ensures Do(mid, a) == Some(s') && Handled(mid, w, msg, s', mid.workers[w].held && !gone)
  {
    a := if gone then Finish(w) else if mid.workers[w].stage.Requeueing? then Finish(w) else WorkerCrash(w);
    s' := Do(mid, a).value;
  }

  /** The same for a delivery whose connection the broker may lose before its end. */
  lemma EndOrLoseRuns(s: Sys, acts0: seq<Action>, mid: Sys, w: nat, msg: Msg, gone: bool, lost: bool)
    returns (acts: seq<Action>, s': Sys)
    requires Run(s, acts0, mid) && w in mid.workers && mid.workers[w].msg == msg && mid.workers[w].held
    requires gone ==> mid.workers[w].stage.Acking? || mid.workers[w].stage.Dropping?
    ensures Run(s, acts, s') && Handled(mid, w, msg, s', lost || !gone)
  {
    hide Runs, Run;
    if lost {
      var unheld := DoDisconnect(mid, w).value;
      acts := Then(s, acts0, mid, Disconnect(w), unheld);
      acts, s' := EndRuns(s, acts, unheld, w, msg, gone);
    } else {
      acts, s' := EndRuns(s, acts0, mid, w, msg, gone);
    }
  }

  lemma DeliverRuns(s: Sys, w: nat, msg: Msg) returns (acts: seq<Action>)
    requires w !in s.workers && msg in s.queue
    ensures Run(s, acts, At(s, w, msg, Received))
  {
    Stutter(s);
    hide Runs, Run;
    acts := Then(s, [], s, Deliver(w, msg), At(s, w, msg, Received));
  }

  lemma Restaged(s: Sys, w: nat, msg: Msg, before: WorkerStage, after: WorkerStage)
    ensures w in At(s, w, msg, before).workers && At(s, w, msg, before).workers[w] == Pipeline.Worker(true, msg, before)
    ensures SetStage(At(s, w, msg, before), w, after) == At(s, w, msg, after)
  {
  }

  /** The preparation's stage and tables when its transaction commits. */
  lemma PrepareRuns(s: Sys, w: nat, msg: Msg, prepared: Prepared, db: Db) returns (acts: seq<Action>)
    requires w !in s.workers && msg in s.queue
    requires msg.Job? && msg.eventType == ProcessPayout && !msg.payload.Unreadable?
    requires PrepareTx(s.db, msg.payload.clientId, msg.payload.payoutId) == Ok((db, prepared))
    ensures Run(s, acts, At(s, w, msg, if prepared.shouldExecute then Ready(prepared) else Acking).(db := db))
  {
    hide Runs, Run, PrepareTx;
    acts := DeliverRuns(s, w, msg);
    var stage := if prepared.shouldExecute then Ready(prepared) else Acking;
    Restaged(s.(db := db), w, msg, Received, stage);
    Restaged(s, w, msg, Received, stage);
    assert At(s, w, msg, Received).(db := db) == At(s.(db := db), w, msg, Received);
    acts := Then(s, acts, At(s, w, msg, Received), Prepare(w), At(s, w, msg, stage).(db := db));
  }

  lemma CallRuns(s: Sys, w: nat, msg: Msg, prepared: Prepared, db: Db) returns (acts: seq<Action>, s': Sys)
    requires w !in s.workers && msg in s.queue
    requires msg.Job? && msg.eventType == ProcessPayout && !msg.payload.Unreadable?
    requires PrepareTx(s.db, msg.payload.clientId, msg.payload.payoutId) == Ok((db, prepared)) && prepared.shouldExecute
    ensures Run(s, acts, s')
    ensures s' == At(s, w, msg, Calling(prepared)).(db := db, history := s.history.(calls := s.history.calls + multiset{prepared.input}))
  {
    hide Runs, Run, PrepareTx;
    acts := PrepareRuns(s, w, msg, prepared, db);
    var mid := At(s, w, msg, Ready(prepared)).(db := db);
    Restaged(s, w, msg, Ready(prepared), Calling(prepared));
    s' := At(s, w, msg, Calling(prepared)).(db := db, history := s.history.(calls := s.history.calls + multiset{prepared.input}));
    acts := Then(s, acts, mid, CallProvider(w), s');
  }

  lemma AnswerRuns(s: Sys, w: nat, msg: Msg, prepared: Prepared, db: Db, result: ProviderResult) returns (acts: seq<Action>)
    requires w !in s.workers && msg in s.queue
    requires msg.Job? && msg.eventType == ProcessPayout && !msg.payload.Unreadable?
    requires PrepareTx(s.db, msg.payload.clientId, msg.payload.payoutId) == Ok((db, prepared)) && prepared.shouldExecute
    ensures Run(s, acts, AfterAnswer(s, w, msg, db, prepared, result))
  {
    hide Runs, Run, PrepareTx;
    var mid;
    acts, mid := CallRuns(s, w, msg, prepared, db);
    Restaged(s, w, msg, Calling(prepared), Answered(prepared, result));
    acts := Then(s, acts, mid, Answer(w, Some(result)), AfterAnswer(s, w, msg, db, prepared, result));
  }

  predicate ComesToExecute(db: Db, msg: Msg) {
    && msg.Job? && msg.eventType == ProcessPayout && !msg.payload.Unreadable?
    && PrepareTx(db, msg.payload.clientId, msg.payload.payoutId).Ok?
  }

  predicate ComesToRecord(db: Db, msg: Msg, course: ExecCourse) {
    && ComesToExecute(db, msg) && course.prepare == Smooth
    && PrepareTx(db, msg.payload.clientId, msg.payload.payoutId).value.1.shouldExecute
    && course.answer.Some?
  }

  /** What a delivery that comes to its recording does from there. */
  lemma RecordRuns(s: Sys, acts0: seq<Action>, mid: Sys, w: nat, msg: Msg, prepared: Prepared, result: ProviderResult,
                   course: ExecCourse, settles: bool)
    returns (acts: seq<Action>, s': Sys)
    requires Run(s, acts0, mid) && w in mid.workers
    requires mid.workers[w] == Pipeline.Worker(mid.workers[w].held, msg, Answered(prepared, result))
    requires course.now == mid.now
    ensures Run(s, acts, s') && w !in s'.workers && s'.history.calls == mid.history.calls
    ensures var (reply, db) := RecordResult(mid.db, prepared.payoutId, result, course);
      && s'.db == db
      && s'.queue == if mid.workers[w].held && !(settles && reply.Ok?) then mid.queue + multiset{msg} else mid.queue
  {
    hide Runs, Run, RecordTx, SeenColumn;
    var recording := RecordTx(mid.db, prepared.payoutId, result, course.eventId, course.now);
    if course.record.BeginFails? || course.record == CommitFails(false) || recording.Err? {
      acts, s' := EndRuns(s, acts0, mid, w, msg, false);
    } else {
      var recorded := DoRecord(mid, w, course.eventId).value;
      acts := Then(s, acts0, mid, Record(w, course.eventId), recorded);
      acts, s' := EndRuns(s, acts, recorded, w, msg, settles && course.record == Smooth);
    }
  }

  lemma CallStep(s: Sys, a: Action)
    requires Do(s, a).Some?
    ensures s.history.calls <= Do(s, a).value.history.calls
  {
    hide Normalize, LoadIdempotentPayout, ReplyWith, ReplyFound, InsertTx, IsNext, PrepareTx, RecordTx, SeenColumn, GiveBack;
  }

  /** Provider calls, once made, stay on record. */
  lemma {:induction false} CallsStay(s: Sys, acts: seq<Action>, s': Sys)
    requires Run(s, acts, s')
    ensures s.history.calls <= s'.history.calls
    decreases |acts|
  {
    hide Do, Allowed;
    if acts != [] {
      CallStep(s, acts[0]);
      CallsStay(Do(s, acts[0]).value, acts[1..], s');
    }
  }

  /** A delivery handled beside other processes, which run between the provider's answer
      and the recording, is a run of the pipeline: the tables are those the method leaves
      and the provider call is on record. The broker may lose the connection on the way,
      among what the others do or, for a delivery that comes to no recording, when `lost`.
      If it does, the message is in the queue again from then on, whatever the worker
      settles; if not, it is off the queue exactly when the broker takes an ack or a drop. */
  lemma HandleDeliveryIsARun(s: Sys, w: nat, msg: Msg, course: ExecCourse, settles: bool, lost: bool,
                             others: seq<Action>, atRecord: Sys)
    returns (acts: seq<Action>, s': Sys)
    requires w !in s.workers && msg in s.queue
    requires ComesToRecord(s.db, msg, course) ==>
      var (db, prepared) := PrepareTx(s.db, msg.payload.clientId, msg.payload.payoutId).value;
      && BesideWorker(w, AfterAnswer(s, w, msg, db, prepared, course.answer.value), others, atRecord, course.atRecord.GetOr(db))
      && course.now == atRecord.now
    ensures Run(s, acts, s') && w !in s'.workers
    ensures msg.Malformed? ==> s'.db == s.db
    ensures msg.Job? ==>
      var executed := HandleResult(s.db, msg.eventType, msg.payload, course);
      s'.db == executed.db && (executed.called.Some? ==> executed.called.value in s'.history.calls)
    ensures var settled := settles && SettlementFor(s.db, msg, course) != Nacked(true);
      if ComesToRecord(s.db, msg, course)
      then s'.queue == if atRecord.workers[w].held && !settled then atRecord.queue + multiset{msg} else atRecord.queue
      else s'.queue == if lost || !settled then s.queue else s.queue - multiset{msg}
  {
    hide Runs, Run, PrepareTx, RecordResult;
    if ComesToRecord(s.db, msg, course) {
      acts, s' := RecordedRuns(s, w, msg, course, settles, others, atRecord);
    } else {
      acts, s' := UnrecordedRuns(s, w, msg, course, settles, lost);
    }
  }

  lemma RecordedRuns(s: Sys, w: nat, msg: Msg, course: ExecCourse, settles: bool, others: seq<Action>, atRecord: Sys)
    returns (acts: seq<Action>, s': Sys)
    requires w !in s.workers && msg in s.queue && ComesToRecord(s.db, msg, course)
    requires var (db, prepared) := PrepareTx(s.db, msg.payload.clientId, msg.payload.payoutId).value;
      && BesideWorker(w, AfterAnswer(s, w, msg, db, prepared, course.answer.value), others, atRecord, course.atRecord.GetOr(db))
      && course.now == atRecord.now
    ensures Run(s, acts, s') && w !in s'.workers
    ensures var executed := HandleResult(s.db, msg.eventType, msg.payload, course);
      && s'.db == executed.db && executed.called.Some? && executed.called.value in s'.history.calls
      && s'.queue == if atRecord.workers[w].held && !(settles && executed.reply.Ok?)
                     then atRecord.queue + multiset{msg} else atRecord.queue
  {
    hide Runs, Run, PrepareTx, RecordResult;
    var (db, prepared) := PrepareTx(s.db, msg.payload.clientId, msg.payload.payoutId).value;
    var answered := AfterAnswer(s, w, msg, db, prepared, course.answer.value);
    acts := AnswerRuns(s, w, msg, prepared, db, course.answer.value);
    acts := ThenOthers(s, acts, answered, others, atRecord);
    CallsStay(answered, others, atRecord);
    acts, s' := RecordRuns(s, acts, atRecord, w, msg, prepared, course.answer.value, course, settles);
  }

  /** A delivery that does not come to its recording. */
  lemma UnrecordedRuns(s: Sys, w: nat, msg: Msg, course: ExecCourse, settles: bool, lost: bool)
    returns (acts: seq<Action>, s': Sys)
    requires w !in s.workers && msg in s.queue && !ComesToRecord(s.db, msg, course)
    ensures Run(s, acts, s') && w !in s'.workers
    ensures msg.Malformed? ==> s'.db == s.db
    ensures msg.Job? ==>
      var executed := HandleResult(s.db, msg.eventType, msg.payload, course);
      s'.db == executed.db && (executed.called.Some? ==> executed.called.value in s'.history.calls)
    ensures s'.queue == if lost || !(settles && SettlementFor(s.db, msg, course) != Nacked(true)) then s.queue
                        else s.queue - multiset{msg}
  {
    hide Runs, Run, PrepareTx, RecordResult;
    assert s.queue - multiset{msg} + multiset{msg} == s.queue;
    if !ComesToExecute(s.db, msg) || course.prepare.BeginFails? || course.prepare == CommitFails(false) {
      acts := DeliverRuns(s, w, msg);
      if msg.Malformed? {
        acts, s' := DroppedRuns(s, acts, w, msg, settles, lost);
      } else {
        acts, s' := EndOrLoseRuns(s, acts, At(s, w, msg, Received), w, msg, false, lost);
      }
    } else {
      acts, s' := PreparedRuns(s, w, msg, course, settles, lost);
    }
  }

  lemma DroppedRuns(s: Sys, acts0: seq<Action>, w: nat, msg: Msg, settles: bool, lost: bool)
    returns (acts: seq<Action>, s': Sys)
    requires msg.Malformed? && msg in s.queue && Run(s, acts0, At(s, w, msg, Received))
    ensures Run(s, acts, s') && Handled(At(s, w, msg, Dropping), w, msg, s', lost || !settles)
  {
    hide Runs, Run;
    Restaged(s, w, msg, Received, Dropping);
    acts := Then(s, acts0, At(s, w, msg, Received), Prepare(w), At(s, w, msg, Dropping));
    acts, s' := EndOrLoseRuns(s, acts, At(s, w, msg, Dropping), w, msg, settles, lost);
  }

  /** Its preparation is committed, but nothing comes to be recorded. */
  lemma PreparedRuns(s: Sys, w: nat, msg: Msg, course: ExecCourse, settles: bool, lost: bool)
    returns (acts: seq<Action>, s': Sys)
    requires w !in s.workers && msg in s.queue && !ComesToRecord(s.db, msg, course)
    requires ComesToExecute(s.db, msg) && !course.prepare.BeginFails? && course.prepare != CommitFails(false)
    ensures Run(s, acts, s') && w !in s'.workers
    ensures var executed := HandleResult(s.db, msg.eventType, msg.payload, course);
      && s'.db == executed.db && (executed.called.Some? ==> executed.called.value in s'.history.calls)
      && s'.queue == if lost || !(settles && executed.reply.Ok?) then s.queue else s.queue - multiset{msg}
  {
    hide Runs, Run, PrepareTx, RecordResult;
    assert s.queue - multiset{msg} + multiset{msg} == s.queue;
    var (db, prepared) := PrepareTx(s.db, msg.payload.clientId, msg.payload.payoutId).value;
    var mid;
    if course.prepare == Smooth && prepared.shouldExecute {
      acts, mid := CallRuns(s, w, msg, prepared, db);
      acts, s' := EndOrLoseRuns(s, acts, mid, w, msg, false, lost);
    } else {
      acts := PrepareRuns(s, w, msg, prepared, db);
      mid := At(s, w, msg, if prepared.shouldExecute then Ready(prepared) else Acking).(db := db);
      acts, s' := EndOrLoseRuns(s, acts, mid, w, msg, settles && course.prepare == Smooth, lost);
    }
  }
}
