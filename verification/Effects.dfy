/** What each action does to the payout rows, the webhook events, the recordings and the
    workers' stages: the facts the restricted guarantees build on. */
module Effects {
  import opened Prelude
  import opened Domain
  import opened Tables
  import opened Transactions
  import opened Consistency
  import opened Pipeline
  import opened Safety
  import opened SafetySteps

  ghost predicate IsWebhookOf(db: Db, e: Id, p: Id) {
    e in db.events && db.events[e].eventType == PayoutResultWebhook && db.events[e].entityId == p
  }

  /** Payout rows, webhook events and recordings are as they were. */
  ghost predicate Untouched(s: Sys, s': Sys) {
    && s'.db.payouts == s.db.payouts && s'.history.recordings == s.history.recordings
    && (forall e, p :: IsWebhookOf(s'.db, e, p) <==> IsWebhookOf(s.db, e, p))
    && (forall e, p :: IsWebhookOf(s.db, e, p) ==> s'.db.events[e].payload == s.db.events[e].payload)
  }

  lemma SameEventsUntouched(s: Sys, s': Sys)
    requires s'.db.payouts == s.db.payouts && s'.db.events == s.db.events
    requires s'.history.recordings == s.history.recordings
    ensures Untouched(s, s')
  {
  }

  lemma ClaimColumnsUntouched(s: Sys, s': Sys, id: Id, e: Event)
    requires id in s.db.events && SameEvent(s.db.events[id], e)
    requires s'.db == s.db.(events := s.db.events[id := e]) && s'.history.recordings == s.history.recordings
    ensures Untouched(s, s')
  {
  }

  lemma ClaimUntouched(s: Sys, r: nat, started: int, locked: set<Id>, event: Id, s': Sys)
    requires DoClaim(s, r, started, locked, event) == Some(s')
    ensures Untouched(s, s')
  {
    hide Untouched, JobOf;
    assert event in s.db.events;
    ClaimColumnsUntouched(s, s', event, s'.db.events[event]);
  }

  lemma RelayUntouched(s: Sys, a: Action, s': Sys)
    requires a.Dispatch? || a.Mark? || a.Release? || a.RelayCrash?
    requires Do(s, a) == Some(s')
    ensures Untouched(s, s')
  {
    hide Untouched;
    if s'.db != s.db {
      ClaimColumnsUntouched(s, s', s.relays[a.r].event, s'.db.events[s.relays[a.r].event]);
    } else {
      SameEventsUntouched(s, s');
    }
  }

  lemma OthersUntouched(s: Sys, a: Action, s': Sys)
    requires !a.Claim? && !a.Dispatch? && !a.Mark? && !a.Release? && !a.RelayCrash?
    requires !a.Insert? && !a.Prepare? && !a.Record?
    requires Do(s, a) == Some(s')
    ensures Untouched(s, s')
  {
    hide Untouched, Do;
    OthersKeepRows(s, a, s');
    SameEventsUntouched(s, s');
  }

  lemma OthersKeepRows(s: Sys, a: Action, s': Sys)
    requires !a.Claim? && !a.Dispatch? && !a.Mark? && !a.Release? && !a.RelayCrash?
    requires !a.Insert? && !a.Prepare? && !a.Record?
    requires Do(s, a) == Some(s')
    ensures s'.db.payouts == s.db.payouts && s'.db.events == s.db.events && s'.history.recordings == s.history.recordings
  {
    hide Do;
    if a.Begin? || a.ReadKey? || a.Reload? || a.Abandon? {
      CreatorsKeepRows(s, a, s');
    } else if a.Deliver? || a.Finish? || a.WorkerCrash? || a.Disconnect? {
      DeliveriesKeepRows(s, a, s');
    } else if a.CallProvider? || a.Answer? || a.WorkerError? {
      CallsKeepRows(s, a, s');
    } else {
      EnvironmentKeepsRows(s, a, s');
    }
  }

  lemma CreatorsKeepRows(s: Sys, a: Action, s': Sys)
    requires (a.Begin? || a.ReadKey? || a.Reload? || a.Abandon?) && Do(s, a) == Some(s')
    ensures s'.db.payouts == s.db.payouts && s'.db.events == s.db.events && s'.history.recordings == s.history.recordings
  {
    hide Normalize, LoadIdempotentPayout, ReplyWith, ReplyFound;
  }

  lemma DeliveriesKeepRows(s: Sys, a: Action, s': Sys)
    requires (a.Deliver? || a.Finish? || a.WorkerCrash? || a.Disconnect?) && Do(s, a) == Some(s')
    ensures s'.db.payouts == s.db.payouts && s'.db.events == s.db.events && s'.history.recordings == s.history.recordings
  {
    hide GiveBack, InCall;
  }

  lemma CallsKeepRows(s: Sys, a: Action, s': Sys)
    requires (a.CallProvider? || a.Answer? || a.WorkerError?) && Do(s, a) == Some(s')
    ensures s'.db.payouts == s.db.payouts && s'.db.events == s.db.events && s'.history.recordings == s.history.recordings
  {
    hide InCall;
  }

  lemma EnvironmentKeepsRows(s: Sys, a: Action, s': Sys)
    requires (a.AddClient? || a.SetWebhook? || a.AddSource? || a.Tick? || a.StrayMessage?) && Do(s, a) == Some(s')
    ensures s'.db.payouts == s.db.payouts && s'.db.events == s.db.events && s'.history.recordings == s.history.recordings
  {
  }

  lemma ClaimAction(s: Sys, a: Action, s': Sys)
    requires a.Claim? && Do(s, a) == Some(s')
    ensures DoClaim(s, a.r, a.started, a.locked, a.event) == Some(s')
  {
    hide DoClaim;
  }

  /** Only a committed Insert, Prepare or Record touches payouts. */
  lemma UsuallyUntouched(s: Sys, a: Action, s': Sys)
    requires !a.Insert? && !a.Prepare? && !a.Record?
    requires Do(s, a) == Some(s')
    ensures Untouched(s, s')
  {
    hide Untouched, Do;
    if a.Claim? {
      ClaimAction(s, a, s');
      ClaimUntouched(s, a.r, a.started, a.locked, a.event, s');
    } else if a.Dispatch? || a.Mark? || a.Release? || a.RelayCrash? {
      RelayUntouched(s, a, s');
    } else {
      OthersUntouched(s, a, s');
    }
  }

  // ---------------------------------------------------------------- Insert, Prepare and Record

  /** A create transaction adds one pending payout, or nothing. */
  ghost predicate Inserts(s: Sys, id: Id, s': Sys) {
    && s'.history.recordings == s.history.recordings && s'.workers == s.workers
    && (s'.db.payouts == s.db.payouts || AddsPending(s.db, id, s'.db))
    && (forall e, p :: IsWebhookOf(s'.db, e, p) <==> IsWebhookOf(s.db, e, p))
    && (forall e, p :: IsWebhookOf(s.db, e, p) ==> s'.db.events[e].payload == s.db.events[e].payload)
  }

  ghost predicate AddsPending(db: Db, id: Id, db': Db) {
    && id !in db.payouts && id in db'.payouts && db'.payouts == db.payouts[id := db'.payouts[id]]
    && db'.payouts[id].status == Pending && db'.payouts[id].failureReason == None
  }

  lemma InsertTxInserts(db: Db, call: Transactions.Call, id: Id, eventId: Id, now: int, db': Db)
    requires InsertTx(db, call, id, eventId, now) == Ok(db')
    ensures AddsPending(db, id, db')
    ensures forall e, p :: IsWebhookOf(db', e, p) <==> IsWebhookOf(db, e, p)
    ensures forall e, p :: IsWebhookOf(db, e, p) ==> db'.events[e].payload == db.events[e].payload
  {
    InsertTxEffect(db, call, id, eventId, now);
    hide InsertTx, RequestHash;
  }

  lemma InsertEffect(s: Sys, a: Action, s': Sys)
    requires a.Insert? && Do(s, a) == Some(s')
    ensures Inserts(s, a.id, s')
  {
    hide InsertTx, ReplyWith, AddsPending;
    var call := s.creators[a.c].call;
    if InsertTx(s.db, call, a.id, a.eventId, s.now).Ok? {
      InsertTxInserts(s.db, call, a.id, a.eventId, s.now, InsertTx(s.db, call, a.id, a.eventId, s.now).value);
    }
  }

  /** Preparing moves the message's payout from pending to processing, or nothing. */
  ghost predicate Prepares(s: Sys, w: nat, s': Sys) {
    && s'.history.recordings == s.history.recordings && s'.db.events == s.db.events
    && w in s.workers && w in s'.workers
    && s'.workers == s.workers[w := s.workers[w].(stage := s'.workers[w].stage)]
    && !s'.workers[w].stage.Calling? && !s'.workers[w].stage.Answered?
    && (s'.db.payouts == s.db.payouts || Starts(s.db, s.workers[w].msg, s'.db))
    && (s'.workers[w].stage.Ready? ==> s.workers[w].msg.Job? && IsProcessing(s'.db, s.workers[w].msg.entityId))
  }

  ghost predicate Starts(db: Db, msg: Msg, db': Db) {
    && msg.Job? && msg.entityId in db.payouts && db.payouts[msg.entityId].status == Pending
    && db'.payouts == db.payouts[msg.entityId := db.payouts[msg.entityId].(status := Processing)]
  }

  ghost predicate IsProcessing(db: Db, p: Id) { p in db.payouts && db.payouts[p].status == Processing }

  lemma PrepareEffect(s: Sys, w: nat, s': Sys)
    requires Inv(s) && DoPrepare(s, w) == Some(s')
    ensures Prepares(s, w, s')
  {
    hide Inv, Consistent, ProcessesOk, PrepareTx, WorkerOk, MsgOk, EventsOk, PayoutsOk, InputOf;
    InvParts(s);
    WorkerIsOk(s, w);
    RequeueingOk(s.db, s.workers[w]);
    EventsOkOf(s.db);
    var msg := s.workers[w].msg;
    if msg.Job? {
      MessageNamesPayout(s.db, msg);
      PrepareTxEffect(s.db, msg.payload.clientId, msg.entityId);
      if PrepareTx(s.db, msg.payload.clientId, msg.entityId).Ok? {
        StatusAfterPrepare(s.db, msg.payload.clientId, msg.entityId);
      }
    }
  }

  /** A committed recording of `result` for payout `p`: the row, the recording and, when
      a URL is set, one new webhook event. */
  ghost predicate Records(s: Sys, p: Id, result: ProviderResult, eventId: Id, s': Sys) {
    && p in s.db.payouts && result.status.Final()
    && var row := Recorded(s.db.payouts[p], result);
       var url := TargetUrl(SeenColumn(s.db, p));
       && s'.db.payouts == s.db.payouts[p := row]
       && s'.history.recordings == s.history.recordings + [Recording(p, result, SeenColumn(s.db, p))]
       && (url.None? ==> s'.db.events == s.db.events)
       && (url.Some? ==>
             && eventId !in s.db.events
             && s'.db.events == s.db.events[eventId := WebhookEvent(p, row, url.value, s.now)])
  }

  lemma RecordEffect(s: Sys, w: nat, eventId: Id, s': Sys)
    requires Inv(s) && DoRecord(s, w, eventId) == Some(s')
    ensures w in s.workers && s.workers[w].stage.Answered? && s.workers[w].msg.Job?
    ensures s'.workers == s.workers[w := s.workers[w].(stage := s'.workers[w].stage)]
    ensures s'.workers[w].stage.Acking? || s'.workers[w].stage.Requeueing?
    ensures s'.workers[w].stage.Acking? ==> Records(s, s.workers[w].msg.entityId, s.workers[w].stage.result, eventId, s')
    ensures s'.workers[w].stage.Requeueing? ==> Untouched(s, s')
    ensures PreparedOk(s.db, s.workers[w].msg, s.workers[w].stage.prepared)
  {
    hide Inv, Consistent, ProcessesOk, RecordTx, MsgOk, Untouched, StoredReason, Blank;
    InvParts(s);
    WorkerIsOk(s, w);
    var worker := s.workers[w];
    AnsweredPayout(s.db, worker);
    hide PreparedOk, WorkerOk;
    RecordTxEffect(s.db, worker.msg.entityId, worker.stage.result, eventId, s.now);
    if s'.workers[w].stage.Requeueing? {
      SameEventsUntouched(s, s');
    }
  }

  // ---------------------------------------------------------------- workers' stages

  predicate Executing(stage: WorkerStage) { stage.Ready? || stage.Calling? || stage.Answered? }

  /** A worker is executing after a step only if it was before, for the same message, or
      its preparation just asked it to. */
  ghost predicate StagesFollow(s: Sys, a: Action, s': Sys) {
    && (forall w :: w in s'.workers && Executing(s'.workers[w].stage) ==>
          && w in s.workers && s'.workers[w].msg == s.workers[w].msg
          && (Executing(s.workers[w].stage) || (a.Prepare? && a.w == w && s'.workers[w].stage.Ready?)))
    && (forall w :: w in s'.workers && s'.workers[w].stage.Answered? ==>
          && w in s.workers
          && (s'.workers[w].stage == s.workers[w].stage
              || (a.Answer? && a.w == w && a.answer.Some? && s.workers[w].stage.Calling?
                  && s'.workers[w].stage == Answered(s.workers[w].stage.prepared, a.answer.value))))
  }

  lemma SameWorkers(s: Sys, a: Action, s': Sys)
    requires !a.Deliver? && !a.Prepare? && !a.CallProvider? && !a.Answer? && !a.Record?
    requires !a.Finish? && !a.WorkerError? && !a.WorkerCrash? && !a.Disconnect?
    requires Do(s, a) == Some(s')
    ensures s'.workers == s.workers
  {
    hide Normalize, LoadIdempotentPayout, ReplyWith, ReplyFound, InsertTx, IsNext, MarkProcessed, ReleaseClaim, ClaimEvent;
  }

  ghost predicate KeysFollow(s: Sys, a: Action, s': Sys) {
    s'.workers.Keys <= s.workers.Keys || (a.Deliver? && s'.workers.Keys == s.workers.Keys + {a.w})
  }

  lemma DeliveryStages(s: Sys, a: Action, s': Sys)
    requires a.Deliver? || a.Finish? || a.WorkerCrash? || a.Disconnect?
    requires Do(s, a) == Some(s')
    ensures StagesFollow(s, a, s') && KeysFollow(s, a, s')
  {
    hide GiveBack, StagesFollow, KeysFollow;
    if a.Deliver? {
      WorkerArrives(s, a, s', a.w, a.msg);
    } else if a.Disconnect? {
      WorkerLosesHold(s, a, s', a.w);
    } else {
      WorkerLeaves(s, a, s', a.w);
    }
  }

  lemma WorkerArrives(s: Sys, a: Action, s': Sys, w: nat, msg: Msg)
    requires a == Deliver(w, msg) && w !in s.workers && s'.workers == s.workers[w := Worker(true, msg, Received)]
    ensures StagesFollow(s, a, s') && KeysFollow(s, a, s')
  {
  }

  lemma WorkerLosesHold(s: Sys, a: Action, s': Sys, w: nat)
    requires w in s.workers && s'.workers == s.workers[w := s.workers[w].(held := false)]
    ensures StagesFollow(s, a, s') && KeysFollow(s, a, s')
  {
  }

  lemma WorkerLeaves(s: Sys, a: Action, s': Sys, w: nat)
    requires s'.workers == s.workers - {w}
    ensures StagesFollow(s, a, s') && KeysFollow(s, a, s')
  {
  }

  lemma OneWorkerMoves(s: Sys, a: Action, s': Sys, w: nat, stage: WorkerStage)
    requires w in s.workers && s'.workers == s.workers[w := s.workers[w].(stage := stage)]
    requires stage.Ready? ==> Executing(s.workers[w].stage) || (a.Prepare? && a.w == w)
    requires stage.Calling? ==> Executing(s.workers[w].stage)
    requires stage.Answered? ==>
               && a.Answer? && a.w == w && a.answer.Some? && s.workers[w].stage.Calling?
               && stage == Answered(s.workers[w].stage.prepared, a.answer.value)
    ensures StagesFollow(s, a, s') && KeysFollow(s, a, s')
  {
  }

  lemma PrepareStages(s: Sys, a: Action, s': Sys)
    requires a.Prepare? && Do(s, a) == Some(s')
    ensures StagesFollow(s, a, s') && KeysFollow(s, a, s')
  {
    hide PrepareTx, StagesFollow, KeysFollow;
    OneWorkerMoves(s, a, s', a.w, s'.workers[a.w].stage);
  }

  lemma HandlingStages(s: Sys, a: Action, s': Sys)
    requires a.CallProvider? || a.Answer? || a.Record? || a.WorkerError?
    requires Do(s, a) == Some(s')
    ensures StagesFollow(s, a, s') && KeysFollow(s, a, s')
  {
    hide RecordTx, SeenColumn, StagesFollow, KeysFollow;
    OneWorkerMoves(s, a, s', a.w, s'.workers[a.w].stage);
  }

  lemma StagesOf(s: Sys, a: Action, s': Sys)
    requires Do(s, a) == Some(s')
    ensures StagesFollow(s, a, s') && KeysFollow(s, a, s')
  {
    hide Do;
    if a.Deliver? || a.Finish? || a.WorkerCrash? || a.Disconnect? {
      DeliveryStages(s, a, s');
    } else if a.Prepare? {
      PrepareStages(s, a, s');
    } else if a.CallProvider? || a.Answer? || a.Record? || a.WorkerError? {
      HandlingStages(s, a, s');
    } else {
      SameWorkers(s, a, s');
    }
  }
}
