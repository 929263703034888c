/** From every reachable state there is a finite continuation without any failure after
    which every payout is succeeded or failed. */
module Recovery {
  import opened Prelude
  import opened Domain
  import opened Tables
  import opened Transactions
  import opened Consistency
  import opened Pipeline
  import opened Safety
  import opened SafetySteps
  import opened Restricted
  import opened Lease

  // ---------------------------------------------------------------- failure-free runs

  /** Actions of the pipeline itself, none of them a failure: time, and relays and workers
      that do their work, a provider that answers, a broker that confirms. */
  predicate Productive(a: Action) {
    || a.Tick? || a.Claim? || (a.Dispatch? && a.outcome.Delivered?) || a.Mark? || a.Release?
    || a.Deliver? || a.Prepare? || a.CallProvider? || (a.Answer? && a.answer.Some?) || a.Record? || a.Finish?
  }

  ghost predicate Leads(pol: Policy, s: Sys, acts: seq<Action>, s': Sys) {
    Runs(pol, s, acts, s') && forall i :: 0 <= i < |acts| ==> Productive(acts[i])
  }

  lemma LeadsNowhere(pol: Policy, s: Sys)
    ensures Leads(pol, s, [], s)
  {
  }

  lemma LeadsFirst(pol: Policy, s: Sys, a: Action, s1: Sys, acts: seq<Action>, s': Sys)
    requires Step(pol, s, a, s1) && Productive(a) && Leads(pol, s1, acts, s')
    ensures Leads(pol, s, [a] + acts, s')
  {
    hide Do, Allowed, Productive;
    assert ([a] + acts)[0] == a && ([a] + acts)[1..] == acts;
  }

  lemma LeadsOn(pol: Policy, s: Sys, first: seq<Action>, mid: Sys, second: seq<Action>, s': Sys)
    requires Leads(pol, s, first, mid) && Leads(pol, mid, second, s')
    ensures Leads(pol, s, first + second, s')
  {
    hide Runs, Productive;
    RunJoin(pol, s, first, mid, second, s');
  }

  /** If the policy asks for results that meet the provider contract and names a provider,
      the two agree. */
  ghost predicate Answers(pol: Policy) {
    pol.validated && pol.provider.Some? ==> forall i :: ValidateResult(pol.provider.value(i))
  }

  /** The provider's answer to an input: a success if the policy leaves it open. */
  ghost function SomeResult(pol: Policy, input: ProviderInput): (r: ProviderResult)
    requires Answers(pol)
    ensures ResultAllowed(pol, input, r)
    ensures pol.provider == None ==> Recordable(r)
  {
    TrimTrimmed("");
    if pol.provider.Some? then pol.provider.value(input) else ProviderResult(Succeeded, "")
  }

  /** The provider's answer for the payout can be stored. */
  ghost predicate CanRecord(pol: Policy, db: Db, p: Id)
    requires Answers(pol)
  {
    InputKnown(db, p) && Recordable(SomeResult(pol, InputOf(db, p)))
  }

  lemma CanRecordStays(pol: Policy, db: Db, db': Db, p: Id)
    requires Answers(pol) && Consistent(db) && p in db.payouts && Evolves(db, db')
    ensures CanRecord(pol, db', p) <==> CanRecord(pol, db, p)
    ensures p in db'.payouts
  {
    InputStays(db, db', p);
    PayoutStaysIn(db, db', p);
    hide Consistent, Evolves, Answers, InputOf, Recordable, SomeResult;
  }

  lemma PayoutStaysIn(db: Db, db': Db, p: Id)
    requires Evolves(db, db') && p in db.payouts
    ensures p in db'.payouts
  {
  }

  // ---------------------------------------------------------------- finishing a worker

  function StageRank(stage: WorkerStage): nat {
    match stage
    case Received => 5
    case Ready(_) => 4
    case Calling(_) => 3
    case Answered(_, _) => 2
    case _ => 1
  }

  /** What the worker's next step is when nothing fails. */
  ghost function NextAction(pol: Policy, s: Sys, w: nat): Action
    requires w in s.workers && Answers(pol)
  {
    match s.workers[w].stage
    case Received => Prepare(w)
    case Ready(_) => CallProvider(w)
    case Calling(prepared) => Answer(w, Some(SomeResult(pol, prepared.input)))
    case Answered(_, _) => Record(w, Fresh(s.db.events.Keys))
    case _ => Finish(w)
  }

  /** One step forward of worker `w`: it ends, or comes closer to its end. */
  ghost predicate Advances(s: Sys, w: nat, s': Sys) {
    && w in s.workers && s'.relays == s.relays
    && (w !in s'.workers ==> s'.workers == s.workers - {w} && StageRank(s.workers[w].stage) == 1)
    && (w in s'.workers ==>
          && s'.workers == s.workers[w := s'.workers[w]] && s'.workers[w].msg == s.workers[w].msg
          && StageRank(s'.workers[w].stage) < StageRank(s.workers[w].stage))
  }

  lemma AllowedNext(pol: Policy, s: Sys, w: nat)
    requires w in s.workers && Answers(pol)
    ensures Allowed(pol, s, NextAction(pol, s, w)) && Productive(NextAction(pol, s, w))
  {
    hide ValidateResult;
  }

  lemma PrepareAdvances(s: Sys, w: nat)
    requires w in s.workers && s.workers[w].stage.Received?
    ensures DoPrepare(s, w).Some? && Advances(s, w, DoPrepare(s, w).value)
  {
    hide PrepareTx;
  }

  lemma RecordAdvances(s: Sys, w: nat, eventId: Id)
    requires w in s.workers && s.workers[w].stage.Answered?
    ensures DoRecord(s, w, eventId).Some? && Advances(s, w, DoRecord(s, w, eventId).value)
  {
    hide RecordTx, SeenColumn;
  }

  lemma OtherAdvances(s: Sys, w: nat, a: Action)
    requires w in s.workers && !s.workers[w].stage.Received? && !s.workers[w].stage.Answered?
    requires match s.workers[w].stage
             case Ready(_) => a == CallProvider(w)
             case Calling(_) => a.Answer? && a.w == w && a.answer.Some?
             case _ => a == Finish(w)
    ensures Do(s, a).Some? && Advances(s, w, Do(s, a).value)
  {
    hide GiveBack;
  }

  lemma NextAdvances(pol: Policy, s: Sys, w: nat)
    requires w in s.workers && Answers(pol)
    ensures Do(s, NextAction(pol, s, w)).Some? && Advances(s, w, Do(s, NextAction(pol, s, w)).value)
  {
    hide Advances, DoPrepare, DoRecord, DoCallProvider, DoAnswer, DoFinish, SomeResult, Fresh, Answers;
    var a := NextAction(pol, s, w);
    if s.workers[w].stage.Received? {
      PrepareAdvances(s, w);
    } else if s.workers[w].stage.Answered? {
      RecordAdvances(s, w, a.eventId);
    } else {
      OtherAdvances(s, w, a);
    }
  }

  /** The worker's payout is final, or will be when the worker is done. */
  ghost predicate Settling(pol: Policy, db: Db, worker: Worker)
    requires Answers(pol)
  {
    && worker.msg.Job?
    && (IsFinal(db, worker.msg.entityId)
        || (CanRecord(pol, db, worker.msg.entityId) && UnderWay(worker.stage)))
  }

  predicate UnderWay(stage: WorkerStage) {
    || stage.Received? || stage.Ready? || stage.Calling? || stage.Acking?
    || (stage.Answered? && Recordable(stage.result))
  }

  lemma PrepareSettles(s: Sys, w: nat, s': Sys)
    requires Inv(s) && DoPrepare(s, w) == Some(s') && s.workers[w].msg.Job?
    ensures w in s'.workers && s'.workers[w].msg == s.workers[w].msg
    ensures IsFinal(s'.db, s.workers[w].msg.entityId) || UnderWay(s'.workers[w].stage)
  {
    hide Inv, Consistent, ProcessesOk, PrepareTx, WorkerOk, MsgOk, EventsOk, PayoutsOk, InputOf;
    InvParts(s);
    WorkerIsOk(s, w);
    RequeueingOk(s.db, s.workers[w]);
    EventsOkOf(s.db);
    MessageNamesPayout(s.db, s.workers[w].msg);
    MessageType(s.db, s.workers[w].msg);
    PrepareTxEffect(s.db, s.workers[w].msg.payload.clientId, s.workers[w].msg.entityId);
  }

  lemma RecordSettles(s: Sys, w: nat, s': Sys)
    requires Inv(s) && DoRecord(s, w, Fresh(s.db.events.Keys)) == Some(s') && Recordable(s.workers[w].stage.result)
    ensures w in s'.workers && s'.workers[w].stage.Acking?
  {
    hide Inv, Consistent, ProcessesOk, RecordTx, WorkerOk, SeenColumn, TargetUrl, Fresh, Recorded, Recordable;
    InvParts(s);
    WorkerIsOk(s, w);
    AnsweredPayout(s.db, s.workers[w]);
    RecordTxEffect(s.db, s.workers[w].msg.entityId, s.workers[w].stage.result, Fresh(s.db.events.Keys), s.now);
  }

  /** A provider that answers leaves the worker with its answer to the payout's input. */
  lemma AnswerSettles(pol: Policy, s: Sys, w: nat, s': Sys)
    requires ProcessesOk(s) && w in s.workers && s.workers[w].stage.Calling? && Answers(pol)
    requires s.workers[w].msg.Job? && CanRecord(pol, s.db, s.workers[w].msg.entityId)
    requires Do(s, NextAction(pol, s, w)) == Some(s')
    ensures w in s'.workers && UnderWay(s'.workers[w].stage) && s'.workers[w].msg == s.workers[w].msg
  {
    hide ProcessesOk, Answers, SomeResult, InputOf, Recordable;
    WorkerIsOk(s, w);
  }

  lemma OtherSettles(pol: Policy, s: Sys, w: nat, s': Sys)
    requires w in s.workers && Answers(pol) && Do(s, NextAction(pol, s, w)) == Some(s')
    requires s.workers[w].stage.Ready?
    ensures w in s'.workers && UnderWay(s'.workers[w].stage) && s'.workers[w].msg == s.workers[w].msg
  {
    hide Answers, SomeResult, Recordable;
  }

  lemma StepSettles(pol: Policy, s: Sys, w: nat, s': Sys)
    requires Inv(s) && Inv(s') && Evolves(s.db, s'.db) && w in s.workers && Answers(pol)
    requires Do(s, NextAction(pol, s, w)) == Some(s') && Settling(pol, s.db, s.workers[w])
    ensures w in s'.workers ==> Settling(pol, s'.db, s'.workers[w])
    ensures w !in s'.workers ==> IsFinal(s'.db, s.workers[w].msg.entityId)
  {
    hide Inv, Consistent, ProcessesOk, Evolves, IsFinal, Answers, SomeResult, Fresh, DoPrepare, DoRecord, DoCallProvider,
      DoAnswer, WorkerOk, CanRecord, Recordable;
    InvParts(s);
    InvParts(s');
    NextAdvances(pol, s, w);
    var p := s.workers[w].msg.entityId;
    if IsFinal(s.db, p) {
      FinalStays(s.db, s'.db, p);
    } else {
      WorkersPayout(pol, s, w);
      CanRecordStays(pol, s.db, s'.db, p);
      match s.workers[w].stage
      case Received => PrepareSettles(s, w, s');
      case Ready(_) => OtherSettles(pol, s, w, s');
      case Calling(_) => AnswerSettles(pol, s, w, s');
      case Answered(_, _) => RecordSettles(s, w, s');
      case Acking =>
        AckingWorkerFinal(s, w);
        assert false;
      case _ =>
    }
  }

  lemma WorkersPayout(pol: Policy, s: Sys, w: nat)
    requires Answers(pol) && w in s.workers && s.workers[w].msg.Job? && CanRecord(pol, s.db, s.workers[w].msg.entityId)
    ensures s.workers[w].msg.entityId in s.db.payouts
  {
    hide Answers, SomeResult, Recordable, InputOf;
  }

  lemma AckingWorkerFinal(s: Sys, w: nat)
    requires ProcessesOk(s) && w in s.workers && s.workers[w].stage.Acking?
    ensures IsFinal(s.db, s.workers[w].msg.entityId)
  {
    hide ProcessesOk, WorkerOk;
    WorkerIsOk(s, w);
    AckingFinal(s.db, s.workers[w]);
  }

  lemma AckingFinal(db: Db, worker: Worker)
    requires WorkerOk(db, worker) && worker.stage.Acking?
    ensures worker.msg.Job? && IsFinal(db, worker.msg.entityId)
  {
  }

  /** Nothing but the worker's payout and new webhook events changes. */
  ghost predicate WorkerOnly(s: Sys, s': Sys) {
    && s'.relays == s.relays && s'.now == s.now && s'.timeout == s.timeout
    && s'.db.payouts.Keys == s.db.payouts.Keys
    && (forall e, p :: IsOpenEventOf(s'.db, e, p) ==> IsOpenEventOf(s.db, e, p))
    && Evolves(s.db, s'.db)
  }

  lemma WorkerOnlyOn(a: Sys, b: Sys, c: Sys)
    requires WorkerOnly(a, b) && WorkerOnly(b, c)
    ensures WorkerOnly(a, c)
  {
    hide Evolves, IsOpenEventOf;
    EvolvesTransitive(a.db, b.db, c.db);
  }

  lemma NoNewOpenEvents(s: Sys, s': Sys, e: Id, p: Id)
    requires Inv(s) && Inv(s') && ClaimsKept(s, s') && s'.db.payouts.Keys == s.db.payouts.Keys && Evolves(s.db, s'.db)
    requires IsOpenEventOf(s'.db, e, p)
    ensures IsOpenEventOf(s.db, e, p)
  {
    hide ProcessesOk, NothingLost, DispatchedHandedOver, PayoutOk, KeysOk, OneKeyEach, ExternalIdsUnique, HasKey;
    assert EventOk(s'.db, e);
    var d :| IsProcessEventOf(s.db, d, p);
    assert IsProcessEventOf(s'.db, d, p);
  }

  lemma NextKeepsRows(pol: Policy, s: Sys, w: nat, s': Sys)
    requires Inv(s) && w in s.workers && Answers(pol) && Do(s, NextAction(pol, s, w)) == Some(s')
    ensures s'.db.payouts.Keys == s.db.payouts.Keys && ClaimsKept(s, s')
  {
    hide Inv, Do, ClaimsKept, SomeResult, Fresh, PreparedOk;
    RowsOf(s, NextAction(pol, s, w), s');
    QuietKeepsClaims(s, NextAction(pol, s, w), s');
  }

  lemma NextIsWorkerOnly(pol: Policy, s: Sys, w: nat, s': Sys)
    requires Inv(s) && Inv(s') && Evolves(s.db, s'.db)
    requires w in s.workers && Answers(pol) && Do(s, NextAction(pol, s, w)) == Some(s')
    ensures WorkerOnly(s, s')
  {
    hide Inv, Do, SomeResult, Fresh, NextAction, Evolves, IsOpenEventOf;
    NextKeepsRows(pol, s, w, s');
    forall e, p | IsOpenEventOf(s'.db, e, p) ensures IsOpenEventOf(s.db, e, p) {
      NoNewOpenEvents(s, s', e, p);
    }
  }

  /** Worker `w` runs to its end, and its payout is final then if it was to be. */
  lemma {:induction false} FinishWorker(pol: Policy, s: Sys, w: nat) returns (acts: seq<Action>, s': Sys)
    requires Inv(s) && w in s.workers && Answers(pol)
    ensures Leads(pol, s, acts, s') && Inv(s') && WorkerOnly(s, s') && s'.workers == s.workers - {w}
    ensures Settling(pol, s.db, s.workers[w]) ==> IsFinal(s'.db, s.workers[w].msg.entityId)
    decreases StageRank(s.workers[w].stage)
  {
    hide Inv, Do, Evolves, Leads, Allowed, Productive, NextAction, WorkerOnly, Settling, IsFinal, Answers;
    var a := NextAction(pol, s, w);
    AllowedNext(pol, s, w);
    NextAdvances(pol, s, w);
    var s1 := Do(s, a).value;
    StepKeepsInv(s, a, s1);
    NextIsWorkerOnly(pol, s, w, s1);
    if Settling(pol, s.db, s.workers[w]) {
      StepSettles(pol, s, w, s1);
    }
    if w in s1.workers {
      var rest;
      rest, s' := FinishWorker(pol, s1, w);
      acts := [a] + rest;
      LeadsFirst(pol, s, a, s1, rest, s');
      WorkerOnlyOn(s, s1, s');
      assert s.workers[w := s1.workers[w]] - {w} == s.workers - {w};
    } else {
      acts, s' := [a], s1;
      LeadsNowhere(pol, s1);
      LeadsFirst(pol, s, a, s1, [], s1);
      assert [a] + [] == [a];
    }
  }

  lemma {:induction false} FinishWorkers(pol: Policy, s: Sys) returns (acts: seq<Action>, s': Sys)
    requires Inv(s) && Answers(pol)
    ensures Leads(pol, s, acts, s') && Inv(s') && s'.workers == map[]
    decreases |s.workers|
  {
    hide Inv, Leads, WorkerOnly, Settling, IsFinal, Answers;
    if s.workers == map[] {
      acts, s' := [], s;
      LeadsNowhere(pol, s);
    } else {
      var w :| w in s.workers;
      var first, s1 := FinishWorker(pol, s, w);
      assert s1.workers.Keys == s.workers.Keys - {w};
      var rest;
      rest, s' := FinishWorkers(pol, s1);
      acts := first + rest;
      LeadsOn(pol, s, first, s1, rest, s');
    }
  }

  // ---------------------------------------------------------------- finishing relays

  lemma RelayEvent(s: Sys, r: nat)
    requires Inv(s) && r in s.relays
    ensures s.relays[r].event in s.db.events
  {
    hide Consistent, QueueOk, WorkersOk, CreatorsOk, RepliesOk, CallsOk, NothingLost, DispatchedHandedOver;
    assert RelayOk(s.db, s.now, s.relays[r]);
  }

  ghost predicate RelayAdvances(s: Sys, r: nat, s': Sys) {
    && r in s.relays && s'.workers == s.workers
    && (r !in s'.relays ==> s'.relays == s.relays - {r})
    && (r in s'.relays ==>
          && s.relays[r].stage == Claimed && s'.relays[r].stage == Dispatched
          && s'.relays == s.relays[r := s'.relays[r]])
  }

  function NextRelayAction(r: nat, relay: Relay): Action {
    match relay.stage
    case Claimed => Dispatch(r, Delivered)
    case Dispatched => Mark(r)
    case Releasing => Release(r)
  }

  lemma RelayNext(pol: Policy, s: Sys, r: nat) returns (s': Sys)
    requires Inv(s) && r in s.relays
    ensures Step(pol, s, NextRelayAction(r, s.relays[r]), s') && RelayAdvances(s, r, s')
  {
    hide Inv, RelayAdvances, DoDispatch, DoMark, DoRelease;
    RelayEvent(s, r);
    match s.relays[r].stage
    case Claimed => s' := DispatchAdvances(s, r);
    case Dispatched => s' := MarkAdvances(s, r);
    case Releasing => s' := ReleaseAdvances(s, r);
  }

  lemma DispatchAdvances(s: Sys, r: nat) returns (s': Sys)
    requires r in s.relays && s.relays[r].stage == Claimed
    ensures DoDispatch(s, r, Delivered) == Some(s') && RelayAdvances(s, r, s')
  {
    s' := DoDispatch(s, r, Delivered).value;
  }

  lemma MarkAdvances(s: Sys, r: nat) returns (s': Sys)
    requires r in s.relays && s.relays[r].stage == Dispatched && s.relays[r].event in s.db.events
    ensures DoMark(s, r) == Some(s') && RelayAdvances(s, r, s')
  {
    s' := DoMark(s, r).value;
  }

  lemma ReleaseAdvances(s: Sys, r: nat) returns (s': Sys)
    requires r in s.relays && s.relays[r].stage == Releasing && s.relays[r].event in s.db.events
    ensures DoRelease(s, r) == Some(s') && RelayAdvances(s, r, s')
  {
    s' := DoRelease(s, r).value;
  }

  lemma {:induction false} FinishRelay(pol: Policy, s: Sys, r: nat) returns (acts: seq<Action>, s': Sys)
    requires Inv(s) && r in s.relays
    ensures Leads(pol, s, acts, s') && Inv(s') && s'.workers == s.workers && s'.relays == s.relays - {r}
    decreases s.relays[r].stage == Claimed
  {
    hide Inv, Do, Evolves, Leads, Allowed;
    var a := NextRelayAction(r, s.relays[r]);
    var s1 := RelayNext(pol, s, r);
    StepKeepsInv(s, a, s1);
    if r in s1.relays {
      var rest;
      rest, s' := FinishRelay(pol, s1, r);
      acts := [a] + rest;
      LeadsFirst(pol, s, a, s1, rest, s');
      assert s.relays[r := s1.relays[r]] - {r} == s.relays - {r};
    } else {
      acts, s' := [a], s1;
      LeadsNowhere(pol, s1);
      LeadsFirst(pol, s, a, s1, [], s1);
      assert [a] + [] == [a];
    }
  }

  lemma {:induction false} FinishRelays(pol: Policy, s: Sys) returns (acts: seq<Action>, s': Sys)
    requires Inv(s) && s.workers == map[]
    ensures Leads(pol, s, acts, s') && Inv(s') && Idle(s')
    decreases |s.relays|
  {
    hide Inv, Leads;
    if s.relays == map[] {
      acts, s' := [], s;
      LeadsNowhere(pol, s);
    } else {
      var r :| r in s.relays;
      var first, s1 := FinishRelay(pol, s, r);
      assert s1.relays.Keys == s.relays.Keys - {r};
      var rest;
      rest, s' := FinishRelays(pol, s1);
      acts := first + rest;
      LeadsOn(pol, s, first, s1, rest, s');
    }
  }

  ghost predicate Idle(s: Sys) { s.relays == map[] && s.workers == map[] }

  // ---------------------------------------------------------------- draining the outbox

  ghost function OpenEvents(db: Db): set<Id> {
    set e | e in db.events && db.events[e].eventType == ProcessPayout && db.events[e].status != EventProcessed
  }

  /** Every open process event can be claimed now. */
  ghost predicate AllClaimable(s: Sys) {
    forall e :: e in OpenEvents(s.db) ==> Eligible(s.db.events[e], RELAY_TYPES, s.now - s.timeout)
  }

  /** Past the timeout every claim is expired. */
  lemma WaitOutClaims(pol: Policy, s: Sys) returns (s': Sys)
    requires Inv(s) && Idle(s)
    ensures Leads(pol, s, [Tick(s.timeout + 1)], s') && Inv(s') && Idle(s') && AllClaimable(s')
  {
    s' := s.(now := s.now + s.timeout + 1);
    ClaimsExpired(s, s');
    hide Inv, Evolves, AllClaimable, Leads;
    TickStep(s, s.timeout + 1, s');
    assert Step(pol, s, Tick(s.timeout + 1), s');
    LeadsNowhere(pol, s');
    LeadsFirst(pol, s, Tick(s.timeout + 1), s', [], s');
    assert [Tick(s.timeout + 1)] + [] == [Tick(s.timeout + 1)];
  }

  lemma ClaimsExpired(s: Sys, s': Sys)
    requires Inv(s) && s' == s.(now := s.now + s.timeout + 1)
    ensures AllClaimable(s')
  {
    hide PayoutsOk, KeysOk, Complete, OneKeyEach, OneProcessEventEach, ExternalIdsUnique, QueueOk, RelaysOk, WorkersOk,
      CreatorsOk, RepliesOk, CallsOk, NothingLost, DispatchedHandedOver;
    forall e | e in OpenEvents(s'.db) ensures Eligible(s'.db.events[e], RELAY_TYPES, s'.now - s'.timeout) {
      assert EventOk(s.db, e);
    }
  }

  /** A relay takes the oldest open event from claim to mark. */
  lemma RelayOne(pol: Policy, s: Sys) returns (acts: seq<Action>, s': Sys)
    requires Inv(s) && Idle(s) && AllClaimable(s) && OpenEvents(s.db) != {}
    ensures Leads(pol, s, acts, s') && Inv(s') && Idle(s') && AllClaimable(s')
    ensures OpenEvents(s'.db) < OpenEvents(s.db)
  {
    hide Inv, AllClaimable, OpenEvents, Step, Leads, ClaimedState, DispatchedState, MarkedState, IsNext, Idle;
    var e := OldestOpen(s);
    ThreeSteps(pol, s, e);
    MarkedOpen(s, e);
    var claim := Claim(0, s.now, {}, e);
    var s1, s2, s3 := ClaimedState(s, e), DispatchedState(s, e), MarkedState(s, e);
    StepInv(pol, s, claim, s1);
    StepInv(pol, s1, Dispatch(0, Delivered), s2);
    StepInv(pol, s2, Mark(0), s3);
    LeadsNowhere(pol, s3);
    LeadsFirst(pol, s2, Mark(0), s3, [], s3);
    LeadsFirst(pol, s1, Dispatch(0, Delivered), s2, [Mark(0)] + [], s3);
    LeadsFirst(pol, s, claim, s1, [Dispatch(0, Delivered)] + ([Mark(0)] + []), s3);
    acts, s' := [claim] + ([Dispatch(0, Delivered)] + ([Mark(0)] + [])), s3;
  }

  lemma StepInv(pol: Policy, s: Sys, a: Action, s': Sys)
    requires Inv(s) && Step(pol, s, a, s')
    ensures Inv(s')
  {
    hide Inv, Do, Allowed, Evolves;
    StepKeepsInv(s, a, s');
  }

  lemma OldestOpen(s: Sys) returns (e: Id)
    requires AllClaimable(s) && OpenEvents(s.db) != {}
    ensures IsNext(s.db, RELAY_TYPES, s.now - s.timeout, {}, e)
  {
    var some :| some in OpenEvents(s.db);
    assert some in Candidates(s.db, RELAY_TYPES, s.now - s.timeout, {});
    NextExists(s.db, RELAY_TYPES, s.now - s.timeout, {});
    hide IsNext, Eligible;
    e :| IsNext(s.db, RELAY_TYPES, s.now - s.timeout, {}, e);
  }

  ghost function ClaimedState(s: Sys, e: Id): Sys
    requires e in s.db.events
  {
    s.(db := ClaimEvent(s.db, e, s.now), relays := map[0 := Relay(Claimed, e, JobOf(e, s.db.events[e]), s.now)])
  }

  ghost function DispatchedState(s: Sys, e: Id): Sys
    requires e in s.db.events
  {
    var s1 := ClaimedState(s, e);
    s1.(queue := s.queue + multiset{s1.relays[0].job},
        relays := map[0 := s1.relays[0].(stage := Dispatched)],
        history := s.history.(dispatches := s.history.dispatches + multiset{e}))
  }

  ghost function MarkedState(s: Sys, e: Id): Sys
    requires e in s.db.events
  {
    var s2 := DispatchedState(s, e);
    s2.(db := MarkProcessed(s2.db, e, s.now).value, relays := map[])
  }

  lemma ThreeSteps(pol: Policy, s: Sys, e: Id)
    requires Idle(s) && IsNext(s.db, RELAY_TYPES, s.now - s.timeout, {}, e)
    ensures e in s.db.events
    ensures Step(pol, s, Claim(0, s.now, {}, e), ClaimedState(s, e))
    ensures Step(pol, ClaimedState(s, e), Dispatch(0, Delivered), DispatchedState(s, e))
    ensures Step(pol, DispatchedState(s, e), Mark(0), MarkedState(s, e))
    ensures Idle(MarkedState(s, e))
  {
    hide JobOf;
    var relay := Relay(Claimed, e, JobOf(e, s.db.events[e]), s.now);
    assert s.relays[0 := relay] == map[0 := relay];
    assert map[0 := relay][0 := relay.(stage := Dispatched)] == map[0 := relay.(stage := Dispatched)];
    assert map[0 := relay.(stage := Dispatched)] - {0} == map[];
  }

  lemma MarkedOpen(s: Sys, e: Id)
    requires IsNext(s.db, RELAY_TYPES, s.now - s.timeout, {}, e) && AllClaimable(s)
    ensures OpenEvents(MarkedState(s, e).db) < OpenEvents(s.db) && AllClaimable(MarkedState(s, e))
  {
    hide JobOf;
    var s' := MarkedState(s, e);
    assert e in OpenEvents(s.db) && e !in OpenEvents(s'.db);
    forall d | d in OpenEvents(s'.db) ensures d in OpenEvents(s.db) && s'.db.events[d] == s.db.events[d] {
    }
  }

  lemma {:induction false} DrainOutbox(pol: Policy, s: Sys) returns (acts: seq<Action>, s': Sys)
    requires Inv(s) && Idle(s) && AllClaimable(s)
    ensures Leads(pol, s, acts, s') && Inv(s') && Idle(s') && OpenEvents(s'.db) == {}
    decreases OpenEvents(s.db)
  {
    hide Inv, Leads, AllClaimable, OpenEvents;
    if OpenEvents(s.db) == {} {
      acts, s' := [], s;
      LeadsNowhere(pol, s);
    } else {
      var first, s1 := RelayOne(pol, s);
      var rest;
      rest, s' := DrainOutbox(pol, s1);
      acts := first + rest;
      LeadsOn(pol, s, first, s1, rest, s');
    }
  }

  // ---------------------------------------------------------------- delivering what is queued

  /** The payouts that are not final although the provider's answer for them can be stored. */
  ghost function Unfinished(pol: Policy, db: Db): set<Id>
    requires Answers(pol)
  {
    set p | p in db.payouts && !db.payouts[p].status.Final() && CanRecord(pol, db, p)
  }

  /** With the outbox drained and no worker about, an unfinished payout's message is queued. */
  lemma MessageIsQueued(s: Sys, p: Id) returns (m: Msg)
    requires Inv(s) && Idle(s) && OpenEvents(s.db) == {} && p in s.db.payouts && !s.db.payouts[p].status.Final()
    ensures m in s.queue && Carries(m, p)
  {
    hide Consistent, ProcessesOk, DispatchedHandedOver;
    forall e ensures !IsOpenEventOf(s.db, e, p) {
      assert e !in OpenEvents(s.db);
    }
    m :| Carries(m, p) && InTransit(s.queue, s.workers, m);
  }

  /** One delivery takes an unfinished payout to a final status. */
  lemma DeliverOne(pol: Policy, s: Sys, p: Id) returns (acts: seq<Action>, s': Sys)
    requires Inv(s) && Idle(s) && OpenEvents(s.db) == {} && Answers(pol) && p in Unfinished(pol, s.db)
    ensures Leads(pol, s, acts, s') && Inv(s') && Idle(s') && OpenEvents(s'.db) == {}
    ensures Unfinished(pol, s'.db) < Unfinished(pol, s.db)
  {
    hide Inv, Step, Leads, WorkerOnly, OpenEvents, Evolves, Answers, IsFinal, CanRecord;
    var m := MessageIsQueued(s, p);
    var s1 := DeliverFirst(pol, s, m);
    StepInv(pol, s, Deliver(0, m), s1);
    var rest;
    rest, s' := FinishWorker(pol, s1, 0);
    acts := [Deliver(0, m)] + rest;
    LeadsFirst(pol, s, Deliver(0, m), s1, rest, s');
    assert s1.workers - {0} == map[];
    OneFewer(pol, s, s1, s', p);
  }

  lemma DeliverFirst(pol: Policy, s: Sys, m: Msg) returns (s1: Sys)
    requires Idle(s) && m in s.queue
    ensures Step(pol, s, Deliver(0, m), s1) && s1.db == s.db && s1.relays == map[]
    ensures s1.workers == map[0 := Worker(true, m, Received)]
  {
    s1 := s.(queue := s.queue - multiset{m}, workers := map[0 := Worker(true, m, Received)]);
    assert s.workers[0 := Worker(true, m, Received)] == s1.workers;
  }

  lemma OneFewer(pol: Policy, s: Sys, s1: Sys, s': Sys, p: Id)
    requires Inv(s1) && Inv(s') && s1.db == s.db && s1.relays == map[] && WorkerOnly(s1, s')
    requires OpenEvents(s.db) == {} && Answers(pol) && p in Unfinished(pol, s.db) && IsFinal(s'.db, p)
    ensures s'.relays == map[] && OpenEvents(s'.db) == {} && Unfinished(pol, s'.db) < Unfinished(pol, s.db)
  {
    hide Inv, Consistent, Evolves, ProcessesOk, Answers, CanRecord;
    InvParts(s1);
    InvParts(s');
    forall e | e in OpenEvents(s'.db) ensures e in OpenEvents(s.db) {
      OpenIsOpen(s1, s', e);
    }
    forall q | q in Unfinished(pol, s'.db) ensures q in Unfinished(pol, s.db) {
      CanRecordStays(pol, s.db, s'.db, q);
      if IsFinal(s.db, q) {
        FinalStays(s.db, s'.db, q);
      }
    }
    assert p !in Unfinished(pol, s'.db);
  }

  lemma OpenIsOpen(s: Sys, s': Sys, e: Id)
    requires WorkerOnly(s, s') && e in OpenEvents(s'.db)
    ensures e in OpenEvents(s.db)
  {
    hide Evolves;
    assert IsOpenEventOf(s'.db, e, s'.db.events[e].entityId);
  }

  lemma {:induction false} DeliverAll(pol: Policy, s: Sys) returns (acts: seq<Action>, s': Sys)
    requires Inv(s) && Idle(s) && OpenEvents(s.db) == {} && Answers(pol)
    ensures Leads(pol, s, acts, s') && Inv(s') && Unfinished(pol, s'.db) == {}
    decreases Unfinished(pol, s.db)
  {
    hide Inv, Leads, OpenEvents, Answers;
    if Unfinished(pol, s.db) == {} {
      acts, s' := [], s;
      LeadsNowhere(pol, s);
    } else {
      var p :| p in Unfinished(pol, s.db);
      hide Unfinished;
      var first, s1 := DeliverOne(pol, s, p);
      var rest;
      rest, s' := DeliverAll(pol, s1);
      acts := first + rest;
      LeadsOn(pol, s, first, s1, rest, s');
    }
  }

  // ---------------------------------------------------------------- main result

  /** Recoverability: every reachable state has a failure-free continuation that the policy
      allows and that leaves every payout succeeded or failed for which the provider's
      answer can be stored: all of them, if the policy leaves the answers open. */
  lemma EveryPayoutCanFinish(pol: Policy, s: Sys) returns (acts: seq<Action>, s': Sys)
    requires Reachable(pol, s) && Answers(pol)
    ensures Runs(pol, s, acts, s') && forall i :: 0 <= i < |acts| ==> Productive(acts[i])
    ensures forall p :: p in s.db.payouts && (pol.provider == None || CanRecord(pol, s.db, p)) ==>
      p in s'.db.payouts && s'.db.payouts[p].status.Final()
  {
    ReachableInv(pol, s);
    hide Reachable, Inv, AllClaimable, OpenEvents, Answers, Runs, CanRecord;
    var a1, s1 := FinishWorkers(pol, s);
    var a2, s2 := FinishRelays(pol, s1);
    var s3 := WaitOutClaims(pol, s2);
    var a4, s4 := DrainOutbox(pol, s3);
    var a5;
    a5, s' := DeliverAll(pol, s4);
    LeadsOn(pol, s, a1, s1, a2, s2);
    LeadsOn(pol, s, a1 + a2, s2, [Tick(s2.timeout + 1)], s3);
    LeadsOn(pol, s, a1 + a2 + [Tick(s2.timeout + 1)], s3, a4, s4);
    LeadsOn(pol, s, a1 + a2 + [Tick(s2.timeout + 1)] + a4, s4, a5, s');
    acts := a1 + a2 + [Tick(s2.timeout + 1)] + a4 + a5;
    forall p | p in s.db.payouts && (pol.provider == None || CanRecord(pol, s.db, p))
      ensures p in s'.db.payouts && s'.db.payouts[p].status.Final()
    {
      CanRecordLater(pol, s, acts, s', p);
      assert p !in Unfinished(pol, s'.db);
    }
  }

  lemma CanRecordLater(pol: Policy, s: Sys, acts: seq<Action>, s': Sys, p: Id)
    requires Inv(s) && Runs(pol, s, acts, s') && Answers(pol)
    requires p in s.db.payouts && (pol.provider == None || CanRecord(pol, s.db, p))
    ensures p in s'.db.payouts && CanRecord(pol, s'.db, p)
  {
    hide Inv, Runs, Consistent, Evolves, Answers, SomeResult, InputOf, Recordable, ProcessesOk;
    RunKeepsInv(pol, s, acts, s');
    InvParts(s);
    InputIsKnown(s.db, p);
    CanRecordStays(pol, s.db, s'.db, p);
  }

  // ---------------------------------------------------------------- answers that cannot be stored

  /** With a provider whose answer for the payout cannot be stored, no step makes it final. */
  lemma NoStepFinishes(pol: Policy, s: Sys, a: Action, s': Sys, p: Id)
    requires Inv(s) && PolicyInv(pol, s) && Step(pol, s, a, s') && Answers(pol) && pol.provider.Some?
    requires p in s.db.payouts && !s.db.payouts[p].status.Final() && !CanRecord(pol, s.db, p)
    ensures p in s'.db.payouts && !s'.db.payouts[p].status.Final()
  {
    hide Inv, PolicyInv, Do, Allowed, Answers, Recordable, Recorded, InputOf, SameRecordingsOf, SeenColumn;
    RowAfter(s, a, s', p);
    if Commits(s, a, p) {
      HeldResult(pol, s, a, p);
      assert false;
    }
  }

  /** A result about to be recorded for the payout is the provider's answer to its input. */
  lemma HeldResult(pol: Policy, s: Sys, a: Action, p: Id)
    requires Inv(s) && PolicyInv(pol, s) && Commits(s, a, p) && Answers(pol) && pol.provider.Some?
    ensures CanRecord(pol, s.db, p)
  {
    hide Inv, Consistent, ProcessesOk, Answers, Recordable, InputOf, SeenColumn, Settled, ReasonsMatch, Solo, UnfinishedBare,
      ValidateResult;
    InvParts(s);
    WorkerIsOk(s, a.w);
  }

  lemma {:induction false} NeverFinishes(pol: Policy, s: Sys, acts: seq<Action>, s': Sys, p: Id)
    requires Inv(s) && PolicyInv(pol, s) && Runs(pol, s, acts, s') && Answers(pol) && pol.provider.Some?
    requires p in s.db.payouts && !s.db.payouts[p].status.Final() && !CanRecord(pol, s.db, p)
    ensures p in s'.db.payouts && !s'.db.payouts[p].status.Final()
    decreases |acts|
  {
    hide Inv, PolicyInv, Consistent, ProcessesOk, Evolves, Do, Allowed, Answers, CanRecord;
    if acts != [] {
      var s1 := Do(s, acts[0]).value;
      NoStepFinishes(pol, s, acts[0], s1, p);
      StepKeepsInv(s, acts[0], s1);
      StepKeepsPolicyInv(pol, s, acts[0], s1);
      InvParts(s);
      CanRecordStays(pol, s.db, s1.db, p);
      NeverFinishes(pol, s1, acts[1..], s', p);
    }
  }

  ghost predicate CanFinish(pol: Policy, s: Sys, p: Id) {
    exists acts, s' :: Runs(pol, s, acts, s') && IsFinal(s'.db, p)
  }

  /** With a provider whose answer is a function of its input: from a reachable state some
      run makes an unfinished payout final if and only if the answer to its input is a
      success, or a failure whose stored reason has no zero byte. */
  lemma CanFinishIff(pol: Policy, s: Sys, p: Id)
    requires Reachable(pol, s) && Answers(pol) && pol.provider.Some?
    requires p in s.db.payouts && !s.db.payouts[p].status.Final()
    ensures InputKnown(s.db, p)
    ensures CanFinish(pol, s, p) <==> Recordable(pol.provider.value(InputOf(s.db, p)))
  {
    hide Reachable, Inv, PolicyInv, Consistent, ProcessesOk, Answers, Runs, Recordable, InputOf;
    ReachablePolicyInv(pol, s);
    InvParts(s);
    InputIsKnown(s.db, p);
    if CanRecord(pol, s.db, p) {
      var acts, s' := EveryPayoutCanFinish(pol, s);
      assert Runs(pol, s, acts, s') && IsFinal(s'.db, p);
    } else if CanFinish(pol, s, p) {
      var acts, s' :| Runs(pol, s, acts, s') && IsFinal(s'.db, p);
      NeverFinishes(pol, s, acts, s', p);
      assert false;
    }
  }
}
