/** Redelivery of a job whose payout is final: a succeeded payout's copy can be acknowledged,
    a failed one's goes back to the queue every time it is delivered. */
module Redelivery {
  import opened Prelude
  import opened Domain
  import opened Tables
  import opened Transactions
  import opened Consistency
  import opened Pipeline
  import opened Safety
  import opened SafetySteps
  import opened Effects
  import opened Restricted

  ghost predicate IsFailed(db: Db, p: Id) { p in db.payouts && db.payouts[p].status == Failed }

  /** Worker `w` will give its copy of `m` back: it is not about to acknowledge it. */
  ghost predicate WillReturn(workers: map<nat, Worker>, w: nat, m: Msg) {
    IsHeld(workers, w, m) && (workers[w].stage == Received || workers[w].stage == Requeueing)
  }

  ghost predicate CopyWaits(s: Sys, m: Msg) {
    m in s.queue || exists w :: WillReturn(s.workers, w, m)
  }

  /** A failed payout is not executed, so preparing its job asks for a requeue. */
  lemma FailedPrepares(s: Sys, w: nat, m: Msg, s': Sys)
    requires Inv(s) && m.Job? && IsFailed(s.db, m.entityId)
    requires w in s.workers && s.workers[w].msg == m && DoPrepare(s, w) == Some(s')
    ensures s' == SetStage(s, w, Requeueing)
  {
    hide Inv, Consistent, ProcessesOk, PrepareTx, WorkerOk, MsgOk, EventsOk, PayoutsOk, InputOf;
    InvParts(s);
    WorkerIsOk(s, w);
    RequeueingOk(s.db, s.workers[w]);
    EventsOkOf(s.db);
    MessageNamesPayout(s.db, m);
    PrepareTxEffect(s.db, m.payload.clientId, m.entityId);
  }

  /** A step by the worker that holds the copy keeps it waiting. */
  lemma HolderStep(s: Sys, a: Action, s': Sys, w: nat, m: Msg)
    requires Inv(s) && Do(s, a) == Some(s') && m.Job? && IsFailed(s.db, m.entityId) && WillReturn(s.workers, w, m)
    requires ByWorker(a) && !a.Deliver? && a.w == w
    ensures CopyWaits(s', m)
  {
    hide Inv, PrepareTx, RecordTx, IsFailed, SeenColumn;
    if a.Prepare? {
      FailedPrepares(s, w, m, s');
      assert WillReturn(s'.workers, w, m);
    } else if a.WorkerError? {
      assert WillReturn(s'.workers, w, m);
    } else {
      assert m in s'.queue;
    }
  }

  /** Any other step leaves the queued copy, or takes it to a worker that holds it. */
  lemma OtherWorkerStep(s: Sys, a: Action, s': Sys, w: nat, m: Msg)
    requires Do(s, a) == Some(s') && WillReturn(s.workers, w, m) && (ByWorker(a) ==> a.w != w)
    ensures WillReturn(s'.workers, w, m)
  {
    if ByWorker(a) {
      hide WillReturn;
      OneWorkerChanges(s, a, s');
      Unmoved(s.workers, s'.workers, w, m);
    } else {
      hide Do;
      SameWorkers(s, a, s');
    }
  }

  lemma Unmoved(workers: map<nat, Worker>, workers': map<nat, Worker>, w: nat, m: Msg)
    requires WillReturn(workers, w, m) && w in workers' && workers'[w] == workers[w]
    ensures WillReturn(workers', w, m)
  {
  }

  lemma OneWorkerChanges(s: Sys, a: Action, s': Sys)
    requires ByWorker(a) && Do(s, a) == Some(s')
    ensures forall w :: w != a.w && w in s.workers ==> w in s'.workers && s'.workers[w] == s.workers[w]
  {
    hide Do;
    if a.Deliver? || a.Finish? || a.WorkerCrash? || a.Disconnect? {
      DeliveryChanges(s, a, s');
    } else {
      HandlingChanges(s, a, s');
    }
  }

  lemma DeliveryChanges(s: Sys, a: Action, s': Sys)
    requires a.Deliver? || a.Finish? || a.WorkerCrash? || a.Disconnect?
    requires Do(s, a) == Some(s')
    ensures forall w :: w != a.w && w in s.workers ==> w in s'.workers && s'.workers[w] == s.workers[w]
  {
    hide GiveBack, GivenUp;
  }

  lemma HandlingChanges(s: Sys, a: Action, s': Sys)
    requires a.Prepare? || a.CallProvider? || a.Answer? || a.Record? || a.WorkerError?
    requires Do(s, a) == Some(s')
    ensures forall w :: w != a.w && w in s.workers ==> w in s'.workers && s'.workers[w] == s.workers[w]
  {
    hide PrepareTx, RecordTx, SeenColumn, GivenUp;
  }

  lemma QueuedStep(s: Sys, a: Action, s': Sys, m: Msg)
    requires Do(s, a) == Some(s') && m in s.queue
    ensures CopyWaits(s', m)
  {
    if a.Deliver? && a.msg == m {
      assert WillReturn(s'.workers, a.w, m);
    } else {
      hide Do, WillReturn;
      QueuedStays(s, a, s', m);
    }
  }

  /** Only a delivery takes anything off the queue. */
  lemma QueuedStays(s: Sys, a: Action, s': Sys, m: Msg)
    requires Do(s, a) == Some(s') && m in s.queue && !(a.Deliver? && a.msg == m)
    ensures m in s'.queue
  {
    if a.Deliver? || a.Finish? || a.WorkerCrash? || a.Disconnect? || a.Dispatch? || a.StrayMessage? {
      assert forall x: Msg :: m in s.queue + multiset{x};
      assert a.Deliver? ==> m in s.queue - multiset{a.msg};
    } else {
      hide Do;
      SameQueue(s, a, s');
    }
  }

  lemma SameQueue(s: Sys, a: Action, s': Sys)
    requires !a.Deliver? && !a.Finish? && !a.WorkerCrash? && !a.Disconnect? && !a.Dispatch? && !a.StrayMessage?
    requires Do(s, a) == Some(s')
    ensures s'.queue == s.queue
  {
    hide Normalize, LoadIdempotentPayout, ReplyWith, ReplyFound, InsertTx, IsNext, PrepareTx, RecordTx, SeenColumn,
      MarkProcessed, ReleaseClaim, ClaimEvent;
  }

  lemma StepKeepsCopy(s: Sys, a: Action, s': Sys, m: Msg)
    requires Inv(s) && Do(s, a) == Some(s') && m.Job? && IsFailed(s.db, m.entityId) && CopyWaits(s, m)
    ensures CopyWaits(s', m)
  {
    hide Inv, Do, IsFailed;
    if m in s.queue {
      QueuedStep(s, a, s', m);
    } else {
      var w :| WillReturn(s.workers, w, m);
      DeliversToOther(s, a, s', w, m);
      if ByWorker(a) && a.w == w {
        HolderStep(s, a, s', w, m);
      } else {
        OtherWorkerStep(s, a, s', w, m);
        assert WillReturn(s'.workers, w, m);
      }
    }
  }

  lemma DeliversToOther(s: Sys, a: Action, s': Sys, w: nat, m: Msg)
    requires Do(s, a) == Some(s') && WillReturn(s.workers, w, m)
    ensures a.Deliver? ==> a.w != w
  {
  }

  lemma {:induction false} CopyStays(pol: Policy, s: Sys, acts: seq<Action>, s': Sys, m: Msg)
    requires Disciplined(pol) && Inv(s) && PolicyInv(pol, s) && Runs(pol, s, acts, s')
    requires m.Job? && IsFailed(s.db, m.entityId) && CopyWaits(s, m)
    ensures IsFailed(s'.db, m.entityId) && CopyWaits(s', m)
    decreases |acts|
  {
    hide Inv, PolicyInv, Do, Allowed, CopyWaits;
    if acts != [] {
      var s1 := Do(s, acts[0]).value;
      FinalStep(pol, s, acts[0], s1, m.entityId);
      StepKeepsCopy(s, acts[0], s1, m);
      StepKeepsPolicyInv(pol, s, acts[0], s1);
      CopyStays(pol, s1, acts[1..], s', m);
    }
  }

  /** One delivery at a time, or a provider whose result is a function of its input: once a
      payout is failed and a copy of its job is queued, a copy is in transit ever after. */
  lemma FailedJobNeverLeaves(pol: Policy, s: Sys, acts: seq<Action>, s': Sys, m: Msg)
    requires Disciplined(pol) && Reachable(pol, s) && Runs(pol, s, acts, s')
    requires m in s.queue && m.Job? && IsFailed(s.db, m.entityId)
    ensures InTransit(s'.queue, s'.workers, m) && IsFailed(s'.db, m.entityId)
  {
    hide Reachable, Runs, Inv, PolicyInv, IsFailed;
    ReachablePolicyInv(pol, s);
    CopyStays(pol, s, acts, s', m);
  }

  /** A succeeded payout's copy can be: three steps of an idle worker take it off the queue
      and change nothing else. */
  lemma SucceededJobCanLeave(pol: Policy, s: Sys, m: Msg, w: nat)
    requires Reachable(pol, s) && w !in s.workers && (pol.oneAtATime ==> s.workers == map[]) && m in s.queue && m.Job?
    requires m.entityId in s.db.payouts && s.db.payouts[m.entityId].status == Succeeded
    ensures Runs(pol, s, [Deliver(w, m), Prepare(w), Finish(w)], s.(queue := s.queue - multiset{m}))
  {
    hide Reachable, Inv, Do, Runs;
    ReachableInv(pol, s);
    var s1 := WithWorker(s, w, m, Received);
    var s2 := WithWorker(s, w, m, Acking);
    var s3 := s.(queue := s.queue - multiset{m});
    DeliversTo(s, w, m);
    StepKeepsInv(s, Deliver(w, m), s1);
    SucceededPrepares(s, w, m);
    Acknowledges(s, w, m);
    ThreeSteps(pol, s, Deliver(w, m), s1, Prepare(w), s2, Finish(w), s3);
  }

  /** Worker `w` has taken one copy of `m` off the queue. */
  function WithWorker(s: Sys, w: nat, m: Msg, stage: WorkerStage): Sys {
    s.(queue := s.queue - multiset{m}, workers := s.workers[w := Worker(true, m, stage)])
  }

  lemma DeliversTo(s: Sys, w: nat, m: Msg)
    requires w !in s.workers && m in s.queue
    ensures Do(s, Deliver(w, m)) == Some(WithWorker(s, w, m, Received))
  {
  }

  lemma Acknowledges(s: Sys, w: nat, m: Msg)
    requires w !in s.workers
    ensures Do(WithWorker(s, w, m, Acking), Finish(w)) == Some(s.(queue := s.queue - multiset{m}))
  {
    assert s.workers[w := Worker(true, m, Acking)] - {w} == s.workers;
  }

  lemma SucceededPrepares(s: Sys, w: nat, m: Msg)
    requires Inv(WithWorker(s, w, m, Received))
    requires m.Job? && m.entityId in s.db.payouts && s.db.payouts[m.entityId].status == Succeeded
    ensures Do(WithWorker(s, w, m, Received), Prepare(w)) == Some(WithWorker(s, w, m, Acking))
  {
    hide Inv, PrepareTx, SetStage, WithWorker;
    ReceivedStage(s, w, m);
    SucceededTx(WithWorker(s, w, m, Received), w, m);
    AckingStage(s, w, m);
  }

  lemma ReceivedStage(s: Sys, w: nat, m: Msg)
    ensures var s' := WithWorker(s, w, m, Received);
      s'.db == s.db && w in s'.workers && s'.workers[w].msg == m && s'.workers[w].stage == Received
  {
  }

  lemma AckingStage(s: Sys, w: nat, m: Msg)
    ensures SetStage(WithWorker(s, w, m, Received), w, Acking) == WithWorker(s, w, m, Acking)
  {
    assert s.workers[w := Worker(true, m, Received)][w := Worker(true, m, Acking)] == s.workers[w := Worker(true, m, Acking)];
  }

  lemma SucceededTx(s: Sys, w: nat, m: Msg)
    requires Inv(s) && m.Job? && m.entityId in s.db.payouts && s.db.payouts[m.entityId].status == Succeeded
    requires w in s.workers && s.workers[w].msg == m
    ensures m.eventType == ProcessPayout && m.payload.ProcessPayload?
    ensures var r := PrepareTx(s.db, m.payload.clientId, m.payload.payoutId);
      r.Ok? && r.value.0 == s.db && !r.value.1.shouldExecute
  {
    hide Inv, Consistent, ProcessesOk, PrepareTx, WorkerOk, MsgOk, EventsOk, PayoutsOk, InputOf;
    InvParts(s);
    WorkerIsOk(s, w);
    RequeueingOk(s.db, s.workers[w]);
    EventsOkOf(s.db);
    MessageNamesPayout(s.db, m);
    MessageType(s.db, m);
    PrepareTxEffect(s.db, m.payload.clientId, m.entityId);
  }

  lemma ThreeSteps(pol: Policy, s: Sys, a: Action, s1: Sys, b: Action, s2: Sys, c: Action, s': Sys)
    requires Step(pol, s, a, s1) && Step(pol, s1, b, s2) && Step(pol, s2, c, s')
    ensures Runs(pol, s, [a, b, c], s')
  {
    hide Do, Allowed;
    assert [a, b, c][1..] == [b, c] && [b, c][1..] == [c] && [c][1..] == [];
    assert Runs(pol, s', [], s');
    assert Runs(pol, s2, [c], s');
    assert Runs(pol, s1, [b, c], s');
  }

  /** An error at any stage of handling, be it the provider's, is answered with a requeue and
      comes to the same state as the death of the worker there. */
  lemma ErrorIsLikeCrash(s: Sys, w: nat, a: Action)
    requires w in s.workers && !s.workers[w].stage.Acking? && !s.workers[w].stage.Dropping?
    requires a == WorkerError(w) || (s.workers[w].stage.Calling? && a == Answer(w, None))
    ensures Do(s, WorkerCrash(w)).Some?
    ensures Runs(UNRESTRICTED, s, [a, Finish(w)], Do(s, WorkerCrash(w)).value)
  {
    hide Do;
    ErrorThenFinish(s, w, a);
    var s1, s2 := Do(s, a).value, Do(s, WorkerCrash(w)).value;
    assert [a, Finish(w)][1..] == [Finish(w)] && [Finish(w)][1..] == [];
    assert Runs(UNRESTRICTED, s2, [], s2);
    assert Runs(UNRESTRICTED, s1, [Finish(w)], s2);
  }

  lemma ErrorThenFinish(s: Sys, w: nat, a: Action)
    requires w in s.workers && !s.workers[w].stage.Acking? && !s.workers[w].stage.Dropping?
    requires a == WorkerError(w) || (s.workers[w].stage.Calling? && a == Answer(w, None))
    ensures Do(s, a).Some? && Do(s, WorkerCrash(w)).Some?
    ensures Do(Do(s, a).value, Finish(w)) == Do(s, WorkerCrash(w))
  {
    hide Do;
    ErrorRequeues(s, w, a);
    FinishIsCrash(s, w);
  }

  lemma ErrorRequeues(s: Sys, w: nat, a: Action)
    requires w in s.workers && !s.workers[w].stage.Acking? && !s.workers[w].stage.Dropping?
    requires a == WorkerError(w) || (s.workers[w].stage.Calling? && a == Answer(w, None))
    ensures Do(s, a) == Some(SetStage(s, w, Requeueing).(history := GivenUp(s, w)))
  {
    hide SetStage, GivenUp;
  }

  lemma FinishIsCrash(s: Sys, w: nat)
    requires w in s.workers
    ensures Do(s, WorkerCrash(w)).Some?
    ensures Do(SetStage(s, w, Requeueing).(history := GivenUp(s, w)), Finish(w)) == Do(s, WorkerCrash(w))
  {
    hide GivenUp;
    assert s.workers[w := s.workers[w].(stage := Requeueing)] - {w} == s.workers - {w};
  }
}
