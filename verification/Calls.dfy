/** Accounting of provider calls: every call made for a payout ended in a committed recording,
    or was cut off before one, or is with a worker between the two now. */
module Calls {
  import opened Prelude
  import opened Domain
  import opened Tables
  import opened Transactions
  import opened Consistency
  import opened Pipeline
  import opened Safety
  import opened SafetySteps
  import opened Restricted
  import opened Webhooks

  predicate CallingFor(worker: Worker, p: Id) {
    InCall(worker.stage) && worker.stage.prepared.payoutId == p
  }

  /** The workers that have called the provider for `p` and not yet recorded a result. */
  function Callers(workers: map<nat, Worker>, p: Id): set<nat> {
    set w | w in workers && CallingFor(workers[w], p)
  }

  /** Calls made for `p` with its input are accounted for by recordings, cut-off calls and
      workers in between. */
  ghost predicate AccountedFor(s: Sys, p: Id) {
    if p in s.db.payouts
    then InputKnown(s.db, p)
      && s.history.calls[InputOf(s.db, p)]
         == Times(s.history.recordings, p) + s.history.cutOff[p] + |Callers(s.workers, p)|
    else Times(s.history.recordings, p) == 0 && s.history.cutOff[p] == 0 && Callers(s.workers, p) == {}
  }

  ghost predicate CallsAccounted(s: Sys) { forall p :: AccountedFor(s, p) }

  // ---------------------------------------------------------------- callers across a step

  /** One worker moves from `old` to `new`, None when it is not there. */
  ghost predicate OneMoves(workers: map<nat, Worker>, w: nat, workers': map<nat, Worker>) {
    && (forall v :: v != w ==> (v in workers' <==> v in workers))
    && (forall v :: v != w && v in workers ==> workers'[v] == workers[v])
  }

  predicate IsCaller(workers: map<nat, Worker>, w: nat, p: Id) { w in workers && CallingFor(workers[w], p) }

  lemma CallersMove(workers: map<nat, Worker>, w: nat, workers': map<nat, Worker>, p: Id)
    requires OneMoves(workers, w, workers')
    ensures |Callers(workers', p)| + (if IsCaller(workers, w, p) then 1 else 0)
         == |Callers(workers, p)| + (if IsCaller(workers', w, p) then 1 else 0)
  {
    hide CallingFor;
    var before, after := Callers(workers, p), Callers(workers', p);
    forall v | v != w ensures v in before <==> v in after {
    }
    SameButOne(before, after, w);
  }

  lemma SameButOne(a: set<nat>, b: set<nat>, w: nat)
    requires forall v :: v != w ==> (v in a <==> v in b)
    ensures |b| + (if w in a then 1 else 0) == |a| + (if w in b then 1 else 0)
  {
    var rest := a - {w};
    assert rest == b - {w};
    assert a == if w in a then rest + {w} else rest;
    assert b == if w in b then rest + {w} else rest;
  }

  /** How a worker's action moves its own worker and the three counts. */
  ghost predicate CountsFollow(s: Sys, w: nat, s': Sys) {
    && OneMoves(s.workers, w, s'.workers)
    && s'.db.payouts.Keys == s.db.payouts.Keys
    && (StaysInCall(s, w, s') || GivesUpCall(s, w, s') || MakesCall(s, w, s') || EndsCall(s, w, s'))
  }

  ghost predicate NoCaller(workers: map<nat, Worker>, w: nat) { forall p :: !IsCaller(workers, w, p) }

  ghost predicate CallerOf(workers: map<nat, Worker>, w: nat, p: Id) {
    forall q :: IsCaller(workers, w, q) <==> q == p
  }

  /** The worker's call, if it is in one, goes on; otherwise it makes none. */
  ghost predicate StaysInCall(s: Sys, w: nat, s': Sys) {
    && s'.history.calls == s.history.calls && s'.history.cutOff == s.history.cutOff
    && s'.history.recordings == s.history.recordings
    && forall p :: IsCaller(s'.workers, w, p) <==> IsCaller(s.workers, w, p)
  }

  ghost predicate GivesUpCall(s: Sys, w: nat, s': Sys) {
    && s'.history.calls == s.history.calls && s'.history.recordings == s.history.recordings
    && w in s.workers && InCall(s.workers[w].stage)
    && CallerOf(s.workers, w, s.workers[w].stage.prepared.payoutId) && NoCaller(s'.workers, w)
    && s'.history.cutOff == s.history.cutOff + multiset{s.workers[w].stage.prepared.payoutId}
  }

  ghost predicate MakesCall(s: Sys, w: nat, s': Sys) {
    && w in s.workers && s.workers[w].stage.Ready?
    && s'.history.cutOff == s.history.cutOff && s'.history.recordings == s.history.recordings
    && s'.history.calls == s.history.calls + multiset{s.workers[w].stage.prepared.input}
    && NoCaller(s.workers, w) && CallerOf(s'.workers, w, s.workers[w].stage.prepared.payoutId)
  }

  ghost predicate EndsCall(s: Sys, w: nat, s': Sys) {
    && w in s.workers && InCall(s.workers[w].stage)
    && s'.history.calls == s.history.calls && s'.history.cutOff == s.history.cutOff
    && CallerOf(s.workers, w, s.workers[w].stage.prepared.payoutId) && NoCaller(s'.workers, w)
    && exists r: Recording ::
         r.payoutId == s.workers[w].stage.prepared.payoutId && s'.history.recordings == s.history.recordings + [r]
  }

  /** Whether worker `w` is in a call, and for which payout, by its stage. */
  lemma CallerByStage(workers: map<nat, Worker>, w: nat)
    requires w in workers
    ensures if InCall(workers[w].stage) then CallerOf(workers, w, workers[w].stage.prepared.payoutId) else NoCaller(workers, w)
  {
  }

  lemma StageMoved(workers: map<nat, Worker>, w: nat, worker: Worker)
    ensures OneMoves(workers, w, workers[w := worker]) && OneMoves(workers, w, workers - {w})
    ensures NoCaller(workers - {w}, w)
    ensures w !in workers ==> NoCaller(workers, w)
    ensures if InCall(worker.stage) then CallerOf(workers[w := worker], w, worker.stage.prepared.payoutId)
            else NoCaller(workers[w := worker], w)
  {
  }

  /** What the worker's callers are, before and after, whatever the action. */
  lemma OwnWorkerMoves(s: Sys, a: Action, s': Sys)
    requires ByWorker(a)
    requires s'.workers == s.workers - {a.w} || (a.w in s'.workers && s'.workers == s.workers[a.w := s'.workers[a.w]])
    ensures OneMoves(s.workers, a.w, s'.workers)
    ensures a.w !in s.workers ==> NoCaller(s.workers, a.w)
    ensures a.w !in s'.workers ==> NoCaller(s'.workers, a.w)
    ensures a.w in s.workers ==>
      if InCall(s.workers[a.w].stage) then CallerOf(s.workers, a.w, s.workers[a.w].stage.prepared.payoutId)
      else NoCaller(s.workers, a.w)
    ensures a.w in s'.workers ==>
      if InCall(s'.workers[a.w].stage) then CallerOf(s'.workers, a.w, s'.workers[a.w].stage.prepared.payoutId)
      else NoCaller(s'.workers, a.w)
  {
    hide OneMoves, CallerOf, NoCaller, InCall;
    if a.w in s.workers {
      CallerByStage(s.workers, a.w);
    }
    if a.w in s'.workers {
      CallerByStage(s'.workers, a.w);
      StageMoved(s.workers, a.w, s'.workers[a.w]);
    } else {
      StageMoved(s.workers, a.w, Worker(true, Malformed, Received));
    }
  }

  lemma NoneBeforeOrAfter(s: Sys, w: nat, s': Sys)
    requires NoCaller(s.workers, w) && NoCaller(s'.workers, w)
    ensures forall p :: IsCaller(s'.workers, w, p) <==> IsCaller(s.workers, w, p)
  {
  }

  lemma SameBeforeAndAfter(s: Sys, w: nat, s': Sys, p: Id)
    requires CallerOf(s.workers, w, p) && CallerOf(s'.workers, w, p)
    ensures forall q :: IsCaller(s'.workers, w, q) <==> IsCaller(s.workers, w, q)
  {
  }

  /** The stage that a worker's action leads to, and the history it leaves. */
  ghost predicate HistoryFollows(s: Sys, a: Action, s': Sys)
    requires ByWorker(a)
  {
    var before := a.w in s.workers && InCall(s.workers[a.w].stage);
    var after := a.w in s'.workers && InCall(s'.workers[a.w].stage);
    && (s'.workers == s.workers - {a.w} || (a.w in s'.workers && s'.workers == s.workers[a.w := s'.workers[a.w]]))
    && s'.db.payouts.Keys == s.db.payouts.Keys
    && (before && after ==> s'.workers[a.w].stage.prepared == s.workers[a.w].stage.prepared)
    && (!before && after ==>
          && a.w in s.workers && s.workers[a.w].stage.Ready?
          && s'.workers[a.w].stage.prepared == s.workers[a.w].stage.prepared)
    && (before == after ==>
          && s'.history.calls == s.history.calls && s'.history.cutOff == s.history.cutOff
          && s'.history.recordings == s.history.recordings)
    && (!before && after ==>
          && s'.history.cutOff == s.history.cutOff && s'.history.recordings == s.history.recordings
          && s'.history.calls == s.history.calls + multiset{s.workers[a.w].stage.prepared.input})
    && (before && !after ==> s'.history.calls == s.history.calls && (CutsOff(s, a.w, s') || RecordsOne(s, a.w, s')))
  }

  ghost predicate CutsOff(s: Sys, w: nat, s': Sys)
    requires w in s.workers && InCall(s.workers[w].stage)
  {
    && s'.history.cutOff == s.history.cutOff + multiset{s.workers[w].stage.prepared.payoutId}
    && s'.history.recordings == s.history.recordings
  }

  ghost predicate RecordsOne(s: Sys, w: nat, s': Sys)
    requires w in s.workers && InCall(s.workers[w].stage)
  {
    && s'.history.cutOff == s.history.cutOff
    && exists r: Recording ::
         r.payoutId == s.workers[w].stage.prepared.payoutId && s'.history.recordings == s.history.recordings + [r]
  }

  lemma CountsByHistory(s: Sys, a: Action, s': Sys)
    requires ByWorker(a) && HistoryFollows(s, a, s')
    ensures CountsFollow(s, a.w, s')
  {
    hide OneMoves, CallerOf, NoCaller, IsCaller;
    OwnWorkerMoves(s, a, s');
    var before := a.w in s.workers && InCall(s.workers[a.w].stage);
    var after := a.w in s'.workers && InCall(s'.workers[a.w].stage);
    if before && after {
      SameBeforeAndAfter(s, a.w, s', s.workers[a.w].stage.prepared.payoutId);
    } else if !before && !after {
      NoneBeforeOrAfter(s, a.w, s');
    }
  }

  lemma DeliverCounts(s: Sys, a: Action, s': Sys)
    requires (a.Deliver? || a.Finish?) && Do(s, a) == Some(s')
    ensures HistoryFollows(s, a, s')
  {
    hide GiveBack;
  }

  lemma LossCounts(s: Sys, a: Action, s': Sys)
    requires (a.WorkerCrash? || a.Disconnect?) && Do(s, a) == Some(s')
    ensures HistoryFollows(s, a, s')
  {
    hide GiveBack;
  }

  lemma CallCounts(s: Sys, a: Action, s': Sys)
    requires (a.CallProvider? || a.WorkerError?) && Do(s, a) == Some(s')
    ensures HistoryFollows(s, a, s')
  {
  }

  lemma AnswerCounts(s: Sys, a: Action, s': Sys)
    requires a.Answer? && Do(s, a) == Some(s')
    ensures HistoryFollows(s, a, s')
  {
  }

  lemma TransactionKeepsPayouts(s: Sys, a: Action, s': Sys)
    requires Inv(s) && (a.Prepare? || a.Record?) && Do(s, a) == Some(s')
    ensures s'.db.payouts.Keys == s.db.payouts.Keys
  {
    hide Inv, Do, SeenColumn, Recorded, PreparedOk;
    RowsOf(s, a, s');
  }

  lemma PrepareCounts(s: Sys, a: Action, s': Sys)
    requires Inv(s) && a.Prepare? && Do(s, a) == Some(s')
    ensures HistoryFollows(s, a, s')
  {
    hide Inv, PrepareTx;
    TransactionKeepsPayouts(s, a, s');
  }

  lemma RecordCounts(s: Sys, a: Action, s': Sys)
    requires Inv(s) && a.Record? && Do(s, a) == Some(s')
    ensures HistoryFollows(s, a, s')
  {
    hide Inv, RecordTx, SeenColumn;
    TransactionKeepsPayouts(s, a, s');
  }

  lemma WorkerCounts(s: Sys, a: Action, s': Sys)
    requires Inv(s) && ByWorker(a) && Do(s, a) == Some(s')
    ensures CountsFollow(s, a.w, s')
  {
    hide Inv, Do, CountsFollow, HistoryFollows;
    if a.Prepare? {
      PrepareCounts(s, a, s');
    } else if a.Record? {
      RecordCounts(s, a, s');
    } else if a.Answer? {
      AnswerCounts(s, a, s');
    } else if a.CallProvider? || a.WorkerError? {
      CallCounts(s, a, s');
    } else if a.WorkerCrash? || a.Disconnect? {
      LossCounts(s, a, s');
    } else {
      DeliverCounts(s, a, s');
    }
    CountsByHistory(s, a, s');
  }

  // ---------------------------------------------------------------- one step

  /** The worker that makes a call makes it with its payout's input. */
  lemma CallsOwnInput(s: Sys, w: nat)
    requires Inv(s) && w in s.workers && (s.workers[w].stage.Ready? || InCall(s.workers[w].stage))
    ensures var prepared := s.workers[w].stage.prepared;
      InputKnown(s.db, prepared.payoutId) && prepared.input == InputOf(s.db, prepared.payoutId)
  {
    hide Inv, Consistent, ProcessesOk, InputOf;
    InvParts(s);
    WorkerIsOk(s, w);
  }

  lemma WorkerAccounted(s: Sys, w: nat, s': Sys, p: Id)
    requires Inv(s) && CountsFollow(s, w, s') && AccountedFor(s, p)
    requires p in s.db.payouts ==> InputKnown(s'.db, p) && InputOf(s'.db, p) == InputOf(s.db, p)
    ensures AccountedFor(s', p)
  {
    hide Inv, OneMoves, IsCaller, Callers, Times;
    CallersMove(s.workers, w, s'.workers, p);
    if EndsCall(s, w, s') {
      CallsOwnInput(s, w);
      var r: Recording :| r.payoutId == s.workers[w].stage.prepared.payoutId && s'.history.recordings == s.history.recordings + [r];
      TimesAppend(s.history.recordings, r, p);
    } else if MakesCall(s, w, s') || GivesUpCall(s, w, s') {
      CallsOwnInput(s, w);
    }
    NoOneCalls(s', p);
  }

  lemma NoOneCalls(s: Sys, p: Id)
    ensures Callers(s.workers, p) == {} <==> |Callers(s.workers, p)| == 0
  {
  }

  // ---------------------------------------------------------------- every step, every run

  ghost predicate CallsLeft(s: Sys, s': Sys) {
    && s'.workers == s.workers && s'.history.calls == s.history.calls
    && s'.history.cutOff == s.history.cutOff && s'.history.recordings == s.history.recordings
  }

  lemma CreatorsLeaveCalls(s: Sys, a: Action, s': Sys)
    requires a.Begin? || a.ReadKey? || a.Insert? || a.Reload? || a.Abandon?
    requires Do(s, a) == Some(s')
    ensures CallsLeft(s, s')
  {
    hide Normalize, LoadIdempotentPayout, ReplyWith, ReplyFound, InsertTx;
  }

  lemma OthersLeaveCalls(s: Sys, a: Action, s': Sys)
    requires !ByWorker(a) && !a.Begin? && !a.ReadKey? && !a.Insert? && !a.Reload? && !a.Abandon?
    requires Do(s, a) == Some(s')
    ensures CallsLeft(s, s')
  {
    hide Do;
    if a.Claim? || a.Dispatch? || a.Mark? || a.Release? || a.RelayCrash? {
      RelaysLeaveCalls(s, a, s');
    } else {
      EnvironmentLeavesCalls(s, a, s');
    }
  }

  lemma RelaysLeaveCalls(s: Sys, a: Action, s': Sys)
    requires (a.Claim? || a.Dispatch? || a.Mark? || a.Release? || a.RelayCrash?) && Do(s, a) == Some(s')
    ensures CallsLeft(s, s')
  {
    hide Do;
    if a.Claim? || a.Dispatch? {
      DispatchersLeaveCalls(s, a, s');
    } else {
      FinishersLeaveCalls(s, a, s');
    }
  }

  lemma DispatchersLeaveCalls(s: Sys, a: Action, s': Sys)
    requires (a.Claim? || a.Dispatch?) && Do(s, a) == Some(s')
    ensures CallsLeft(s, s')
  {
    hide IsNext, ClaimEvent, JobOf;
  }

  lemma FinishersLeaveCalls(s: Sys, a: Action, s': Sys)
    requires (a.Mark? || a.Release? || a.RelayCrash?) && Do(s, a) == Some(s')
    ensures CallsLeft(s, s')
  {
    hide MarkProcessed, ReleaseClaim;
  }

  lemma EnvironmentLeavesCalls(s: Sys, a: Action, s': Sys)
    requires (a.AddClient? || a.SetWebhook? || a.AddSource? || a.Tick? || a.StrayMessage?) && Do(s, a) == Some(s')
    ensures CallsLeft(s, s')
  {
  }

  lemma NoCallYet(s: Sys, input: ProviderInput)
    requires Inv(s) && input.payoutId !in s.db.payouts
    ensures s.history.calls[input] == 0
  {
    hide Consistent, QueueOk, RelaysOk, WorkersOk, CreatorsOk, RepliesOk, NothingLost, DispatchedHandedOver;
    assert forall i :: i in s.history.calls ==> CallOk(s.db, i);
  }

  lemma LeftAccounted(s: Sys, s': Sys, p: Id)
    requires Inv(s) && CallsLeft(s, s') && s.db.payouts.Keys <= s'.db.payouts.Keys && AccountedFor(s, p)
    requires p in s'.db.payouts ==> InputKnown(s'.db, p)
    requires p in s.db.payouts ==> InputOf(s'.db, p) == InputOf(s.db, p)
    ensures AccountedFor(s', p)
  {
    hide Inv, Callers, Times;
    if p !in s.db.payouts && p in s'.db.payouts {
      NoCallYet(s, InputOf(s'.db, p));
    }
  }

  lemma InputKeeps(s: Sys, s': Sys, p: Id)
    requires Inv(s) && Inv(s') && Evolves(s.db, s'.db)
    ensures s.db.payouts.Keys <= s'.db.payouts.Keys
    ensures p in s'.db.payouts ==> InputKnown(s'.db, p)
    ensures p in s.db.payouts ==> InputKnown(s.db, p) && InputOf(s'.db, p) == InputOf(s.db, p)
  {
    hide Inv, Consistent, ProcessesOk, InputOf;
    InvParts(s);
    InvParts(s');
    if p in s.db.payouts {
      InputStays(s.db, s'.db, p);
    }
    if p in s'.db.payouts {
      InputIsKnown(s'.db, p);
    }
  }

  lemma StepAccounted(s: Sys, a: Action, s': Sys)
    requires Inv(s) && Inv(s') && Evolves(s.db, s'.db) && CallsAccounted(s) && Do(s, a) == Some(s')
    ensures CallsAccounted(s')
  {
    hide Inv, Evolves, Do, AccountedFor, CountsFollow, CallsLeft, InputOf;
    if ByWorker(a) {
      WorkerCounts(s, a, s');
    } else if a.Begin? || a.ReadKey? || a.Insert? || a.Reload? || a.Abandon? {
      CreatorsLeaveCalls(s, a, s');
    } else {
      OthersLeaveCalls(s, a, s');
    }
    forall p ensures AccountedFor(s', p) {
      assert AccountedFor(s, p);
      InputKeeps(s, s', p);
      if ByWorker(a) {
        WorkerAccounted(s, a.w, s', p);
      } else {
        LeftAccounted(s, s', p);
      }
    }
  }

  lemma {:induction false} RunAccounted(pol: Policy, s: Sys, acts: seq<Action>, s': Sys)
    requires Inv(s) && CallsAccounted(s) && Runs(pol, s, acts, s')
    ensures CallsAccounted(s')
    decreases |acts|
  {
    hide Inv, Evolves, CallsAccounted, Do, Allowed;
    if acts != [] {
      var s1 := Do(s, acts[0]).value;
      StepKeepsInv(s, acts[0], s1);
      StepAccounted(s, acts[0], s1);
      RunAccounted(pol, s1, acts[1..], s');
    }
  }

  lemma ReachableAccounted(pol: Policy, s: Sys)
    requires Reachable(pol, s)
    ensures CallsAccounted(s)
  {
    var s0, acts :| Initial(s0) && Runs(pol, s0, acts, s);
    InitialInv(s0);
    assert CallsAccounted(s0);
    hide Inv, CallsAccounted, Runs, Initial;
    RunAccounted(pol, s0, acts, s);
  }

  // ---------------------------------------------------------------- guarantees

  /** Over every run: the provider calls made for a payout are as many as its committed
      recordings, the calls cut off before one, and the workers in between now. */
  lemma CallsAreAccounted(pol: Policy, s: Sys, p: Id)
    requires Reachable(pol, s) && p in s.db.payouts
    ensures InputKnown(s.db, p)
    ensures forall i :: i in s.history.calls && i.payoutId == p ==> i == InputOf(s.db, p)
    ensures s.history.calls[InputOf(s.db, p)]
         == Times(s.history.recordings, p) + s.history.cutOff[p] + |Callers(s.workers, p)|
  {
    hide Reachable, Inv, InputOf, Callers, Times;
    ReachableAccounted(pol, s);
    assert AccountedFor(s, p);
    ReachableInv(pol, s);
    forall i | i in s.history.calls && i.payoutId == p ensures i == InputOf(s.db, p) {
      OnlyItsInput(s, i);
    }
  }

  lemma OnlyItsInput(s: Sys, i: ProviderInput)
    requires Inv(s) && i in s.history.calls
    ensures InputKnown(s.db, i.payoutId) && i == InputOf(s.db, i.payoutId)
  {
    hide Consistent, QueueOk, RelaysOk, WorkersOk, CreatorsOk, RepliesOk, NothingLost, DispatchedHandedOver, InputOf;
    assert CallOk(s.db, i);
  }

  /** One delivery at a time: a payout is called for once more than its calls were cut off
      if it is final or a worker is in between, and never both; so a second call is always
      made up for by a cut-off one. */
  lemma NoNeedlessCall(pol: Policy, s: Sys, p: Id)
    requires pol.oneAtATime && Reachable(pol, s) && p in s.db.payouts
    ensures InputKnown(s.db, p)
    ensures s.history.calls[InputOf(s.db, p)]
         == s.history.cutOff[p] + if s.db.payouts[p].status.Final() || Callers(s.workers, p) != {} then 1 else 0
  {
    hide Reachable, Inv, PolicyInv, InputOf, Callers, Times, TimesSeen, WebhooksOf;
    CallsAreAccounted(pol, s, p);
    OneWebhookPerFinalPayout(pol, s, p);
    ReachablePolicyInv(pol, s);
    SoloCaller(pol, s, p);
  }

  lemma SoloCaller(pol: Policy, s: Sys, p: Id)
    requires Inv(s) && PolicyInv(pol, s) && pol.oneAtATime
    ensures |Callers(s.workers, p)| == if Callers(s.workers, p) != {} then 1 else 0
    ensures Callers(s.workers, p) != {} ==> p in s.db.payouts && !s.db.payouts[p].status.Final()
  {
    hide Consistent, ProcessesOk, NothingLost, DispatchedHandedOver, UnfinishedBare, AnswersAllowed, Settled, ReasonsMatch;
    var callers := Callers(s.workers, p);
    if callers != {} {
      var w :| w in callers;
      assert callers == {w};
      InvParts(s);
      WorkerIsOk(s, w);
    }
  }
}
