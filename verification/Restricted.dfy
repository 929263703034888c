/** Guarantees that hold of runs under a policy: one delivery at a time, or a provider
    whose result is a function of its input, or results that meet the provider contract. */
module Restricted {
  import opened Prelude
  import opened Domain
  import opened Tables
  import opened Transactions
  import opened Consistency
  import opened Pipeline
  import opened Safety
  import opened SafetySteps
  import opened Effects

  // ---------------------------------------------------------------- invariants

  /** A payout that is not final has no failure reason yet. */
  ghost predicate UnfinishedBare(db: Db) {
    forall p :: p in db.payouts && !db.payouts[p].status.Final() ==> db.payouts[p].failureReason == None
  }

  /** A result a worker holds is one the policy lets the provider give. */
  ghost predicate ResultAllowed(pol: Policy, input: ProviderInput, result: ProviderResult) {
    && (pol.validated ==> ValidateResult(result))
    && (pol.provider.Some? ==> result == pol.provider.value(input))
  }

  ghost predicate AnswersAllowed(pol: Policy, workers: map<nat, Worker>) {
    forall w :: w in workers && workers[w].stage.Answered?
      ==> ResultAllowed(pol, workers[w].stage.prepared.input, workers[w].stage.result)
  }

  /** At most one worker, and the payout it executes is in processing. */
  ghost predicate Solo(db: Db, workers: map<nat, Worker>) {
    && (forall v, w :: v in workers && w in workers ==> v == w)
    && (forall w :: w in workers && Executing(workers[w].stage)
          ==> workers[w].msg.Job? && IsProcessing(db, workers[w].msg.entityId))
  }

  /** The status and reason that a result leaves on a payout without a reason. */
  predicate HasResult(row: Payout, r: ProviderResult) {
    && row.status == r.status
    && row.failureReason == if r.status == Failed then StoredReason(r) else None
  }

  /** Every final payout carries the provider's result for its input. */
  ghost predicate Settled(provider: Provider, db: Db) {
    forall p :: p in db.payouts && db.payouts[p].status.Final()
      ==> InputKnown(db, p) && HasResult(db.payouts[p], provider(InputOf(db, p)))
  }

  /** A non-blank reason is there exactly when the payout failed. */
  predicate ReasonMatches(row: Payout) {
    && (row.failureReason.Some? <==> row.status == Failed)
    && (row.failureReason.Some? ==> !Blank(row.failureReason.value))
  }

  ghost predicate ReasonsMatch(db: Db) { forall p :: p in db.payouts ==> ReasonMatches(db.payouts[p]) }

  predicate Disciplined(pol: Policy) { pol.oneAtATime || pol.provider.Some? }

  ghost predicate PolicyInv(pol: Policy, s: Sys) {
    && UnfinishedBare(s.db)
    && AnswersAllowed(pol, s.workers)
    && (pol.oneAtATime ==> Solo(s.db, s.workers))
    && (pol.provider.Some? ==> Settled(pol.provider.value, s.db))
    && (pol.validated && Disciplined(pol) ==> ReasonsMatch(s.db))
  }

  // ---------------------------------------------------------------- one predicate at a time

  lemma InitialPolicyInv(pol: Policy, s: Sys)
    requires Initial(s)
    ensures PolicyInv(pol, s)
  {
  }

  lemma AnswersStay(pol: Policy, s: Sys, a: Action, s': Sys)
    requires AnswersAllowed(pol, s.workers) && Step(pol, s, a, s')
    ensures AnswersAllowed(pol, s'.workers)
  {
    StagesOf(s, a, s');
    hide Do, ResultAllowed;
    forall w | w in s'.workers && s'.workers[w].stage.Answered?
      ensures ResultAllowed(pol, s'.workers[w].stage.prepared.input, s'.workers[w].stage.result)
    {
      if s'.workers[w].stage != s.workers[w].stage {
        AllowedResult(pol, s, a);
      }
    }
  }

  lemma AllowedResult(pol: Policy, s: Sys, a: Action)
    requires Allowed(pol, s, a) && a.Answer? && a.answer.Some? && a.w in s.workers && s.workers[a.w].stage.Calling?
    ensures ResultAllowed(pol, s.workers[a.w].stage.prepared.input, a.answer.value)
  {
  }

  lemma DeliverAlone(pol: Policy, s: Sys, a: Action)
    requires Allowed(pol, s, a) && a.Deliver? && pol.oneAtATime
    ensures s.workers == map[]
  {
  }

  /** A step leaves a processing payout in processing, or is its recording. */
  ghost predicate ProcessingKept(s: Sys, a: Action, s': Sys) {
    forall p :: IsProcessing(s.db, p) ==> IsProcessing(s'.db, p) || a.Record?
  }

  lemma SoloStays(pol: Policy, s: Sys, a: Action, s': Sys)
    requires pol.oneAtATime && Solo(s.db, s.workers) && Step(pol, s, a, s') && ProcessingKept(s, a, s')
    requires a.Record? ==>
               && a.w in s.workers && s'.workers.Keys == s.workers.Keys
               && (s'.workers[a.w].stage.Acking? || s'.workers[a.w].stage.Requeueing?)
    requires a.Prepare? ==> Prepares(s, a.w, s')
    ensures Solo(s'.db, s'.workers)
  {
    StagesOf(s, a, s');
    if a.Deliver? {
      DeliverAlone(pol, s, a);
    }
    hide Do, Allowed;
  }

  // ---------------------------------------------------------------- payout rows across a step

  /** How the payout rows may change in one step. */
  ghost predicate RowsStep(s: Sys, a: Action, s': Sys) {
    || s'.db.payouts == s.db.payouts
    || (a.Insert? && AddsPending(s.db, a.id, s'.db))
    || (a.Prepare? && a.w in s.workers && Starts(s.db, s.workers[a.w].msg, s'.db))
    || (a.Record? && RecordsBy(s, a.w, a.eventId, s'))
  }

  ghost predicate RecordsBy(s: Sys, w: nat, eventId: Id, s': Sys) {
    && w in s.workers && s.workers[w].stage.Answered? && s.workers[w].msg.Job?
    && Records(s, s.workers[w].msg.entityId, s.workers[w].stage.result, eventId, s')
    && PreparedOk(s.db, s.workers[w].msg, s.workers[w].stage.prepared)
    && s'.workers.Keys == s.workers.Keys && s'.workers[w].stage.Acking?
  }

  lemma RowsOf(s: Sys, a: Action, s': Sys)
    requires Inv(s) && Do(s, a) == Some(s')
    ensures RowsStep(s, a, s')
    ensures a.Prepare? ==> Prepares(s, a.w, s')
    ensures a.Record? ==> a.w in s.workers && s'.workers.Keys == s.workers.Keys
    ensures a.Record? ==> s'.workers[a.w].stage.Acking? || s'.workers[a.w].stage.Requeueing?
    ensures a.Record? ==> Untouched(s, s') || RecordsBy(s, a.w, a.eventId, s')
  {
    if a.Record? {
      hide Inv, DoRecord, Records, PreparedOk, Untouched;
      RecordEffect(s, a.w, a.eventId, s');
      UntouchedRows(s, s');
    } else if a.Prepare? {
      hide Inv, DoPrepare;
      PrepareEffect(s, a.w, s');
    } else if a.Insert? {
      hide Inv, Do, AddsPending;
      InsertEffect(s, a, s');
    } else {
      hide Inv, Do, Untouched;
      UsuallyUntouched(s, a, s');
      UntouchedRows(s, s');
    }
  }

  lemma UntouchedRows(s: Sys, s': Sys)
    ensures Untouched(s, s') ==> s'.db.payouts == s.db.payouts && s'.history.recordings == s.history.recordings
  {
  }

  lemma ProcessingStays(s: Sys, a: Action, s': Sys)
    requires RowsStep(s, a, s')
    ensures ProcessingKept(s, a, s')
  {
    hide RecordsBy;
  }

  lemma UnfinishedStays(s: Sys, a: Action, s': Sys)
    requires UnfinishedBare(s.db) && RowsStep(s, a, s')
    ensures UnfinishedBare(s'.db)
  {
    hide PreparedOk, StoredReason;
  }

  // ---------------------------------------------------------------- settled payouts

  lemma HasResultAfter(row: Payout, r: ProviderResult)
    requires r.status.Final()
    requires row.failureReason == None || HasResult(row, r)
    ensures HasResult(Recorded(row, r), r)
  {
    hide StoredReason;
  }

  lemma SettledStays(pol: Policy, s: Sys, a: Action, s': Sys)
    requires Consistent(s.db) && Evolves(s.db, s'.db) && RowsStep(s, a, s')
    requires UnfinishedBare(s.db) && AnswersAllowed(pol, s.workers)
    requires pol.provider.Some? && Settled(pol.provider.value, s.db)
    ensures Settled(pol.provider.value, s'.db)
  {
    var provider := pol.provider.value;
    forall p | p in s'.db.payouts && s'.db.payouts[p].status.Final()
      ensures InputKnown(s'.db, p) && HasResult(s'.db.payouts[p], provider(InputOf(s'.db, p)))
    {
      hide *;
      NewRowsUnfinished(s, a, s', p);
      InputStays(s.db, s'.db, p);
      SettledRow(pol, s, a, s', p);
    }
  }

  lemma NewRowsUnfinished(s: Sys, a: Action, s': Sys, p: Id)
    requires RowsStep(s, a, s') && p in s'.db.payouts && s'.db.payouts[p].status.Final()
    ensures p in s.db.payouts
  {
    hide Recorded, StoredReason, SeenColumn;
  }

  lemma SettledRow(pol: Policy, s: Sys, a: Action, s': Sys, p: Id)
    requires RowsStep(s, a, s') && p in s.db.payouts && p in s'.db.payouts && InputKnown(s.db, p)
    requires s'.db.payouts[p].status.Final()
    requires UnfinishedBare(s.db) && AnswersAllowed(pol, s.workers)
    requires pol.provider.Some? && Settled(pol.provider.value, s.db)
    ensures HasResult(s'.db.payouts[p], pol.provider.value(InputOf(s.db, p)))
  {
    hide HasResult, Recorded, InputOf, StoredReason, SeenColumn;
    if s'.db.payouts[p] != s.db.payouts[p] {
      HasResultAfter(s.db.payouts[p], pol.provider.value(InputOf(s.db, p)));
    }
  }

  // ---------------------------------------------------------------- reasons

  lemma ReasonAfter(row: Payout, r: ProviderResult)
    requires ValidateResult(r) && row.failureReason == None
    ensures ReasonMatches(Recorded(row, r))
  {
    hide Blank;
  }

  /** A stored result of the provider contract leaves a matching reason. */
  lemma ReasonOfResult(row: Payout, r: ProviderResult)
    requires ValidateResult(r) && HasResult(row, r)
    ensures ReasonMatches(row)
  {
    hide Blank;
  }

  /** Recording a contract result keeps reason and status matched, except exactly when a
      success is recorded over a payout that already has a reason. */
  lemma ReasonMatchesIff(row: Payout, r: ProviderResult)
    requires ValidateResult(r)
    ensures ReasonMatches(Recorded(row, r)) <==> !(r.status == Succeeded && row.failureReason.Some?)
  {
    hide Blank;
  }

  lemma SoloReasons(pol: Policy, s: Sys, a: Action, s': Sys)
    requires RowsStep(s, a, s') && UnfinishedBare(s.db) && AnswersAllowed(pol, s.workers)
    requires pol.validated && pol.oneAtATime && Solo(s.db, s.workers) && ReasonsMatch(s.db)
    ensures ReasonsMatch(s'.db)
  {
    hide ValidateResult, PreparedOk, SeenColumn, StoredReason, Recorded;
    forall p | p in s'.db.payouts ensures ReasonMatches(s'.db.payouts[p]) {
      if a.Record? && RecordsBy(s, a.w, a.eventId, s') && p == s.workers[a.w].msg.entityId {
        ReasonAfter(s.db.payouts[p], s.workers[a.w].stage.result);
      }
    }
  }

  /** Under a provider function the reasons follow from the results that settled. */
  lemma SettledReasons(pol: Policy, s: Sys, a: Action, s': Sys)
    requires RowsStep(s, a, s') && UnfinishedBare(s.db) && UnfinishedBare(s'.db) && AnswersAllowed(pol, s.workers)
    requires pol.validated && pol.provider.Some? && Settled(pol.provider.value, s.db) && ReasonsMatch(s.db)
    ensures ReasonsMatch(s'.db)
  {
    hide ValidateResult, SeenColumn, StoredReason, Recorded, HasResult, InputOf;
    forall p | p in s'.db.payouts ensures ReasonMatches(s'.db.payouts[p]) {
      if a.Record? && RecordsBy(s, a.w, a.eventId, s') && p == s.workers[a.w].msg.entityId {
        var result := s.workers[a.w].stage.result;
        assert result == pol.provider.value(InputOf(s.db, p));
        HasResultAfter(s.db.payouts[p], result);
        ReasonOfResult(s'.db.payouts[p], result);
      }
    }
  }

  // ---------------------------------------------------------------- every step, every run

  lemma StepKeepsPolicyInv(pol: Policy, s: Sys, a: Action, s': Sys)
    requires Inv(s) && PolicyInv(pol, s) && Step(pol, s, a, s')
    ensures Inv(s') && PolicyInv(pol, s')
  {
    hide Inv, Do, Allowed, Consistent, Evolves, UnfinishedBare, AnswersAllowed, Solo, Settled, ReasonsMatch, RowsStep,
      ProcessingKept, Prepares, Untouched, RecordsBy, ProcessesOk;
    InvParts(s);
    StepKeepsInv(s, a, s');
    RowsOf(s, a, s');
    ProcessingStays(s, a, s');
    UnfinishedStays(s, a, s');
    AnswersStay(pol, s, a, s');
    if pol.oneAtATime {
      SoloStays(pol, s, a, s');
      if pol.validated {
        SoloReasons(pol, s, a, s');
      }
    }
    if pol.provider.Some? {
      SettledStays(pol, s, a, s');
      if pol.validated {
        SettledReasons(pol, s, a, s');
      }
    }
  }

  lemma {:induction false} RunKeepsPolicyInv(pol: Policy, s: Sys, acts: seq<Action>, s': Sys)
    requires Inv(s) && PolicyInv(pol, s) && Runs(pol, s, acts, s')
    ensures Inv(s') && PolicyInv(pol, s')
    decreases |acts|
  {
    hide Inv, PolicyInv, Do, Allowed;
    if acts != [] {
      var s1 := Do(s, acts[0]).value;
      StepKeepsPolicyInv(pol, s, acts[0], s1);
      RunKeepsPolicyInv(pol, s1, acts[1..], s');
    }
  }

  lemma ReachablePolicyInv(pol: Policy, s: Sys)
    requires Reachable(pol, s)
    ensures Inv(s) && PolicyInv(pol, s)
  {
    var s0, acts :| Initial(s0) && Runs(pol, s0, acts, s);
    InitialInv(s0);
    InitialPolicyInv(pol, s0);
    hide Inv, PolicyInv, Runs, Initial;
    RunKeepsPolicyInv(pol, s0, acts, s);
  }

  // ---------------------------------------------------------------- guarantees

  /** One delivery at a time: every status change in any step is one that CanTransition
      allows, so none ever leaves a final status, across crashes and redeliveries. */
  lemma ChangesAreTransitions(pol: Policy, s: Sys, a: Action, s': Sys, p: Id)
    requires pol.oneAtATime && Reachable(pol, s) && Step(pol, s, a, s') && p in s.db.payouts
    ensures p in s'.db.payouts
    ensures s'.db.payouts[p].status == s.db.payouts[p].status
         || CanTransition(s.db.payouts[p].status, s'.db.payouts[p].status)
  {
    hide Inv, Do, Allowed, Reachable, Settled, Recorded, StoredReason, SeenColumn;
    ReachablePolicyInv(pol, s);
    RowsOf(s, a, s');
    hide PreparedOk;
    if a.Record? && RecordsBy(s, a.w, a.eventId, s') && p == s.workers[a.w].msg.entityId {
      RecordedStatus(s.db.payouts[p], s.workers[a.w].stage.result);
    }
  }

  lemma RecordedStatus(row: Payout, r: ProviderResult)
    requires r.status.Final()
    ensures Recorded(row, r).status == r.status
  {
  }

  /** One delivery at a time: no provider call is made for a payout that is final. */
  lemma NoCallAfterFinal(pol: Policy, s: Sys, w: nat, s': Sys)
    requires pol.oneAtATime && Reachable(pol, s) && Step(pol, s, CallProvider(w), s')
    ensures w in s.workers && s.workers[w].stage.Ready?
    ensures var p := s.workers[w].stage.prepared.payoutId;
      p in s.db.payouts && s.db.payouts[p].status == Processing
  {
    ReachablePolicyInv(pol, s);
    InvParts(s);
    WorkerIsOk(s, w);
    hide Inv, Reachable, Settled, InputOf;
  }

  /** One delivery at a time, or a provider whose result is a function of its input:
      the first recorded final status and reason of a payout never change. */
  lemma FinalNeverChanges(pol: Policy, s: Sys, acts: seq<Action>, s': Sys, p: Id)
    requires Disciplined(pol) && Reachable(pol, s) && Runs(pol, s, acts, s')
    requires p in s.db.payouts && s.db.payouts[p].status.Final()
    ensures p in s'.db.payouts && s'.db.payouts[p] == s.db.payouts[p]
  {
    hide Reachable, Runs;
    ReachablePolicyInv(pol, s);
    FinalFixed(pol, s, acts, s', p);
  }

  lemma {:induction false} FinalFixed(pol: Policy, s: Sys, acts: seq<Action>, s': Sys, p: Id)
    requires Disciplined(pol) && Inv(s) && PolicyInv(pol, s) && Runs(pol, s, acts, s')
    requires p in s.db.payouts && s.db.payouts[p].status.Final()
    ensures p in s'.db.payouts && s'.db.payouts[p] == s.db.payouts[p]
    decreases |acts|
  {
    hide Inv, PolicyInv, Do, Allowed;
    if acts != [] {
      var s1 := Do(s, acts[0]).value;
      FinalStep(pol, s, acts[0], s1, p);
      StepKeepsPolicyInv(pol, s, acts[0], s1);
      FinalFixed(pol, s1, acts[1..], s', p);
    }
  }

  lemma FinalStep(pol: Policy, s: Sys, a: Action, s': Sys, p: Id)
    requires Disciplined(pol) && Inv(s) && PolicyInv(pol, s) && Step(pol, s, a, s')
    requires p in s.db.payouts && s.db.payouts[p].status.Final()
    ensures p in s'.db.payouts && s'.db.payouts[p] == s.db.payouts[p]
  {
    hide Inv, Do, Allowed, Recorded, StoredReason, SeenColumn, InputOf, HasResult, ReasonsMatch;
    RowsOf(s, a, s');
    if a.Record? && RecordsBy(s, a.w, a.eventId, s') && p == s.workers[a.w].msg.entityId {
      if !pol.oneAtATime {
        SameResultAgain(s.db.payouts[p], s.workers[a.w].stage.result);
      }
    }
  }

  /** Recording the result a payout already carries changes nothing. */
  lemma SameResultAgain(row: Payout, r: ProviderResult)
    requires r.status.Final() && HasResult(row, r)
    ensures Recorded(row, r) == row
  {
    hide StoredReason;
  }

  /** The updates carry no status guard. Recording a result over a final row leaves it as
      it is exactly when the result has its status and, if failed, its reason. */
  lemma RecordingKeepsRowIff(row: Payout, r: ProviderResult)
    requires row.status.Final() && r.status.Final()
    ensures Recorded(row, r) == row
       <==> r.status == row.status && (r.status == Failed ==> StoredReason(r) == row.failureReason)
  {
    hide StoredReason;
  }

  /** The step records a worker's result for the payout and commits: the result is final,
      its stored reason has no zero byte if it failed, and the webhook event's identifier is
      new if the payout's client has a URL. */
  ghost predicate Commits(s: Sys, a: Action, p: Id) {
    && a.Record? && a.w in s.workers && s.workers[a.w].stage.Answered?
    && s.workers[a.w].stage.prepared.payoutId == p && Recordable(s.workers[a.w].stage.result)
    && (HasTarget(SeenColumn(s.db, p)) ==> a.eventId !in s.db.events)
  }

  ghost function Committed(s: Sys, a: Action): ProviderResult
    requires a.Record? && a.w in s.workers && s.workers[a.w].stage.Answered?
  {
    s.workers[a.w].stage.result
  }

  /** What a step does to one payout: it records a result over it, starts it, or leaves it. */
  ghost predicate RowFollows(s: Sys, a: Action, p: Id, s': Sys)
    requires p in s.db.payouts
  {
    var row := s.db.payouts[p];
    && p in s'.db.payouts
    && (Commits(s, a, p) ==>
          && (row.status == Processing || row.status.Final()) && s'.db.payouts[p] == Recorded(row, Committed(s, a))
          && s'.history.recordings == s.history.recordings + [Recording(p, Committed(s, a), SeenColumn(s.db, p))])
    && (!Commits(s, a, p) ==>
          && (s'.db.payouts[p] == row || (row.status == Pending && s'.db.payouts[p] == row.(status := Processing)))
          && SameRecordingsOf(s, p, s'))
  }

  /** No recording of the payout is added. */
  ghost predicate SameRecordingsOf(s: Sys, p: Id, s': Sys) {
    || s'.history.recordings == s.history.recordings
    || exists other: Recording :: other.payoutId != p && s'.history.recordings == s.history.recordings + [other]
  }

  lemma RowAfter(s: Sys, a: Action, s': Sys, p: Id)
    requires Inv(s) && Do(s, a) == Some(s') && p in s.db.payouts
    ensures RowFollows(s, a, p, s')
  {
    hide Inv, Do, RowsStep, Prepares, Untouched, RecordsBy, Commits, RowFollows;
    if a.Record? {
      RecordAction(s, a, s');
      RecordChanges(s, a, s', p);
    } else {
      RowsOf(s, a, s');
      RecordingsStay(s, a, s');
      OtherChanges(s, a, s', p);
    }
  }

  /** Without any restriction: a step changes a payout's status only as CanTransition
      allows, if and only if it does not commit another status over a final one. */
  lemma TransitionUnlessOverwritten(pol: Policy, s: Sys, a: Action, s': Sys, p: Id)
    requires Reachable(pol, s) && Step(pol, s, a, s') && p in s.db.payouts
    ensures p in s'.db.payouts
    ensures s'.db.payouts[p].status == s.db.payouts[p].status
         || CanTransition(s.db.payouts[p].status, s'.db.payouts[p].status)
       <==> !(Commits(s, a, p) && s.db.payouts[p].status.Final() && Committed(s, a).status != s.db.payouts[p].status)
  {
    hide Inv, Reachable, Allowed, Do, SameRecordingsOf, SeenColumn, StoredReason;
    ReachableInv(pol, s);
    RowAfter(s, a, s', p);
  }

  /** Without any restriction: a step leaves a final payout's row as it is, if and only if
      it does not commit another status over it or, to a failed one, another reason. */
  lemma FinalRowKeptIff(pol: Policy, s: Sys, a: Action, s': Sys, p: Id)
    requires Reachable(pol, s) && Step(pol, s, a, s') && p in s.db.payouts && s.db.payouts[p].status.Final()
    ensures p in s'.db.payouts
    ensures s'.db.payouts[p] == s.db.payouts[p]
       <==> !(Commits(s, a, p)
              && (Committed(s, a).status != s.db.payouts[p].status
                  || (Committed(s, a).status == Failed && StoredReason(Committed(s, a)) != s.db.payouts[p].failureReason)))
  {
    hide Inv, Reachable, Allowed, Do, SameRecordingsOf, SeenColumn, StoredReason, Recorded;
    ReachableInv(pol, s);
    RowAfter(s, a, s', p);
    if Commits(s, a, p) {
      RecordingKeepsRowIff(s.db.payouts[p], Committed(s, a));
    }
  }

  /** With contract results and no other restriction: a step keeps a payout's reason
      matching its status, if and only if it does not commit a success over a reason. */
  lemma ReasonKeptIff(pol: Policy, s: Sys, a: Action, s': Sys, p: Id)
    requires pol.validated && Reachable(pol, s) && Step(pol, s, a, s')
    requires p in s.db.payouts && ReasonMatches(s.db.payouts[p])
    ensures p in s'.db.payouts
    ensures ReasonMatches(s'.db.payouts[p])
       <==> !(Commits(s, a, p) && Committed(s, a).status == Succeeded && s.db.payouts[p].failureReason.Some?)
  {
    hide Inv, Reachable, Allowed, Do, PolicyInv, SameRecordingsOf, SeenColumn, StoredReason, Recorded, Blank, ValidateResult;
    ReachablePolicyInv(pol, s);
    RowAfter(s, a, s', p);
    if Commits(s, a, p) {
      CommittedIsValid(pol, s, a);
      ReasonMatchesIff(s.db.payouts[p], Committed(s, a));
    }
  }

  lemma CommittedIsValid(pol: Policy, s: Sys, a: Action)
    requires pol.validated && PolicyInv(pol, s)
    requires a.Record? && a.w in s.workers && s.workers[a.w].stage.Answered?
    ensures ValidateResult(Committed(s, a))
  {
    hide ValidateResult, Settled, ReasonsMatch, Solo, UnfinishedBare;
  }

  lemma RecordAction(s: Sys, a: Action, s': Sys)
    requires a.Record? && Do(s, a) == Some(s')
    ensures DoRecord(s, a.w, a.eventId) == Some(s')
  {
    hide DoRecord;
  }

  lemma OtherChanges(s: Sys, a: Action, s': Sys, p: Id)
    requires RowsStep(s, a, s') && !a.Record? && p in s.db.payouts
    requires s'.history.recordings == s.history.recordings
    ensures RowFollows(s, a, p, s')
  {
    hide RecordsBy;
  }

  lemma RecordingsStay(s: Sys, a: Action, s': Sys)
    requires !a.Record? && Do(s, a) == Some(s')
    ensures s'.history.recordings == s.history.recordings
  {
    hide Normalize, LoadIdempotentPayout, ReplyWith, ReplyFound, InsertTx, IsNext, PrepareTx, GiveBack, MarkProcessed, ReleaseClaim;
  }

  lemma RecordChanges(s: Sys, a: Action, s': Sys, p: Id)
    requires a.Record? && Inv(s) && DoRecord(s, a.w, a.eventId) == Some(s') && p in s.db.payouts
    ensures RowFollows(s, a, p, s')
  {
    hide Inv, Consistent, ProcessesOk, WorkerOk, RecordTx, StoredReason, TargetUrl, PreparedOk, PayoutsOk, Recorded;
    InvParts(s);
    WorkerIsOk(s, a.w);
    var worker := s.workers[a.w];
    AnsweredPayout(s.db, worker);
    StartedStatus(s.db, worker);
    RecordTxEffect(s.db, worker.msg.entityId, worker.stage.result, a.eventId, s.now);
    RecordedClient(s.db.payouts[worker.msg.entityId], worker.stage.result);
    TargetUrlIff(SeenColumn(s.db, worker.msg.entityId), "");
    if RecordTx(s.db, worker.msg.entityId, worker.stage.result, a.eventId, s.now).Ok? && p != worker.msg.entityId {
      assert SameRecordingsOf(s, p, s');
    }
  }

  lemma RecordedClient(row: Payout, r: ProviderResult)
    ensures Recorded(row, r).clientId == row.clientId
  {
  }

  lemma StartedStatus(db: Db, worker: Worker)
    requires Consistent(db) && WorkerOk(db, worker) && worker.stage.Answered?
    ensures worker.msg.Job? && worker.msg.entityId in db.payouts
    ensures db.payouts[worker.msg.entityId].status == Processing || db.payouts[worker.msg.entityId].status.Final()
  {
    assert PayoutOk(db, worker.msg.entityId);
  }

  /** With results that meet the provider contract, and one delivery at a time or a
      provider function: a payout has a non-blank reason exactly when it is failed. */
  lemma ReasonExactlyWhenFailed(pol: Policy, s: Sys, p: Id)
    requires pol.validated && Disciplined(pol) && Reachable(pol, s) && p in s.db.payouts
    ensures s.db.payouts[p].status == Failed
       <==> s.db.payouts[p].failureReason.Some? && !Blank(s.db.payouts[p].failureReason.value)
  {
    hide Reachable, Inv, UnfinishedBare, AnswersAllowed, Solo, Settled, Blank;
    ReachablePolicyInv(pol, s);
    assert ReasonMatches(s.db.payouts[p]);
  }
}
