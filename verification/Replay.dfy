/** A payout's row is a function of its committed recordings: over every run, with no
    restriction, its status is that of the last one and its reason that of the last failure. */
module Replay {
  import opened Prelude
  import opened Domain
  import opened Tables
  import opened Transactions
  import opened Consistency
  import opened Pipeline
  import opened Safety
  import opened SafetySteps
  import opened Effects
  import opened Restricted

  /** The result recorded last for `p`. */
  function LastOf(recordings: seq<Recording>, p: Id): Option<ProviderResult> {
    if recordings == [] then None
    else
      var last := recordings[|recordings| - 1];
      if last.payoutId == p then Some(last.result) else LastOf(recordings[..|recordings| - 1], p)
  }

  /** The reason that the last failure recorded for `p` left. */
  function LastReason(recordings: seq<Recording>, p: Id): Option<string> {
    if recordings == [] then None
    else
      var last := recordings[|recordings| - 1];
      if last.payoutId == p && last.result.status == Failed then StoredReason(last.result)
      else LastReason(recordings[..|recordings| - 1], p)
  }

  predicate Failure(r: Recording, p: Id) { r.payoutId == p && r.result.status == Failed }

  ghost predicate EverFailed(recordings: seq<Recording>, p: Id) {
    exists i :: 0 <= i < |recordings| && Failure(recordings[i], p)
  }

  predicate Replayed(row: Payout, last: Option<ProviderResult>, reason: Option<string>) {
    && (last == None ==> !row.status.Final() && row.failureReason == None)
    && (last.Some? ==> last.value.status.Final() && row.status == last.value.status && row.failureReason == reason)
  }

  ghost predicate ReplaysRow(s: Sys, p: Id) {
    if p in s.db.payouts
    then Replayed(s.db.payouts[p], LastOf(s.history.recordings, p), LastReason(s.history.recordings, p))
    else LastOf(s.history.recordings, p) == None
  }

  ghost predicate Replays(s: Sys) { forall p :: ReplaysRow(s, p) }

  /** Recorded results are ones the provider contract allows. */
  ghost predicate ContractResults(pol: Policy, recordings: seq<Recording>) {
    pol.validated ==> forall i :: 0 <= i < |recordings| ==> ValidateResult(recordings[i].result)
  }

  lemma OneMoreRecording(recordings: seq<Recording>, r: Recording, p: Id)
    ensures LastOf(recordings + [r], p) == if r.payoutId == p then Some(r.result) else LastOf(recordings, p)
    ensures LastReason(recordings + [r], p) == if Failure(r, p) then StoredReason(r.result) else LastReason(recordings, p)
  {
    assert (recordings + [r])[..|recordings|] == recordings;
  }

  lemma {:induction false} NoReasonYet(recordings: seq<Recording>, p: Id)
    requires LastOf(recordings, p) == None
    ensures LastReason(recordings, p) == None
  {
    if recordings != [] {
      NoReasonYet(recordings[..|recordings| - 1], p);
    }
  }

  // ---------------------------------------------------------------- one step

  lemma SameRecordingsReplay(s: Sys, p: Id, s': Sys)
    requires SameRecordingsOf(s, p, s')
    ensures LastOf(s'.history.recordings, p) == LastOf(s.history.recordings, p)
    ensures LastReason(s'.history.recordings, p) == LastReason(s.history.recordings, p)
  {
    if s'.history.recordings != s.history.recordings {
      var other: Recording :| other.payoutId != p && s'.history.recordings == s.history.recordings + [other];
      OneMoreRecording(s.history.recordings, other, p);
    }
  }

  lemma RecordedReplays(row: Payout, recordings: seq<Recording>, r: ProviderResult, column: Option<string>, p: Id)
    requires r.status.Final() && Replayed(row, LastOf(recordings, p), LastReason(recordings, p))
    ensures var after := recordings + [Recording(p, r, column)];
      Replayed(Recorded(row, r), LastOf(after, p), LastReason(after, p))
  {
    OneMoreRecording(recordings, Recording(p, r, column), p);
    if LastOf(recordings, p) == None {
      NoReasonYet(recordings, p);
    }
    hide LastOf, LastReason, StoredReason;
  }

  lemma StoredRowReplays(s: Sys, a: Action, s': Sys, p: Id)
    requires p in s.db.payouts && ReplaysRow(s, p) && RowFollows(s, a, p, s')
    ensures ReplaysRow(s', p)
  {
    hide LastOf, LastReason, SameRecordingsOf, Recorded, StoredReason, SeenColumn;
    if Commits(s, a, p) {
      RecordedReplays(s.db.payouts[p], s.history.recordings, Committed(s, a), SeenColumn(s.db, p), p);
    } else {
      SameRecordingsReplay(s, p, s');
    }
  }

  /** A payout that is not stored yet has no recordings, and starts out pending. */
  lemma NewRowReplays(s: Sys, a: Action, s': Sys, p: Id)
    requires Inv(s) && Do(s, a) == Some(s') && p !in s.db.payouts && ReplaysRow(s, p)
    ensures ReplaysRow(s', p)
  {
    hide Inv, Do, LastOf, LastReason, Recorded, StoredReason, SeenColumn, PreparedOk, Prepares;
    RowsOf(s, a, s');
    if !a.Record? {
      RecordingsStay(s, a, s');
    } else if RecordsBy(s, a.w, a.eventId, s') {
      OneMoreRecording(s.history.recordings, s'.history.recordings[|s.history.recordings|], p);
    } else {
      UntouchedRows(s, s');
    }
    if p in s'.db.payouts {
      NoReasonYet(s.history.recordings, p);
    }
  }

  lemma StepReplays(s: Sys, a: Action, s': Sys)
    requires Inv(s) && Replays(s) && Do(s, a) == Some(s')
    ensures Replays(s')
  {
    hide Inv, Do, ReplaysRow, RowFollows;
    forall p ensures ReplaysRow(s', p) {
      assert ReplaysRow(s, p);
      if p in s.db.payouts {
        RowAfter(s, a, s', p);
        StoredRowReplays(s, a, s', p);
      } else {
        NewRowReplays(s, a, s', p);
      }
    }
  }

  lemma StepKeepsContract(pol: Policy, s: Sys, a: Action, s': Sys)
    requires Inv(s) && PolicyInv(pol, s) && ContractResults(pol, s.history.recordings) && Do(s, a) == Some(s')
    ensures ContractResults(pol, s'.history.recordings)
  {
    hide Inv, Do, PolicyInv, ValidateResult, Recorded, SeenColumn, PreparedOk, RowsStep, Prepares;
    RowsOf(s, a, s');
    if !a.Record? {
      RecordingsStay(s, a, s');
    } else if RecordsBy(s, a.w, a.eventId, s') {
      if pol.validated {
        CommittedIsValid(pol, s, a);
      }
    } else {
      UntouchedRows(s, s');
    }
  }

  lemma {:induction false} RunReplays(pol: Policy, s: Sys, acts: seq<Action>, s': Sys)
    requires Inv(s) && PolicyInv(pol, s) && Replays(s) && ContractResults(pol, s.history.recordings)
    requires Runs(pol, s, acts, s')
    ensures Replays(s') && ContractResults(pol, s'.history.recordings)
    decreases |acts|
  {
    hide Inv, PolicyInv, Replays, ContractResults, Do, Allowed;
    if acts != [] {
      var s1 := Do(s, acts[0]).value;
      StepReplays(s, acts[0], s1);
      StepKeepsContract(pol, s, acts[0], s1);
      StepKeepsPolicyInv(pol, s, acts[0], s1);
      RunReplays(pol, s1, acts[1..], s');
    }
  }

  lemma ReachableReplays(pol: Policy, s: Sys)
    requires Reachable(pol, s)
    ensures Replays(s) && ContractResults(pol, s.history.recordings)
  {
    var s0, acts :| Initial(s0) && Runs(pol, s0, acts, s);
    InitialInv(s0);
    InitialPolicyInv(pol, s0);
    assert Replays(s0) && ContractResults(pol, s0.history.recordings);
    hide Inv, PolicyInv, Replays, ContractResults, Runs, Initial;
    RunReplays(pol, s0, acts, s);
  }

  // ---------------------------------------------------------------- guarantees

  /** Over every run a payout is final exactly when something was recorded for it, and then
      its status is the last result's and its reason that of the last recorded failure. */
  lemma RowReplaysRecordings(pol: Policy, s: Sys, p: Id)
    requires Reachable(pol, s) && p in s.db.payouts
    ensures s.db.payouts[p].status.Final() <==> LastOf(s.history.recordings, p).Some?
    ensures LastOf(s.history.recordings, p).Some? ==>
      && s.db.payouts[p].status == LastOf(s.history.recordings, p).value.status
      && s.db.payouts[p].failureReason == LastReason(s.history.recordings, p)
  {
    hide Reachable, LastOf, LastReason;
    ReachableReplays(pol, s);
    assert ReplaysRow(s, p);
  }

  lemma {:induction false} ReasonIffEverFailed(recordings: seq<Recording>, p: Id)
    requires forall i :: 0 <= i < |recordings| ==> ValidateResult(recordings[i].result)
    ensures LastReason(recordings, p).Some? <==> EverFailed(recordings, p)
    ensures LastReason(recordings, p).Some? ==> !Blank(LastReason(recordings, p).value)
  {
    hide Blank;
    if recordings != [] {
      var init, last := recordings[..|recordings| - 1], recordings[|recordings| - 1];
      ReasonIffEverFailed(init, p);
      assert ValidateResult(last.result);
      if EverFailed(init, p) {
        var i :| 0 <= i < |init| && Failure(init[i], p);
        assert Failure(recordings[i], p);
      }
      if EverFailed(recordings, p) && !Failure(last, p) {
        var i :| 0 <= i < |recordings| && Failure(recordings[i], p);
        assert Failure(init[i], p);
      }
    }
  }

  /** With contract results and no other restriction, over every run: a payout has a
      non-blank reason exactly when it is failed, if and only if it is not one whose last
      recorded result is a success after a recorded failure. */
  lemma ReasonMatchesUnlessRecovered(pol: Policy, s: Sys, p: Id)
    requires pol.validated && Reachable(pol, s) && p in s.db.payouts
    ensures ReasonMatches(s.db.payouts[p])
       <==> !(LastOf(s.history.recordings, p).Some? && LastOf(s.history.recordings, p).value.status == Succeeded
              && EverFailed(s.history.recordings, p))
  {
    hide Reachable, Inv, LastReason, EverFailed, ValidateResult, Blank;
    ReachableReplays(pol, s);
    ReachableStatus(pol, s, p);
    assert ReplaysRow(s, p);
    ReasonIffEverFailed(s.history.recordings, p);
    if LastOf(s.history.recordings, p).Some? && LastOf(s.history.recordings, p).value.status == Failed {
      LastFailed(s.history.recordings, p);
    }
  }

  lemma ReachableStatus(pol: Policy, s: Sys, p: Id)
    requires Reachable(pol, s) && p in s.db.payouts
    ensures s.db.payouts[p].status.Valid()
  {
    hide Reachable, ProcessesOk, NothingLost, DispatchedHandedOver;
    ReachableInv(pol, s);
    assert PayoutOk(s.db, p);
  }

  lemma {:induction false} LastFailed(recordings: seq<Recording>, p: Id)
    requires LastOf(recordings, p).Some? && LastOf(recordings, p).value.status == Failed
    ensures EverFailed(recordings, p)
  {
    var init, last := recordings[..|recordings| - 1], recordings[|recordings| - 1];
    if last.payoutId == p {
      assert Failure(recordings[|recordings| - 1], p);
    } else {
      LastFailed(init, p);
      var i :| 0 <= i < |init| && Failure(init[i], p);
      assert Failure(recordings[i], p);
    }
  }
}
