/** The relay's lease. When every relay finishes within the claim timeout of its claim, or
    dies, no two relays hold one event, a processed event stays processed, and dispatches
    are accounted for by interruptions. Without that, a release undoes the mark. */
module Lease {
  import opened Prelude
  import opened Tables
  import opened Transactions
  import opened Consistency
  import opened Pipeline
  import opened Safety
  import opened SafetySteps

  /** A live relay's claim is the one on its event's row, and it is still in time. */
  ghost predicate Holds(events: map<Id, Event>, now: int, timeout: nat, relay: Relay) {
    && relay.event in events
    && events[relay.event].status == EventProcessing
    && events[relay.event].claimedAt == Some(relay.claimedAt)
    && now <= relay.claimedAt + timeout
  }

  ghost predicate AllHold(s: Sys) {
    forall r :: r in s.relays ==> Holds(s.db.events, s.now, s.timeout, s.relays[r])
  }

  ghost predicate Exclusive(relays: map<nat, Relay>) {
    forall q, r :: q in relays && r in relays && relays[q].event == relays[r].event ==> q == r
  }

  ghost predicate IsDispatcher(relays: map<nat, Relay>, r: nat, e: Id) {
    r in relays && relays[r].stage == Dispatched && relays[r].event == e
  }

  ghost predicate BetweenDispatchAndMark(relays: map<nat, Relay>, e: Id) { exists r :: IsDispatcher(relays, r, e) }

  ghost predicate IsProcessed(events: map<Id, Event>, e: Id) { e in events && events[e].status == EventProcessed }

  /** Every successful dispatch ended in the mark, or was cut off between the two, or is
      between the two now. */
  ghost predicate Accounted(s: Sys) {
    forall e :: s.history.dispatches[e] == s.history.interruptions[e]
      + if IsProcessed(s.db.events, e) || BetweenDispatchAndMark(s.relays, e) then 1 else 0
  }

  ghost predicate LeaseInv(s: Sys) { AllHold(s) && Exclusive(s.relays) && Accounted(s) }

  lemma InitialLeaseInv(s: Sys)
    requires Initial(s)
    ensures LeaseInv(s)
  {
  }

  // ---------------------------------------------------------------- steps that leave claims alone

  /** Claims, processed marks and relays are as they were; time has not passed. */
  ghost predicate ClaimsKept(s: Sys, s': Sys) {
    && s'.relays == s.relays && s'.now == s.now && s'.timeout == s.timeout
    && s'.history.dispatches == s.history.dispatches && s'.history.interruptions == s.history.interruptions
    && (forall e :: e in s.db.events ==> e in s'.db.events && s'.db.events[e] == s.db.events[e])
    && (forall e :: e in s'.db.events && e !in s.db.events ==> s'.db.events[e].status == EventPending)
  }

  lemma KeptClaims(s: Sys, s': Sys)
    requires LeaseInv(s) && ClaimsKept(s, s')
    ensures LeaseInv(s')
  {
  }

  lemma EnvironmentKeepsClaims(s: Sys, a: Action, s': Sys)
    requires a.AddClient? || a.SetWebhook? || a.AddSource? || a.StrayMessage?
          || a.Begin? || a.ReadKey? || a.Insert? || a.Reload? || a.Abandon?
    requires Do(s, a) == Some(s')
    ensures ClaimsKept(s, s')
  {
    hide Normalize, LoadIdempotentPayout, ReplyWith, ReplyFound;
    if a.Insert? {
      hide Do;
      InsertKeepsClaims(s, a, s');
    }
  }

  lemma InsertKeepsClaims(s: Sys, a: Action, s': Sys)
    requires a.Insert? && Do(s, a) == Some(s')
    ensures ClaimsKept(s, s')
  {
    hide InsertTx, ReplyWith, RequestHash, NewRow;
    var call := s.creators[a.c].call;
    if InsertTx(s.db, call, a.id, a.eventId, s.now).Ok? {
      InsertTxEffect(s.db, call, a.id, a.eventId, s.now);
    }
  }

  lemma DeliveriesKeepClaims(s: Sys, a: Action, s': Sys)
    requires a.Deliver? || a.CallProvider? || a.Answer? || a.Finish? || a.WorkerError? || a.WorkerCrash? || a.Disconnect?
    requires Do(s, a) == Some(s')
    ensures ClaimsKept(s, s')
  {
    hide GiveBack;
  }

  lemma PrepareKeepsClaims(s: Sys, w: nat, s': Sys)
    requires Inv(s) && DoPrepare(s, w) == Some(s')
    ensures ClaimsKept(s, s')
  {
    hide Inv, Consistent, PrepareTx, PayoutsOk, EventsOk, InputOf;
    InvParts(s);
    EventsOkOf(s.db);
    if s.workers[w].msg.Job? && !s.workers[w].msg.payload.Unreadable? {
      PrepareTxEffect(s.db, s.workers[w].msg.payload.clientId, s.workers[w].msg.payload.payoutId);
    }
  }

  lemma RecordKeepsClaims(s: Sys, w: nat, eventId: Id, s': Sys)
    requires Inv(s) && DoRecord(s, w, eventId) == Some(s')
    ensures ClaimsKept(s, s')
  {
    hide Inv, Consistent, ProcessesOk, RecordTx, WorkerOk, SeenColumn, Recorded, TargetUrl;
    InvParts(s);
    WorkerIsOk(s, w);
    AnsweredPayout(s.db, s.workers[w]);
    RecordTxEffect(s.db, s.workers[w].msg.entityId, s.workers[w].stage.result, eventId, s.now);
  }

  // ---------------------------------------------------------------- relay steps

  lemma TickHolds(pol: Policy, s: Sys, d: nat, s': Sys)
    requires pol.timely && LeaseInv(s) && Step(pol, s, Tick(d), s')
    ensures LeaseInv(s')
  {
  }

  /** Nobody in time holds an event that the claim query may pick. */
  lemma PickedIsFree(s: Sys, started: int, locked: set<Id>, event: Id)
    requires AllHold(s) && started <= s.now && IsNext(s.db, RELAY_TYPES, started - s.timeout, locked, event)
    ensures forall r :: r in s.relays ==> s.relays[r].event != event
    ensures !IsProcessed(s.db.events, event) && event in s.db.events
  {
    assert Eligible(s.db.events[event], RELAY_TYPES, started - s.timeout);
  }

  lemma ClaimHolds(s: Sys, r: nat, started: int, locked: set<Id>, event: Id, s': Sys)
    requires LeaseInv(s) && DoClaim(s, r, started, locked, event) == Some(s')
    ensures LeaseInv(s')
  {
    PickedIsFree(s, started, locked, event);
    hide IsNext, JobOf;
    forall e ensures BetweenDispatchAndMark(s'.relays, e) <==> BetweenDispatchAndMark(s.relays, e) {
      assert forall q :: IsDispatcher(s'.relays, q, e) <==> IsDispatcher(s.relays, q, e);
    }
  }

  lemma DispatchHolds(s: Sys, r: nat, outcome: PublishOutcome, s': Sys)
    requires LeaseInv(s) && DoDispatch(s, r, outcome) == Some(s')
    ensures LeaseInv(s')
  {
    var event := s.relays[r].event;
    assert Holds(s.db.events, s.now, s.timeout, s.relays[r]);
    forall e ensures BetweenDispatchAndMark(s'.relays, e)
      <==> BetweenDispatchAndMark(s.relays, e) || (outcome.Delivered? && e == event)
    {
      assert forall q :: IsDispatcher(s'.relays, q, e) <==> IsDispatcher(s.relays, q, e) || (outcome.Delivered? && q == r && e == event);
      assert outcome.Delivered? && e == event ==> IsDispatcher(s'.relays, r, e);
    }
    assert !BetweenDispatchAndMark(s.relays, event) by {
      assert forall q :: IsDispatcher(s.relays, q, event) ==> q == r;
    }
    assert AllHold(s') && Exclusive(s'.relays);
  }

  /** A relay that ends is no longer between dispatch and mark; the others are as before. */
  lemma OthersDispatch(s: Sys, r: nat, e: Id)
    requires Exclusive(s.relays) && r in s.relays
    ensures BetweenDispatchAndMark(s.relays - {r}, e) <==> BetweenDispatchAndMark(s.relays, e) && e != s.relays[r].event
    ensures BetweenDispatchAndMark(s.relays, s.relays[r].event) <==> s.relays[r].stage == Dispatched
  {
    assert forall q :: IsDispatcher(s.relays - {r}, q, e) <==> IsDispatcher(s.relays, q, e) && q != r;
    assert forall q :: IsDispatcher(s.relays, q, s.relays[r].event) ==> q == r;
    if s.relays[r].stage == Dispatched {
      assert IsDispatcher(s.relays, r, s.relays[r].event);
    }
    if BetweenDispatchAndMark(s.relays, e) && e != s.relays[r].event {
      var q :| IsDispatcher(s.relays, q, e);
      assert IsDispatcher(s.relays - {r}, q, e);
    }
  }

  lemma EndHolds(s: Sys, r: nat, s': Sys)
    requires LeaseInv(s) && (DoMark(s, r) == Some(s') || DoRelease(s, r) == Some(s') || DoRelayCrash(s, r) == Some(s'))
    ensures LeaseInv(s')
  {
    var event := s.relays[r].event;
    assert Holds(s.db.events, s.now, s.timeout, s.relays[r]);
    hide BetweenDispatchAndMark;
    forall e ensures s'.history.dispatches[e] == s'.history.interruptions[e]
      + if IsProcessed(s'.db.events, e) || BetweenDispatchAndMark(s'.relays, e) then 1 else 0
    {
      OthersDispatch(s, r, e);
    }
    assert AllHold(s') && Exclusive(s'.relays);
  }

  // ---------------------------------------------------------------- every step, every run

  lemma StepKeepsLease(pol: Policy, s: Sys, a: Action, s': Sys)
    requires pol.timely && Inv(s) && LeaseInv(s) && Step(pol, s, a, s')
    ensures LeaseInv(s')
  {
    hide Inv, LeaseInv, ClaimsKept, DoClaim, DoDispatch, DoMark, DoRelease, DoRelayCrash, DoPrepare, DoRecord, DoTick;
    if a.Tick? {
      TickHolds(pol, s, a.d, s');
    } else if a.Claim? {
      ClaimHolds(s, a.r, a.started, a.locked, a.event, s');
    } else if a.Dispatch? {
      DispatchHolds(s, a.r, a.outcome, s');
    } else if a.Mark? || a.Release? || a.RelayCrash? {
      EndHolds(s, a.r, s');
    } else {
      QuietKeepsClaims(s, a, s');
      KeptClaims(s, s');
    }
  }

  lemma QuietKeepsClaims(s: Sys, a: Action, s': Sys)
    requires !a.Tick? && !a.Claim? && !a.Dispatch? && !a.Mark? && !a.Release? && !a.RelayCrash?
    requires Inv(s) && Do(s, a) == Some(s')
    ensures ClaimsKept(s, s')
  {
    hide Inv, ClaimsKept, DoPrepare, DoRecord, DoAddClient, DoSetWebhook, DoAddSource, DoStrayMessage, DoBegin, DoReadKey,
      DoInsert, DoReload, DoAbandon, DoDeliver, DoCallProvider, DoAnswer, DoFinish, DoWorkerError, DoWorkerCrash, DoDisconnect;
    if a.Prepare? {
      PrepareKeepsClaims(s, a.w, s');
    } else if a.Record? {
      RecordKeepsClaims(s, a.w, a.eventId, s');
    } else if a.Deliver? || a.CallProvider? || a.Answer? || a.Finish? || a.WorkerError? || a.WorkerCrash? || a.Disconnect? {
      DeliveriesKeepClaims(s, a, s');
    } else {
      EnvironmentKeepsClaims(s, a, s');
    }
  }

  lemma {:induction false} RunKeepsLease(pol: Policy, s: Sys, acts: seq<Action>, s': Sys)
    requires pol.timely && Inv(s) && LeaseInv(s) && Runs(pol, s, acts, s')
    ensures Inv(s') && LeaseInv(s')
    decreases |acts|
  {
    hide Inv, LeaseInv, Do, Allowed, Evolves;
    if acts != [] {
      var s1 := Do(s, acts[0]).value;
      StepKeepsLease(pol, s, acts[0], s1);
      StepKeepsInv(s, acts[0], s1);
      RunKeepsLease(pol, s1, acts[1..], s');
    }
  }

  lemma ReachableLease(pol: Policy, s: Sys)
    requires pol.timely && Reachable(pol, s)
    ensures Inv(s) && LeaseInv(s)
  {
    var s0, acts :| Initial(s0) && Runs(pol, s0, acts, s);
    InitialInv(s0);
    InitialLeaseInv(s0);
    hide Inv, LeaseInv, Runs, Initial;
    RunKeepsLease(pol, s0, acts, s);
  }

  // ---------------------------------------------------------------- guarantees

  /** At most one live relay holds an event, and what it holds is not processed. */
  lemma OneHolder(pol: Policy, s: Sys, q: nat, r: nat)
    requires pol.timely && Reachable(pol, s) && q in s.relays && r in s.relays
    ensures s.relays[q].event == s.relays[r].event ==> q == r
    ensures !IsProcessed(s.db.events, s.relays[r].event)
  {
    hide Reachable, Inv, Accounted;
    ReachableLease(pol, s);
    assert Holds(s.db.events, s.now, s.timeout, s.relays[r]);
  }

  /** A processed event is never claimed, dispatched or released again: it stays processed
      over any timely run, and its successful dispatches stay as many. */
  lemma ProcessedIsFinal(pol: Policy, s: Sys, acts: seq<Action>, s': Sys, e: Id)
    requires pol.timely && Reachable(pol, s) && Runs(pol, s, acts, s') && IsProcessed(s.db.events, e)
    ensures IsProcessed(s'.db.events, e)
    ensures s'.history.dispatches[e] == s.history.dispatches[e]
  {
    hide Reachable, Runs, IsProcessed;
    ReachableLease(pol, s);
    ProcessedStays(pol, s, acts, s', e);
  }

  lemma {:induction false} ProcessedStays(pol: Policy, s: Sys, acts: seq<Action>, s': Sys, e: Id)
    requires pol.timely && Inv(s) && LeaseInv(s) && Runs(pol, s, acts, s') && IsProcessed(s.db.events, e)
    ensures IsProcessed(s'.db.events, e)
    ensures s'.history.dispatches[e] == s.history.dispatches[e]
    decreases |acts|
  {
    hide Inv, LeaseInv, Do, Allowed, Evolves, IsProcessed;
    if acts != [] {
      var s1 := Do(s, acts[0]).value;
      StepKeepsLease(pol, s, acts[0], s1);
      StepKeepsInv(s, acts[0], s1);
      ProcessedStep(pol, s, acts[0], s1, e);
      ProcessedStays(pol, s1, acts[1..], s', e);
    }
  }

  lemma ProcessedStep(pol: Policy, s: Sys, a: Action, s': Sys, e: Id)
    requires pol.timely && Inv(s) && LeaseInv(s) && Step(pol, s, a, s') && IsProcessed(s.db.events, e)
    ensures IsProcessed(s'.db.events, e) && s'.history.dispatches[e] == s.history.dispatches[e]
  {
    hide Inv, Accounted, Allowed, ClaimsKept;
    if a.Tick? || a.Claim? || a.Dispatch? || a.Mark? || a.Release? || a.RelayCrash? {
      RelayActionKeepsProcessed(s, a, s', e);
    } else {
      hide Do;
      QuietKeepsClaims(s, a, s');
      KeptProcessed(s, s', e);
    }
  }

  lemma KeptProcessed(s: Sys, s': Sys, e: Id)
    requires ClaimsKept(s, s') && IsProcessed(s.db.events, e)
    ensures IsProcessed(s'.db.events, e) && s'.history.dispatches[e] == s.history.dispatches[e]
  {
  }

  lemma RelayActionKeepsProcessed(s: Sys, a: Action, s': Sys, e: Id)
    requires a.Tick? || a.Claim? || a.Dispatch? || a.Mark? || a.Release? || a.RelayCrash?
    requires AllHold(s) && Do(s, a) == Some(s') && IsProcessed(s.db.events, e)
    ensures IsProcessed(s'.db.events, e) && s'.history.dispatches[e] == s.history.dispatches[e]
  {
    if !a.Tick? && !a.Claim? {
      assert Holds(s.db.events, s.now, s.timeout, s.relays[a.r]);
    }
    hide JobOf;
  }

  /** The successful dispatches of an event are its interruptions between dispatch and
      mark, and one more if it is processed or a relay is between the two. */
  lemma DispatchesAreAccounted(pol: Policy, s: Sys, e: Id)
    requires pol.timely && Reachable(pol, s)
    ensures s.history.dispatches[e] == s.history.interruptions[e]
              + if IsProcessed(s.db.events, e) || BetweenDispatchAndMark(s.relays, e) then 1 else 0
  {
    hide Reachable, Inv, AllHold, Exclusive, IsProcessed, BetweenDispatchAndMark;
    ReachableLease(pol, s);
  }

  // ---------------------------------------------------------------- without the restriction

  /** Over all steps, restricted or not, a processed event becomes open again exactly when
      a relay that gave up on it releases its claim: mark and release look at the id only. */
  lemma OnlyAReleaseReopens(pol: Policy, s: Sys, a: Action, s': Sys, e: Id)
    requires Reachable(pol, s) && Do(s, a) == Some(s') && IsProcessed(s.db.events, e)
    ensures !IsProcessed(s'.db.events, e)
       <==> a.Release? && a.r in s.relays && s.relays[a.r].stage == Releasing && s.relays[a.r].event == e
  {
    hide Reachable, Inv, ClaimsKept;
    ReachableInv(pol, s);
    if a.Tick? || a.Claim? || a.Dispatch? || a.Mark? || a.Release? || a.RelayCrash? {
      ReopenedByRelay(s, a, s', e);
    } else {
      hide Do;
      QuietKeepsClaims(s, a, s');
      KeptProcessed(s, s', e);
    }
  }

  lemma ReopenedByRelay(s: Sys, a: Action, s': Sys, e: Id)
    requires a.Tick? || a.Claim? || a.Dispatch? || a.Mark? || a.Release? || a.RelayCrash?
    requires Do(s, a) == Some(s') && IsProcessed(s.db.events, e)
    ensures !IsProcessed(s'.db.events, e)
       <==> a.Release? && a.r in s.relays && s.relays[a.r].stage == Releasing && s.relays[a.r].event == e
  {
    hide JobOf, Do, IsProcessed;
    match a
    case Claim(r, started, locked, event) => ClaimKeepsProcessed(s, r, started, locked, event, s', e);
    case Mark(r) => EndOfClaim(s, r, s', e);
    case Release(r) => EndOfClaim(s, r, s', e);
    case _ => SameProcessed(s, a, s', e);
  }

  lemma SameProcessed(s: Sys, a: Action, s': Sys, e: Id)
    requires a.Tick? || a.Dispatch? || a.RelayCrash?
    requires Do(s, a) == Some(s')
    ensures s'.db == s.db
  {
    hide JobOf;
  }

  lemma ClaimKeepsProcessed(s: Sys, r: nat, started: int, locked: set<Id>, event: Id, s': Sys, e: Id)
    requires Do(s, Claim(r, started, locked, event)) == Some(s') && IsProcessed(s.db.events, e)
    ensures IsProcessed(s'.db.events, e)
  {
    hide JobOf;
    assert Eligible(s.db.events[event], RELAY_TYPES, started - s.timeout);
  }

  /** Mark and release set the status of the relay's event, whatever it was. */
  lemma EndOfClaim(s: Sys, r: nat, s': Sys, e: Id)
    requires IsProcessed(s.db.events, e)
    ensures Do(s, Mark(r)) == Some(s') ==> IsProcessed(s'.db.events, e)
    ensures Do(s, Release(r)) == Some(s') ==>
      (!IsProcessed(s'.db.events, e) <==> r in s.relays && s.relays[r].stage == Releasing && s.relays[r].event == e)
  {
  }

  /** In every reachable state an event's times are in order: created before it was claimed or
      processed, neither later than now; a claimed one is exactly one in processing, and a
      processed one has its time, which a later release leaves in place. */
  lemma StampsInOrder(pol: Policy, s: Sys, e: Id)
    requires Reachable(pol, s) && e in s.db.events
    ensures var event := s.db.events[e];
      && event.createdAt <= s.now
      && (event.claimedAt.Some? <==> event.status == EventProcessing)
      && (event.claimedAt.Some? ==> event.createdAt <= event.claimedAt.value <= s.now)
      && (event.status == EventProcessed ==> event.processedAt.Some?)
      && (event.processedAt.Some? ==> event.createdAt <= event.processedAt.value <= s.now)
  {
    hide Reachable, Inv, Consistent, ProcessesOk, EventsOk;
    ReachableInv(pol, s);
    InvParts(s);
    TimesOf(s);
    StampsOf(s.db, e, s.now);
    EventsOkOf(s.db);
    ClaimedIffProcessing(s.db, e);
  }

  lemma ClaimedIffProcessing(db: Db, e: Id)
    requires EventsOk(db) && e in db.events
    ensures db.events[e].claimedAt.Some? <==> db.events[e].status == EventProcessing
  {
    assert EventOk(db, e);
  }
}
