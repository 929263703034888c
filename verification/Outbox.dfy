/** The outbox relay: one claim, dispatch and mark or release, and the loop that repeats
    it until nothing is left to claim. */
module Outbox {
  import opened Prelude
  import opened Tables
  import opened Database
  import opened Pipeline

  datatype RelayError = StoreFailed(error: DbError) | DispatchFailed | ContextDone

  /** The broker as its publisher sees it. */
  class Broker {
    var queue: multiset<Msg>

    constructor (queue: multiset<Msg>)
      ensures this.queue == queue
    {
      this.queue := queue;
    }

    method Publish(msg: Msg, outcome: PublishOutcome) returns (ok: bool)
      modifies this
      ensures ok == outcome.Delivered?
      ensures queue == if outcome == Rejected(false) then old(queue) else old(queue) + multiset{msg}
    {
      if outcome != Rejected(false) {
        queue := queue + multiset{msg};
      }
      ok := outcome.Delivered?;
    }
  }

  /** What happens to one RunOnce: the rows other transactions have locked, how its claim
      goes, what the publish comes to, the tables other commits have left when it finishes
      (None when there were none), how its mark or release goes, and the clock at the
      claim and at the finish. */
  datatype RelayCourse = RelayCourse(
    locked: set<Id>, claim: TxCourse, outcome: PublishOutcome, atFinish: Option<Db>, finish: TxCourse,
    claimedAt: int, finishedAt: int)

  /** The second transaction: mark after a dispatch that succeeded, release after one that failed. */
  function FinishTx(db: Db, event: Id, course: RelayCourse): Result<Db, DbError> {
    if course.outcome.Delivered? then MarkProcessed(db, event, course.finishedAt) else ReleaseClaim(db, event)
  }

  /** A RunOnce that found `event`: what it answers and the tables it leaves. */
  function RunOnceResult(db: Db, event: Id, course: RelayCourse): (Result<bool, RelayError>, Db)
    requires event in db.events
  {
    var claimed := ClaimEvent(db, event, course.claimedAt);
    if course.claim.CommitFails? then (Err(StoreFailed(Unavailable)), Ended(course.claim, db, claimed))
    else
      var before := course.atFinish.GetOr(claimed);
      if course.finish.BeginFails? then (Err(StoreFailed(Unavailable)), before)
      else
        match FinishTx(before, event, course)
        case Err(e) => (Err(StoreFailed(e)), before)
        case Ok(after) =>
          (if course.finish.CommitFails? then Err(StoreFailed(Unavailable))
           else if course.outcome.Delivered? then Ok(true) else Err(DispatchFailed),
           Ended(course.finish, before, after))
  }

  // ---------------------------------------------------------------- draining the outbox

  /** The events of the configured types that are not processed. */
  function Undone(db: Db, types: seq<EventType>): set<Id> {
    set id | id in db.events && (types == [] || db.events[id].eventType in types) && db.events[id].status != EventProcessed
  }

  /** The dispatched events are marked processed; every other row is as it was. */
  ghost predicate Drained(before: Db, after: Db, dispatched: seq<Id>) {
    && after == before.(events := after.events) && after.events.Keys == before.events.Keys
    && (forall e :: e in before.events && e !in dispatched ==> after.events[e] == before.events[e])
    && (forall e :: e in before.events && e in dispatched ==>
          after.events[e] == before.events[e].(status := EventProcessed, processedAt := after.events[e].processedAt, claimedAt := None))
  }

  ghost predicate Distinct(ids: seq<Id>) { forall i, j :: 0 <= i < j < |ids| ==> ids[i] != ids[j] }

  function Elements(ids: seq<Id>): set<Id> { set e | e in ids }

  function CreatedAt(db: Db, e: Id): int { if e in db.events then db.events[e].createdAt else 0 }

  ghost predicate OldestFirst(db: Db, ids: seq<Id>) {
    forall i, j :: 0 <= i < j < |ids| ==> CreatedAt(db, ids[i]) <= CreatedAt(db, ids[j])
  }

  /** `id` is no newer than anything in `left`. */
  ghost predicate NoOlder(db: Db, id: Id, left: set<Id>) {
    forall u :: u in left ==> CreatedAt(db, id) <= CreatedAt(db, u)
  }

  /** One message for each of the events. */
  ghost function Jobs(db: Db, ids: seq<Id>): multiset<Msg> {
    if ids == [] then multiset{}
    else Jobs(db, ids[..|ids| - 1]) + JobFor(db, ids[|ids| - 1])
  }

  ghost function JobFor(db: Db, id: Id): multiset<Msg> {
    if id in db.events then multiset{JobOf(id, db.events[id])} else multiset{}
  }

  /** How far the loop has come: of `all`, `dispatched` went out, each once and oldest
      first, and nothing in `left` is older than any of them. */
  ghost predicate Progress(before: Db, all: set<Id>, left: set<Id>, dispatched: seq<Id>) {
    && left <= all && Elements(dispatched) == all - left
    && Distinct(dispatched) && OldestFirst(before, dispatched)
    && (forall d :: d in dispatched ==> NoOlder(before, d, left))
  }

  lemma ProgressStep(before: Db, all: set<Id>, left: set<Id>, dispatched: seq<Id>, id: Id)
    requires Progress(before, all, left, dispatched) && id in left && NoOlder(before, id, left)
    ensures Progress(before, all, left - {id}, dispatched + [id])
    ensures Jobs(before, dispatched + [id]) == Jobs(before, dispatched) + JobFor(before, id)
    ensures id !in dispatched
  {
    var more := dispatched + [id];
    assert more[..|more| - 1] == dispatched;
    assert Elements(more) == Elements(dispatched) + {id};
    assert id !in Elements(dispatched);
    hide JobFor, CreatedAt;
    forall i, j | 0 <= i < j < |more| ensures CreatedAt(before, more[i]) <= CreatedAt(before, more[j]) {
      if j == |dispatched| {
        assert NoOlder(before, dispatched[i], left);
      }
    }
  }

  /** No unprocessed event is under a claim that has not expired at `now`. */
  ghost predicate NoneClaimed(db: Db, types: seq<EventType>, reclaimBefore: int) {
    forall e :: e in Undone(db, types) ==> Eligible(db.events[e], types, reclaimBefore)
  }

  /** The event picked next is unprocessed and no older one is. */
  lemma PicksOldest(before: Db, now: Db, types: seq<EventType>, reclaimBefore: int, later: int, dispatched: seq<Id>, id: Id)
    requires NoneClaimed(before, types, reclaimBefore) && reclaimBefore <= later
    requires Drained(before, now, dispatched) && Progress(before, Undone(before, types), Undone(now, types), dispatched)
    requires IsNext(now, types, later, {}, id)
    ensures id in Undone(now, types) && NoOlder(before, id, Undone(now, types))
    ensures JobFor(before, id) == multiset{JobOf(id, now.events[id])}
  {
    LeftEligible(before, now, types, reclaimBefore, later, dispatched);
    assert id !in Elements(dispatched);
  }

  lemma LeftEligible(before: Db, now: Db, types: seq<EventType>, reclaimBefore: int, later: int, dispatched: seq<Id>)
    requires NoneClaimed(before, types, reclaimBefore) && reclaimBefore <= later
    requires Drained(before, now, dispatched) && Progress(before, Undone(before, types), Undone(now, types), dispatched)
    ensures forall u :: u in Undone(now, types) ==> now.events[u] == before.events[u] && Eligible(now.events[u], types, later)
  {
    forall u | u in Undone(now, types)
      ensures now.events[u] == before.events[u] && Eligible(now.events[u], types, later)
    {
      assert u in Undone(before, types) && u !in Elements(dispatched);
    }
  }

  lemma NothingLeft(before: Db, now: Db, types: seq<EventType>, reclaimBefore: int, later: int, dispatched: seq<Id>)
    requires NoneClaimed(before, types, reclaimBefore) && reclaimBefore <= later
    requires Drained(before, now, dispatched) && Progress(before, Undone(before, types), Undone(now, types), dispatched)
    requires Candidates(now, types, later, {}) == {}
    ensures Undone(now, types) == {}
    ensures multiset(dispatched) == multiset(Undone(before, types))
  {
    LeftEligible(before, now, types, reclaimBefore, later, dispatched);
    assert forall u :: u in Undone(now, types) ==> u in Candidates(now, types, later, {});
    EachOnce(dispatched);
    assert Elements(dispatched) == Undone(before, types);
  }

  lemma {:induction false} EachOnce(ids: seq<Id>)
    requires Distinct(ids)
    ensures multiset(ids) == multiset(Elements(ids))
  {
    if ids != [] {
      var init, last := ids[..|ids| - 1], ids[|ids| - 1];
      EachOnce(init);
      assert ids == init + [last];
      assert Elements(ids) == Elements(init) + {last};
    }
  }

  lemma NoneYet(before: Db, types: seq<EventType>)
    ensures Drained(before, before, []) && Jobs(before, []) == multiset{}
    ensures Progress(before, Undone(before, types), Undone(before, types), [])
  {
  }

  /** A smooth round marks its event, and that event only: one fewer is left. */
  lemma Marked(now: Db, types: seq<EventType>, id: Id, course: RelayCourse)
    requires id in Undone(now, types) && course.claim == Smooth && course.atFinish == None && course.finish == Smooth
    requires course.outcome == Delivered
    ensures RunOnceResult(now, id, course).0 == Ok(true)
    ensures var after := RunOnceResult(now, id, course).1;
      && MarkProcessed(now, id, course.finishedAt) == Ok(after)
      && Undone(after, types) == Undone(now, types) - {id} && |Undone(after, types)| < |Undone(now, types)|
  {
    var after := RunOnceResult(now, id, course).1;
    assert after.events == MarkProcessed(now, id, course.finishedAt).value.events;
    hide RunOnceResult;
    assert Undone(after, types) == Undone(now, types) - {id};
  }

  lemma DrainedMore(before: Db, now: Db, dispatched: seq<Id>, id: Id, after: Db, finishedAt: int)
    requires Drained(before, now, dispatched) && id in now.events && id !in dispatched
    requires MarkProcessed(now, id, finishedAt) == Ok(after)
    ensures Drained(before, after, dispatched + [id])
  {
    assert forall e :: e in dispatched + [id] <==> e in dispatched || e == id;
  }

  /** A relay that gives an event back leaves it, and all others, to be done. */
  lemma GivenBack(now: Db, types: seq<EventType>, id: Id, course: RelayCourse)
    requires id in Undone(now, types) && course.claim == Smooth && course.atFinish == None && course.finish == Smooth
    requires course.outcome != Delivered
    ensures RunOnceResult(now, id, course).0 == Err(DispatchFailed)
    ensures Undone(RunOnceResult(now, id, course).1, types) == Undone(now, types)
  {
    var after := RunOnceResult(now, id, course).1;
    assert after.events == now.events[id := now.events[id].(status := EventPending, claimedAt := None)];
    hide RunOnceResult;
  }

  // ---------------------------------------------------------------- over many pauses

  /** The events there have been: those at the start and those of every pause. */
  function Gathered(events: map<Id, Event>, arrivals: seq<map<Id, Event>>): map<Id, Event> {
    if arrivals == [] then events
    else Gathered(events, arrivals[..|arrivals| - 1]) + arrivals[|arrivals| - 1]
  }

  function AllGathered(db: Db, arrivals: seq<map<Id, Event>>): Db {
    db.(events := Gathered(db.events, arrivals))
  }

  ghost predicate NewTo(events: map<Id, Event>, arrived: map<Id, Event>) {
    && arrived.Keys !! events.Keys
    && forall e :: e in arrived ==> arrived[e].status == EventPending
  }

  /** New events arrive pending and under new identifiers. */
  ghost predicate ArriveNew(events: map<Id, Event>, arrivals: seq<map<Id, Event>>) {
    forall i :: 0 <= i < |arrivals| ==> NewTo(Gathered(events, arrivals[..i]), arrivals[i])
  }

  /** Where the relay stands when it pauses: all there has been is dispatched, each once. */
  ghost predicate Caught(all: Db, now: Db, types: seq<EventType>, dispatched: seq<Id>) {
    && Drained(all, now, dispatched) && Undone(now, types) == {}
    && multiset(dispatched) == multiset(Undone(all, types))
  }

  lemma DispatchedAreThere(ids: set<Id>, dispatched: seq<Id>)
    requires multiset(dispatched) == multiset(ids)
    ensures forall e :: e in dispatched <==> e in ids
  {
    assert forall e :: e in dispatched <==> e in multiset(dispatched);
  }

  /** After an arrival only the new events of the types are to be done. */
  lemma OnlyNewLeft(all: Db, now: Db, types: seq<EventType>, dispatched: seq<Id>, arrived: map<Id, Event>, reclaimBefore: int)
    requires Caught(all, now, types, dispatched) && NewTo(all.events, arrived)
    ensures var all', now' := all.(events := all.events + arrived), now.(events := now.events + arrived);
      && NoneClaimed(now', types, reclaimBefore) && Drained(all', now', dispatched)
      && Undone(all, types) !! Undone(now', types) && Undone(all', types) == Undone(all, types) + Undone(now', types)
  {
    var all', now' := all.(events := all.events + arrived), now.(events := now.events + arrived);
    DispatchedAreThere(Undone(all, types), dispatched);
    forall e | e in Undone(now', types) ensures e in arrived {
      assert e !in arrived ==> e in Undone(now, types);
    }
    assert Drained(all', now', dispatched);
    assert Undone(all', types) == Undone(all, types) + Undone(now', types) by {
      forall e ensures e in Undone(all', types) <==> e in Undone(all, types) + Undone(now', types) {
      }
    }
  }

  lemma CaughtParts(all: Db, now: Db, types: seq<EventType>, dispatched: seq<Id>)
    requires Caught(all, now, types, dispatched)
    ensures multiset(dispatched) == multiset(Undone(all, types)) && forall e :: e in dispatched ==> e in all.events
  {
    DispatchedAreThere(Undone(all, types), dispatched);
  }

  lemma DrainedBoth(all: Db, now: Db, first: seq<Id>, after: Db, second: seq<Id>)
    requires Drained(all, now, first) && Drained(now, after, second) && forall e :: e in first ==> e !in second
    ensures Drained(all, after, first + second)
  {
    var both := first + second;
    assert forall e :: e in both <==> e in first || e in second;
    forall e | e in all.events && e in both
      ensures after.events[e]
           == all.events[e].(status := EventProcessed, processedAt := after.events[e].processedAt, claimedAt := None)
    {
      if e in second {
        assert now.events[e] == all.events[e];
      } else {
        assert after.events[e] == now.events[e];
      }
    }
  }

  lemma CaughtAgain(all: Db, now: Db, types: seq<EventType>, first: seq<Id>, left: set<Id>, after: Db, second: seq<Id>)
    requires Drained(all, now, first) && multiset(first) == multiset(left)
    requires left !! Undone(now, types) && Undone(all, types) == left + Undone(now, types)
    requires Caught(now, after, types, second)
    ensures Caught(all, after, types, first + second)
  {
    hide Drained, Undone;
    DispatchedAreThere(left, first);
    DispatchedAreThere(Undone(now, types), second);
    DrainedBoth(all, now, first, after, second);
    assert multiset(first + second) == multiset(first) + multiset(second);
    assert multiset(left + Undone(now, types)) == multiset(left) + multiset(Undone(now, types));
  }

  lemma {:induction false} JobsConcat(db: Db, a: seq<Id>, b: seq<Id>)
    ensures Jobs(db, a + b) == Jobs(db, a) + Jobs(db, b)
  {
    hide JobFor;
    if b == [] {
      assert a + b == a;
    } else {
      var init, last := b[..|b| - 1], b[|b| - 1];
      JobsConcat(db, a, init);
      assert (a + b)[..|a + b| - 1] == a + init && (a + b)[|a + b| - 1] == last;
      assert Jobs(db, a + b) == Jobs(db, a + init) + JobFor(db, last);
    }
  }

  /** Jobs do not depend on what a claim, a mark or an arrival changes. */
  lemma {:induction false} SameJobs(db: Db, db': Db, ids: seq<Id>)
    requires forall e :: e in ids ==> JobFor(db, e) == JobFor(db', e)
    ensures Jobs(db, ids) == Jobs(db', ids)
  {
    hide JobFor;
    if ids != [] {
      SameJobs(db, db', ids[..|ids| - 1]);
    }
  }

  lemma JobsSoFar(all: Db, now: Db, types: seq<EventType>, first: seq<Id>, arrived: map<Id, Event>, second: seq<Id>)
    requires Caught(all, now, types, first) && NewTo(all.events, arrived)
    requires forall e :: e in second ==> e in now.events + arrived
    ensures Jobs(all.(events := all.events + arrived), first + second)
         == Jobs(all, first) + Jobs(now.(events := now.events + arrived), second)
  {
    var all', now' := all.(events := all.events + arrived), now.(events := now.events + arrived);
    DispatchedAreThere(Undone(all, types), first);
    JobsConcat(all', first, second);
    SameJobs(all, all', first);
    SameJobs(all', now', second);
  }

  class Relay {
    const store: Database
    const broker: Broker
    const types: seq<EventType>
    const timeout: nat

    constructor (store: Database, broker: Broker, types: seq<EventType>, timeout: nat)
      ensures this.store == store && this.broker == broker && this.types == types && this.timeout == timeout
    {
      this.store, this.broker, this.types, this.timeout := store, broker, types, timeout;
    }

    /** None when there is nothing to claim. */
    method ClaimNextPendingEvent(reclaimBefore: int, course: RelayCourse) returns (r: Result<Option<(Id, Event)>, DbError>)
      requires store.saved == None
      modifies store
      ensures store.saved == None
      ensures course.claim.BeginFails? ==> r == Err(Unavailable) && store.View() == old(store.View())
      ensures !course.claim.BeginFails? && Candidates(old(store.View()), types, reclaimBefore, course.locked) == {} ==>
        r == Ok(None) && store.View() == old(store.View())
      ensures !course.claim.BeginFails? && Candidates(old(store.View()), types, reclaimBefore, course.locked) != {} ==>
        exists id :: Claims(old(store.View()), reclaimBefore, course, id, r, store.View())
    {
      if course.claim.BeginFails? {
        return Err(Unavailable);
      }
      ghost var before := store.View();
      NextExists(before, types, reclaimBefore, course.locked);
      store.Begin();
      var claimed := store.ClaimNextPendingOutboxEvent(types, reclaimBefore, course.locked, course.claimedAt);
      if claimed.Err? {
        store.Rollback();
        match claimed {
          case Err(NoRows) => return Ok(None);
          case Err(e) => return Err(e);
        }
      }
      var event := store.events[claimed.value];
      var committed := store.Commit(course.claim);
      r := if committed then Ok(Some((claimed.value, event))) else Err(Unavailable);
      assert Claims(before, reclaimBefore, course, claimed.value, r, store.View());
    }

    /** `id` was an oldest eligible event, and is what the claim picked and stamped. */
    ghost predicate Claims(before: Db, reclaimBefore: int, course: RelayCourse, id: Id,
                           r: Result<Option<(Id, Event)>, DbError>, after: Db) {
      && IsNext(before, types, reclaimBefore, course.locked, id)
      && after == Ended(course.claim, before, ClaimEvent(before, id, course.claimedAt))
      && r == if course.claim.CommitFails? then Err(Unavailable)
              else Ok(Some((id, ClaimEvent(before, id, course.claimedAt).events[id])))
    }

    method FinishEvent(id: Id, course: RelayCourse) returns (r: Result<(), DbError>)
      requires store.saved == None
      modifies store
      ensures store.saved == None
      ensures var before := old(store.View());
        if course.finish.BeginFails? then r == Err(Unavailable) && store.View() == before
        else
          match FinishTx(before, id, course)
          case Err(e) => r == Err(e) && store.View() == before
          case Ok(after) =>
            && r == (if course.finish.CommitFails? then Err(Unavailable) else Ok(()))
            && store.View() == Ended(course.finish, before, after)
    {
      if course.finish.BeginFails? {
        return Err(Unavailable);
      }
      store.Begin();
      var done;
      if course.outcome.Delivered? {
        done := store.MarkOutboxEventAsProcessed(id, course.finishedAt);
      } else {
        done := store.ReleaseOutboxEventClaim(id);
      }
      if done.Err? {
        store.Rollback();
        return Err(done.error);
      }
      var committed := store.Commit(course.finish);
      return if committed then Ok(()) else Err(Unavailable);
    }

    /** `started` is the clock at the beginning. */
    method RunOnce(started: int, course: RelayCourse) returns (r: Result<bool, RelayError>, ghost picked: Option<Id>)
      requires store.saved == None
      modifies store, broker
      ensures store.saved == None
      ensures picked == None ==>
        && store.View() == old(store.View()) && broker.queue == old(broker.queue)
        && (if course.claim.BeginFails? then r == Err(StoreFailed(Unavailable))
            else r == Ok(false) && Candidates(old(store.View()), types, started - timeout, course.locked) == {})
      ensures picked.Some? ==>
        && !course.claim.BeginFails?
        && IsNext(old(store.View()), types, started - timeout, course.locked, picked.value)
        && (r, store.View()) == RunOnceResult(old(store.View()), picked.value, course)
        && broker.queue == Sent(old(broker.queue), JobOf(picked.value, old(store.View()).events[picked.value]), course)
    {
      var before := store.View();
      var claimed := ClaimNextPendingEvent(started - timeout, course);
      if course.claim.BeginFails? || Candidates(before, types, started - timeout, course.locked) == {} {
        picked := None;
      } else {
        ghost var id: Id :| Claims(before, started - timeout, course, id, claimed, store.View());
        picked := Some(id);
      }
      if claimed.Err? {
        return Err(StoreFailed(claimed.error)), picked;
      }
      if claimed.value == None {
        return Ok(false), picked;
      }
      var (id, event) := claimed.value.value;
      var sent := broker.Publish(JobOf(id, event), course.outcome);
      if course.atFinish.Some? {
        store.OthersCommit(course.atFinish.value);
      }
      var finished := FinishEvent(id, course);
      if finished.Err? {
        return Err(StoreFailed(finished.error)), picked;
      }
      return if sent then Ok(true) else Err(DispatchFailed), picked;
    }

    /** One round of the loop: RunOnce while nothing else is going on. */
    method Round(ghost before: Db, ghost dispatched: seq<Id>, ghost reclaimBefore: int, time: int, outcome: PublishOutcome)
      returns (r: Result<bool, RelayError>, ghost picked: Option<Id>)
      requires store.saved == None && NoneClaimed(before, types, reclaimBefore) && reclaimBefore <= time - timeout
      requires Drained(before, store.View(), dispatched)
      requires Progress(before, Undone(before, types), Undone(store.View(), types), dispatched)
      modifies store, broker
      ensures store.saved == None
      ensures r == Ok(true) ==>
        && outcome == Delivered && picked.Some?
        && Drained(before, store.View(), dispatched + [picked.value])
        && Progress(before, Undone(before, types), Undone(store.View(), types), dispatched + [picked.value])
        && |Undone(store.View(), types)| < |Undone(old(store.View()), types)|
        && Jobs(before, dispatched + [picked.value]) == Jobs(before, dispatched) + JobFor(before, picked.value)
        && broker.queue == old(broker.queue) + JobFor(before, picked.value)
      ensures r == Ok(false) ==>
        && store.View() == old(store.View()) && broker.queue == old(broker.queue)
        && Undone(store.View(), types) == {} && multiset(dispatched) == multiset(Undone(before, types))
      ensures r.Err? ==>
        && r == Err(DispatchFailed) && outcome != Delivered
        && Undone(store.View(), types) == Undone(old(store.View()), types) != {}
    {
      hide Drained, Progress, Jobs, JobFor, NoOlder, NoneClaimed, Undone, IsNext, Candidates, RunOnceResult;
      ghost var now := store.View();
      var course := RelayCourse({}, Smooth, outcome, None, Smooth, time, time);
      r, picked := RunOnce(time, course);
      if picked == None {
        NothingLeft(before, now, types, reclaimBefore, time - timeout, dispatched);
      } else {
        PicksOldest(before, now, types, reclaimBefore, time - timeout, dispatched, picked.value);
        if outcome == Delivered {
          Marked(now, types, picked.value, course);
          ProgressStep(before, Undone(before, types), Undone(now, types), dispatched, picked.value);
          DrainedMore(before, now, dispatched, picked.value, store.View(), time);
        } else {
          GivenBack(now, types, picked.value, course);
        }
      }
    }

    /** The loop of Run up to its next pause or error, with this relay alone at work:
        `clock` and `outcomes` give the time and the publish outcome of every round, `start`
        is the next round and `next` the one after. It pauses only when nothing is left,
        after dispatching each unprocessed event of the configured types exactly once and
        oldest first; it fails only at a failed publish. */
    method RunUntilIdle(start: nat, clock: nat -> int, outcomes: nat -> PublishOutcome)
      returns (r: Result<(), RelayError>, next: nat, ghost dispatched: seq<Id>)
      requires store.saved == None
      requires forall i, j :: i <= j ==> clock(i) <= clock(j)
      requires NoneClaimed(store.View(), types, clock(start) - timeout)
      modifies store, broker
      ensures store.saved == None && next == start + |dispatched| + 1
      ensures Progress(old(store.View()), Undone(old(store.View()), types), Undone(store.View(), types), dispatched)
      ensures forall i :: start <= i < start + |dispatched| ==> outcomes(i) == Delivered
      ensures r.Ok? ==>
        && Caught(old(store.View()), store.View(), types, dispatched)
        && broker.queue == old(broker.queue) + Jobs(old(store.View()), dispatched)
      ensures r.Err? ==>
        r == Err(DispatchFailed) && outcomes(start + |dispatched|) != Delivered && Undone(store.View(), types) != {}
    {
      hide Drained, Progress, Jobs, JobFor, NoOlder, NoneClaimed, Undone, IsNext, Candidates, RunOnceResult;
      ghost var before := store.View();
      dispatched := [];
      NoneYet(before, types);
      var k := start;
      while true
        invariant store.saved == None && k == start + |dispatched|
        invariant Drained(before, store.View(), dispatched)
        invariant Progress(before, Undone(before, types), Undone(store.View(), types), dispatched)
        invariant forall i :: start <= i < k ==> outcomes(i) == Delivered
        invariant broker.queue == old(broker.queue) + Jobs(before, dispatched)
        decreases |Undone(store.View(), types)|
      {
        var more, picked := Round(before, dispatched, clock(start) - timeout, clock(k), outcomes(k));
        if more.Err? {
          return Err(more.error), k + 1, dispatched;
        }
        if !more.value {
          return Ok(()), k + 1, dispatched;
        }
        dispatched := dispatched + [picked.value];
        k := k + 1;
      }
    }

    /** One pause, in which `arrived` is committed, and what the loop does after it. */
    method Wake(ghost all: Db, ghost first: seq<Id>, arrived: map<Id, Event>, start: nat, clock: nat -> int,
                outcomes: nat -> PublishOutcome)
      returns (r: Result<(), RelayError>, next: nat, ghost dispatched: seq<Id>)
      requires store.saved == None && Caught(all, store.View(), types, first) && NewTo(all.events, arrived)
      requires forall i, j :: i <= j ==> clock(i) <= clock(j)
      modifies store, broker
      ensures store.saved == None
      ensures r.Ok? ==>
        && Caught(all.(events := all.events + arrived), store.View(), types, first + dispatched)
        && var sent := Jobs(old(store.View()).(events := old(store.View()).events + arrived), dispatched);
           && broker.queue == old(broker.queue) + sent
           && Jobs(all.(events := all.events + arrived), first + dispatched) == Jobs(all, first) + sent
      ensures r.Err? ==> r == Err(DispatchFailed) && Undone(store.View(), types) != {}
    {
      hide Drained, Progress, Jobs, JobFor, NoneClaimed, Undone, NewTo, Caught;
      ghost var now := store.View();
      OnlyNewLeft(all, now, types, first, arrived, clock(start) - timeout);
      store.OthersCommit(store.View().(events := store.events + arrived));
      ghost var woken := store.View();
      r, next, dispatched := RunUntilIdle(start, clock, outcomes);
      if r.Ok? {
        CaughtParts(all, now, types, first);
        CaughtParts(woken, store.View(), types, dispatched);
        JobsSoFar(all, now, types, first, arrived, dispatched);
        CaughtAgain(all.(events := all.events + arrived), woken, types, first, Undone(all, types), store.View(), dispatched);
      }
    }

    /** Run with this relay alone at work. `arrivals` are the events that other connections
        commit in each pause, and the context is done in the pause after the last. It
        returns then, having dispatched each event there has been of its types exactly
        once, or earlier at a failed publish. */
    method Run(arrivals: seq<map<Id, Event>>, clock: nat -> int, outcomes: nat -> PublishOutcome)
      returns (error: RelayError, ghost dispatched: seq<Id>)
      requires store.saved == None && ArriveNew(store.View().events, arrivals)
      requires forall i, j :: i <= j ==> clock(i) <= clock(j)
      requires NoneClaimed(store.View(), types, clock(0) - timeout)
      modifies store, broker
      ensures error == ContextDone || error == DispatchFailed
      ensures error == ContextDone ==>
        && Caught(AllGathered(old(store.View()), arrivals), store.View(), types, dispatched)
        && broker.queue == old(broker.queue) + Jobs(AllGathered(old(store.View()), arrivals), dispatched)
      ensures error == DispatchFailed ==> Undone(store.View(), types) != {}
    {
      hide Jobs, NoneClaimed, Undone, NewTo, Caught;
      ghost var before := store.View();
      var r, next;
      r, next, dispatched := RunUntilIdle(0, clock, outcomes);
      if r.Err? {
        return DispatchFailed, dispatched;
      }
      for i := 0 to |arrivals|
        invariant store.saved == None
        invariant Caught(AllGathered(before, arrivals[..i]), store.View(), types, dispatched)
        invariant broker.queue == old(broker.queue) + Jobs(AllGathered(before, arrivals[..i]), dispatched)
      {
        ghost var more;
        r, next, more := Wake(AllGathered(before, arrivals[..i]), dispatched, arrivals[i], next, clock, outcomes);
        dispatched := dispatched + more;
        if r.Err? {
          return DispatchFailed, dispatched;
        }
        assert arrivals[..i + 1][..i] == arrivals[..i];
      }
      assert arrivals[..|arrivals|] == arrivals;
      error := ContextDone;
    }
  }

  /** The queue after the dispatch, if the relay came that far. */
  function Sent(queue: multiset<Msg>, job: Msg, course: RelayCourse): multiset<Msg> {
    if course.claim.CommitFails? || course.outcome == Rejected(false) then queue else queue + multiset{job}
  }
}
