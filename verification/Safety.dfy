/** What holds in every reachable state, whatever the number of relays, workers and
    concurrent create calls, and whatever crashes, lost connections, uncertain publishes
    and stale releases occur: no accepted payout is lost, creation is idempotent, and
    every provider call for a payout carries the same input. */
module Safety {
  import opened Decimal
  import opened Domain
  import opened Tables
  import opened Transactions
  import opened Consistency
  import opened Pipeline

  // ---------------------------------------------------------------- processes agree with the tables

  /** A job in flight is the encoding of a stored process event. */
  ghost predicate MsgOk(db: Db, m: Msg) {
    m.Job? ==> m.eventId in db.events && m == JobOf(m.eventId, db.events[m.eventId]) && m.eventType == ProcessPayout
  }

  ghost predicate RelayOk(db: Db, now: int, relay: Relay) {
    && relay.event in db.events && db.events[relay.event].eventType == ProcessPayout
    && relay.job == JobOf(relay.event, db.events[relay.event])
    && relay.claimedAt <= now
  }

  /** A prepared execution is for the payout of the message and carries its input. */
  ghost predicate PreparedOk(db: Db, m: Msg, prepared: Prepared) {
    && m.Job? && prepared.payoutId == m.entityId && InputKnown(db, m.entityId)
    && prepared.input == InputOf(db, m.entityId)
    && Rank(db.payouts[m.entityId].status) >= 1
  }

  ghost predicate InputKnown(db: Db, p: Id) {
    p in db.payouts && db.payouts[p].fundingSourceId in db.sources
  }

  ghost predicate WorkerOk(db: Db, worker: Worker) {
    && MsgOk(db, worker.msg)
    && match worker.stage
       case Ready(prepared) => PreparedOk(db, worker.msg, prepared)
       case Calling(prepared) => PreparedOk(db, worker.msg, prepared)
       case Answered(prepared, _) => PreparedOk(db, worker.msg, prepared)
       case Acking => worker.msg.Job? && IsFinal(db, worker.msg.entityId)
       case Dropping => worker.msg.Malformed?
       case _ => true
  }

  ghost predicate IsFinal(db: Db, p: Id) { p in db.payouts && db.payouts[p].status.Final() }

  /** An answered create call: its key is stored with the payout it got, for its request. */
  ghost predicate ReplyOk(db: Db, reply: Reply) {
    var k := (reply.call.clientId, reply.call.key);
    && IsKeyOf(db, k, reply.payoutId)
    && StoredFor(db, k, reply.call)
  }

  ghost predicate CallOk(db: Db, input: ProviderInput) {
    InputKnown(db, input.payoutId) && input == InputOf(db, input.payoutId)
  }

  ghost predicate QueueOk(db: Db, queue: multiset<Msg>) { forall m :: m in queue ==> MsgOk(db, m) }

  ghost predicate RelaysOk(db: Db, now: int, relays: map<nat, Relay>) {
    forall r :: r in relays ==> RelayOk(db, now, relays[r])
  }

  ghost predicate WorkersOk(db: Db, workers: map<nat, Worker>) {
    forall w :: w in workers ==> WorkerOk(db, workers[w])
  }

  ghost predicate CreatorsOk(creators: map<nat, Creator>) {
    forall c :: c in creators ==> WellFormed(creators[c].call)
  }

  ghost predicate RepliesOk(db: Db, replies: set<Reply>) { forall x :: x in replies ==> ReplyOk(db, x) }

  ghost predicate CallsOk(db: Db, calls: multiset<ProviderInput>) { forall i :: i in calls ==> CallOk(db, i) }

  /** An event's times are in order, and a processed event has one for its processing. */
  predicate StampsOk(e: Event, now: int) {
    && e.createdAt <= now
    && (e.claimedAt.Some? ==> e.createdAt <= e.claimedAt.value <= now)
    && (e.processedAt.Some? ==> e.createdAt <= e.processedAt.value <= now)
    && (e.status == EventProcessed ==> e.processedAt.Some?)
  }

  ghost predicate TimesOk(db: Db, now: int) {
    forall e :: e in db.events ==> StampsOk(db.events[e], now)
  }

  // ---------------------------------------------------------------- nothing is lost

  /** A copy of `m` is in the queue, or with a worker that the broker waits for. */
  ghost predicate InTransit(queue: multiset<Msg>, workers: map<nat, Worker>, m: Msg) {
    m in queue || exists w :: IsHeld(workers, w, m)
  }

  ghost predicate IsHeld(workers: map<nat, Worker>, w: nat, m: Msg) {
    w in workers && workers[w].held && workers[w].msg == m
  }

  ghost predicate Carries(m: Msg, p: Id) { m.Job? && m.entityId == p }

  ghost predicate HasCopy(s: Sys, p: Id) {
    exists m :: Carries(m, p) && InTransit(s.queue, s.workers, m)
  }

  /** The broker side has taken over: the payout is final or a copy is in flight. */
  ghost predicate HandedOver(s: Sys, p: Id) { IsFinal(s.db, p) || HasCopy(s, p) }

  ghost predicate IsOpenEventOf(db: Db, e: Id, p: Id) {
    IsProcessEventOf(db, e, p) && db.events[e].status != EventProcessed
  }

  ghost predicate HasOpenEvent(db: Db, p: Id) { exists e :: IsOpenEventOf(db, e, p) }

  ghost predicate NothingLost(s: Sys) {
    forall p :: p in s.db.payouts ==> HandedOver(s, p) || HasOpenEvent(s.db, p)
  }

  ghost predicate DispatchedHandedOver(s: Sys) {
    forall r :: r in s.relays && s.relays[r].stage == Dispatched && s.relays[r].event in s.db.events
      ==> HandedOver(s, s.db.events[s.relays[r].event].entityId)
  }

  // ---------------------------------------------------------------- the invariant

  ghost predicate ProcessesOk(s: Sys) {
    && QueueOk(s.db, s.queue) && RelaysOk(s.db, s.now, s.relays) && WorkersOk(s.db, s.workers)
    && CreatorsOk(s.creators) && RepliesOk(s.db, s.history.replies) && CallsOk(s.db, s.history.calls)
    && TimesOk(s.db, s.now)
  }

  ghost predicate Inv(s: Sys) {
    Consistent(s.db) && ProcessesOk(s) && NothingLost(s) && DispatchedHandedOver(s)
  }

  // ---------------------------------------------------------------- stability as the tables evolve

  lemma MsgStays(db: Db, db': Db, m: Msg)
    requires MsgOk(db, m) && Evolves(db, db')
    ensures MsgOk(db', m)
  {
  }

  lemma PreparedStays(db: Db, db': Db, m: Msg, prepared: Prepared)
    requires Consistent(db) && PreparedOk(db, m, prepared) && Evolves(db, db')
    ensures PreparedOk(db', m, prepared)
  {
    hide Consistent, InputOf;
    InputStays(db, db', m.entityId);
  }

  lemma FinalStays(db: Db, db': Db, p: Id)
    requires Consistent(db) && Consistent(db') && IsFinal(db, p) && Evolves(db, db')
    ensures IsFinal(db', p)
  {
    hide KeysOk, EventsOk, Complete, OneKeyEach, OneProcessEventEach, ExternalIdsUnique, NumericString;
    assert PayoutOk(db', p);
  }

  lemma WorkerStays(db: Db, db': Db, worker: Worker)
    requires Consistent(db) && Consistent(db') && WorkerOk(db, worker) && Evolves(db, db')
    ensures WorkerOk(db', worker)
  {
    hide Consistent, Evolves, PreparedOk, MsgOk, IsFinal;
    MsgStays(db, db', worker.msg);
    match worker.stage
    case Ready(prepared) => PreparedStays(db, db', worker.msg, prepared);
    case Calling(prepared) => PreparedStays(db, db', worker.msg, prepared);
    case Answered(prepared, _) => PreparedStays(db, db', worker.msg, prepared);
    case Acking => FinalStays(db, db', worker.msg.entityId);
    case _ =>
  }

  lemma ReplyStays(db: Db, db': Db, reply: Reply)
    requires ReplyOk(db, reply) && Evolves(db, db')
    ensures ReplyOk(db', reply)
  {
    hide StoredFor;
    RequestStays(db, db', (reply.call.clientId, reply.call.key), reply.call);
  }

  lemma CallStays(db: Db, db': Db, input: ProviderInput)
    requires Consistent(db) && CallOk(db, input) && Evolves(db, db')
    ensures CallOk(db', input)
  {
    hide Consistent, InputOf;
    InputStays(db, db', input.payoutId);
  }

  /** Whatever evolved, the processes and the history still agree with the tables. */
  lemma ProcessesStay(s: Sys, db': Db, now': int)
    requires Consistent(s.db) && Consistent(db') && ProcessesOk(s) && Evolves(s.db, db') && s.now <= now'
    ensures QueueOk(db', s.queue) && RelaysOk(db', now', s.relays) && WorkersOk(db', s.workers)
    ensures RepliesOk(db', s.history.replies) && CallsOk(db', s.history.calls)
  {
    hide Consistent, MsgOk, WorkerOk, ReplyOk, CallOk;
    forall m | m in s.queue ensures MsgOk(db', m) { MsgStays(s.db, db', m); }
    forall w | w in s.workers ensures WorkerOk(db', s.workers[w]) { WorkerStays(s.db, db', s.workers[w]); }
    forall x | x in s.history.replies ensures ReplyOk(db', x) { ReplyStays(s.db, db', x); }
    forall i | i in s.history.calls ensures CallOk(db', i) { CallStays(s.db, db', i); }
  }

  /** No copy of a job disappears unless its payout is final. */
  ghost predicate CopiesKept(s: Sys, s': Sys) {
    forall m: Msg :: m.Job? && InTransit(s.queue, s.workers, m)
      ==> InTransit(s'.queue, s'.workers, m) || IsFinal(s'.db, m.entityId)
  }

  lemma HandedOverStays(s: Sys, s': Sys, p: Id)
    requires Consistent(s.db) && Consistent(s'.db) && Evolves(s.db, s'.db) && CopiesKept(s, s') && HandedOver(s, p)
    ensures HandedOver(s', p)
  {
    hide Consistent, Evolves, IsFinal, InTransit;
    if IsFinal(s.db, p) {
      FinalStays(s.db, s'.db, p);
    } else {
      var m :| Carries(m, p) && InTransit(s.queue, s.workers, m);
      assert Carries(m, p);
    }
  }

  /** An event that was open is open, or its payout is handed over. */
  ghost predicate OpenEventsKept(s: Sys, s': Sys) {
    forall e, p :: IsOpenEventOf(s.db, e, p) ==> IsOpenEventOf(s'.db, e, p) || HandedOver(s', p)
  }

  lemma NothingLostStays(s: Sys, s': Sys)
    requires Consistent(s.db) && Consistent(s'.db) && NothingLost(s) && Evolves(s.db, s'.db)
    requires CopiesKept(s, s') && OpenEventsKept(s, s')
    requires forall p :: p in s'.db.payouts && p !in s.db.payouts ==> HasOpenEvent(s'.db, p)
    ensures NothingLost(s')
  {
    hide Consistent, Evolves, CopiesKept, HandedOver, IsOpenEventOf;
    forall p | p in s'.db.payouts ensures HandedOver(s', p) || HasOpenEvent(s'.db, p) {
      if p in s.db.payouts {
        if HandedOver(s, p) {
          HandedOverStays(s, s', p);
        } else {
          var e :| IsOpenEventOf(s.db, e, p);
          assert IsOpenEventOf(s'.db, e, p) || HandedOver(s', p);
        }
      }
    }
  }

  /** Relays that had dispatched before the step still have their payouts handed over. */
  lemma DispatchedStay(s: Sys, s': Sys)
    requires Consistent(s.db) && Consistent(s'.db) && DispatchedHandedOver(s) && Evolves(s.db, s'.db) && CopiesKept(s, s')
    requires RelaysOk(s.db, s.now, s.relays)
    requires forall r :: r in s'.relays && s'.relays[r].stage == Dispatched ==> r in s.relays && s'.relays[r] == s.relays[r]
    ensures DispatchedHandedOver(s')
  {
    hide Consistent, CopiesKept, HandedOver;
    forall r | r in s'.relays && s'.relays[r].stage == Dispatched && s'.relays[r].event in s'.db.events
      ensures HandedOver(s', s'.db.events[s'.relays[r].event].entityId)
    {
      assert RelayOk(s.db, s.now, s.relays[r]);
      HandedOverStays(s, s', s.db.events[s.relays[r].event].entityId);
    }
  }

  /** Steps that leave queue and workers alone keep every copy. */
  lemma SameTransit(s: Sys, s': Sys)
    requires s'.queue == s.queue && s'.workers == s.workers
    ensures CopiesKept(s, s')
  {
    hide InTransit;
  }
}
