/** Conservation of webhook events: one for each committed recording that saw a URL. */
module Webhooks {
  import opened Prelude
  import opened Domain
  import opened Tables
  import opened Transactions
  import opened Consistency
  import opened Pipeline
  import opened Safety
  import opened SafetySteps
  import opened Effects
  import opened Restricted

  ghost function WebhooksOf(db: Db, p: Id): set<Id> {
    set e | e in db.events && IsWebhookOf(db, e, p)
  }

  /** How many recordings there are for `p`. */
  function Times(recordings: seq<Recording>, p: Id): nat {
    if recordings == [] then 0
    else Times(recordings[..|recordings| - 1], p) + (if recordings[|recordings| - 1].payoutId == p then 1 else 0)
  }

  /** How many of them saw a webhook column that holds a URL. */
  function TimesSeen(recordings: seq<Recording>, p: Id): nat {
    if recordings == [] then 0
    else
      var last := recordings[|recordings| - 1];
      TimesSeen(recordings[..|recordings| - 1], p) + (if last.payoutId == p && HasTarget(last.column) then 1 else 0)
  }

  lemma TimesAppend(recordings: seq<Recording>, last: Recording, p: Id)
    ensures Times(recordings + [last], p) == Times(recordings, p) + (if last.payoutId == p then 1 else 0)
    ensures TimesSeen(recordings + [last], p)
         == TimesSeen(recordings, p) + (if last.payoutId == p && HasTarget(last.column) then 1 else 0)
  {
    assert (recordings + [last])[..|recordings|] == recordings;
  }

  ghost predicate Counted(s: Sys) {
    forall p :: |WebhooksOf(s.db, p)| == TimesSeen(s.history.recordings, p)
  }

  /** Every webhook event goes to the URL that some recording of its payout saw. */
  ghost predicate UrlsSeen(s: Sys) {
    forall e, p :: IsWebhookOf(s.db, e, p) ==>
      && s.db.events[e].payload.WebhookPayload?
      && SawUrl(s.history.recordings, p, s.db.events[e].payload.targetUrl)
  }

  ghost predicate SawUrl(recordings: seq<Recording>, p: Id, url: string) {
    exists i :: 0 <= i < |recordings| && recordings[i].payoutId == p && Addresses(recordings[i].column, url)
  }

  /** A webhook event tells the payout's status and reason. */
  ghost predicate TellsResult(db: Db) {
    forall e, p :: IsWebhookOf(db, e, p) ==> p in db.payouts && Tells(db.events[e].payload, db.payouts[p])
  }

  predicate Tells(payload: Payload, row: Payout) {
    && payload.WebhookPayload? && row.status.Final()
    && payload.clientId == row.clientId
    && payload.status == row.status && payload.failureReason == row.failureReason.GetOr("")
  }

  /** Recordings per payout: one if it is final, none otherwise. */
  ghost predicate OneEach(s: Sys) {
    forall p :: Times(s.history.recordings, p) == if p in s.db.payouts && s.db.payouts[p].status.Final() then 1 else 0
  }

  ghost predicate WebhookInv(pol: Policy, s: Sys) {
    && Counted(s) && UrlsSeen(s)
    && (Disciplined(pol) ==> TellsResult(s.db))
    && (pol.oneAtATime ==> OneEach(s))
  }

  lemma InitialWebhookInv(pol: Policy, s: Sys)
    requires Initial(s)
    ensures WebhookInv(pol, s)
  {
    forall p ensures WebhooksOf(s.db, p) == {} {
    }
  }

  // ---------------------------------------------------------------- counting

  /** Webhook events and recordings are as they were. */
  ghost predicate SameWebhooks(s: Sys, s': Sys) {
    && s'.history.recordings == s.history.recordings
    && (forall e, p :: IsWebhookOf(s'.db, e, p) <==> IsWebhookOf(s.db, e, p))
    && (forall e, p :: IsWebhookOf(s.db, e, p) ==> s'.db.events[e].payload == s.db.events[e].payload)
  }

  lemma SameCount(s: Sys, s': Sys)
    requires SameWebhooks(s, s') && Counted(s) && UrlsSeen(s)
    ensures Counted(s') && UrlsSeen(s')
  {
    hide SawUrl;
    forall p ensures WebhooksOf(s'.db, p) == WebhooksOf(s.db, p) {
      forall e ensures e in WebhooksOf(s'.db, p) <==> e in WebhooksOf(s.db, p) {
        assert IsWebhookOf(s'.db, e, p) <==> IsWebhookOf(s.db, e, p);
      }
    }
  }

  lemma WebhookAdded(db: Db, p: Id, eventId: Id, e: Event, q: Id)
    requires eventId !in db.events && e.eventType == PayoutResultWebhook && e.entityId == p
    ensures var db' := db.(events := db.events[eventId := e]);
      WebhooksOf(db', q) == if q == p then WebhooksOf(db, q) + {eventId} else WebhooksOf(db, q)
  {
    var db' := db.(events := db.events[eventId := e]);
    forall d ensures IsWebhookOf(db', d, q) <==> IsWebhookOf(db, d, q) || (d == eventId && q == p) {
    }
    assert forall d :: d in WebhooksOf(db', q) <==> IsWebhookOf(db', d, q);
    assert forall d :: d in WebhooksOf(db, q) <==> IsWebhookOf(db, d, q);
  }

  lemma SameEventsSameWebhooks(db: Db, db': Db, q: Id)
    requires db'.events == db.events
    ensures WebhooksOf(db', q) == WebhooksOf(db, q)
  {
    assert forall d :: IsWebhookOf(db', d, q) <==> IsWebhookOf(db, d, q);
  }

  lemma CountAfter(s: Sys, p: Id, result: ProviderResult, eventId: Id, s': Sys)
    requires Records(s, p, result, eventId, s') && Counted(s)
    ensures Counted(s')
  {
    hide SeenColumn, TargetUrl, HasTarget, Addresses, Recorded, IsWebhookOf;
    var url := TargetUrl(SeenColumn(s.db, p));
    TargetUrlIff(SeenColumn(s.db, p), url.GetOr(""));
    forall q ensures |WebhooksOf(s'.db, q)| == TimesSeen(s'.history.recordings, q) {
      TimesAppend(s.history.recordings, Recording(p, result, SeenColumn(s.db, p)), q);
      if url.Some? {
        var e := s'.db.events[eventId];
        WebhookAdded(s.db, p, eventId, e, q);
        SameEventsSameWebhooks(s.db.(events := s'.db.events), s'.db, q);
        NotAmong(s.db, eventId, q);
      } else {
        SameEventsSameWebhooks(s.db, s'.db, q);
      }
    }
  }

  lemma NotAmong(db: Db, e: Id, q: Id)
    requires e !in db.events
    ensures e !in WebhooksOf(db, q)
  {
  }

  lemma SawStays(recordings: seq<Recording>, last: Recording, p: Id, url: string)
    ensures SawUrl(recordings, p, url) ==> SawUrl(recordings + [last], p, url)
    ensures last.payoutId == p && Addresses(last.column, url) ==> SawUrl(recordings + [last], p, url)
  {
    var all := recordings + [last];
    if SawUrl(recordings, p, url) {
      var i :| 0 <= i < |recordings| && recordings[i].payoutId == p && Addresses(recordings[i].column, url);
      assert all[i] == recordings[i];
    }
    assert all[|recordings|] == last;
  }

  lemma UrlsAfter(s: Sys, p: Id, result: ProviderResult, eventId: Id, s': Sys)
    requires Records(s, p, result, eventId, s') && UrlsSeen(s)
    ensures UrlsSeen(s')
  {
    hide SeenColumn, TargetUrl, Addresses, Recorded, SawUrl;
    var last := Recording(p, result, SeenColumn(s.db, p));
    TargetUrlIff(SeenColumn(s.db, p), TargetUrl(SeenColumn(s.db, p)).GetOr(""));
    forall e, q | IsWebhookOf(s'.db, e, q)
      ensures s'.db.events[e].payload.WebhookPayload?
      ensures SawUrl(s'.history.recordings, q, s'.db.events[e].payload.targetUrl)
    {
      assert e in s.db.events ==> IsWebhookOf(s.db, e, q);
      SawStays(s.history.recordings, last, q, s'.db.events[e].payload.targetUrl);
    }
  }

  // ---------------------------------------------------------------- results told

  /** Final rows do not change in a disciplined step. */
  ghost predicate FinalKept(db: Db, db': Db) {
    forall p :: p in db.payouts && db.payouts[p].status.Final() ==> p in db'.payouts && db'.payouts[p] == db.payouts[p]
  }

  lemma SameTells(s: Sys, s': Sys)
    requires SameWebhooks(s, s') && TellsResult(s.db) && FinalKept(s.db, s'.db)
    ensures TellsResult(s'.db)
  {
  }

  lemma TellsAfter(s: Sys, p: Id, result: ProviderResult, eventId: Id, s': Sys)
    requires Records(s, p, result, eventId, s') && TellsResult(s.db) && FinalKept(s.db, s'.db)
    ensures TellsResult(s'.db)
  {
    hide SeenColumn, StoredReason;
    forall e, q | IsWebhookOf(s'.db, e, q) ensures q in s'.db.payouts && Tells(s'.db.events[e].payload, s'.db.payouts[q]) {
      assert e in s.db.events ==> IsWebhookOf(s.db, e, q);
    }
  }

  lemma OneEachAfter(s: Sys, p: Id, result: ProviderResult, eventId: Id, s': Sys)
    requires Records(s, p, result, eventId, s') && OneEach(s) && IsProcessing(s.db, p)
    ensures OneEach(s')
  {
    hide SeenColumn;
    forall q ensures Times(s'.history.recordings, q) == if q in s'.db.payouts && s'.db.payouts[q].status.Final() then 1 else 0 {
      TimesAppend(s.history.recordings, Recording(p, result, SeenColumn(s.db, p)), q);
    }
    hide StoredReason;
  }

  lemma SameOneEach(s: Sys, s': Sys)
    requires s'.history.recordings == s.history.recordings && OneEach(s)
    requires forall p :: (p in s'.db.payouts && s'.db.payouts[p].status.Final())
                    <==> (p in s.db.payouts && s.db.payouts[p].status.Final())
    ensures OneEach(s')
  {
  }

  // ---------------------------------------------------------------- every step, every run

  /** A step either is a recording or keeps webhooks, recordings and which payouts are final. */
  lemma WebhookStep(s: Sys, a: Action, s': Sys)
    requires Inv(s) && Do(s, a) == Some(s')
    ensures || (a.Record? && RecordsBy(s, a.w, a.eventId, s'))
            || (SameWebhooks(s, s')
                && forall p :: (p in s'.db.payouts && s'.db.payouts[p].status.Final())
                          <==> (p in s.db.payouts && s.db.payouts[p].status.Final()))
  {
    hide Inv, Do, RecordsBy;
    RowsOf(s, a, s');
    if a.Insert? {
      InsertEffect(s, a, s');
    } else if !a.Prepare? && !a.Record? {
      UsuallyUntouched(s, a, s');
    }
  }

  lemma FinalKeptByStep(pol: Policy, s: Sys, a: Action, s': Sys)
    requires Disciplined(pol) && Inv(s) && PolicyInv(pol, s) && Step(pol, s, a, s')
    ensures FinalKept(s.db, s'.db)
  {
    hide Inv, PolicyInv, Do, Allowed;
    forall p | p in s.db.payouts && s.db.payouts[p].status.Final() ensures p in s'.db.payouts && s'.db.payouts[p] == s.db.payouts[p] {
      FinalStep(pol, s, a, s', p);
    }
  }

  lemma RecorderProcesses(pol: Policy, s: Sys, w: nat)
    requires pol.oneAtATime && PolicyInv(pol, s) && w in s.workers && s.workers[w].stage.Answered?
    ensures s.workers[w].msg.Job? && IsProcessing(s.db, s.workers[w].msg.entityId)
  {
    hide UnfinishedBare, AnswersAllowed, Settled, ReasonsMatch;
  }

  lemma StepKeepsWebhookInv(pol: Policy, s: Sys, a: Action, s': Sys)
    requires Inv(s) && PolicyInv(pol, s) && WebhookInv(pol, s) && Step(pol, s, a, s')
    ensures WebhookInv(pol, s')
  {
    hide Inv, PolicyInv, Do, Allowed, Counted, UrlsSeen, TellsResult, OneEach, SameWebhooks, Records, FinalKept, PreparedOk;
    WebhookStep(s, a, s');
    if Disciplined(pol) {
      FinalKeptByStep(pol, s, a, s');
    }
    if a.Record? && RecordsBy(s, a.w, a.eventId, s') {
      var p, result := s.workers[a.w].msg.entityId, s.workers[a.w].stage.result;
      CountAfter(s, p, result, a.eventId, s');
      UrlsAfter(s, p, result, a.eventId, s');
      if Disciplined(pol) {
        TellsAfter(s, p, result, a.eventId, s');
      }
      if pol.oneAtATime {
        RecorderProcesses(pol, s, a.w);
        OneEachAfter(s, p, result, a.eventId, s');
      }
    } else {
      SameCount(s, s');
      SameRecordings(s, s');
      if Disciplined(pol) {
        SameTells(s, s');
      }
      if pol.oneAtATime {
        SameOneEach(s, s');
      }
    }
  }

  lemma SameRecordings(s: Sys, s': Sys)
    requires SameWebhooks(s, s')
    ensures s'.history.recordings == s.history.recordings
  {
  }

  lemma {:induction false} RunKeepsWebhookInv(pol: Policy, s: Sys, acts: seq<Action>, s': Sys)
    requires Inv(s) && PolicyInv(pol, s) && WebhookInv(pol, s) && Runs(pol, s, acts, s')
    ensures Inv(s') && PolicyInv(pol, s') && WebhookInv(pol, s')
    decreases |acts|
  {
    hide Inv, PolicyInv, WebhookInv, Do, Allowed;
    if acts != [] {
      var s1 := Do(s, acts[0]).value;
      StepKeepsPolicyInv(pol, s, acts[0], s1);
      StepKeepsWebhookInv(pol, s, acts[0], s1);
      RunKeepsWebhookInv(pol, s1, acts[1..], s');
    }
  }

  lemma ReachableWebhookInv(pol: Policy, s: Sys)
    requires Reachable(pol, s)
    ensures WebhookInv(pol, s)
  {
    var s0, acts :| Initial(s0) && Runs(pol, s0, acts, s);
    InitialInv(s0);
    InitialPolicyInv(pol, s0);
    InitialWebhookInv(pol, s0);
    hide Inv, PolicyInv, WebhookInv, Runs, Initial;
    RunKeepsWebhookInv(pol, s0, acts, s);
  }

  // ---------------------------------------------------------------- guarantees

  /** In every reachable state the webhook events of a payout are as many as its committed
      recordings that saw a non-blank URL, and each goes to a URL one of them saw. */
  lemma WebhooksAreConserved(pol: Policy, s: Sys, p: Id)
    requires Reachable(pol, s)
    ensures |WebhooksOf(s.db, p)| == TimesSeen(s.history.recordings, p)
    ensures forall e :: IsWebhookOf(s.db, e, p) ==>
              && s.db.events[e].payload.WebhookPayload?
              && SawUrl(s.history.recordings, p, s.db.events[e].payload.targetUrl)
  {
    hide Reachable, WebhooksOf, SawUrl;
    ReachableWebhookInv(pol, s);
  }

  /** One delivery at a time: a payout is recorded exactly once if it is final and never
      otherwise, and it has one webhook event if that recording saw a URL and none otherwise. */
  lemma OneWebhookPerFinalPayout(pol: Policy, s: Sys, p: Id)
    requires pol.oneAtATime && Reachable(pol, s) && p in s.db.payouts
    ensures Times(s.history.recordings, p) == if s.db.payouts[p].status.Final() then 1 else 0
    ensures |WebhooksOf(s.db, p)| == TimesSeen(s.history.recordings, p) <= 1
  {
    hide Reachable, WebhooksOf, SawUrl;
    ReachableWebhookInv(pol, s);
    SeenAtMostTimes(s.history.recordings, p);
  }

  /** One delivery at a time, or a provider function: every webhook event is for a final
      payout and tells its client, its status and its reason as they are. */
  lemma WebhooksTellTheResult(pol: Policy, s: Sys, e: Id, p: Id)
    requires Disciplined(pol) && Reachable(pol, s) && IsWebhookOf(s.db, e, p)
    ensures p in s.db.payouts && Tells(s.db.events[e].payload, s.db.payouts[p])
    ensures s.db.events[e].payload.payoutId == p
  {
    hide Reachable, WebhooksOf, SawUrl, Inv, Consistent, EventsOk, Tells;
    ReachableWebhookInv(pol, s);
    ReachableInv(pol, s);
    InvParts(s);
    EventsOkOf(s.db);
    WebhookNamesPayout(s.db, e, p);
  }

  lemma WebhookNamesPayout(db: Db, e: Id, p: Id)
    requires EventsOk(db) && IsWebhookOf(db, e, p)
    ensures db.events[e].payload.WebhookPayload? && db.events[e].payload.payoutId == p
  {
    assert EventOk(db, e);
  }

  lemma {:induction false} SeenAtMostTimes(recordings: seq<Recording>, p: Id)
    ensures TimesSeen(recordings, p) <= Times(recordings, p)
  {
    if recordings != [] {
      SeenAtMostTimes(recordings[..|recordings| - 1], p);
    }
  }
}
