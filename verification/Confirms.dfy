/** Publisher confirms: a mutex lets one publish at a time send its message and wait for a
    confirmation. Confirmations arrive in the order of the delivery tags, in a channel that
    a wait takes the next one from, whichever message it belongs to. */
module Confirms {
  import opened Prelude

  datatype Confirmation = Confirmation(tag: nat, ack: bool)

  /** What the broker sends while a publish waits. */
  datatype Arrival = Confirm(ack: bool) | Return(tag: nat)

  /** The branch a select takes; a closed channel is either of the two. */
  datatype Branch = Cancelled | TimedOut | ChannelClosed | TakesReturn | TakesConfirmation

  /** The message is sent, or the send fails having used up a delivery tag or not. */
  datatype Send = Sent | SendFails(tagUsed: bool)

  /** One publish: where it goes, its send, what arrives before its first select and the
      branch taken, and the same for the second select that follows a return. */
  datatype Course = Course(
    exchange: string, routingKey: string, send: Send, before: seq<Arrival>, first: Branch, between: seq<Arrival>, second: Branch)

  /** The delivery tags issued, the broker's verdicts in tag order and how many of them were
      taken from the channel, the messages it returned and how many of those were taken. */
  datatype Channels = Channels(issued: nat, verdicts: seq<bool>, taken: nat, sentBack: seq<nat>, takenBack: nat)

  /** A publish that ended: its delivery tag, the return and the confirmation it took, and
      whether it answered nil. */
  datatype Outcome = Outcome(tag: Option<nat>, returned: Option<nat>, consumed: Option<Confirmation>, ok: bool)

  const START := Channels(0, [], 0, [], 0)

  /** The broker confirms only what was sent, in order, and returns only what was sent. */
  function ArrivedOne(ch: Channels, arrival: Arrival): Channels {
    match arrival
    case Confirm(ack) => if |ch.verdicts| < ch.issued then ch.(verdicts := ch.verdicts + [ack]) else ch
    case Return(tag) => if 0 < tag <= ch.issued then ch.(sentBack := ch.sentBack + [tag]) else ch
  }

  function Arrived(ch: Channels, arrivals: seq<Arrival>): Channels {
    if arrivals == [] then ch
    else ArrivedOne(Arrived(ch, arrivals[..|arrivals| - 1]), arrivals[|arrivals| - 1])
  }

  /** The confirmation at the head of the channel; without one the select runs into its timer. */
  function Head(ch: Channels): Option<Confirmation> {
    if ch.taken < |ch.verdicts| then Some(Confirmation(ch.taken + 1, ch.verdicts[ch.taken])) else None
  }

  function Take(ch: Channels): Channels {
    if ch.taken < |ch.verdicts| then ch.(taken := ch.taken + 1) else ch
  }

  /** The message at the head of the returns. */
  function HeadBack(ch: Channels): Option<nat> {
    if ch.takenBack < |ch.sentBack| then Some(ch.sentBack[ch.takenBack]) else None
  }

  /** How a wait ends: the channels, what it took from them and whether it answers nil. */
  datatype Wait = Wait(ch: Channels, returned: Option<nat>, consumed: Option<Confirmation>, ok: bool)

  function Waited(ch: Channels, course: Course): Wait {
    var ready := Arrived(ch, course.before);
    if course.first == TakesConfirmation then
      Wait(Take(ready), None, Head(ready), Head(ready).Some? && Head(ready).value.ack)
    else if course.first == TakesReturn && HeadBack(ready).Some? then
      var again := Arrived(ready.(takenBack := ready.takenBack + 1), course.between);
      if course.second == TakesConfirmation then Wait(Take(again), HeadBack(ready), Head(again), false)
      else Wait(again, HeadBack(ready), None, false)
    else Wait(ready, None, None, false)
  }

  function Published(ch: Channels, course: Course): (Channels, Outcome) {
    var sent := ch.(issued := ch.issued + 1);
    if course.exchange == "" || course.routingKey == "" then (ch, Outcome(None, None, None, false))
    else
      match course.send
      case SendFails(tagUsed) =>
        if tagUsed then (sent, Outcome(Some(sent.issued), None, None, false)) else (ch, Outcome(None, None, None, false))
      case Sent =>
        var end := Waited(sent, course);
        (end.ch, Outcome(Some(sent.issued), end.returned, end.consumed, end.ok))
  }

  /** A whole run of publishes, one after the other. */
  function AfterAll(courses: seq<Course>): (r: (Channels, seq<Outcome>))
    ensures |r.1| == |courses|
  {
    if courses == [] then (START, [])
    else
      var (ch, outcomes) := AfterAll(courses[..|courses| - 1]);
      var (after, outcome) := Published(ch, courses[|courses| - 1]);
      (after, outcomes + [outcome])
  }

  // ---------------------------------------------------------------- the client

  class Client {
    var issued: nat
    var confirmations: seq<Confirmation>
    var returned: seq<nat>
    /** The broker's side: its verdict on each delivery tag so far, and all it returned. */
    var verdicts: seq<bool>
    var sentBack: seq<nat>

    ghost predicate Valid()
      reads this
    {
      && |confirmations| <= |verdicts| <= issued
      && |returned| <= |sentBack|
      && (forall i :: 0 <= i < |returned| ==> returned[i] == sentBack[|sentBack| - |returned| + i])
      && forall i :: 0 <= i < |confirmations| ==>
           var n := |verdicts| - |confirmations| + i;
           confirmations[i] == Confirmation(n + 1, verdicts[n])
    }

    ghost function View(): Channels
      reads this
      requires Valid()
    {
      Channels(issued, verdicts, |verdicts| - |confirmations|, sentBack, |sentBack| - |returned|)
    }

    constructor ()
      ensures Valid() && View() == START
    {
      issued, confirmations, returned, verdicts, sentBack := 0, [], [], [], [];
    }

    method ArriveOne(arrival: Arrival)
      requires Valid()
      modifies this
      ensures Valid() && View() == ArrivedOne(old(View()), arrival)
    {
      match arrival {
        case Confirm(ack) =>
          if |verdicts| < issued {
            verdicts := verdicts + [ack];
            confirmations := confirmations + [Confirmation(|verdicts|, ack)];
          }
        case Return(tag) =>
          if 0 < tag <= issued {
            sentBack := sentBack + [tag];
            returned := returned + [tag];
          }
      }
    }

    method Arrive(arrivals: seq<Arrival>)
      requires Valid()
      modifies this
      ensures Valid() && View() == Arrived(old(View()), arrivals)
    {
      hide ArrivedOne, Valid;
      for i := 0 to |arrivals|
        invariant Valid() && View() == Arrived(old(View()), arrivals[..i])
      {
        assert arrivals[..i + 1][..i] == arrivals[..i];
        ArriveOne(arrivals[i]);
      }
      assert arrivals[..|arrivals|] == arrivals;
    }

    method WaitForPublishConfirm(course: Course)
      returns (back: Option<nat>, consumed: Option<Confirmation>, ok: bool)
      requires Valid()
      modifies this
      ensures Valid() && Wait(View(), back, consumed, ok) == Waited(old(View()), course)
    {
      hide Arrived;
      Arrive(course.before);
      if course.first == TakesConfirmation && confirmations != [] {
        var confirmation := confirmations[0];
        confirmations := confirmations[1..];
        if !confirmation.ack {
          return None, Some(confirmation), false;
        }
        return None, Some(confirmation), true;
      }
      if course.first != TakesReturn || returned == [] {
        return None, None, false;
      }
      back := Some(returned[0]);
      returned := returned[1..];
      Arrive(course.between);
      if course.second != TakesConfirmation || confirmations == [] {
        return back, None, false;
      }
      consumed := Some(confirmations[0]);
      confirmations := confirmations[1..];
      ok := false;
    }

    method Publish(course: Course) returns (outcome: Outcome)
      requires Valid()
      modifies this
      ensures Valid() && (View(), outcome) == Published(old(View()), course)
    {
      if course.exchange == "" || course.routingKey == "" {
        return Outcome(None, None, None, false);
      }
      if course.send == SendFails(false) {
        return Outcome(None, None, None, false);
      }
      issued := issued + 1;
      var tag := issued;
      if course.send.SendFails? {
        return Outcome(Some(tag), None, None, false);
      }
      var back, consumed, ok := WaitForPublishConfirm(course);
      outcome := Outcome(Some(tag), back, consumed, ok);
    }
  }

  // ---------------------------------------------------------------- what every run keeps

  function Tags(outcomes: seq<Outcome>): nat {
    if outcomes == [] then 0 else Tags(outcomes[..|outcomes| - 1]) + if outcomes[|outcomes| - 1].tag.Some? then 1 else 0
  }

  function Consumed(outcomes: seq<Outcome>): nat {
    if outcomes == [] then 0 else Consumed(outcomes[..|outcomes| - 1]) + if outcomes[|outcomes| - 1].consumed.Some? then 1 else 0
  }

  function ReturnsTaken(outcomes: seq<Outcome>): nat {
    if outcomes == [] then 0
    else ReturnsTaken(outcomes[..|outcomes| - 1]) + if outcomes[|outcomes| - 1].returned.Some? then 1 else 0
  }

  /** A publish that used a delivery tag took a confirmation for it. */
  predicate Settles(o: Outcome) { o.tag.Some? ==> o.consumed.Some? }

  /** The confirmation taken is the next in its channel, one more than were taken before,
      and so is the return, which is for this message or an earlier one. Nil is answered
      for an acknowledgement that no return came before. */
  ghost predicate TakesNext(ch: Channels, earlier: seq<Outcome>, o: Outcome) {
    && (o.tag.Some? ==> o.tag.value == Tags(earlier) + 1)
    && (o.consumed.Some? ==>
          && o.tag.Some? && Consumed(earlier) < |ch.verdicts|
          && o.consumed.value == Confirmation(Consumed(earlier) + 1, ch.verdicts[Consumed(earlier)]))
    && (o.returned.Some? ==>
          && o.tag.Some? && ReturnsTaken(earlier) < |ch.sentBack|
          && o.returned.value == ch.sentBack[ReturnsTaken(earlier)] <= o.tag.value)
    && (o.ok <==> o.consumed.Some? && o.consumed.value.ack && o.returned == None)
  }

  ghost predicate TakesNextAt(ch: Channels, outcomes: seq<Outcome>, k: nat) {
    k < |outcomes| && TakesNext(ch, outcomes[..k], outcomes[k])
  }

  /** Both sides have sent no more than was published, in which order. */
  ghost predicate InOrder(ch: Channels) {
    && ch.taken <= |ch.verdicts| <= ch.issued && ch.takenBack <= |ch.sentBack|
    && forall i :: 0 <= i < |ch.sentBack| ==> ch.sentBack[i] <= ch.issued
  }

  ghost predicate Grown(ch: Channels, after: Channels) {
    ch.verdicts <= after.verdicts && ch.sentBack <= after.sentBack
  }

  lemma {:induction false} ArrivedGrows(ch: Channels, arrivals: seq<Arrival>)
    requires InOrder(ch)
    ensures var after := Arrived(ch, arrivals);
      && after.issued == ch.issued && after.taken == ch.taken && after.takenBack == ch.takenBack
      && Grown(ch, after) && InOrder(after)
  {
    if arrivals != [] {
      ArrivedGrows(ch, arrivals[..|arrivals| - 1]);
    }
  }

  /** What a wait takes is the head of each channel at the time. */
  lemma WaitTakesHeads(ch: Channels, course: Course)
    requires InOrder(ch)
    ensures var end := Waited(ch, course);
      && InOrder(end.ch) && Grown(ch, end.ch) && end.ch.issued == ch.issued
      && end.ch.taken == ch.taken + (if end.consumed.Some? then 1 else 0)
      && end.ch.takenBack == ch.takenBack + (if end.returned.Some? then 1 else 0)
      && (end.consumed.Some? ==>
            && ch.taken < |end.ch.verdicts|
            && end.consumed.value == Confirmation(ch.taken + 1, end.ch.verdicts[ch.taken]))
      && (end.returned.Some? ==> ch.takenBack < |end.ch.sentBack| && end.returned.value == end.ch.sentBack[ch.takenBack])
      && (end.ok <==> end.consumed.Some? && end.consumed.value.ack && end.returned == None)
  {
    hide Arrived;
    ArrivedGrows(ch, course.before);
    var ready := Arrived(ch, course.before);
    if course.first == TakesReturn && HeadBack(ready).Some? {
      ArrivedGrows(ready.(takenBack := ready.takenBack + 1), course.between);
    }
  }

  /** The channels match the outcomes so far. */
  ghost predicate Counted(ch: Channels, outcomes: seq<Outcome>) {
    && InOrder(ch) && ch.issued == Tags(outcomes)
    && ch.taken == Consumed(outcomes) && ch.takenBack == ReturnsTaken(outcomes)
  }

  lemma PublishedKeeps(ch: Channels, course: Course, earlier: seq<Outcome>)
    requires Counted(ch, earlier)
    ensures var (after, o) := Published(ch, course);
      TakesNext(after, earlier, o) && Grown(ch, after) && Counted(after, earlier + [o])
  {
    hide Waited;
    var (after, o) := Published(ch, course);
    assert (earlier + [o])[..|earlier|] == earlier;
    WaitTakesHeads(ch.(issued := ch.issued + 1), course);
  }

  lemma {:induction false} RunKeeps(courses: seq<Course>)
    ensures var (ch, outcomes) := AfterAll(courses);
      Counted(ch, outcomes) && forall k :: 0 <= k < |outcomes| ==> TakesNextAt(ch, outcomes, k)
  {
    if courses != [] {
      hide Published, Counted, Grown, TakesNext, TakesNextAt;
      var init, last := courses[..|courses| - 1], courses[|courses| - 1];
      RunKeeps(init);
      var (before, earlier) := AfterAll(init);
      var (ch, outcome) := Published(before, last);
      PublishedKeeps(before, last, earlier);
      forall k | 0 <= k < |courses| ensures TakesNextAt(ch, earlier + [outcome], k) {
        if k < |earlier| {
          AtStays(before, earlier, k, ch, outcome);
        } else {
          LastAt(ch, earlier, outcome);
        }
      }
    }
  }

  lemma AtStays(before: Channels, earlier: seq<Outcome>, k: nat, after: Channels, outcome: Outcome)
    requires TakesNextAt(before, earlier, k) && Grown(before, after)
    ensures TakesNextAt(after, earlier + [outcome], k)
  {
    hide Tags, Consumed, ReturnsTaken;
    assert (earlier + [outcome])[..k] == earlier[..k];
  }

  lemma LastAt(ch: Channels, earlier: seq<Outcome>, outcome: Outcome)
    requires TakesNext(ch, earlier, outcome)
    ensures TakesNextAt(ch, earlier + [outcome], |earlier|)
  {
    hide TakesNext;
    assert (earlier + [outcome])[..|earlier|] == earlier;
  }

  lemma {:induction false} LagIffUnsettled(outcomes: seq<Outcome>)
    requires forall j :: 0 <= j < |outcomes| && outcomes[j].consumed.Some? ==> outcomes[j].tag.Some?
    ensures Consumed(outcomes) <= Tags(outcomes)
    ensures Consumed(outcomes) == Tags(outcomes) <==> forall j :: 0 <= j < |outcomes| ==> Settles(outcomes[j])
  {
    if outcomes != [] {
      var init := outcomes[..|outcomes| - 1];
      LagIffUnsettled(init);
      assert forall j :: 0 <= j < |init| ==> init[j] == outcomes[j];
    }
  }

  /** Over every run: a publish that takes a confirmation takes its own if and only if
      every earlier publish that used a delivery tag took one too. */
  lemma {:induction false} OwnConfirmationIff(courses: seq<Course>, k: nat)
    requires k < |courses| && AfterAll(courses).1[k].consumed.Some?
    ensures var o := AfterAll(courses).1[k];
      o.tag.Some? && (o.consumed.value.tag == o.tag.value
        <==> forall j :: 0 <= j < k ==> Settles(AfterAll(courses).1[j]))
  {
    RunKeeps(courses);
    var (ch, outcomes) := AfterAll(courses);
    assert TakesNextAt(ch, outcomes, k);
    forall j | 0 <= j < k && outcomes[j].consumed.Some? ensures outcomes[j].tag.Some? {
      assert TakesNextAt(ch, outcomes, j);
    }
    LagIffUnsettled(outcomes[..k]);
    assert forall j :: 0 <= j < k ==> outcomes[..k][j] == outcomes[j];
  }

  /** In a run whose publishes all settle, up to one in question, that one's verdict is the
      broker's on its own message: the publish returns nil exactly when that message was
      acknowledged and no return was taken first, so a negative acknowledgement is an error. */
  lemma {:induction false} AlignedPublish(courses: seq<Course>, k: nat)
    requires k < |courses| && forall j :: 0 <= j <= k ==> Settles(AfterAll(courses).1[j])
    ensures var (ch, outcomes) := AfterAll(courses);
      var o := outcomes[k];
      o.tag.Some? ==>
        && 0 < o.tag.value <= |ch.verdicts|
        && o.consumed == Some(Confirmation(o.tag.value, ch.verdicts[o.tag.value - 1]))
        && (o.ok <==> ch.verdicts[o.tag.value - 1] && o.returned == None)
  {
    RunKeeps(courses);
    var (ch, outcomes) := AfterAll(courses);
    assert TakesNextAt(ch, outcomes, k);
    if outcomes[k].tag.Some? {
      assert Settles(outcomes[k]);
      OwnConfirmationIff(courses, k);
    }
  }

  /** With every send a success as well, the publishes and the confirmations match by
      position. */
  lemma {:induction false} KthTakesKth(courses: seq<Course>, k: nat)
    requires k < |courses|
    requires forall j :: 0 <= j <= k ==> AfterAll(courses).1[j].consumed.Some?
    ensures AfterAll(courses).1[k].tag == Some(k + 1) && AfterAll(courses).1[k].consumed.value.tag == k + 1
  {
    RunKeeps(courses);
    var (ch, outcomes) := AfterAll(courses);
    assert TakesNextAt(ch, outcomes, k);
    forall j | 0 <= j < k ensures Settles(outcomes[j]) && outcomes[j].tag.Some? {
      assert TakesNextAt(ch, outcomes, j);
    }
    AllTagged(outcomes[..k]);
    OwnConfirmationIff(courses, k);
  }

  lemma {:induction false} AllTagged(outcomes: seq<Outcome>)
    requires forall j :: 0 <= j < |outcomes| ==> outcomes[j].tag.Some?
    ensures Tags(outcomes) == |outcomes|
  {
    if outcomes != [] {
      AllTagged(outcomes[..|outcomes| - 1]);
    }
  }

  /** Over every run: a publish that returns nil was answered by an acknowledgement, of its
      own message or, after waits that gave up, of one that many messages back. */
  lemma {:induction false} NilWasAcknowledged(courses: seq<Course>, k: nat)
    requires k < |courses| && AfterAll(courses).1[k].ok
    ensures var (ch, outcomes) := AfterAll(courses);
      var lag := Tags(outcomes[..k]) - Consumed(outcomes[..k]);
      && outcomes[k].tag.Some? && 0 <= lag < outcomes[k].tag.value
      && outcomes[k].tag.value - lag <= |ch.verdicts| && ch.verdicts[outcomes[k].tag.value - 1 - lag]
  {
    RunKeeps(courses);
    var (ch, outcomes) := AfterAll(courses);
    assert TakesNextAt(ch, outcomes, k);
    forall j | 0 <= j < k && outcomes[j].consumed.Some? ensures outcomes[j].tag.Some? {
      assert TakesNextAt(ch, outcomes, j);
    }
    LagIffUnsettled(outcomes[..k]);
  }

  /** Over every run in which the broker returns a message at most once and in order: a
      publish that takes a return takes its own if and only if every return sent for an
      earlier message was taken before; otherwise it takes an earlier message's. */
  lemma {:induction false} OwnReturnIff(courses: seq<Course>, k: nat)
    requires k < |courses| && AfterAll(courses).1[k].returned.Some?
    requires var sent := AfterAll(courses).0.sentBack; forall i, j :: 0 <= i < j < |sent| ==> sent[i] < sent[j]
    ensures var (ch, outcomes) := AfterAll(courses);
      var o := outcomes[k];
      && o.tag.Some? && o.returned.value <= o.tag.value
      && (o.returned.value == o.tag.value <==>
            forall i :: 0 <= i < |ch.sentBack| && ch.sentBack[i] < o.tag.value ==> i < ReturnsTaken(outcomes[..k]))
  {
    RunKeeps(courses);
    var (ch, outcomes) := AfterAll(courses);
    assert TakesNextAt(ch, outcomes, k);
  }

  // ---------------------------------------------------------------- what the selects take

  /** The verdicts among what arrives, in their order. */
  function Acks(arrivals: seq<Arrival>): seq<bool> {
    if arrivals == [] then []
    else
      var init, last := arrivals[..|arrivals| - 1], arrivals[|arrivals| - 1];
      if last.Confirm? then Acks(init) + [last.ack] else Acks(init)
  }

  /** The returns among what arrives that are for one of the first `issued` messages. */
  function Backs(arrivals: seq<Arrival>, issued: nat): seq<nat> {
    if arrivals == [] then []
    else
      var init, last := arrivals[..|arrivals| - 1], arrivals[|arrivals| - 1];
      if last.Return? && 0 < last.tag <= issued then Backs(init, issued) + [last.tag] else Backs(init, issued)
  }

  function Capped(verdicts: seq<bool>, limit: nat): seq<bool> {
    if |verdicts| <= limit then verdicts else verdicts[..limit]
  }

  /** Arrivals append the broker's verdicts, no more than messages were sent, and its returns. */
  lemma {:induction false} ArrivedAdds(ch: Channels, arrivals: seq<Arrival>)
    requires |ch.verdicts| <= ch.issued
    ensures var after := Arrived(ch, arrivals);
      after == ch.(verdicts := Capped(ch.verdicts + Acks(arrivals), ch.issued), sentBack := ch.sentBack + Backs(arrivals, ch.issued))
  {
    if arrivals == [] {
      assert ch.verdicts + [] == ch.verdicts && ch.sentBack + [] == ch.sentBack;
    } else {
      var init, last := arrivals[..|arrivals| - 1], arrivals[|arrivals| - 1];
      ArrivedAdds(ch, init);
      var mid := Arrived(ch, init);
      if last.Confirm? {
        assert ch.verdicts + Acks(arrivals) == ch.verdicts + Acks(init) + [last.ack];
      } else {
        assert ch.sentBack + (Backs(init, ch.issued) + [last.tag]) == ch.sentBack + Backs(init, ch.issued) + [last.tag];
      }
    }
  }

  /** The exchange and the routing key are named and the message is sent. */
  predicate Goes(course: Course) { course.exchange != "" && course.routingKey != "" && course.send == Sent }

  /** The broker's verdicts by the first select of a publish that goes, and by its second. */
  function Shown(verdicts: seq<bool>, course: Course, tag: nat): seq<bool> { Capped(verdicts + Acks(course.before), tag) }

  function ShownLater(verdicts: seq<bool>, course: Course, tag: nat): seq<bool> {
    Capped(Shown(verdicts, course, tag) + Acks(course.between), tag)
  }

  /** The outcome of a publish that goes after `earlier` ones: its selects take what is waiting
      in the channel they pick, be the verdict what it may, and take nothing otherwise. */
  ghost predicate TakesWhatWaits(before: Channels, earlier: seq<Outcome>, course: Course, o: Outcome) {
    var tag, n, m := Tags(earlier) + 1, Consumed(earlier), ReturnsTaken(earlier);
    var shown, later := Shown(before.verdicts, course, tag), ShownLater(before.verdicts, course, tag);
    var backs := before.sentBack + Backs(course.before, tag);
    && o.tag == Some(tag)
    && o.returned == (if course.first == TakesReturn && m < |backs| then Some(backs[m]) else None)
    && (course.first == TakesConfirmation ==>
          && o.consumed == (if n < |shown| then Some(Confirmation(n + 1, shown[n])) else None)
          && (o.ok <==> n < |shown| && shown[n]))
    && (course.first != TakesConfirmation ==>
          && o.consumed == (if o.returned.Some? && course.second == TakesConfirmation && n < |later|
                            then Some(Confirmation(n + 1, later[n])) else None)
          && !o.ok)
  }

  lemma GoesTakes(before: Channels, earlier: seq<Outcome>, course: Course)
    requires Counted(before, earlier) && Goes(course)
    ensures TakesWhatWaits(before, earlier, course, Published(before, course).1)
  {
    hide Arrived, Capped, Acks, Backs;
    var sent := before.(issued := before.issued + 1);
    ArrivedAdds(sent, course.before);
    var ready := Arrived(sent, course.before);
    ArrivedGrows(sent, course.before);
    ArrivedAdds(ready.(takenBack := ready.takenBack + 1), course.between);
  }

  lemma {:induction false} OutcomeAt(courses: seq<Course>, k: nat)
    requires k < |courses|
    ensures AfterAll(courses).1[k] == Published(AfterAll(courses[..k]).0, courses[k]).1
    decreases |courses|
  {
    hide Published;
    var init := courses[..|courses| - 1];
    if k == |init| {
      assert courses[..k] == init;
    } else {
      OutcomeAt(init, k);
      assert init[..k] == courses[..k];
    }
  }

  /** Over every run, whatever came before: a publish that is sent takes a confirmation if and
      only if a select of it that picks one finds one waiting, one more having been sent by the
      broker than were taken; likewise with a return; and the answer is nil if and only if the
      first select takes an acknowledgement. */
  lemma SelectsTakeWhatWaits(courses: seq<Course>, k: nat)
    requires k < |courses| && Goes(courses[k])
    ensures var (before, earlier) := AfterAll(courses[..k]);
      TakesWhatWaits(before, earlier, courses[k], AfterAll(courses).1[k])
  {
    hide Published, TakesWhatWaits;
    RunKeeps(courses[..k]);
    OutcomeAt(courses, k);
    var (before, earlier) := AfterAll(courses[..k]);
    GoesTakes(before, earlier, courses[k]);
  }

  /** A publish that is not sent waits for nothing: it fails, having used a delivery tag exactly
      if its names were given and the failed send used one. */
  lemma UnsentTakesNothing(courses: seq<Course>, k: nat)
    requires k < |courses| && !Goes(courses[k])
    ensures var o, c := AfterAll(courses).1[k], courses[k];
      && o.returned == None && o.consumed == None && !o.ok
      && (o.tag.Some? <==> c.exchange != "" && c.routingKey != "" && c.send == SendFails(true))
  {
    hide Published, Goes;
    OutcomeAt(courses, k);
    UnsentFails(AfterAll(courses[..k]).0, courses[k]);
  }

  lemma UnsentFails(ch: Channels, course: Course)
    ensures var o := Published(ch, course).1;
      !Goes(course) ==>
        && o == Outcome(o.tag, None, None, false)
        && (o.tag.Some? <==> course.exchange != "" && course.routingKey != "" && course.send == SendFails(true))
  {
    hide Waited;
  }

  /** The returns that arrive for sent messages before the selects of the courses, each of
      which is sent, and how many of the courses pick one. */
  function BacksSeen(courses: seq<Course>): nat {
    if courses == [] then 0
    else
      var last := courses[|courses| - 1];
      BacksSeen(courses[..|courses| - 1]) + |Backs(last.before, |courses|)|
      + if last.first == TakesReturn then |Backs(last.between, |courses|)| else 0
  }

  function ReturnPicks(courses: seq<Course>): nat {
    if courses == [] then 0
    else ReturnPicks(courses[..|courses| - 1]) + if courses[|courses| - 1].first == TakesReturn then 1 else 0
  }

  /** The k-th message is sent, and a verdict arrives before the select that picks one: the
      first select, or the second when the first picks a return that is there. */
  predicate Prompt(courses: seq<Course>, k: nat)
    requires k < |courses|
  {
    var c := courses[k];
    && Goes(c)
    && ((c.first == TakesConfirmation && Acks(c.before) != [])
        || (c.first == TakesReturn && c.second == TakesConfirmation && Acks(c.before) + Acks(c.between) != []
            && ReturnPicks(courses[..k]) < BacksSeen(courses[..k]) + |Backs(c.before, k + 1)|))
  }

  /** Where a run of prompt courses stands: every message has its verdict and it was taken. */
  ghost predicate AllSettled(courses: seq<Course>, ch: Channels, outcomes: seq<Outcome>) {
    && Counted(ch, outcomes) && |outcomes| == |courses|
    && Tags(outcomes) == |courses| && Consumed(outcomes) == |courses| && |ch.verdicts| == |courses|
    && ReturnsTaken(outcomes) == ReturnPicks(courses) && |ch.sentBack| == BacksSeen(courses)
  }

  /** The outcome of the k-th of prompt courses, from its course alone. */
  ghost predicate SettlesPromptly(course: Course, k: nat, o: Outcome) {
    var verdicts := if course.first == TakesConfirmation then Acks(course.before) else Acks(course.before) + Acks(course.between);
    && verdicts != []
    && o.tag == Some(k + 1) && o.consumed == Some(Confirmation(k + 1, verdicts[0]))
    && (o.ok <==> course.first == TakesConfirmation && verdicts[0])
  }

  lemma PromptStep(courses: seq<Course>, ch: Channels, outcomes: seq<Outcome>, course: Course)
    requires AllSettled(courses, ch, outcomes) && Prompt(courses + [course], |courses|)
    ensures var (after, o) := Published(ch, course);
      AllSettled(courses + [course], after, outcomes + [o]) && SettlesPromptly(course, |courses|, o)
  {
    hide Arrived, Acks, Backs;
    var k := |courses|;
    assert (courses + [course])[..k] == courses;
    var (after, o) := Published(ch, course);
    assert (outcomes + [o])[..k] == outcomes;
    PublishedKeeps(ch, course, outcomes);
    var sent := ch.(issued := ch.issued + 1);
    ArrivedAdds(sent, course.before);
    var ready := Arrived(sent, course.before);
    ArrivedGrows(sent, course.before);
    ArrivedAdds(ready.(takenBack := ready.takenBack + 1), course.between);
  }

  lemma {:induction false} PromptRun(courses: seq<Course>)
    requires forall k :: 0 <= k < |courses| ==> Prompt(courses, k)
    ensures var (ch, outcomes) := AfterAll(courses);
      && AllSettled(courses, ch, outcomes)
      && forall k :: 0 <= k < |courses| ==> SettlesPromptly(courses[k], k, outcomes[k])
  {
    hide Published, Prompt, AllSettled, SettlesPromptly;
    if courses == [] {
      NothingSettled();
    } else {
      var init, last := courses[..|courses| - 1], courses[|courses| - 1];
      forall k | 0 <= k < |init| ensures Prompt(init, k) {
        PromptBefore(courses, k);
      }
      PromptRun(init);
      var (ch, outcomes) := AfterAll(init);
      assert courses == init + [last];
      PromptStep(init, ch, outcomes, last);
    }
  }

  lemma NothingSettled()
    ensures AllSettled([], START, [])
  {
  }

  lemma PromptBefore(courses: seq<Course>, k: nat)
    requires k < |courses| - 1 && Prompt(courses, k)
    ensures Prompt(courses[..|courses| - 1], k)
  {
    assert courses[..|courses| - 1][..k] == courses[..k];
  }

  /** A run told by its courses alone: if every message is sent and its verdict arrives before
      the select that picks one, each publish takes its own confirmation, the verdict being the
      first to arrive, and answers nil exactly for an acknowledgement that its first select
      picked. */
  lemma PromptPublishesSettle(courses: seq<Course>, k: nat)
    requires k < |courses| && forall j :: 0 <= j < |courses| ==> Prompt(courses, j)
    ensures var o := AfterAll(courses).1[k];
      var verdicts := if courses[k].first == TakesConfirmation then Acks(courses[k].before)
                      else Acks(courses[k].before) + Acks(courses[k].between);
      && verdicts != [] && o.tag == Some(k + 1) && o.consumed == Some(Confirmation(k + 1, verdicts[0]))
      && (o.ok <==> courses[k].first == TakesConfirmation && verdicts[0])
  {
    hide Prompt;
    PromptRun(courses);
    assert SettlesPromptly(courses[k], k, AfterAll(courses).1[k]);
  }

  // ---------------------------------------------------------------- runs that go wrong

  /** After a wait that timed out the next publish takes the late confirmation: its own
      message is refused, yet it returns nil. */
  method NilForARefusedMessage() returns (client: Client, outcome: Outcome)
    ensures client.Valid() && outcome == Outcome(Some(2), None, Some(Confirmation(1, true)), true)
    ensures client.verdicts == [true, false]
  {
    client := new Client();
    var late := Course("e", "r", Sent, [], TimedOut, [], TimedOut);
    var early := Course("e", "r", Sent, [Confirm(true), Confirm(false)], TakesConfirmation, [], TimedOut);
    var first := client.Publish(late);
    outcome := client.Publish(early);
    assert [Confirm(true), Confirm(false)][..1] == [Confirm(true)];
    assert [Confirm(true)][..0] == [];
  }

  const RETURNED := Course("e", "r", Sent, [Return(1), Confirm(true)], TakesConfirmation, [], TimedOut)
  const ACCEPTED := Course("e", "r", Sent, [], TakesReturn, [Confirm(true)], TakesConfirmation)

  lemma ReturnedAndAccepted()
    ensures Published(START, RETURNED) == (Channels(1, [true], 1, [1], 0), Outcome(Some(1), None, Some(Confirmation(1, true)), true))
    ensures Published(Channels(1, [true], 1, [1], 0), ACCEPTED)
         == (Channels(2, [true, true], 2, [1], 1), Outcome(Some(2), Some(1), Some(Confirmation(2, true)), false))
  {
    var both := [Return(1), Confirm(true)];
    assert both[..1] == [Return(1)] && [Return(1)][..0] == [] && [Confirm(true)][..0] == [];
    assert Arrived(Channels(1, [], 0, [], 0), both) == Channels(1, [true], 0, [1], 0);
    assert Arrived(Channels(2, [true], 1, [1], 1), [Confirm(true)]) == Channels(2, [true, true], 1, [1], 1);
    assert Arrived(Channels(2, [true], 1, [1], 0), []) == Channels(2, [true], 1, [1], 0);
    hide Arrived;
  }

  /** A message that no queue took is returned and then acknowledged. When both wait, the
      select may take the acknowledgement: the publish returns nil, and the next one takes
      the stale return and fails although its own message was acknowledged. */
  method NilForAReturnedMessage() returns (client: Client, first: Outcome, second: Outcome)
    ensures client.Valid() && first == Outcome(Some(1), None, Some(Confirmation(1, true)), true)
    ensures second == Outcome(Some(2), Some(1), Some(Confirmation(2, true)), false)
    ensures client.View() == Channels(2, [true, true], 2, [1], 1)
  {
    ReturnedAndAccepted();
    hide Published, Client.Valid;
    client := new Client();
    first := client.Publish(RETURNED);
    second := client.Publish(ACCEPTED);
  }
}
