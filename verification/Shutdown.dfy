/** The API's main routine: a server goroutine and, if configured, a relay goroutine are
    started, the first end of either or a signal is awaited, and both are joined. */
module Shutdown {
  import opened Prelude

  datatype Error = ServerClosed | ContextCanceled | ShutdownFailed | NotConfigured | Failure(text: string)

  function NormalizeServeError(e: Option<Error>): Option<Error> { if e == Some(ServerClosed) then None else e }

  function NormalizeRelayError(e: Option<Error>): Option<Error> { if e == Some(ContextCanceled) then None else e }

  /** The error the server's Shutdown leaves, wrapped. */
  function StopError(e: Option<Error>): Option<Error> {
    if e == None || e == Some(ServerClosed) then None else Some(ShutdownFailed)
  }

  function FirstNonNil(a: Option<Error>, b: Option<Error>): Option<Error> { if a.Some? then a else b }

  // ---------------------------------------------------------------- the goroutines interleaved

  /** A goroutine and its done channel of capacity one: still running, ended with its value
      in the channel, or received from. */
  datatype Task = Running | Sent(value: Option<Error>) | Taken(value: Option<Error>)

  datatype Main = Selecting | Cancelling | Stopping | AwaitingServer | AwaitingRelay | Returned(result: Option<Error>)

  /** `serverFirst` records whether the select took the server's end, `stopped` what the
      shutdown of the server left. */
  datatype App = App(
    main: Main, signalled: bool, cancelled: bool, server: Task, relay: Option<Task>,
    serverErr: Option<Error>, serverReceived: bool, relayErr: Option<Error>, relayReceived: bool,
    serverFirst: bool, stopped: Option<Option<Error>>, serverReceives: nat, relayReceives: nat)

  function Start(withRelay: bool): App {
    App(Selecting, false, false, Running, if withRelay then Some(Running) else None,
        None, false, None, !withRelay, false, None, 0, 0)
  }

  datatype Action =
    | Signal
    | ServerEnds(error: Option<Error>)
    | RelayEnds(error: Option<Error>)
    | SelectServer
    | SelectRelay
    | SelectSignal
    | Cancel
    | Stop(error: Option<Error>)
    | JoinServer
    | JoinRelay

  function Do(app: App, a: Action): Option<App> {
    match a
    case Signal => if app.signalled then None else Some(app.(signalled := true))
    case ServerEnds(e) => if app.server.Running? then Some(app.(server := Sent(NormalizeServeError(e)))) else None
    case RelayEnds(e) => if app.relay == Some(Running) then Some(app.(relay := Some(Sent(NormalizeRelayError(e))))) else None
    case SelectServer =>
      if app.main == Selecting && app.server.Sent? then
        Some(app.(main := Cancelling, server := Taken(app.server.value), serverErr := app.server.value,
                  serverReceived := true, serverReceives := app.serverReceives + 1, serverFirst := true))
      else None
    case SelectRelay =>
      if app.main == Selecting && app.relay.Some? && app.relay.value.Sent? then
        Some(app.(main := Cancelling, relay := Some(Taken(app.relay.value.value)), relayErr := app.relay.value.value,
                  relayReceived := true, relayReceives := app.relayReceives + 1))
      else None
    case SelectSignal => if app.main == Selecting && app.signalled then Some(app.(main := Cancelling)) else None
    case Cancel => if app.main == Cancelling then Some(app.(main := Stopping, cancelled := true)) else None
    case Stop(e) =>
      if app.main == Stopping then
        Some(app.(main := AwaitingServer, serverErr := FirstNonNil(app.serverErr, StopError(e)), stopped := Some(StopError(e))))
      else None
    case JoinServer =>
      if app.main != AwaitingServer then None
      else if app.serverReceived then Some(app.(main := AwaitingRelay))
      else if app.server.Sent? then
        Some(app.(main := AwaitingRelay, server := Taken(app.server.value), serverReceived := true,
                  serverReceives := app.serverReceives + 1, serverErr := FirstNonNil(app.serverErr, app.server.value)))
      else None
    case JoinRelay =>
      if app.main != AwaitingRelay then None
      else if app.relayReceived then Some(app.(main := Returned(FirstNonNil(app.serverErr, app.relayErr))))
      else if app.relay.Some? && app.relay.value.Sent? then
        var relayErr := FirstNonNil(app.relayErr, app.relay.value.value);
        Some(app.(main := Returned(FirstNonNil(app.serverErr, relayErr)), relay := Some(Taken(app.relay.value.value)),
                  relayErr := relayErr, relayReceived := true, relayReceives := app.relayReceives + 1))
      else None
  }

  ghost predicate Runs(app: App, acts: seq<Action>, app': App)
    decreases |acts|
  {
    if acts == [] then app' == app else Do(app, acts[0]).Some? && Runs(Do(app, acts[0]).value, acts[1..], app')
  }

  /** The error returned: what the server ended with and what its shutdown left, whichever
      was known first, and only then what the relay ended with. */
  function Preferred(serverFirst: bool, served: Option<Error>, stopped: Option<Error>, relayed: Option<Error>): Option<Error> {
    FirstNonNil(if serverFirst then FirstNonNil(served, stopped) else FirstNonNil(stopped, served), relayed)
  }

  function RelayValue(app: App): Option<Error> {
    if app.relay.Some? && !app.relay.value.Running? then app.relay.value.value else None
  }

  function Progress(main: Main): nat {
    match main
    case Selecting => 0
    case Cancelling => 1
    case Stopping => 2
    case AwaitingServer => 3
    case AwaitingRelay => 4
    case Returned(_) => 5
  }

  ghost predicate Inv(app: App) {
    && (app.serverReceived <==> app.server.Taken?)
    && (app.relayReceived <==> app.relay == None || app.relay.value.Taken?)
    && app.serverReceives == (if app.serverReceived then 1 else 0)
    && app.relayReceives == (if app.relay.Some? && app.relayReceived then 1 else 0)
    && (app.serverFirst ==> app.serverReceived)
    && (app.main == Selecting ==> !app.serverReceived && (app.relay.Some? ==> !app.relayReceived))
    && (app.cancelled <==> Progress(app.main) >= 2)
    && (app.stopped.Some? <==> Progress(app.main) >= 3)
    && (app.serverReceived && Progress(app.main) < 4 ==> app.serverFirst)
    && (Progress(app.main) >= 4 ==> app.serverReceived)
    && (app.main.Returned? ==> app.relayReceived)
    && app.serverErr == FirstNonNil(
         if app.serverFirst then app.server.value else app.stopped.GetOr(None),
         if app.serverFirst then app.stopped.GetOr(None) else if app.serverReceived then app.server.value else None)
    && app.relayErr == (if app.relayReceived then RelayValue(app) else None)
    && (app.main.Returned? ==> app.main.result == FirstNonNil(app.serverErr, app.relayErr))
  }

  lemma StepKeeps(app: App, a: Action)
    requires Inv(app) && Do(app, a).Some?
    ensures Inv(Do(app, a).value)
    ensures (app.relay.Some? <==> Do(app, a).value.relay.Some?)
  {
  }

  lemma {:induction false} RunKeeps(app: App, acts: seq<Action>, app': App)
    requires Inv(app) && Runs(app, acts, app')
    ensures Inv(app') && (app.relay.Some? <==> app'.relay.Some?)
    decreases |acts|
  {
    hide Inv, Do;
    if acts != [] {
      StepKeeps(app, acts[0]);
      RunKeeps(Do(app, acts[0]).value, acts[1..], app');
    }
  }

  /** However the server's end, the relay's end and a signal fall, when the routine returns
      it has cancelled the context, shut the server down, received from every done channel
      once, and answers with the preferred error. */
  lemma JoinsBoth(withRelay: bool, acts: seq<Action>, app: App)
    requires Runs(Start(withRelay), acts, app) && app.main.Returned?
    ensures app.cancelled && app.stopped.Some? && app.server.Taken?
    ensures if withRelay then app.relay.Some? && app.relay.value.Taken? else app.relay == None
    ensures app.main.result == Preferred(app.serverFirst, app.server.value, app.stopped.value, RelayValue(app))
    ensures app.serverReceives == 1 && app.relayReceives == if withRelay then 1 else 0
  {
    RunKeeps(Start(withRelay), acts, app);
  }

  /** The values that came to be known so far are all nil. */
  predicate Clean(app: App) {
    && (app.server.Running? || app.server.value == None)
    && RelayValue(app) == None && app.stopped.GetOr(None) == None
  }

  /** A server closed, a relay cancelled and a shutdown of a closed server are no errors. */
  predicate EndsClean(a: Action) {
    match a
    case ServerEnds(e) => e == None || e == Some(ServerClosed)
    case Stop(e) => e == None || e == Some(ServerClosed)
    case RelayEnds(e) => e == None || e == Some(ContextCanceled)
    case _ => true
  }

  lemma StaysClean(app: App, a: Action)
    requires Inv(app) && Do(app, a).Some?
    ensures Clean(Do(app, a).value) <==> Clean(app) && EndsClean(a)
  {
  }

  lemma {:induction false} CleanRun(app: App, acts: seq<Action>, app': App)
    requires Inv(app) && Runs(app, acts, app')
    ensures Clean(app') <==> Clean(app) && forall i :: 0 <= i < |acts| ==> EndsClean(acts[i])
    decreases |acts|
  {
    hide Inv, Do, Clean, EndsClean;
    if acts != [] {
      StepKeeps(app, acts[0]);
      StaysClean(app, acts[0]);
      CleanRun(Do(app, acts[0]).value, acts[1..], app');
      assert forall i :: 0 < i < |acts| ==> acts[i] == acts[1..][i - 1];
      if forall i :: 0 <= i < |acts[1..]| ==> EndsClean(acts[1..][i]) {
        assert forall i :: 0 < i < |acts| ==> EndsClean(acts[i]);
      } else {
        var i :| 0 <= i < |acts[1..]| && !EndsClean(acts[1..][i]);
        assert !EndsClean(acts[i + 1]);
      }
    }
  }

  /** The routine returns nil exactly when the server, its shutdown and the relay all ended
      without an error of their own. */
  lemma ReturnsNilIff(withRelay: bool, acts: seq<Action>, app: App)
    requires Runs(Start(withRelay), acts, app) && app.main.Returned?
    ensures app.main.result == None <==> forall i :: 0 <= i < |acts| ==> EndsClean(acts[i])
  {
    RunKeeps(Start(withRelay), acts, app);
    CleanRun(Start(withRelay), acts, app);
  }

  // ---------------------------------------------------------------- which error goes first

  /** What has ended keeps the value it ended with, and what the select took first stays so. */
  lemma {:induction false} EndsStay(app: App, acts: seq<Action>, app': App)
    requires Inv(app) && Runs(app, acts, app')
    ensures !app.server.Running? ==> !app'.server.Running? && app'.server.value == app.server.value
    ensures app.relay.Some? && !app.relay.value.Running? ==>
      app'.relay.Some? && !app'.relay.value.Running? && app'.relay.value.value == app.relay.value.value
    ensures app.stopped.Some? ==> app'.stopped == app.stopped
    ensures app.main != Selecting ==> app'.main != Selecting && app'.serverFirst == app.serverFirst
    decreases |acts|
  {
    hide Do, Inv;
    if acts != [] {
      StepKeeps(app, acts[0]);
      EndStays(app, acts[0]);
      EndsStay(Do(app, acts[0]).value, acts[1..], app');
    }
  }

  lemma EndStays(app: App, a: Action)
    requires Inv(app) && Do(app, a).Some?
    ensures var next := Do(app, a).value;
      && (!app.server.Running? ==> !next.server.Running? && next.server.value == app.server.value)
      && (app.relay.Some? && !app.relay.value.Running? ==>
            next.relay.Some? && !next.relay.value.Running? && next.relay.value.value == app.relay.value.value)
      && (app.stopped.Some? ==> next.stopped == app.stopped)
      && (app.main != Selecting ==> next.main != Selecting && next.serverFirst == app.serverFirst)
  {
    hide FirstNonNil;
  }

  /** The effect of an action that a run has taken shows at its end. */
  lemma {:induction false} ActionShows(app: App, acts: seq<Action>, app': App, i: nat)
    requires Inv(app) && Runs(app, acts, app') && i < |acts|
    ensures match acts[i]
      case ServerEnds(e) => !app'.server.Running? && app'.server.value == if e == Some(ServerClosed) then None else e
      case RelayEnds(e) =>
        && app'.relay.Some? && !app'.relay.value.Running?
        && app'.relay.value.value == if e == Some(ContextCanceled) then None else e
      case Stop(e) => app'.stopped == Some(if e == None || e == Some(ServerClosed) then None else Some(ShutdownFailed))
      case SelectServer => app'.serverFirst
      case SelectRelay => !app'.serverFirst
      case SelectSignal => !app'.serverFirst
      case _ => true
    decreases |acts|
  {
    hide Do, Inv;
    StepKeeps(app, acts[0]);
    var next := Do(app, acts[0]).value;
    if i == 0 {
      ActionDone(app, acts[0]);
      EndsStay(next, acts[1..], app');
    } else {
      assert acts[i] == acts[1..][i - 1];
      ActionShows(next, acts[1..], app', i - 1);
    }
  }

  lemma ActionDone(app: App, a: Action)
    requires Inv(app) && Do(app, a).Some?
    ensures var next := Do(app, a).value;
      match a
      case ServerEnds(e) => next.server == Sent(if e == Some(ServerClosed) then None else e)
      case RelayEnds(e) => next.relay == Some(Sent(if e == Some(ContextCanceled) then None else e))
      case Stop(e) => next.stopped == Some(if e == None || e == Some(ServerClosed) then None else Some(ShutdownFailed))
      case SelectServer => next.main != Selecting && next.serverFirst
      case SelectRelay => next.main != Selecting && !next.serverFirst
      case SelectSignal => next.main != Selecting && !next.serverFirst
      case _ => true
  {
    hide FirstNonNil;
  }

  /** Which error the routine returns, told from the actions of its run: what the server ended
      with, if that was an error and the select took it; otherwise a shutdown that failed, and
      then what the server ended with; and what the relay ended with only if server and
      shutdown were clean. A closed server and a cancelled relay count as clean. */
  lemma ServerErrorsGoFirst(withRelay: bool, acts: seq<Action>, app: App, serve: Option<Error>, stop: Option<Error>)
    requires Runs(Start(withRelay), acts, app) && app.main.Returned?
    requires ServerEnds(serve) in acts && Stop(stop) in acts
    ensures var serverFails := serve.Some? && serve != Some(ServerClosed);
      var stopFails := stop.Some? && stop != Some(ServerClosed);
      && (SelectServer in acts && serverFails ==> app.main.result == serve)
      && (SelectServer !in acts && stopFails ==> app.main.result == Some(ShutdownFailed))
      && (SelectServer in acts && !serverFails && stopFails ==> app.main.result == Some(ShutdownFailed))
      && (SelectServer !in acts && !stopFails && serverFails ==> app.main.result == serve)
      && (!serverFails && !stopFails ==> forall relay :: RelayEnds(relay) in acts ==>
            app.main.result == if relay == Some(ContextCanceled) then None else relay)
  {
    var start := Start(withRelay);
    RunKeeps(start, acts, app);
    var i :| 0 <= i < |acts| && acts[i] == ServerEnds(serve);
    ActionShows(start, acts, app, i);
    var j :| 0 <= j < |acts| && acts[j] == Stop(stop);
    ActionShows(start, acts, app, j);
    FirstIsSelected(start, acts, app);
    forall relay | RelayEnds(relay) in acts
      ensures RelayValue(app) == (if relay == Some(ContextCanceled) then None else relay) && app.relay.Some?
    {
      var k :| 0 <= k < |acts| && acts[k] == RelayEnds(relay);
      ActionShows(start, acts, app, k);
    }
  }

  lemma {:induction false} FirstIsSelected(app: App, acts: seq<Action>, app': App)
    requires Inv(app) && Runs(app, acts, app')
    ensures app'.serverFirst <==> app.serverFirst || SelectServer in acts
    decreases |acts|
  {
    hide Do, Inv;
    if acts != [] {
      StepKeeps(app, acts[0]);
      SelectedFirst(app, acts[0]);
      FirstIsSelected(Do(app, acts[0]).value, acts[1..], app');
      assert SelectServer in acts <==> acts[0] == SelectServer || SelectServer in acts[1..];
    }
  }

  lemma SelectedFirst(app: App, a: Action)
    requires Do(app, a).Some?
    ensures Do(app, a).value.serverFirst <==> app.serverFirst || a == SelectServer
  {
  }

  /** A run that returned has ended the server, shut it down and, if there is one, ended the
      relay, so its error is always one of those. */
  lemma EverythingEnded(withRelay: bool, acts: seq<Action>, app: App)
    requires Runs(Start(withRelay), acts, app) && app.main.Returned?
    ensures exists serve :: ServerEnds(serve) in acts
    ensures exists stop :: Stop(stop) in acts
    ensures withRelay ==> exists relay :: RelayEnds(relay) in acts
  {
    RunKeeps(Start(withRelay), acts, app);
    EndedByAction(Start(withRelay), acts, app);
  }

  lemma {:induction false} EndedByAction(app: App, acts: seq<Action>, app': App)
    requires Runs(app, acts, app')
    ensures app.server.Running? && !app'.server.Running? ==> exists serve :: ServerEnds(serve) in acts
    ensures app.stopped == None && app'.stopped.Some? ==> exists stop :: Stop(stop) in acts
    ensures app.relay == Some(Running) && app'.relay.Some? && app'.relay != Some(Running) ==>
      exists relay :: RelayEnds(relay) in acts
    decreases |acts|
  {
    hide Do;
    if acts != [] {
      EndedNow(app, acts[0]);
      EndedByAction(Do(app, acts[0]).value, acts[1..], app');
      assert forall a :: a in acts <==> a == acts[0] || a in acts[1..];
    }
  }

  lemma EndedNow(app: App, a: Action)
    requires Do(app, a).Some?
    ensures var next := Do(app, a).value;
      && (app.server.Running? ==> next.server.Running? || a.ServerEnds?)
      && (app.stopped == None ==> next.stopped == None || a.Stop?)
      && (app.relay == Some(Running) ==> next.relay == Some(Running) || a.RelayEnds?)
  {
  }

  /** It waits only for what it told to stop: a state in which it can go on, or else it
      still selects and nothing has ended, or it waits for a goroutine that runs on after
      the context was cancelled and the server shut down. */
  lemma WaitsOnlyAfterCancel(withRelay: bool, acts: seq<Action>, app: App)
    requires Runs(Start(withRelay), acts, app) && !app.main.Returned?
    ensures
      || (exists a :: IsMain(a) && Do(app, a).Some?)
      || (app.main == Selecting && app.server.Running? && (app.relay.Some? ==> app.relay.value.Running?) && !app.signalled)
      || (app.main == AwaitingServer && app.cancelled && app.stopped.Some? && app.server.Running?)
      || (app.main == AwaitingRelay && app.cancelled && app.relay == Some(Running))
  {
    RunKeeps(Start(withRelay), acts, app);
    var a := match app.main
      case Selecting => if app.server.Sent? then SelectServer else if app.signalled then SelectSignal else SelectRelay
      case Cancelling => Cancel
      case Stopping => Stop(None)
      case AwaitingServer => JoinServer
      case _ => JoinRelay;
    assert IsMain(a);
  }

  predicate IsMain(a: Action) { !a.Signal? && !a.ServerEnds? && !a.RelayEnds? }

  function Left(app: App): nat {
    5 - Progress(app.main) + (if app.signalled then 0 else 1)
    + (if app.server.Running? then 1 else 0) + (if app.relay == Some(Running) then 1 else 0)
  }

  /** Every step brings the end nearer. */
  lemma StepsRunOut(app: App, a: Action)
    requires Do(app, a).Some?
    ensures Left(Do(app, a).value) < Left(app)
  {
  }

  lemma {:induction false} RunIsShort(app: App, acts: seq<Action>, app': App)
    requires Runs(app, acts, app')
    ensures |acts| + Left(app') <= Left(app)
    decreases |acts|
  {
    hide Do, Left;
    if acts != [] {
      StepsRunOut(app, acts[0]);
      RunIsShort(Do(app, acts[0]).value, acts[1..], app');
    }
  }

  /** No run is longer than eight steps, and a run that cannot be continued has returned:
      there is no deadlock and no second receive from an emptied channel. */
  lemma AlwaysReturns(withRelay: bool, acts: seq<Action>, app: App)
    requires Runs(Start(withRelay), acts, app)
    ensures |acts| <= 8
    ensures (forall a :: Do(app, a) == None) ==> app.main.Returned?
  {
    RunIsShort(Start(withRelay), acts, app);
    RunKeeps(Start(withRelay), acts, app);
    if forall a :: Do(app, a) == None {
      assert Do(app, Signal) == None && Do(app, ServerEnds(None)) == None && Do(app, RelayEnds(None)) == None;
      assert Do(app, SelectServer) == None && Do(app, SelectRelay) == None && Do(app, SelectSignal) == None;
      assert Do(app, Cancel) == None && Do(app, Stop(None)) == None && Do(app, JoinServer) == None && Do(app, JoinRelay) == None;
    }
  }

  // ---------------------------------------------------------------- the routine itself

  /** A done channel: what its goroutine sends, and how often it was received from. */
  class Done {
    const sends: Option<Error>
    var received: nat

    constructor (sends: Option<Error>)
      ensures this.sends == sends && received == 0
    {
      this.sends, received := sends, 0;
    }

    method Receive() returns (e: Option<Error>)
      modifies this
      ensures e == sends && received == old(received) + 1
    {
      received := received + 1;
      e := sends;
    }
  }

  datatype Pick = PickServer | PickRelay | PickSignal

  lemma {:induction false} RunThen(app: App, acts: seq<Action>, mid: App, a: Action)
    requires Runs(app, acts, mid) && Do(mid, a).Some?
    ensures Runs(app, acts + [a], Do(mid, a).value)
    decreases |acts|
  {
    hide Do;
    if acts == [] {
      assert [a][1..] == [];
      assert acts + [a] == [a];
      assert Runs(Do(mid, a).value, [], Do(mid, a).value);
    } else {
      RunThen(Do(app, acts[0]).value, acts[1..], mid, a);
      assert (acts + [a])[1..] == acts[1..] + [a];
    }
  }

  /** Both goroutines end and a signal comes, in any case before the select. */
  lemma EverythingEnds(serve: Option<Error>, relay: Option<Option<Error>>) returns (acts: seq<Action>, app: App)
    ensures Runs(Start(relay.Some?), acts, app)
    ensures app == Start(relay.Some?).(
      signalled := true, server := Sent(NormalizeServeError(serve)),
      relay := if relay.Some? then Some(Sent(NormalizeRelayError(relay.value))) else None)
  {
    var start := Start(relay.Some?);
    assert Runs(start, [], start);
    RunThen(start, [], start, Signal);
    app := Do(start, Signal).value;
    RunThen(start, [] + [Signal], app, ServerEnds(serve));
    acts, app := [] + [Signal] + [ServerEnds(serve)], Do(app, ServerEnds(serve)).value;
    if relay.Some? {
      RunThen(start, acts, app, RelayEnds(relay.value));
      acts, app := acts + [RelayEnds(relay.value)], Do(app, RelayEnds(relay.value)).value;
    }
  }

  function SelectFor(pick: Pick): Action {
    match pick
    case PickServer => SelectServer
    case PickRelay => SelectRelay
    case PickSignal => SelectSignal
  }

  /** From the select on, the routine goes on to its return. */
  lemma GoesOn(start: App, acts: seq<Action>, app: App, pick: Pick, stop: Option<Error>) returns (all: seq<Action>, end: App)
    requires Runs(start, acts, app) && Inv(app) && app.main == Selecting && app.signalled
    requires app.server.Sent? && (app.relay.Some? ==> app.relay.value.Sent?) && (pick.PickRelay? ==> app.relay.Some?)
    requires !app.serverFirst && app.stopped == None
    ensures Runs(start, all, end)
    ensures end.main == Returned(Preferred(pick.PickServer?, app.server.value, StopError(stop), RelayValue(app)))
    ensures end.serverReceives == app.serverReceives + 1
    ensures end.relayReceives == app.relayReceives + if app.relay.Some? then 1 else 0
  {
    RunThen(start, acts, app, SelectFor(pick));
    var selected := Do(app, SelectFor(pick)).value;
    RunThen(start, acts + [SelectFor(pick)], selected, Cancel);
    var cancelled := Do(selected, Cancel).value;
    RunThen(start, acts + [SelectFor(pick)] + [Cancel], cancelled, Stop(stop));
    var stopped := Do(cancelled, Stop(stop)).value;
    RunThen(start, acts + [SelectFor(pick)] + [Cancel] + [Stop(stop)], stopped, JoinServer);
    var joined := Do(stopped, JoinServer).value;
    RunThen(start, acts + [SelectFor(pick)] + [Cancel] + [Stop(stop)] + [JoinServer], joined, JoinRelay);
    all := acts + [SelectFor(pick)] + [Cancel] + [Stop(stop)] + [JoinServer] + [JoinRelay];
    end := Do(joined, JoinRelay).value;
  }

  /** What the goroutines end with, what Shutdown returns and which branch the select takes
      can be chosen freely, and some interleaving comes to it. */
  lemma EveryCourseIsARun(serve: Option<Error>, relay: Option<Option<Error>>, stop: Option<Error>, pick: Pick)
    returns (acts: seq<Action>, app: App)
    requires pick.PickRelay? ==> relay.Some?
    ensures Runs(Start(relay.Some?), acts, app) && app.serverReceives == 1 && app.relayReceives == if relay.Some? then 1 else 0
    ensures app.main == Returned(Preferred(pick.PickServer?, NormalizeServeError(serve), StopError(stop),
                                           if relay.Some? then NormalizeRelayError(relay.value) else None))
  {
    var ended;
    acts, ended := EverythingEnds(serve, relay);
    acts, app := GoesOn(Start(relay.Some?), acts, ended, pick, stop);
  }

  /** The error that goes first, from what the goroutines ended with and the branch taken. */
  ghost predicate ErrorFirst(pick: Pick, serve: Option<Error>, relay: Option<Option<Error>>, stop: Option<Error>, result: Option<Error>) {
    var serverFails := serve.Some? && serve != Some(ServerClosed);
    var stopFails := stop.Some? && stop != Some(ServerClosed);
    && (serverFails && (pick.PickServer? || !stopFails) ==> result == serve)
    && (stopFails && !(serverFails && pick.PickServer?) ==> result == Some(ShutdownFailed))
    && (!serverFails && !stopFails ==>
          result == if relay == None || relay == Some(Some(ContextCanceled)) then None else relay.value)
  }

  /** `serve` and `relay` are what the goroutines end with, `stop` what Shutdown returns,
      `pick` the branch the select takes. The answer is that of a run of the interleaved
      goroutines, which is `acts`. */
  method RunApplication(configured: bool, serve: Option<Error>, relay: Option<Option<Error>>, stop: Option<Error>, pick: Pick)
    returns (result: Option<Error>, serverDone: Done?, relayDone: Done?, ghost acts: seq<Action>, ghost app: App)
    requires pick.PickRelay? ==> relay.Some?
    ensures !configured ==> result == Some(NotConfigured) && serverDone == null && relayDone == null
    ensures configured ==>
      && serverDone != null && serverDone.received == 1
      && (relay == None ==> relayDone == null) && (relay.Some? ==> relayDone != null && relayDone.received == 1)
      && result == Preferred(pick.PickServer?, NormalizeServeError(serve), StopError(stop),
                             if relay.Some? then NormalizeRelayError(relay.value) else None)
      && Runs(Start(relay.Some?), acts, app) && app.main == Returned(result)
      && ErrorFirst(pick, serve, relay, stop, result)
      && serverDone.received == app.serverReceives
      && (relayDone != null ==> relayDone.received == app.relayReceives)
  {
    acts, app := EveryCourseIsARun(serve, relay, stop, pick);
    if !configured {
      return Some(NotConfigured), null, null, acts, app;
    }
    serverDone := new Done(NormalizeServeError(serve));
    relayDone := null;
    if relay.Some? {
      relayDone := new Done(NormalizeRelayError(relay.value));
    }
    var serverErr: Option<Error>, serverDoneReceived := None, false;
    var relayErr: Option<Error>, relayDoneReceived := None, relayDone == null;
    match pick {
      case PickServer =>
        serverErr := serverDone.Receive();
        serverDoneReceived := true;
      case PickRelay =>
        relayErr := relayDone.Receive();
        relayDoneReceived := true;
      case PickSignal =>
    }
    if stop.Some? && stop != Some(ServerClosed) {
      serverErr := FirstNonNil(serverErr, Some(ShutdownFailed));
    }
    if !serverDoneReceived {
      var served := serverDone.Receive();
      serverErr := FirstNonNil(serverErr, served);
    }
    if !relayDoneReceived {
      var relayed := relayDone.Receive();
      relayErr := FirstNonNil(relayErr, relayed);
    }
    if serverErr.Some? {
      return serverErr, serverDone, relayDone, acts, app;
    }
    result := relayErr;
  }
}
