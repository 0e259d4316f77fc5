/**
 * The start/stop guard of the UdpLocationService: `onStartCommand` launches
 * one UDP server per session, guarded by the `isRunning` flag, and
 * `onDestroy` clears the flag and cancels the job every server runs in.
 *
 * The Android plumbing (notification, foreground promotion, toasts, the test
 * provider) is left out; what remains is the flag, the job and the servers
 * launched into it.
 */
module LocationService {
  import opened Wrappers

  /** The action string of the notification's stop button. */
  const ActionStop: string := "STOP_SERVICE"
  /** The extra the activity puts the port under. */
  const PortExtra: string := "PORT"
  /** The port used when the intent is missing or carries no port. */
  const DefaultPort: int := 49002

  /** The part of an intent the service reads: its action and its integer extras. */
  datatype Intent = Intent(action: Option<string>, extras: map<string, int>)

  /** What `onStartCommand` tells the system to do if the process is killed. */
  datatype StartMode = StartNotSticky | StartSticky

  /**
   * The service's state: the guard flag, the ports of the servers running as
   * children of the service job, whether that job has been cancelled, and
   * whether the service has asked the system to stop it.
   */
  datatype ServiceState = ServiceState(isRunning: bool, servers: seq<int>, jobCancelled: bool, stopRequested: bool)

  /** A newly created service: not running, no servers, a live job. */
  const Created := ServiceState(false, [], false, false)

  datatype StartOutcome = StartOutcome(state: ServiceState, mode: StartMode)

  /** Whether the intent carries the stop action (a missing intent does not). */
  predicate IsStop(intent: Option<Intent>) {
    intent.Some? && intent.value.action == Some(ActionStop)
  }

  /** `intent?.getIntExtra("PORT", 49002) ?: 49002`. */
  function RequestedPort(intent: Option<Intent>): (port: int)
    ensures intent.Some? && PortExtra in intent.value.extras ==> port == intent.value.extras[PortExtra]
    ensures (intent.None? || PortExtra !in intent.value.extras) ==> port == DefaultPort
  {
    if intent.Some? && PortExtra in intent.value.extras then intent.value.extras[PortExtra] else DefaultPort
  }

  /**
   * `onStartCommand`: a stop request only asks the system to stop the service;
   * any other request launches a server on the requested port unless one is
   * already running. Launching into a cancelled job starts nothing.
   */
  function StartCommand(s: ServiceState, intent: Option<Intent>): StartOutcome {
    if IsStop(intent) then
      StartOutcome(s.(stopRequested := true), StartNotSticky)
    else if !s.isRunning then
      var launched := if s.jobCancelled then s.servers else s.servers + [RequestedPort(intent)];
      StartOutcome(s.(isRunning := true, servers := launched), StartSticky)
    else
      StartOutcome(s, StartSticky)
  }

  /** `onDestroy`: clear the flag and cancel the job, which ends every server in it. */
  function Destroy(s: ServiceState): ServiceState {
    s.(isRunning := false, servers := [], jobCancelled := true)
  }

  // ---------------------------------------------------------------------------
  // One request at a time

  /** A start request while a session is active launches nothing and keeps the flag. */
  lemma StartWhileRunning(s: ServiceState, intent: Option<Intent>)
    requires s.isRunning && !IsStop(intent)
    ensures StartCommand(s, intent) == StartOutcome(s, StartSticky)
  {
  }

  /** A start request with no active session sets the flag and launches one server on the requested port. */
  lemma StartWhenIdle(s: ServiceState, intent: Option<Intent>)
    requires !s.isRunning && !s.jobCancelled && !IsStop(intent)
    ensures var o := StartCommand(s, intent);
            && o.mode == StartSticky
            && o.state.isRunning
            && o.state.servers == s.servers + [RequestedPort(intent)]
            && o.state.jobCancelled == s.jobCancelled
            && o.state.stopRequested == s.stopRequested
  {
  }

  /** A stop request launches nothing, leaves the flag alone and asks to stop. */
  lemma StopLaunchesNothing(s: ServiceState, intent: Option<Intent>)
    requires IsStop(intent)
    ensures var o := StartCommand(s, intent);
            && o.mode == StartNotSticky
            && o.state.servers == s.servers
            && o.state.isRunning == s.isRunning
            && o.state.stopRequested
  {
  }

  /** The service asks to be restarted if killed exactly when the request was not a stop. */
  lemma StickyUnlessStopped(s: ServiceState, intent: Option<Intent>)
    ensures StartCommand(s, intent).mode == StartSticky <==> !IsStop(intent)
  {
  }

  /** Repeating a start request changes nothing more. */
  lemma StartIdempotent(s: ServiceState, intent: Option<Intent>)
    ensures var once := StartCommand(s, intent).state;
            StartCommand(once, intent).state == once
  {
  }

  /** Destroy clears the flag and leaves no server running. */
  lemma DestroyClears(s: ServiceState)
    ensures !Destroy(s).isRunning && Destroy(s).servers == [] && Destroy(s).jobCancelled
    ensures Destroy(s).stopRequested == s.stopRequested
  {
  }

  // ---------------------------------------------------------------------------
  // Any sequence of requests

  datatype Event = Start(intent: Option<Intent>) | Destroyed

  function Apply(s: ServiceState, e: Event): ServiceState {
    match e
    case Start(intent) => StartCommand(s, intent).state
    case Destroyed => Destroy(s)
  }

  /** The state after a sequence of lifecycle calls. */
  function Play(s: ServiceState, es: seq<Event>): ServiceState {
    if es == [] then s else Apply(Play(s, es[..|es| - 1]), es[|es| - 1])
  }

  /**
   * The guard's invariant: at most one server, a server only while the flag is
   * set, and, as long as the job is live, the flag is set exactly when a
   * server is running.
   */
  predicate Guarded(s: ServiceState) {
    && |s.servers| <= 1
    && (s.servers != [] ==> s.isRunning)
    && (!s.jobCancelled ==> (s.isRunning <==> |s.servers| == 1))
  }

  lemma CreatedGuarded()
    ensures Guarded(Created)
  {
  }

  /** Every lifecycle call keeps the invariant. */
  lemma ApplyGuarded(s: ServiceState, e: Event)
    requires Guarded(s)
    ensures Guarded(Apply(s, e))
  {
  }

  /** However many start and stop requests arrive, at most one server is ever running. */
  lemma {:induction false} AtMostOneServer(es: seq<Event>)
    ensures Guarded(Play(Created, es))
    ensures |Play(Created, es).servers| <= 1
  {
    if es != [] {
      AtMostOneServer(es[..|es| - 1]);
      ApplyGuarded(Play(Created, es[..|es| - 1]), es[|es| - 1]);
    }
  }

  /** Before the service is destroyed, the flag says exactly whether a server is running. */
  lemma {:induction false} FlagTracksServer(es: seq<Event>)
    requires forall i :: 0 <= i < |es| ==> es[i].Start?
    ensures !Play(Created, es).jobCancelled
    ensures Play(Created, es).isRunning <==> |Play(Created, es).servers| == 1
  {
    if es != [] {
      FlagTracksServer(es[..|es| - 1]);
      AtMostOneServer(es);
    }
  }

  /** The first start request that is not a stop launches the only server, on its port. */
  lemma {:induction false} FirstStartPicksPort(stops: seq<Option<Intent>>, intent: Option<Intent>, later: seq<Option<Intent>>)
    requires forall i :: 0 <= i < |stops| ==> IsStop(stops[i])
    requires !IsStop(intent)
    ensures Play(Created, Starts(stops + [intent] + later)).servers == [RequestedPort(intent)]
    decreases |later|
  {
    var all := stops + [intent] + later;
    if later == [] {
      assert all == stops + [intent];
      StopsChangeNoServers(stops);
      assert Starts(all)[..|all| - 1] == Starts(stops);
    } else {
      var shorter := stops + [intent] + later[..|later| - 1];
      assert all[..|all| - 1] == shorter;
      assert Starts(all)[..|all| - 1] == Starts(shorter);
      FirstStartPicksPort(stops, intent, later[..|later| - 1]);
      FlagTracksServer(Starts(shorter));
    }
  }

  /** The start requests as lifecycle events. */
  function Starts(intents: seq<Option<Intent>>): (es: seq<Event>)
    ensures |es| == |intents|
    ensures forall i :: 0 <= i < |intents| ==> es[i] == Start(intents[i])
  {
    seq(|intents|, i requires 0 <= i < |intents| => Start(intents[i]))
  }

  /** Stop requests alone leave the service idle. */
  lemma {:induction false} StopsChangeNoServers(stops: seq<Option<Intent>>)
    requires forall i :: 0 <= i < |stops| ==> IsStop(stops[i])
    ensures !Play(Created, Starts(stops)).isRunning
    ensures Play(Created, Starts(stops)).servers == []
    ensures !Play(Created, Starts(stops)).jobCancelled
  {
    if stops != [] {
      var n := |stops| - 1;
      assert Starts(stops)[..n] == Starts(stops[..n]);
      StopsChangeNoServers(stops[..n]);
    }
  }

  // ---------------------------------------------------------------------------
  // The service object

  class UdpLocationService {
    var isRunning: bool
    var servers: seq<int>
    var jobCancelled: bool
    var stopRequested: bool

    function State(): ServiceState
      reads this
    {
      ServiceState(isRunning, servers, jobCancelled, stopRequested)
    }

    predicate Valid()
      reads this
    {
      Guarded(State())
    }

    constructor ()
      ensures State() == Created && Valid()
    {
      isRunning := false;
      servers := [];
      jobCancelled := false;
      stopRequested := false;
    }

    /** `onStartCommand(intent, flags, startId)`; the flags and start id are unused by the source. */
    method OnStartCommand(intent: Option<Intent>) returns (mode: StartMode)
      requires Valid()
      modifies this
      ensures State() == StartCommand(old(State()), intent).state
      ensures mode == StartCommand(old(State()), intent).mode
      ensures Valid()
    {
      if IsStop(intent) {
        stopRequested := true;
        return StartNotSticky;
      }
      var port := RequestedPort(intent);
      if !isRunning {
        isRunning := true;
        if !jobCancelled {
          servers := servers + [port];
        }
      }
      ApplyGuarded(old(State()), Start(intent));
      return StartSticky;
    }

    /** `onDestroy()`. */
    method OnDestroy()
      requires Valid()
      modifies this
      ensures State() == Destroy(old(State()))
      ensures Valid()
    {
      isRunning := false;
      servers := [];
      jobCancelled := true;
    }
  }
}
