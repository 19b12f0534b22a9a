/** The in-app client of faster-titanium (src/titanium/faster-titanium.js):
    the event dispatcher for the notification channel, the debounced reload
    coordinator, the reconnect policy and the calls it makes on the module
    cache.

    The client's state is given twice: as the value `ClientState`, with one
    function per operation saying what the state is afterwards, and as the
    class `FasterTitanium`, whose methods update fields in place and are
    proved to produce exactly that state. The lemmas are stated about the
    functions. Timers are a list of pending callbacks that `Fire` drains in
    whatever order the environment chooses; the collaborators (socket,
    native restart, module fetch) appear as the calls recorded in `effects`
    and as parameters. */
module TitaniumClient {
  import opened Wrappers
  import Json

  type Port = p: int | 0 <= p < 0x1_0000

  /** A module as the module cache stores it; its contents are opaque here. */
  datatype Module = Module(source: string)

  /** A call the client makes on a collaborator, recorded in call order. */
  datatype Effect =
    | SocketConnect             // socket.connect()
    | SocketEnd                 // socket.end()
    | SocketReconnect           // socket.reconnect(), run by a reconnect timer
    | RestartCall               // Ti.App._restart()
    | ClearCacheCall(name: string)
    | ClearAllCachesCall
    | RequireCall(name: string)

  /** What a pending `setTimeout` callback will do when it fires. */
  datatype Callback = ReloadCallback(force: bool) | ReconnectCallback

  datatype Timer = Timer(delayMs: int, callback: Callback)

  /** The compilation tracker, seen only through `compiling`. Its own source
      is not part of this model; it is assumed to count outstanding
      compilations, with `finished` never going below zero, and the token
      the events carry is dropped. */
  datatype AlloyCompilationState = AlloyCompilationState(outstanding: nat) {

    predicate Compiling() {
      outstanding > 0
    }

    function Started(): AlloyCompilationState {
      AlloyCompilationState(outstanding + 1)
    }

    function Finished(): AlloyCompilationState {
      AlloyCompilationState(if outstanding == 0 then 0 else outstanding - 1)
    }
  }

  /** A message from the notification server. `None` is a field the JSON
      object does not have. */
  datatype Payload = Payload(
    event: string,
    token: string,
    timer: Option<int>,
    force: Option<bool>,
    names: Option<seq<string>>,
    value: bool)

  /** The options `FasterTitanium.run` passes to the constructor. */
  datatype RunOptions = RunOptions(fPort: Option<Port>, nPort: Option<Port>, host: Option<string>)

  datatype ClientState = ClientState(
    willReload: int,                   // reload callbacks not yet fired
    acState: AlloyCompilationState,
    cache: map<string, Module>,        // the module cache of the RequireAgent
    debugMode: bool,                   // logger.debugMode
    effects: seq<Effect>,
    timers: seq<Timer>)

  /** A new client. `debugMode` is the global logger's flag, which the
      constructor reads from nowhere and leaves as it finds it. */
  function Initial(debugMode: bool): ClientState {
    ClientState(0, AlloyCompilationState(0), map[], debugMode, [], [])
  }

  // ---------------------------------------------------------------------
  // Pending reload callbacks
  // ---------------------------------------------------------------------

  function PendingReloads(timers: seq<Timer>): nat {
    if timers == [] then 0
    else (if timers[0].callback.ReloadCallback? then 1 else 0) + PendingReloads(timers[1..])
  }

  lemma {:induction false} PendingReloadsAppend(a: seq<Timer>, b: seq<Timer>)
    ensures PendingReloads(a + b) == PendingReloads(a) + PendingReloads(b)
  {
    if a == [] {
      assert a + b == b;
    } else {
      assert (a + b)[1..] == a[1..] + b;
      PendingReloadsAppend(a[1..], b);
    }
  }

  lemma {:induction false} PendingReloadsRemove(timers: seq<Timer>, i: nat)
    requires i < |timers|
    ensures PendingReloads(timers[..i] + timers[i + 1..])
         == PendingReloads(timers) - (if timers[i].callback.ReloadCallback? then 1 else 0)
  {
    if i == 0 {
      assert timers[..0] + timers[1..] == timers[1..];
    } else {
      var tail := timers[1..];
      assert (timers[..i] + timers[i + 1..])[1..] == tail[..i - 1] + tail[i..];
      PendingReloadsRemove(tail, i - 1);
    }
  }

  /** The counter agrees with the callbacks still pending; it holds of a new
      client and every operation keeps it. */
  ghost predicate Balanced(s: ClientState) {
    s.willReload == PendingReloads(s.timers)
  }

  // ---------------------------------------------------------------------
  // The module cache (RequireAgent) as seen by the client
  // ---------------------------------------------------------------------

  /** `reqAgent.require(name)`: a cached module is kept; on a miss the module
      `fetched` from the server is stored. */
  function AfterRequire(s: ClientState, name: string, fetched: Module): (r: ClientState)
    ensures name in r.cache
    ensures name in s.cache ==> r.cache == s.cache
    ensures name !in s.cache ==> r.cache == s.cache[name := fetched]
    ensures r.effects == s.effects + [RequireCall(name)]
    ensures r.(cache := s.cache, effects := s.effects) == s
  {
    s.(effects := s.effects + [RequireCall(name)],
       cache := if name in s.cache then s.cache else s.cache[name := fetched])
  }

  /** `reqAgent.clearCache(name)`: that entry goes, every other stays. */
  function AfterClearCache(s: ClientState, name: string): (r: ClientState)
    ensures name !in r.cache
    ensures forall n :: n != name ==> (n in r.cache <==> n in s.cache)
    ensures forall n :: n in r.cache ==> r.cache[n] == s.cache[n]
    ensures r.effects == s.effects + [ClearCacheCall(name)]
    ensures r.(cache := s.cache, effects := s.effects) == s
  {
    s.(effects := s.effects + [ClearCacheCall(name)], cache := s.cache - {name})
  }

  /** `reqAgent.clearAllCaches()`: the cache is emptied. */
  function AfterClearAllCaches(s: ClientState): (r: ClientState)
    ensures forall n :: n !in r.cache
    ensures r.effects == s.effects + [ClearAllCachesCall]
    ensures r.(cache := s.cache, effects := s.effects) == s
  {
    s.(effects := s.effects + [ClearAllCachesCall], cache := map[])
  }

  // ---------------------------------------------------------------------
  // Operations of the client
  // ---------------------------------------------------------------------

  /** startApp: connect, then require the app's root module. */
  function AfterStartApp(s: ClientState, app: Module): (r: ClientState)
    ensures r.effects == s.effects + [SocketConnect, RequireCall("app")]
    ensures "app" in s.cache ==> r.cache == s.cache
    ensures "app" !in s.cache ==> r.cache == s.cache["app" := app]
    ensures r.(cache := s.cache, effects := s.effects) == s
  {
    AfterRequire(s.(effects := s.effects + [SocketConnect]), "app", app)
  }

  /** connectLater(sec): schedule a reconnect after `sec` seconds. */
  function AfterConnectLater(s: ClientState, sec: int): (r: ClientState)
    ensures r.timers == s.timers + [Timer(sec * 1000, ReconnectCallback)]
    ensures r.willReload - PendingReloads(r.timers) == s.willReload - PendingReloads(s.timers)
    ensures r.(timers := s.timers) == s
  {
    PendingReloadsAppend(s.timers, [Timer(sec * 1000, ReconnectCallback)]);
    s.(timers := s.timers + [Timer(sec * 1000, ReconnectCallback)])
  }

  /** The delay in seconds socketError waits before reconnecting. */
  function ReconnectDelay(code: int): (sec: int)
    ensures code == 57 ==> sec == 1
    ensures code != 57 ==> sec == 10
  {
    if code == 50 then 10       // network unreachable
    else if code == 57 then 1   // socket is not connected
    else if code == 61 then 10  // connection refused
    else 10
  }

  function AfterSocketError(s: ClientState, code: int): (r: ClientState)
    ensures r == s.(timers := s.timers + [Timer(if code == 57 then 1000 else 10000, ReconnectCallback)])
  {
    AfterConnectLater(s, ReconnectDelay(code))
  }

  /** The onClose listener: the dialog is not modelled, the reconnect is. */
  function AfterClose(s: ClientState): (r: ClientState)
    ensures r == s.(timers := s.timers + [Timer(10000, ReconnectCallback)])
  {
    AfterConnectLater(s, 10)
  }

  /** reload(options): count the request and schedule its callback. */
  function AfterReload(s: ClientState, timer: Option<int>, force: Option<bool>): (r: ClientState)
    ensures r.willReload == s.willReload + 1
    ensures PendingReloads(r.timers) == PendingReloads(s.timers) + 1
    ensures r.timers == s.timers + [Timer(timer.GetOr(0), ReloadCallback(force.GetOr(false)))]
    ensures r.(willReload := s.willReload, timers := s.timers) == s
  {
    var t := Timer(timer.GetOr(0), ReloadCallback(force.GetOr(false)));
    PendingReloadsAppend(s.timers, [t]);
    s.(willReload := s.willReload + 1, timers := s.timers + [t])
  }

  /** The names cleared one after another, in list order. */
  function ClearEach(s: ClientState, names: seq<string>): ClientState
    decreases |names|
  {
    if names == [] then s
    else AfterClearCache(ClearEach(s, names[..|names| - 1]), names[|names| - 1])
  }

  function ClearCalls(names: seq<string>): seq<Effect> {
    seq(|names|, k requires 0 <= k < |names| => ClearCacheCall(names[k]))
  }

  /** reflect(options): nothing without `names`, else clear each name. */
  function AfterReflect(s: ClientState, names: Option<seq<string>>): (r: ClientState)
    ensures names.None? ==> r == s
    ensures names.Some? ==>
      && r.cache == s.cache - (set n | n in names.value)
      && r.effects == s.effects + ClearCalls(names.value)
      && r.(cache := s.cache, effects := s.effects) == s
  {
    if names.None? then s
    else
      ClearEachClearsNamed(s, names.value);
      ClearEach(s, names.value)
  }

  /** Whether the reload callback stops, given the state after its decrement. */
  predicate Suppressed(d: ClientState, force: bool) {
    (d.acState.Compiling() || d.willReload > 0) && !force
  }

  /** The callback `timers[i]` fires and leaves the queue. */
  function AfterFire(s: ClientState, i: nat, restartThrows: bool, app: Module): (r: ClientState)
    requires i < |s.timers|
    ensures r.timers == s.timers[..i] + s.timers[i + 1..]
    ensures r.willReload - PendingReloads(r.timers) == s.willReload - PendingReloads(s.timers)
    ensures r.acState == s.acState && r.debugMode == s.debugMode
    ensures s.timers[i].callback.ReconnectCallback? ==>
              r == s.(timers := r.timers, effects := s.effects + [SocketReconnect])
  {
    var rest := s.timers[..i] + s.timers[i + 1..];
    PendingReloadsRemove(s.timers, i);
    match s.timers[i].callback
    case ReconnectCallback =>
      s.(timers := rest, effects := s.effects + [SocketReconnect])
    case ReloadCallback(force) =>
      var d := s.(timers := rest, willReload := s.willReload - 1);
      if Suppressed(d, force) then d
      else
        var ended := d.(effects := d.effects + [SocketEnd, RestartCall]);
        if restartThrows then AfterRequire(AfterClearAllCaches(ended), "app", app) else ended
  }

  const ALLOY_COMPILATION := "alloy-compilation"
  const ALLOY_COMPILATION_DONE := "alloy-compilation-done"
  const RELOAD := "reload"
  const REFLECT := "reflect"
  const DEBUG_MODE := "debug-mode"

  /** onPayload: dispatch on the event name; other names are ignored. */
  function AfterPayload(s: ClientState, p: Payload): (r: ClientState)
    ensures r.willReload - PendingReloads(r.timers) == s.willReload - PendingReloads(s.timers)
  {
    if p.event == ALLOY_COMPILATION then s.(acState := s.acState.Started())
    else if p.event == ALLOY_COMPILATION_DONE then s.(acState := s.acState.Finished())
    else if p.event == RELOAD then AfterReload(s, p.timer, p.force)
    else if p.event == REFLECT then AfterReflect(s, p.names)
    else if p.event == DEBUG_MODE then s.(debugMode := p.value)
    else s
  }

  // ---------------------------------------------------------------------
  // Runs of events
  // ---------------------------------------------------------------------

  /** Everything that can reach the client after it has started. */
  datatype Event =
    | Received(payload: Payload)
    | SocketFailed(code: int)
    | SocketClosed
    | TimerFired(index: nat, restartThrows: bool, app: Module)

  /** One event; a `TimerFired` naming no pending timer changes nothing. */
  function Step(s: ClientState, e: Event): ClientState {
    match e
    case Received(p) => AfterPayload(s, p)
    case SocketFailed(code) => AfterSocketError(s, code)
    case SocketClosed => AfterClose(s)
    case TimerFired(i, t, app) => if i < |s.timers| then AfterFire(s, i, t, app) else s
  }

  function Run(s: ClientState, events: seq<Event>): ClientState
    decreases |events|
  {
    if events == [] then s else Run(Step(s, events[0]), events[1..])
  }

  // ---------------------------------------------------------------------
  // Lemmas
  // ---------------------------------------------------------------------

  /** reflect clears exactly the named entries, records one clearCache per
      name in list order, and touches nothing else. */
  lemma {:induction false} ClearEachClearsNamed(s: ClientState, names: seq<string>)
    ensures ClearEach(s, names).cache == s.cache - (set n | n in names)
    ensures ClearEach(s, names).effects == s.effects + ClearCalls(names)
    ensures ClearEach(s, names).(cache := s.cache, effects := s.effects) == s
    decreases |names|
  {
    if names != [] {
      var init, last := names[..|names| - 1], names[|names| - 1];
      ClearEachClearsNamed(s, init);
      assert names == init + [last];
      assert (set n | n in names) == (set n | n in init) + {last};
      assert ClearCalls(names) == ClearCalls(init) + [ClearCacheCall(last)];
    }
  }

  /** Every event keeps willReload minus the pending reload callbacks. */
  lemma StepKeepsReloadBalance(s: ClientState, e: Event)
    ensures Step(s, e).willReload - PendingReloads(Step(s, e).timers)
         == s.willReload - PendingReloads(s.timers)
  {
    match e
    case Received(p) =>
    case SocketFailed(_) =>
    case SocketClosed =>
    case TimerFired(_, _, _) =>
  }

  lemma {:induction false} RunKeepsReloadBalance(s: ClientState, events: seq<Event>)
    ensures Run(s, events).willReload - PendingReloads(Run(s, events).timers)
         == s.willReload - PendingReloads(s.timers)
    decreases |events|
  {
    if events != [] {
      StepKeepsReloadBalance(s, events[0]);
      RunKeepsReloadBalance(Step(s, events[0]), events[1..]);
    }
  }

  /** Once every reload callback scheduled during a run has fired, the
      counter is back to its value before the run. */
  lemma CounterRestoredWhenAllFired(s: ClientState, events: seq<Event>)
    requires PendingReloads(s.timers) == 0
    requires PendingReloads(Run(s, events).timers) == 0
    ensures Run(s, events).willReload == s.willReload
  {
    RunKeepsReloadBalance(s, events);
  }

  /** A fired reload callback: the decrement, the gate, and what it does
      when it proceeds (end the socket, then try the restart, and only if
      that throws clear all caches and require 'app' once). */
  lemma FireReloadOutcome(s: ClientState, i: nat, restartThrows: bool, app: Module)
    requires i < |s.timers| && s.timers[i].callback.ReloadCallback?
    ensures var force := s.timers[i].callback.force;
            var r := AfterFire(s, i, restartThrows, app);
            var proceed := force || (!s.acState.Compiling() && s.willReload - 1 <= 0);
            && r.willReload == s.willReload - 1
            && r.acState == s.acState && r.debugMode == s.debugMode
            && (!proceed ==> r.effects == s.effects && r.cache == s.cache)
            && (proceed && !restartThrows ==>
                  r.effects == s.effects + [SocketEnd, RestartCall] && r.cache == s.cache)
            && (proceed && restartThrows ==>
                  && r.effects == s.effects + [SocketEnd, RestartCall, ClearAllCachesCall, RequireCall("app")]
                  && r.cache == map["app" := app])
  {
  }

  /** A forced reload ends the socket and tries the restart, whatever the
      compilation state and the counter. */
  lemma ForcedReloadAlwaysRestarts(s: ClientState, i: nat, restartThrows: bool, app: Module)
    requires i < |s.timers| && s.timers[i].callback == ReloadCallback(true)
    ensures AfterFire(s, i, restartThrows, app).effects[..|s.effects| + 2]
         == s.effects + [SocketEnd, RestartCall]
  {
    FireReloadOutcome(s, i, restartThrows, app);
  }

  /** In a balanced state a non-forced reload proceeds exactly when no
      compilation is running and it is the last reload still pending. */
  lemma DebouncedReloadProceedsWhenLast(s: ClientState, i: nat, restartThrows: bool, app: Module)
    requires Balanced(s)
    requires i < |s.timers| && s.timers[i].callback == ReloadCallback(false)
    ensures AfterFire(s, i, restartThrows, app).effects != s.effects
        <==> !s.acState.Compiling() && PendingReloads(s.timers) == 1
  {
    PendingReloadsRemove(s.timers, i);
    FireReloadOutcome(s, i, restartThrows, app);
  }

  function RestartCalls(effects: seq<Effect>): nat {
    if effects == [] then 0
    else (if effects[0] == RestartCall then 1 else 0) + RestartCalls(effects[1..])
  }

  lemma {:induction false} RestartCallsAppend(a: seq<Effect>, b: seq<Effect>)
    ensures RestartCalls(a + b) == RestartCalls(a) + RestartCalls(b)
  {
    if a == [] {
      assert a + b == b;
    } else {
      assert (a + b)[1..] == a[1..] + b;
      RestartCallsAppend(a[1..], b);
    }
  }

  /** What a reload callback that proceeds records: the socket end and the
      restart attempt, then the fallback when the restart throws. */
  function RestartEffects(throws: bool): seq<Effect> {
    if throws then [SocketEnd, RestartCall, ClearAllCachesCall, RequireCall("app")]
    else [SocketEnd, RestartCall]
  }

  lemma OneRestartPerProceed(effects: seq<Effect>, throws: bool)
    ensures RestartCalls(effects + RestartEffects(throws)) == RestartCalls(effects) + 1
  {
    var fallback := [ClearAllCachesCall, RequireCall("app")];
    assert RestartCalls(fallback) == 0 by {
      assert fallback[1..] == [RequireCall("app")];
      assert fallback[1..][1..] == [];
    }
    var added := RestartEffects(throws);
    var tail := if throws then fallback else [];
    assert added == [SocketEnd, RestartCall] + tail;
    assert added[1..][1..] == tail;
    RestartCallsAppend(effects, added);
  }

  /** Removing one of two callbacks appended to a queue, then the other. */
  lemma {:induction false} FireBothAppended(ts: seq<Timer>, a: Timer, b: Timer, first: nat)
    requires first < 2
    ensures var q := ts + [a, b];
            var n := |ts|;
            var q1 := q[..n + first] + q[n + first + 1..];
            && q1 == ts + [if first == 0 then b else a]
            && q1[..n] + q1[n + 1..] == ts
  {
    var q := ts + [a, b];
    var n := |ts|;
    assert q[..n + first] == ts + (if first == 0 then [] else [a]);
    assert q[n + first + 1..] == (if first == 0 then [b] else []);
    var q1 := ts + [if first == 0 then b else a];
    assert q1[..n] == ts;
    assert q1[n + 1..] == [];
  }

  /** A non-forced reload callback that is not the last pending one changes
      only the counter and the queue. */
  lemma NotLastReloadSuppressed(s: ClientState, i: nat, restartThrows: bool, app: Module)
    requires i < |s.timers| && s.timers[i].callback == ReloadCallback(false)
    requires s.willReload >= 2
    ensures AfterFire(s, i, restartThrows, app)
         == s.(willReload := s.willReload - 1, timers := s.timers[..i] + s.timers[i + 1..])
  {
    FireReloadOutcome(s, i, restartThrows, app);
  }

  /** The last pending non-forced reload callback restarts when no
      compilation runs. */
  lemma LastReloadProceeds(s: ClientState, i: nat, restartThrows: bool, app: Module)
    requires i < |s.timers| && s.timers[i].callback == ReloadCallback(false)
    requires s.willReload == 1 && !s.acState.Compiling()
    ensures AfterFire(s, i, restartThrows, app).willReload == 0
    ensures AfterFire(s, i, restartThrows, app).effects == s.effects + RestartEffects(restartThrows)
  {
    FireReloadOutcome(s, i, restartThrows, app);
  }

  lemma TwoReloadsQueued(s: ClientState, t1: Option<int>, t2: Option<int>)
    ensures AfterReload(AfterReload(s, t1, None), t2, None)
         == s.(willReload := s.willReload + 2,
               timers := s.timers + [Timer(t1.GetOr(0), ReloadCallback(false)),
                                     Timer(t2.GetOr(0), ReloadCallback(false))])
  {
    var a := Timer(t1.GetOr(0), ReloadCallback(false));
    var b := Timer(t2.GetOr(0), ReloadCallback(false));
    assert s.timers + [a] + [b] == s.timers + [a, b];
  }

  /** Two queued non-forced reload callbacks fired one after the other. */
  lemma FireTwoQueued(
    s2: ClientState, ts: seq<Timer>, a: Timer, b: Timer, first: nat,
    throws1: bool, throws2: bool, app: Module)
    requires s2.timers == ts + [a, b]
    requires a.callback == ReloadCallback(false) && b.callback == ReloadCallback(false)
    requires s2.willReload == 2 && !s2.acState.Compiling() && first < 2
    ensures var r1 := AfterFire(s2, |ts| + first, throws1, app);
            var r2 := AfterFire(r1, |ts|, throws2, app);
            && r1 == s2.(willReload := 1, timers := r1.timers)
            && r2.willReload == 0 && r2.timers == ts
            && r2.effects == s2.effects + RestartEffects(throws2)
  {
    var n := |ts|;
    FireBothAppended(ts, a, b, first);
    NotLastReloadSuppressed(s2, n + first, throws1, app);
    var r1 := AfterFire(s2, n + first, throws1, app);
    assert r1.timers == ts + [if first == 0 then b else a];
    LastReloadProceeds(r1, n, throws2, app);
  }

  /** Two non-forced reloads while no compilation runs and no other reload
      is pending (reconnect timers may be): whichever of the two callbacks
      fires first is suppressed and changes only the counter and the queue,
      the other restarts, and there is exactly one restart attempt in all. */
  lemma TwoReloadsRestartOnce(
    s: ClientState, t1: Option<int>, t2: Option<int>, first: nat,
    throws1: bool, throws2: bool, app: Module)
    requires PendingReloads(s.timers) == 0 && s.willReload == 0 && !s.acState.Compiling()
    requires first < 2
    ensures var n := |s.timers|;
            var s2 := AfterReload(AfterReload(s, t1, None), t2, None);
            var r1 := AfterFire(s2, n + first, throws1, app);
            var r2 := AfterFire(r1, n, throws2, app);
            && s2.willReload == 2
            && r1 == s2.(willReload := 1, timers := r1.timers)
            && r2.willReload == 0 && r2.timers == s.timers
            && RestartCalls(r2.effects) == RestartCalls(s.effects) + 1
  {
    var a := Timer(t1.GetOr(0), ReloadCallback(false));
    var b := Timer(t2.GetOr(0), ReloadCallback(false));
    TwoReloadsQueued(s, t1, t2);
    var s2 := AfterReload(AfterReload(s, t1, None), t2, None);
    FireTwoQueued(s2, s.timers, a, b, first, throws1, throws2, app);
    OneRestartPerProceed(s.effects, throws2);
  }

  /** onPayload changes only what its event names. */
  lemma PayloadDispatch(s: ClientState, p: Payload)
    ensures p.event == ALLOY_COMPILATION ==> AfterPayload(s, p) == s.(acState := s.acState.Started())
    ensures p.event == ALLOY_COMPILATION_DONE ==> AfterPayload(s, p) == s.(acState := s.acState.Finished())
    ensures p.event == RELOAD ==> AfterPayload(s, p) == AfterReload(s, p.timer, p.force)
    ensures p.event == REFLECT ==> AfterPayload(s, p) == AfterReflect(s, p.names)
    ensures p.event == DEBUG_MODE ==> AfterPayload(s, p) == s.(debugMode := p.value)
    ensures p.event !in {ALLOY_COMPILATION, ALLOY_COMPILATION_DONE, RELOAD, REFLECT, DEBUG_MODE}
            ==> AfterPayload(s, p) == s
  {
  }

  function PortText(p: Option<Port>): string {
    match p
    case Some(n) => Json.NatToDecimal(n)
    case None => "undefined"
  }

  // ---------------------------------------------------------------------
  // The client object
  // ---------------------------------------------------------------------

  class FasterTitanium {
    const host: string
    const url: string             // the file server's URL
    const socketPort: Option<int>  // parseInt(nPort, 10); None is NaN
    var expectedReloads: int
    var willReload: int
    var acState: AlloyCompilationState
    var cache: map<string, Module>
    var debugMode: bool
    var effects: seq<Effect>
    var timers: seq<Timer>

    function State(): ClientState
      reads this
    {
      ClientState(willReload, acState, cache, debugMode, effects, timers)
    }

    ghost predicate Valid()
      reads this
    {
      Balanced(State())
    }

    /** The constructor reads `fPort`, `nPort` and `host` (default
        'localhost'); preferences fetching is not modelled.
        `loggerDebugMode` is the global `logger.debugMode` as the
        constructor finds it. */
    constructor (options: RunOptions, loggerDebugMode: bool)
      ensures Valid() && State() == Initial(loggerDebugMode)
      ensures host == options.host.GetOr("localhost")
      ensures url == "http://" + host + ":" + PortText(options.fPort)
      ensures socketPort == options.nPort
      ensures expectedReloads == 0
    {
      host := options.host.GetOr("localhost");
      url := "http://" + options.host.GetOr("localhost") + ":" + PortText(options.fPort);
      socketPort := options.nPort;
      expectedReloads := 0;
      willReload := 0;
      acState := AlloyCompilationState(0);
      cache := map[];
      debugMode := loggerDebugMode;
      effects := [];
      timers := [];
    }

    method Require(name: string, fetched: Module)
      requires Valid()
      modifies this
      ensures Valid() && State() == AfterRequire(old(State()), name, fetched)
    {
      effects := effects + [RequireCall(name)];
      if name !in cache {
        cache := cache[name := fetched];
      }
    }

    method ClearCache(name: string)
      requires Valid()
      modifies this
      ensures Valid() && State() == AfterClearCache(old(State()), name)
    {
      effects := effects + [ClearCacheCall(name)];
      cache := cache - {name};
    }

    method ClearAllCaches()
      requires Valid()
      modifies this
      ensures Valid() && State() == AfterClearAllCaches(old(State()))
    {
      effects := effects + [ClearAllCachesCall];
      cache := map[];
    }

    method StartApp(app: Module)
      requires Valid()
      modifies this
      ensures Valid() && State() == AfterStartApp(old(State()), app)
    {
      effects := effects + [SocketConnect];
      Require("app", app);
    }

    method ConnectLater(sec: int)
      requires Valid()
      modifies this
      ensures Valid() && State() == AfterConnectLater(old(State()), sec)
    {
      PendingReloadsAppend(timers, [Timer(sec * 1000, ReconnectCallback)]);
      timers := timers + [Timer(sec * 1000, ReconnectCallback)];
    }

    method SocketError(code: int)
      requires Valid()
      modifies this
      ensures Valid() && State() == AfterSocketError(old(State()), code)
    {
      if code == 50 {
        ConnectLater(10);
      } else if code == 57 {
        ConnectLater(1);
      } else if code == 61 {
        ConnectLater(10);
      } else {
        ConnectLater(10);
      }
    }

    method OnClose()
      requires Valid()
      modifies this
      ensures Valid() && State() == AfterClose(old(State()))
    {
      ConnectLater(10);
    }

    method Reflect(names: Option<seq<string>>)
      requires Valid()
      modifies this
      ensures Valid() && State() == AfterReflect(old(State()), names)
    {
      if names.None? {
        return;
      }
      var ns := names.value;
      var i := 0;
      while i < |ns|
        invariant 0 <= i <= |ns|
        invariant State() == ClearEach(old(State()), ns[..i])
        invariant Valid()
      {
        assert ns[..i + 1][..i] == ns[..i];
        ClearCache(ns[i]);
        i := i + 1;
      }
      assert ns[..|ns|] == ns;
    }

    method Reload(timer: Option<int>, force: Option<bool>)
      requires Valid()
      modifies this
      ensures Valid() && State() == AfterReload(old(State()), timer, force)
    {
      var t := Timer(timer.GetOr(0), ReloadCallback(force.GetOr(false)));
      PendingReloadsAppend(timers, [t]);
      willReload := willReload + 1;
      timers := timers + [t];
    }

    method OnPayload(p: Payload)
      requires Valid()
      modifies this
      ensures Valid() && State() == AfterPayload(old(State()), p)
    {
      if p.event == ALLOY_COMPILATION {
        acState := acState.Started();
      } else if p.event == ALLOY_COMPILATION_DONE {
        acState := acState.Finished();
      } else if p.event == RELOAD {
        Reload(p.timer, p.force);
      } else if p.event == REFLECT {
        Reflect(p.names);
      } else if p.event == DEBUG_MODE {
        debugMode := p.value;
      }
    }

    /** The pending callback `timers[i]` fires; `restartThrows` says whether
        Ti.App._restart throws, `app` is what require fetches. */
    method Fire(i: nat, restartThrows: bool, app: Module)
      requires Valid() && i < |timers|
      modifies this
      ensures Valid() && State() == AfterFire(old(State()), i, restartThrows, app)
    {
      ghost var s := State();
      var t := timers[i];
      PendingReloadsRemove(timers, i);
      timers := timers[..i] + timers[i + 1..];
      match t.callback
      case ReconnectCallback =>
        effects := effects + [SocketReconnect];
      case ReloadCallback(force) =>
        willReload := willReload - 1;
        var d := State();
        assert d == s.(timers := timers, willReload := s.willReload - 1);
        if Suppressed(d, force) {
          return;
        }
        effects := effects + [SocketEnd, RestartCall];
        assert State() == d.(effects := d.effects + [SocketEnd, RestartCall]);
        if restartThrows {
          ClearAllCaches();
          Require("app", app);
        }
    }
  }
}
