/** The helpers of the Titanium CLI hook (dist/hook/faster.js): the `--faster`
    filter around every hook function, the flag registration, the default
    port, the choice of the host address, the duplicate-registration check,
    and the rewrite of the app.js copy into the generated entry file. The
    CLI objects are values or a small class; Node's `path.dirname` and the
    project's `isAppJS` are parameters. */
module FasterHook {
  import opened Wrappers
  import Json

  // ---------------------------------------------------------------------
  // filter
  // ---------------------------------------------------------------------

  /** How a promise returned by `fn` ends. */
  datatype Settlement<E> = Resolves | Rejects(reason: E) | NeverSettles

  /** How a call of `fn` ends: it throws, returns something without a
      `then` (a plain value), or returns a thenable. */
  datatype FnOutcome<E> = Throws(error: E) | ReturnsPlain | ReturnsThenable(settlement: Settlement<E>)

  /** One call `finished(err, data)`; `None` is an argument null or left out. */
  datatype FinishedCall<D, E> = FinishedCall(err: Option<E>, data: Option<D>)

  /** Whether the wrapper called `fn`, and the calls it made of `finished`. */
  datatype FilterRun<D, E> = FilterRun(fnCalled: bool, finished: seq<FinishedCall<D, E>>)

  /** The wrapper `filter(fn)` returns, run on `data` and `finished`:
      `faster` is the truthiness of `cli.argv.faster`, `outcome` what `fn`
      does if it is called. */
  function Filter<D, E>(faster: bool, outcome: FnOutcome<E>, data: D): (r: FilterRun<D, E>)
    ensures r.fnCalled <==> faster
    ensures |r.finished| <= 1
    ensures r.finished == [] <==> faster && outcome.ReturnsThenable? && outcome.settlement.NeverSettles?
    ensures r.finished == [FinishedCall(None, Some(data))]
        <==> !faster || outcome.ReturnsPlain? || (outcome.ReturnsThenable? && outcome.settlement.Resolves?)
    ensures faster && outcome.Throws? ==> r.finished == [FinishedCall(Some(outcome.error), None)]
    ensures faster && outcome.ReturnsThenable? && outcome.settlement.Rejects?
        ==> r.finished == [FinishedCall(Some(outcome.settlement.reason), None)]
  {
    if !faster then FilterRun(false, [FinishedCall(None, Some(data))])
    else
      match outcome
      case Throws(e) => FilterRun(true, [FinishedCall(Some(e), None)])
      case ReturnsPlain => FilterRun(true, [FinishedCall(None, Some(data))])
      case ReturnsThenable(Resolves) => FilterRun(true, [FinishedCall(None, Some(data))])
      case ReturnsThenable(Rejects(e)) => FilterRun(true, [FinishedCall(Some(e), None)])
      case ReturnsThenable(NeverSettles) => FilterRun(true, [])
  }

  // ---------------------------------------------------------------------
  // attachFasterFlag and the port default of launchServers
  // ---------------------------------------------------------------------

  datatype CliValue = BoolValue(b: bool) | NumberValue(n: int)

  /** A flag or option definition: `{ default, desc }`. */
  datatype CliOption = CliOption(default: CliValue, desc: string)

  const FASTER_FLAG := CliOption(BoolValue(false), "enables faster rebuilding")

  const FT_PORT_OPTION := CliOption(
    NumberValue(4157),
    "port number for faster-titanium http server. If not available, use another open port.")

  /** `data.result[1]` of the build.config hook: the command's flags and
      options, which the hook extends in place. */
  class CommandConfig {
    var flags: map<string, CliOption>
    var options: map<string, CliOption>

    constructor (flags: map<string, CliOption>, options: map<string, CliOption>)
      ensures this.flags == flags && this.options == options
    {
      this.flags := flags;
      this.options := options;
    }
  }

  /** attachFasterFlag(data): define `--faster` and `--ft-port`; every other
      flag and option stays as it was. */
  method AttachFasterFlag(config: CommandConfig)
    modifies config
    ensures config.flags == old(config.flags)["faster" := FASTER_FLAG]
    ensures config.options == old(config.options)["ft-port" := FT_PORT_OPTION]
  {
    config.flags := config.flags["faster" := FASTER_FLAG];
    config.options := config.options["ft-port" := FT_PORT_OPTION];
  }

  /** The port launchServers starts from: `--ft-port`, or 4157 when it is
      undefined. */
  function LaunchPort(ftPort: Option<int>): (port: int)
    ensures ftPort.None? ==> port == 4157
    ensures ftPort.Some? ==> port == ftPort.value
  {
    if ftPort.None? then 4157 else ftPort.value
  }

  /** The default launchServers falls back on is the default the
      `--ft-port` option advertises. */
  lemma LaunchPortIsAdvertisedDefault()
    ensures FT_PORT_OPTION.default == NumberValue(LaunchPort(None))
  {
  }

  // ---------------------------------------------------------------------
  // getAddress
  // ---------------------------------------------------------------------

  datatype NetworkInterface = NetworkInterface(address: string, family: string, internal: bool)

  predicate IsExternalIPv4(itf: NetworkInterface) {
    itf.family == "IPv4" && !itf.internal
  }

  /** None of the first `k` interface groups has an external IPv4 entry. */
  ghost predicate NoExternalIn(interfaces: seq<seq<NetworkInterface>>, k: nat)
    requires k <= |interfaces|
  {
    forall g, j :: 0 <= g < k && 0 <= j < |interfaces[g]| ==> !IsExternalIPv4(interfaces[g][j])
  }

  /** `interfaces[k][j]` is the first external IPv4 entry in iteration order. */
  ghost predicate FirstExternalAt(interfaces: seq<seq<NetworkInterface>>, k: nat, j: nat) {
    && k < |interfaces| && j < |interfaces[k]|
    && IsExternalIPv4(interfaces[k][j])
    && NoExternalIn(interfaces, k)
    && forall i :: 0 <= i < j ==> !IsExternalIPv4(interfaces[k][i])
  }

  /** getAddress(): `interfaces` is os.networkInterfaces(), one group per
      interface name in the object's key order. The result is the address
      of the first external IPv4 entry, or "localhost" when there is none. */
  method GetAddress(interfaces: seq<seq<NetworkInterface>>) returns (address: string)
    ensures (exists k: nat, j: nat :: FirstExternalAt(interfaces, k, j) && address == interfaces[k][j].address)
         || (NoExternalIn(interfaces, |interfaces|) && address == "localhost")
  {
    var k := 0;
    while k < |interfaces|
      invariant 0 <= k <= |interfaces|
      invariant NoExternalIn(interfaces, k)
    {
      var itf := interfaces[k];
      var j := 0;
      while j < |itf|
        invariant 0 <= j <= |itf|
        invariant forall i :: 0 <= i < j ==> !IsExternalIPv4(itf[i])
      {
        if IsExternalIPv4(itf[j]) {
          assert FirstExternalAt(interfaces, k, j);
          return itf[j].address;
        }
        j := j + 1;
      }
      k := k + 1;
    }
    return "localhost";
  }

  // ---------------------------------------------------------------------
  // multiplyRegistered
  // ---------------------------------------------------------------------

  const HOOK_PATH_SUFFIX := "faster-titanium/dist/hook/faster.js"

  predicate EndsWith(s: string, suffix: string) {
    |suffix| <= |s| && s[|s| - |suffix|..] == suffix
  }

  /** The test `/faster-titanium\/dist\/hook\/faster\.js$/`. */
  predicate IsFasterHookPath(path: string) {
    EndsWith(path, HOOK_PATH_SUFFIX)
  }

  /** The hook paths that pass the test, in their order. */
  function FasterHookPaths(paths: seq<string>): (r: seq<string>)
    ensures |r| <= |paths|
    ensures forall p :: p in r <==> p in paths && IsFasterHookPath(p)
  {
    if paths == [] then []
    else (if IsFasterHookPath(paths[0]) then [paths[0]] else []) + FasterHookPaths(paths[1..])
  }

  /** The filter keeps the order of the paths: filtering a concatenation is
      concatenating the filtered parts. */
  lemma {:induction false} FasterHookPathsAppend(a: seq<string>, b: seq<string>)
    ensures FasterHookPaths(a + b) == FasterHookPaths(a) + FasterHookPaths(b)
  {
    if a == [] {
      assert a + b == b;
    } else {
      assert (a + b)[1..] == a[1..] + b;
      FasterHookPathsAppend(a[1..], b);
    }
  }

  /** The filter's first element is the first path that passes the test. */
  lemma {:induction false} FasterHookPathsHead(paths: seq<string>)
    requires FasterHookPaths(paths) != []
    ensures 0 <= FirstHookIndex(paths) && FasterHookPaths(paths)[0] == paths[FirstHookIndex(paths)]
  {
    if !IsFasterHookPath(paths[0]) {
      FasterHookPathsHead(paths[1..]);
    }
  }

  /** The position of the first hook path that passes the test, -1 if none. */
  function FirstHookIndex(paths: seq<string>): (r: int)
    ensures -1 <= r < |paths|
    ensures r == -1 <==> forall i :: 0 <= i < |paths| ==> !IsFasterHookPath(paths[i])
    ensures 0 <= r ==> IsFasterHookPath(paths[r]) && forall i :: 0 <= i < r ==> !IsFasterHookPath(paths[i])
  {
    if paths == [] then -1
    else if IsFasterHookPath(paths[0]) then 0
    else
      var i := FirstHookIndex(paths[1..]);
      if i == -1 then -1 else i + 1
  }

  /** Array.prototype.indexOf. */
  function IndexOf(s: seq<string>, x: string): (r: int)
    ensures -1 <= r < |s|
    ensures r == -1 <==> x !in s
    ensures 0 <= r ==> s[r] == x && forall i :: 0 <= i < r ==> s[i] != x
  {
    if s == [] then -1
    else if s[0] == x then 0
    else
      var i := IndexOf(s[1..], x);
      if i == -1 then -1 else i + 1
  }

  /** multiplyRegistered(): this file's path `filename` is a registered hook
      path that passes the test, and another passing path comes first. */
  function MultiplyRegistered(hookPaths: seq<string>, filename: string): (r: bool)
    ensures r <==> filename in FasterHookPaths(hookPaths) && FasterHookPaths(hookPaths)[0] != filename
    ensures r <==> && IsFasterHookPath(filename) && filename in hookPaths
                   && hookPaths[FirstHookIndex(hookPaths)] != filename
  {
    var found := FasterHookPaths(hookPaths);
    if found == [] then false
    else
      FasterHookPathsHead(hookPaths);
      IndexOf(found, filename) > 0
  }

  // ---------------------------------------------------------------------
  // manipulateAppJS and generateNewAppJS
  // ---------------------------------------------------------------------

  const ENTRY_FILE := "/faster-titanium.js"

  /** manipulateAppJS(data), the rewrite of `data.args = [src, dest]`: when
      `src` is the project's app.js, `args[0]` becomes the generated entry
      file next to `dest`, whose path is returned; otherwise nothing changes. */
  method ManipulateAppJS(
    args: array<string>, projectDir: string,
    isAppJS: (string, string) -> bool, dirname: string -> string)
    returns (newSrc: Option<string>)
    requires args.Length >= 2
    modifies args
    ensures !isAppJS(projectDir, old(args[0])) ==> newSrc.None? && args[..] == old(args[..])
    ensures isAppJS(projectDir, old(args[0])) ==>
      && newSrc == Some(dirname(old(args[1])) + ENTRY_FILE)
      && args[..] == old(args[..])[0 := newSrc.value]
  {
    var src, dest := args[0], args[1];
    if !isAppJS(projectDir, src) {
      return None;
    }
    var path := dirname(dest) + ENTRY_FILE;
    args[0] := path;
    newSrc := Some(path);
  }

  const RUN_PREFIX := "Ti.FasterTitanium.run(this, "

  /** The one-line initializer: `Ti.FasterTitanium.run(this, <options>)`. */
  function Initializer(fPort: nat, ePort: nat, host: string): (line: string)
    ensures ParseInitializer(line) == Some((fPort, ePort, host))
  {
    var opts := Json.RunOptionsJson(fPort, ePort, host);
    assert RUN_PREFIX + opts + ")" == RUN_PREFIX + (opts + ")");
    Json.ExpectPrefixOf(RUN_PREFIX, opts + ")");
    assert (opts + ")")[..|opts|] == opts;
    Json.RunOptionsRoundTrip(fPort, ePort, host);
    RUN_PREFIX + opts + ")"
  }

  /** The new app.js: the bundle, a line break, the initializer. */
  function GenerateNewAppJS(bundle: string, fPort: nat, ePort: nat, host: string): (code: string)
    ensures |code| > |bundle| && code[..|bundle|] == bundle && code[|bundle|] == '\n'
    ensures code[|bundle| + 1..] == Initializer(fPort, ePort, host)
  {
    bundle + "\n" + Initializer(fPort, ePort, host)
  }

  /** Reads the ports and host back out of an initializer line. */
  function ParseInitializer(line: string): Option<(nat, nat, string)> {
    var rest :- Json.ExpectPrefix(RUN_PREFIX, line);
    if rest != [] && rest[|rest| - 1] == ')' then Json.ParseRunOptions(rest[..|rest| - 1]) else None
  }

  /** The generated file is the bundle unchanged, then a line break, then an
      initializer that passes exactly the given ports and host. */
  lemma GeneratedAppJsLayout(bundle: string, fPort: nat, ePort: nat, host: string)
    ensures var code := GenerateNewAppJS(bundle, fPort, ePort, host);
            && |code| > |bundle|
            && code[..|bundle|] == bundle
            && code[|bundle|] == '\n'
            && ParseInitializer(code[|bundle| + 1..]) == Some((fPort, ePort, host))
  {
  }
}
