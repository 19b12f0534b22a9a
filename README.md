# faster-titanium, modelled in Dafny

faster-titanium speeds up the edit–reload cycle of a Titanium app. A
development-machine process serves the app's files over HTTP and pushes
events over a TCP notification channel. A client injected into the app
listens to those events, tracks Alloy compilations, debounces reload
requests and restarts the app, and drops entries of its remote module
cache. This project models three parts of it:

- **The in-app client** (`titanium_client.dfy`, module `TitaniumClient`,
  from `src/titanium/faster-titanium.js`). It covers the event dispatcher
  `onPayload`, the reload coordinator with its `willReload` counter and its
  gate, `reflect`, and the reconnect policy. The client's state is the value
  `ClientState`, and each operation has a function giving the state after it
  (`AfterReload`, `AfterFire`, ...). The class `FasterTitanium` keeps the same
  state in fields and updates them in place. Each of its methods is proved
  to produce exactly the state its function gives, and to keep the class
  invariant: `willReload` equals the number of pending reload callbacks.
  `setTimeout` is a queue of pending callbacks. `Fire(i, ...)` runs any one
  of them, so the order of firing is the environment's choice. Calls on the
  socket, on `Ti.App._restart` and on the module cache are recorded in
  order in `effects`.
- **The content responder** (`content_responder.dfy`, module `Responder`,
  from `src/server/content-responder.js`). It builds `ResponseInfo` values,
  keeps the per-id response cache as a class field, and decides the
  `resource` response.
- **The build-hook helpers** (`faster_hook.dfy`, module `FasterHook`, from
  `dist/hook/faster.js`). These are the `--faster` filter, flag
  registration, the port default, `getAddress`, `multiplyRegistered`, the
  app.js argument rewrite and the generated entry file. `json.dfy` (module
  `Json`) gives the decimal and `JSON.stringify` formatting the generated
  initializer uses. Each formatter has a parser, and lemmas prove that
  parsing gives back what was formatted.

Parameters stand in for what the model cannot see:

- whether `Ti.App._restart` throws;
- the module a `require` fetches;
- file contents (`None` is a failed read);
- the resource loader's content;
- the app.js converter;
- `path.dirname` and `isAppJS`;
- `os.networkInterfaces()`.

Three behaviours of the code that the model keeps as written:

- Reconnect timers stack. Every socket error or close adds one more
  pending reconnect (`src/titanium/faster-titanium.js:146-148`).
- `webJS` reads the bundle on every call, because its cache check is
  commented out (`src/server/content-responder.js:110`).
- The constructor reads `options.nPort`
  (`src/titanium/faster-titanium.js:38`), but the generated initializer
  passes `ePort` (`dist/hook/faster.js:201`). The socket port in
  `FasterTitanium.constructor` is therefore `None` (NaN) for options that
  lack `nPort`. The model keeps this as written.

## Model

| member | source | states |
|---|---|---|
| `TitaniumClient.AfterReload` | src/titanium/faster-titanium.js:199-204 | reload raises `willReload` by exactly 1. It adds one pending reload callback whose delay defaults to 0 and whose force defaults to false. Nothing else changes. |
| `TitaniumClient.AfterFire` | src/titanium/faster-titanium.js:205-223 | the fired callback leaves the queue, and `willReload` minus the number of pending reload callbacks does not change. The tracker and the debug flag never change. A fired reconnect timer records `socket.reconnect()` and changes nothing else. |
| `TitaniumClient.FireReloadOutcome` | src/titanium/faster-titanium.js:205-222 | a fired reload callback decrements `willReload` by 1. It proceeds iff force holds, or no compilation runs and the decremented counter is not positive. When suppressed, effects and cache are unchanged. When it proceeds, `socket.end()` comes before the restart attempt. A successful restart leaves the cache alone. A throwing restart is followed by `clearAllCaches()` and exactly one `require('app')`. |
| `TitaniumClient.ForcedReloadAlwaysRestarts` | src/titanium/faster-titanium.js:208-216 | a forced callback always ends the socket and then tries the restart, whatever the compilation state and the counter. |
| `TitaniumClient.DebouncedReloadProceedsWhenLast` | src/titanium/faster-titanium.js:203-210 | in a balanced state, a non-forced callback acts iff no compilation runs and it is the last pending reload. |
| `TitaniumClient.TwoReloadsRestartOnce` | src/titanium/faster-titanium.js:199-223 | start with no reload pending (reconnect timers may be) and compilation idle, then make two non-forced reloads. The counter reaches 2. Whichever of the two callbacks fires first changes only the counter and the queue. After both fire, the counter is 0, the queue is as it was, and there was exactly one restart attempt. |
| `TitaniumClient.NotLastReloadSuppressed` | src/titanium/faster-titanium.js:206-210 | a non-forced callback fired while another reload is counted changes only the counter, by -1, and the queue. |
| `TitaniumClient.LastReloadProceeds` | src/titanium/faster-titanium.js:206-222 | the last counted non-forced callback, with no compilation running, brings the counter to 0. It records `socket.end()` and the restart attempt, plus `clearAllCaches()` and `require('app')` when the restart throws. |
| `TitaniumClient.StepKeepsReloadBalance` | src/titanium/faster-titanium.js:155-223 | every payload, socket error, close or fired timer keeps `willReload` minus the pending reload callbacks. |
| `TitaniumClient.RunKeepsReloadBalance` | src/titanium/faster-titanium.js:155-223 | the same holds across any sequence of events. |
| `TitaniumClient.CounterRestoredWhenAllFired` | src/titanium/faster-titanium.js:203-206 | once every reload callback scheduled in a run has fired, `willReload` is back to its value before the run. |
| `TitaniumClient.PayloadDispatch` | src/titanium/faster-titanium.js:158-177 | `alloy-compilation` changes only the tracker (started), `alloy-compilation-done` likewise (finished), `reload` is `AfterReload`, `reflect` is `AfterReflect`, `debug-mode` sets only the debug flag, and any other event changes nothing. |
| `TitaniumClient.AfterPayload` | src/titanium/faster-titanium.js:155-178 | every payload keeps `willReload` minus the number of pending reload callbacks. |
| `TitaniumClient.ClearEachClearsNamed` | src/titanium/faster-titanium.js:186-189 | clearing a list of names removes exactly those cache entries. It records one `clearCache` per name in list order and changes nothing else. |
| `TitaniumClient.AfterReflect` | src/titanium/faster-titanium.js:183-190 | reflect without `names` changes nothing. Otherwise the named entries leave the cache and every other entry is intact. One `clearCache` call is recorded per name, in list order. Nothing else changes. |
| `TitaniumClient.ReconnectDelay` | src/titanium/faster-titanium.js:120-140 | code 57 gives 1 second. Codes 50 and 61, and every other code, give 10 seconds. |
| `TitaniumClient.AfterConnectLater` | src/titanium/faster-titanium.js:146-148 | `connectLater(sec)` appends one reconnect after `sec * 1000` ms and changes nothing else. |
| `TitaniumClient.AfterSocketError` | src/titanium/faster-titanium.js:120-140 | a socket error appends one reconnect, after 1000 ms for code 57 and 10000 ms for any other code, and changes nothing else. |
| `TitaniumClient.AfterClose` | src/titanium/faster-titanium.js:84-87 | a closed connection appends one reconnect after 10000 ms and changes nothing else. |
| `TitaniumClient.AfterStartApp` | src/titanium/faster-titanium.js:112-115 | startApp records `socket.connect()` and then `require('app')`. The app module is cached afterwards. A module already cached is kept. Nothing else changes. |
| `TitaniumClient.AfterRequire` | src/titanium/faster-titanium.js:112-115 | `require(name)` records the call. A name already cached keeps its entry. On a miss the fetched module is stored under the name. Nothing else changes. |
| `TitaniumClient.AfterClearCache` | src/titanium/faster-titanium.js:188 | `clearCache(name)` records the call and removes that entry. Every other entry keeps its presence and its value. Nothing else changes. |
| `TitaniumClient.AfterClearAllCaches` | src/titanium/faster-titanium.js:220 | `clearAllCaches()` records the call and empties the cache. Nothing else changes. |
| `TitaniumClient.FasterTitanium.constructor` | src/titanium/faster-titanium.js:36-62 | a new client has counter 0, an idle tracker, an empty cache and no pending timers. The debug flag is whatever the global logger holds. Host defaults to `localhost`. The URL is `http://host:fPort`. The socket port is `nPort` as given. |
| `TitaniumClient.FasterTitanium.StartApp` | src/titanium/faster-titanium.js:112-115 | connect, then `require('app')`. |
| `TitaniumClient.FasterTitanium.SocketError` | src/titanium/faster-titanium.js:120-140 | the switch on the error code schedules the reconnect `ReconnectDelay` gives. |
| `TitaniumClient.FasterTitanium.ConnectLater` | src/titanium/faster-titanium.js:146-148 | appends the reconnect timer in place. |
| `TitaniumClient.FasterTitanium.OnClose` | src/titanium/faster-titanium.js:84-87 | schedules a reconnect after 10 seconds. |
| `TitaniumClient.FasterTitanium.OnPayload` | src/titanium/faster-titanium.js:155-178 | updates the fields to exactly `AfterPayload` and keeps the class invariant. |
| `TitaniumClient.FasterTitanium.Reflect` | src/titanium/faster-titanium.js:183-190 | its `forEach` loop clears the names one by one, giving exactly `AfterReflect`. |
| `TitaniumClient.FasterTitanium.Reload` | src/titanium/faster-titanium.js:199-224 | increments the counter and queues the callback, giving exactly `AfterReload`. |
| `TitaniumClient.FasterTitanium.Fire` | src/titanium/faster-titanium.js:205-223 | runs the chosen pending callback in place, giving exactly `AfterFire`. The class invariant holds afterwards. |
| `TitaniumClient.FasterTitanium.Require` | src/titanium/faster-titanium.js:221 | the `reqAgent.require` call, giving exactly `AfterRequire`. |
| `TitaniumClient.FasterTitanium.ClearCache` | src/titanium/faster-titanium.js:188 | the `reqAgent.clearCache` call, giving exactly `AfterClearCache`. |
| `TitaniumClient.FasterTitanium.ClearAllCaches` | src/titanium/faster-titanium.js:220 | the `reqAgent.clearAllCaches` call, giving exactly `AfterClearAllCaches`. |
| `Responder.Respond` | src/server/content-responder.js:27-29 | the response carries the given content, content type and status unchanged. |
| `Responder.RespondJSON` | src/server/content-responder.js:38-40 | the content type defaults to `application/json` when absent. The text and status are passed through. |
| `Responder.RespondFile` | src/server/content-responder.js:50-55 | there is a response iff the read succeeds. It carries the file text, type and status. |
| `Responder.WebUI` | src/server/content-responder.js:101-103 | the page is whatever the read returns, served as `text/html` with no status given. |
| `Responder.NotFound` | src/server/content-responder.js:92-94 | status 404, type `text/plain`, content `"404 not found: " + url`. |
| `Responder.ResourceNotFound` | src/server/content-responder.js:126-129 | `resource` gives `notFound(url)` iff the loader's content is null. The converter does not affect that answer. |
| `Responder.Resource` | src/server/content-responder.js:123-141 | a null content gives `notFound(url)`. Otherwise there is no content type and no status. The content is the converter's output for `/app.js` and the loader's bytes unmodified for any other url. |
| `Responder.Lookup` | src/server/content-responder.js:62-74 | the stored value for `id` is defined iff `hasCache(id)`, meaning the entry exists and is truthy. |
| `Responder.ContentResponder.constructor` | src/server/content-responder.js:15-17 | a new responder has an empty cache, and `hasCache(id)` is false for every id. Ids that name `Object.prototype` properties are not modelled. |
| `Responder.ContentResponder.ResponseCache` | src/server/content-responder.js:62-64 | the stored value for a stored id, and undefined for any other id. |
| `Responder.ContentResponder.HasCache` | src/server/content-responder.js:72-74 | `hasCache(id)` holds iff `responseCache(id)` gives a response, not undefined. |
| `Responder.ContentResponder.Cache` | src/server/content-responder.js:83-85 | stores and returns `info`. Afterwards `responseCache(id)` is `info` and every other id is unchanged. |
| `Responder.ContentResponder.WebJS` | src/server/content-responder.js:109-114 | reads the bundle on every call. A successful read overwrites the `webJS` entry. A failed read changes nothing. |
| `FasterHook.Filter` | dist/hook/faster.js:81-101 | `fn` runs iff `--faster` is set. Without it, `finished(null, data)` is called. When `fn` throws `e`, `finished(e)` is called. A plain result or a resolved thenable gives `finished(null, data)`. A rejection with `err` gives `finished(err)`. `finished` is called at most once, and never only for a thenable that never settles. |
| `FasterHook.AttachFasterFlag` | dist/hook/faster.js:107-115 | sets `flags.faster` (default false) and `options['ft-port']` (default 4157) with their descriptions. Every other flag and option is left unchanged. |
| `FasterHook.LaunchPort` | dist/hook/faster.js:124-127 | the starting port is `--ft-port`, or 4157 when it is undefined. |
| `FasterHook.LaunchPortIsAdvertisedDefault` | dist/hook/faster.js:114-127 | the port launchServers falls back on, written as its own literal, equals the default the `ft-port` option advertises. |
| `FasterHook.GetAddress` | dist/hook/faster.js:233-246 | the address of the first entry, in iteration order, with family `IPv4` that is not internal. When there is none, `localhost`. |
| `FasterHook.FasterHookPaths` | dist/hook/faster.js:252-254 | keeps exactly the paths ending in `faster-titanium/dist/hook/faster.js`. |
| `FasterHook.FasterHookPathsHead` | dist/hook/faster.js:252-254 | when any path passes, the filter's first element is the first registered path that passes. |
| `FasterHook.FasterHookPathsAppend` | dist/hook/faster.js:252-254 | the filter keeps order: filtering a concatenation gives the concatenation of the filtered parts. |
| `FasterHook.FirstHookIndex` | dist/hook/faster.js:252-254 | -1 iff no hook path passes the test. Otherwise the position of the first passing path. |
| `FasterHook.IndexOf` | dist/hook/faster.js:254 | -1 iff absent. Otherwise the position of the first occurrence. |
| `FasterHook.MultiplyRegistered` | dist/hook/faster.js:251-257 | true iff the file's path is among the matching hook paths and is not the first of them. Stated over the registered paths directly: the path passes the test, is registered, and the first registered path that passes is a different one. |
| `FasterHook.ManipulateAppJS` | dist/hook/faster.js:166-181 | when `src` is not app.js, `args` is unchanged. Otherwise only `args[0]` is replaced, by `dirname(dest) + '/faster-titanium.js'`. |
| `FasterHook.Initializer` | dist/hook/faster.js:201-203 | the line `Ti.FasterTitanium.run(this, <options>)` parses back to exactly the given `fPort`, `ePort` and `host`. |
| `FasterHook.GenerateNewAppJS` | dist/hook/faster.js:199-213 | the code is the bundle unchanged, then a newline, then the initializer line. |
| `FasterHook.GeneratedAppJsLayout` | dist/hook/faster.js:199-213 | the generated code is the bundle, a newline, then `Ti.FasterTitanium.run(this, ...)`. Parsing the options back out of it gives exactly the `fPort`, `ePort` and `host` passed in. |
| `Json.NatToDecimal` | dist/hook/faster.js:201 | a port prints as a non-empty string of digits with no leading zero. |
| `Json.DecimalRoundTrip` | dist/hook/faster.js:201 | reading the printed digits gives back the number. |
| `Json.ParseNatRoundTrip` | dist/hook/faster.js:201 | the digits are read back whenever a non-digit, or nothing, follows them. |
| `Json.QuoteRoundTrip` | dist/hook/faster.js:201 | `JSON.stringify` of a string parses back to the same string, whatever follows it. |
| `Json.RunOptionsRoundTrip` | dist/hook/faster.js:201 | the stringified `{fPort, ePort, host}` object parses back to its three values. |

## Left out

- The socket and network transport, `fetchPreferences` (`Http.get` and
  `JSON.parse`), and `LogSender`. These are I/O; only the socket calls
  survive, as recorded effects.
- The reload callback's diagnostic message, all logger and `console`
  output, and `showDialog` with its alert dialog and hiding timer. These
  are UI.
- `FasterTitanium.run` and the `Ti.FasterTitanium` registration. The
  constructor followed by `StartApp` is what `run` does.
- Wall-clock time. Timers record their delay but fire in whatever order
  the environment picks, with no ordering by delay and no cancellation.
- `Ti.App._restart`. It is a foreign runtime primitive, so whether it
  throws is a parameter of `Fire`.
- The internals of `AlloyCompilationState`. Its source is not part of this
  model. The model assumes it counts outstanding compilations: `started`
  adds one, and `finished` removes one without going below zero. The
  `token` the compilation events carry is dropped, so a tracker keyed on
  tokens could differ. For example, two starts with one token and then
  one finish would leave the model compiling. The compilation clauses of
  `PayloadDispatch` follow this assumption. The reload lemmas take
  `compiling` as it stands and hold for any value of it.
- The initial value of `logger.debugMode`. The constructor never sets it,
  so it is a constructor parameter.
- The internals of `RequireAgent`. Fetching, executing and a failing fetch
  are not modelled. The module `require` stores on a miss is a parameter.
- A `payload` that is not a parsed JSON object, `names` that is truthy but
  not an array, and a `debug-mode` value that is not a boolean.
- `ResourceLoader` (path resolution and disk reads), `AppJsConverter` (the
  top-level declaration rewrite), and the defaults `ResponseInfo` gives to
  undefined arguments. None of their source is part of this model. The
  loader's content and the converter are parameters.
- The promises and `readFile` plumbing of `respondFile`. A read is a
  parameter, and a failed read is `None`.
- The build glue: `init` and hook registration, `getPorts` (openport),
  browserify bundling, `writeFileSync`, `startWatching`, `showServerInfo`,
  and `isAlloyCompatible` (shell `exec`, semver, `process.exit`). Of
  `launchServers` only the port default is modelled.
- Responder.ContentResponder.constructor: `this.caches` is a plain object,
  so ids that name `Object.prototype` properties (`constructor`,
  `toString`, ...) find inherited values there. The model's empty map does
  not model them. The file itself only uses the id `webJS`.
- TitaniumClient.FasterTitanium.ConnectLater: the default `sec = 10` is
  not modelled. Every call site passes the delay.
- FasterHook.Filter: does not model a `finished` callback that itself
  throws inside the `try`, which would make the `catch` call `finished`
  a second time. It also does not model a result whose `then` is not a
  function.
- FasterHook.ManipulateAppJS: requires the two-element `[src, dest]` array
  that the copyResource hook passes. Writing the generated file and calling
  `generateNewAppJS` are not modelled.
- FasterHook.GeneratedAppJsLayout: the bundle text is a parameter, so a
  failed browserify bundle is not covered.
- Json.NatToDecimal: covers integers only. JavaScript's exponent form for
  numbers of 10^21 and above is not modelled, and ports stay far below it.
