# Servers start-up of esrol-server-app, modelled in Dafny

esrol-server-app hands an application's configuration, routes, middlewares and socket handlers
to its servers component, `ServersComponent` (`lib/components/servers/servers.js`). The
component:

- resolves the cluster core count, turning `"auto"` into the number of CPUs;
- brings up the enabled protocol servers in a fixed order: HTTP, HTTP websocket, TCP, UDP, then
  the cluster fork;
- wires the HTTP server, registering middlewares with the middleware engine, then setting the
  router's middleware hook and supported methods, then registering the routes;
- counts the servers it created (`_waitingForServers`) against their "listening" notifications,
  and invokes the user's callback when the count drops to zero.

This project models that class in Dafny and proves what it promises.

How the model is built:

- **Calls are logged.** Every call the component makes into the server, router and middleware
  libraries is an `Event` appended to the component's `log`. So are the "listening" notifications
  it receives and its invocations of the callback (`trace.dfy`). The one exception is the websocket
  attachment: `getHTTPServerInstance()`, `createHTTPWebSocket(…)` and `.on('connection', …)` are
  three chained calls logged as the single event `ServersAttachWebSocket`, which carries the
  connection handler.
- **The libraries are parameters.** The router and the middleware engine can refuse a
  registration by throwing. Whether they do is a `Verdict` parameter: a function of the calls
  that library object received before and of the call itself (`registration.dfy`).
- **JavaScript values are a small datatype.** `Value` covers the values the code looks at, and
  `Truthy` is JavaScript's `if (v)` (`js_values.dfy`).
- **Missing objects are `None`.** Discovered folders and configuration sections the code reads a
  property of are `Option`s. Reading a property of `undefined` is the failure
  `UndefinedRead(property)`.
- **What start-up should do is written as functions.** `StartupSpec.Startup` describes
  `_createServers` as plain values: it gives the run's calls, the error it throws and the updated
  configuration (`startup.dfy`). It is built from one step per `if` block of `_createServers`,
  where each step runs only if the one before it returned normally (`steps.dfy`).
- **The class is imperative.** `Servers.ServersComponent` mirrors the JavaScript class. Its fields
  are `waitingForServers`, `callback`, `config` and `log`, plus `thrown`, the error its
  constructor threw. Each method's body does what the JavaScript does, step by step. Its
  `ensures` clause ties the new log, the new counter and the error to the specification
  functions.
- **The counter invariant.** `Valid()` states that the counter is the number of servers created
  minus the "listening" notifications received. The start-up methods (`CreateServers` and the
  `Start*` methods) keep `waitingForServers - Created(log)` unchanged: each server they create
  raises the counter by one, through `OnServerCreated`. `OnServerListening` and `ListenAll`
  require and keep `Valid()` itself, and the constructor establishes it.
- **The properties are lemmas.** The properties of start-up are lemmas about `Startup`
  (`startup_properties.dfy`, `startup_outcomes.dfy`). The properties of the notifications are
  lemmas about `Listened`, the log that `k` successive calls of `OnServerListening` append
  (`servers.dfy`). `ListenAll` makes those `k` calls on the component and is proved to append
  exactly `Listened`. Together with the constructor, whose log holds no notification and no
  callback invocation, this gives the component's own promise: when a callback was given and at
  least one server was created, the callback has been invoked exactly once after every created
  server has reported. When no callback was given, or no server was created (nothing enabled,
  or start-up threw before the first create), it is never invoked.

`_setHTTPRouterMiddleware` and `_setRouterMethods` each make a single router call. That call is
logged in place (`RouterSetMiddleware`, `RouterSetMethods`) inside
`Servers.ServersComponent.CreateHttpServer`. `StartupProperties.HttpWiringOrder` proves where
each one falls in the order of calls.

### Behaviour of the code worth knowing

- **A failed start-up can still invoke the callback.** A server created before the failing
  step stays created and still reports "listening". Its notification brings the counter to
  zero and invokes the callback. `Servers.ReadyAfterAbortedStartup` exhibits a concrete case.
- **Nothing stops the counter from going negative.** `_onServerListening` has no guard, and
  `OnServerListening` likewise decrements unconditionally. `Servers.ListenedCounts` shows that
  the callback still fires at most once.
- **The websocket branch does not depend on HTTP.** `conf.http.webSockets` is read, and the
  websocket calls are made, even when HTTP itself is disabled. What those calls do without an
  HTTP server is up to the library. The model makes the same calls.
- **Only HTTP, TCP and UDP servers are created.** servers.js has no HTTPS server, and neither
  does the model.
- **A middlewares object without `app` stops the HTTP start-up midway.** `middlewares.app` is
  then `undefined`. Reading its `http-middlewares` folder throws after the router and the
  engine have been constructed (`StartupOutcomes.HttpWithoutMiddlewareFoldersAborts`). A
  sockets object without `app` likewise makes the websocket, TCP and UDP blocks throw when they
  read their folder.

## Model

| member | source | states |
|---|---|---|
| Settings.ResolveCores | lib/components/servers/servers.js:19-23 | with clustering on, `"auto"` cores become the CPU count and the result is never `"auto"`; otherwise the cluster section is returned unchanged; `enabled` is never changed |
| Registration.AttemptMakesPrefix | lib/components/servers/servers.js:93-108 | a registration loop makes a prefix of the requested calls: all of them when none is refused, and at least the refused one otherwise |
| Registration.AttemptVerdicts | lib/components/servers/servers.js:115-128 | every call made was accepted given the calls before it, except a refused last call, whose error is the one rethrown |
| Registration.AttemptStopsAtFirstRefusal | lib/components/servers/servers.js:92-109 | the loop completes if and only if every call is accepted; otherwise it stops right after the first refused call |
| Registration.AttemptMakesOnlyRequestedCalls | lib/components/servers/servers.js:115-129 | a registration loop makes no call it was not asked to make |
| Steps.RunPhasesStopsAtFirstFailure | lib/components/servers/servers.js:24-43 | when step `k` is the first to throw, the run logs exactly the calls of steps 0..k and throws step `k`'s error |
| Steps.RunPhasesAllSucceed | lib/components/servers/servers.js:24-43 | when no step throws, the run logs every step's calls in order and returns normally |
| Steps.RunPhasesOrdered | lib/components/servers/servers.js:24-43 | steps whose calls are ranked by position give a run whose calls appear in rank order |
| StartupSpec.HttpStepChain | lib/components/servers/servers.js:60-84 | with routes present and `middlewares.app` defined, `_createHTTPServer` is the chain: create router and engine, register middlewares, set hook and methods, register routes, create the server, each only if the previous part returned normally |
| StartupProperties.MiddlewareStepRanks | lib/components/servers/servers.js:92-109 | registering middlewares makes only `registerMiddleware` calls and creates no server |
| StartupProperties.RouteStepRanks | lib/components/servers/servers.js:115-129 | registering routes makes only `registerRoute` calls and creates no server |
| StartupProperties.HttpWiringOrder | lib/components/servers/servers.js:69-82 | HTTP wiring calls come in the order: new router, new engine, middlewares, hook, methods, routes, `createHTTPServer` |
| StartupProperties.HttpStepCreatesOnlyOnSuccess | lib/components/servers/servers.js:60-84 | `_createHTTPServer` creates exactly one server when it returns normally and none when it throws |
| StartupProperties.SocketStepsNeedHandler | lib/components/servers/servers.js:135-178 | when `SocketHandler` finds no handler (the folder is missing, has no `index` export, or its `onRequest` is not a function), websocket, TCP and UDP throw their own error and make no call; when it finds one they succeed, TCP and UDP creating one server each and the websocket none |
| StartupProperties.HttpPhaseRanked | lib/components/servers/servers.js:24-31 | the HTTP block makes only HTTP-wiring calls |
| StartupProperties.PhasesRanked | lib/components/servers/servers.js:24-43 | each block of `_createServers` makes only calls belonging to it |
| StartupProperties.StartupOrder | lib/components/servers/servers.js:16-44 | start-up calls the libraries in the order http, websocket, tcp, udp, cluster |
| StartupProperties.StartupLogsNoNotifications | lib/components/servers/servers.js:16-44 | start-up itself receives no "listening" notification and never invokes the callback |
| StartupOutcomes.HttpPhaseCount | lib/components/servers/servers.js:24-31 | the HTTP block returns normally only if the flag was readable, and then creates a server exactly when `http.enabled` is truthy |
| StartupOutcomes.WebSocketPhaseCount | lib/components/servers/servers.js:32-34 | the websocket block never creates a server |
| StartupOutcomes.TcpPhaseCount | lib/components/servers/servers.js:35-37 | the TCP block returns normally only if the flag was readable, and then creates a server exactly when `tcp.enabled` is truthy |
| StartupOutcomes.UdpPhaseCount | lib/components/servers/servers.js:38-40 | the UDP block returns normally only if the flag was readable, and then creates a server exactly when `udp.enabled` is truthy |
| StartupOutcomes.SuccessfulStartupCreatesEnabled | lib/components/servers/servers.js:24-40 | a start-up that returns normally has created one server per enabled protocol among http, tcp and udp |
| StartupOutcomes.NothingEnabledCreatesNothing | lib/components/servers/servers.js:24-43 | with every protocol off, start-up returns normally, creates no server and makes no call except the cluster call |
| StartupOutcomes.StartupStopsAtFirstFailure | lib/components/servers/servers.js:24-43 | the first block to throw decides start-up's error, and no call of a later block, the cluster call included, is made |
| StartupOutcomes.FailureBeforeCluster | lib/components/servers/servers.js:41-43 | a start-up that throws has made no cluster call |
| StartupOutcomes.ClusterFanOut | lib/components/servers/servers.js:19-43 | `Servers.cluster` is called once, as the last call, exactly when start-up returns normally with clustering on; it receives the resolved core count, never `"auto"` |
| StartupOutcomes.HttpWithoutRoutesAborts | lib/components/servers/servers.js:62-68 | HTTP enabled with routes absent or empty: start-up throws the missing-routes error having made no call at all |
| StartupOutcomes.HttpWithoutMiddlewareFoldersAborts | lib/components/servers/servers.js:69-71 | a middlewares object without `app`: start-up constructs the router and the engine, then throws reading `http-middlewares`, and makes no other call |
| StartupOutcomes.MiddlewareRefusalAborts | lib/components/servers/servers.js:92-109 | a refused middleware: start-up throws the wrapped library error right after that registration; no route is registered and no server created |
| StartupOutcomes.RouteRefusalAborts | lib/components/servers/servers.js:115-129 | a refused route: start-up throws the wrapped library error right after that registration, after the hook and the methods were set, and creates no server |
| Servers.EntriesCounts | lib/components/servers/servers.js:180-189 | one notification is logged, creates nothing, and invokes the callback exactly when the counter drops to zero and a callback was given |
| Servers.AppendListened | lib/components/servers/servers.js:180-189 | `k` notifications appended to a log add `k` to the notifications heard, create nothing, and add one callback invocation exactly when a callback was given and `1 <= n <= k` |
| Servers.ListenedCounts | lib/components/servers/servers.js:180-189 | after `k` notifications starting from counter `n`, the callback has fired once if a callback was given and `1 <= n <= k`, and never otherwise |
| Servers.ReadyAfterAbortedStartup | lib/components/servers/servers.js:24-40 | a concrete start-up that throws at the TCP block after creating the HTTP server, whose one notification still invokes the callback |
| Servers.ServersComponent.constructor | lib/components/servers/servers.js:10-14 | the new component holds the counter invariant; its log, thrown error and updated configuration are start-up's; its counter equals the servers start-up created; no notification has been received and the callback not invoked |
| Servers.ServersComponent.CreateServers | lib/components/servers/servers.js:16-44 | updates the configuration and appends start-up's calls, throws start-up's error, and raises the counter by the number of servers created |
| Servers.ServersComponent.StartHttp | lib/components/servers/servers.js:24-31 | appends the HTTP block's calls, throws its error, and raises the counter by the servers it created |
| Servers.ServersComponent.StartWebSocket | lib/components/servers/servers.js:32-34 | appends the websocket block's calls and throws its error; creates no server |
| Servers.ServersComponent.StartTcp | lib/components/servers/servers.js:35-37 | appends the TCP block's calls, throws its error, and raises the counter by the servers it created |
| Servers.ServersComponent.StartUdp | lib/components/servers/servers.js:38-40 | appends the UDP block's calls, throws its error, and raises the counter by the servers it created |
| Servers.ServersComponent.StartCluster | lib/components/servers/servers.js:41-43 | appends the cluster call when clustering is on; creates no server |
| Servers.ServersComponent.CreateHttpServer | lib/components/servers/servers.js:60-90 | appends `_createHTTPServer`'s calls, throws its error, and raises the counter by one exactly when it returns normally |
| Servers.ServersComponent.EnableHttpWebSocket | lib/components/servers/servers.js:46-58 | attaches the handler `SocketHandler` finds (the folder's `index.onRequest` function), or throws without a call when it finds none |
| Servers.ServersComponent.CreateTcpServer | lib/components/servers/servers.js:156-178 | creates the TCP server with the handler `SocketHandler` finds (the folder's `index.onRequest` function), or throws without a call when it finds none; raises the counter by the servers it created |
| Servers.ServersComponent.CreateUdpServer | lib/components/servers/servers.js:135-154 | creates the UDP server with the handler `SocketHandler` finds (the folder's `index.onRequest` function), or throws without a call when it finds none; raises the counter by the servers it created |
| Servers.ServersComponent.RegisterMiddlewares | lib/components/servers/servers.js:92-109 | makes exactly the calls `Attempt(MiddlewareCalls(entries), engine, verdict)` makes, where `MiddlewareCalls` has call `i` register middleware `i`'s `priority` and `onRequest` in `for...in` order; returns normally when no call is refused and otherwise rethrows the refusal wrapped as a middleware error |
| Servers.ServersComponent.SetRouterRoutes | lib/components/servers/servers.js:115-129 | makes exactly the calls `Attempt(RouteCalls(routes), router, verdict)` makes, where `RouteCalls` has call `i` register route `i` in `for...in` order; returns normally when no call is refused and otherwise rethrows the refusal wrapped as a route error |
| Servers.ServersComponent.OnServerCreated | lib/components/servers/servers.js:111-113 | raises the counter by one |
| Servers.ServersComponent.OnServerListening | lib/components/servers/servers.js:180-189 | lowers the counter by one, logs the notification, invokes the callback exactly when the counter reaches zero and a callback was given, and keeps the counter invariant |
| Servers.ServersComponent.ListenAll | lib/components/servers/servers.js:180-189 | `k` successive notifications append exactly `Listened`, lower the counter by `k` and keep the invariant; the callback is invoked once more exactly when one was given and the counter started between 1 and `k`, so, when a callback was given and at least one server was created, it is invoked exactly once after every created server has reported |

## Left out

- **Files outside the servers component.** `lib/app.js`, `lib/components/dependency/dependency.js`,
  `lib/components/initializers/initializers.js` and `lib/components/api/api.js` are not part of
  this model. They read the configuration file, autoload the folders, run the initializers and
  expose the HTTP server instance; `ServersComponent` receives their results as arguments.
- **What the libraries do.** The server, router and middleware libraries are not modelled:
  listening on sockets, websocket upgrades, routing and forking the workers. Only the calls made
  to them are logged.
  - The registrations `registerMiddleware` and `registerRoute` may throw, as decided by a
    `Verdict` parameter.
  - Every other library call is taken to return normally: `new Router()`, `new Middelwares()`,
    the `create*Server` calls, `createHTTPWebSocket`, `getHTTPServerInstance`,
    `on('connection', …)` on the websocket, `setMiddleware`, `setSupportedHttpMethods` and
    `cluster`.
- **Arrival of notifications.** When the notifications arrive is up to the event loop.
  `OnServerListening` may be called at any time, and the lemmas about `Listened` cover any
  number of calls.
- **The CPU count.** The count of `os.cpus()` is the `cpus` parameter.
- **Logging.** The `debug` logging is not modelled.
- **Error objects.** The message text of the errors is not modelled, and neither is the
  `JSON.stringify` of the wrapped error nor the stack. A `Failure` names the error, and a
  wrapped error carries the library's own message.
- **What the libraries receive.** The HTTP server's settings object is logged without its
  `router` handler (`router.onRequest`). No settings object's `onListening` handler is logged.
  The TCP and UDP `router` handlers, the socket folder's `index.onRequest`, are logged in
  `ServersCreateTcp` and `ServersCreateUdp`. The websocket object that `createHTTPWebSocket`
  returns is not logged either, beyond the handler its `on('connection', …)` receives.
- **Numbers.** JavaScript numbers are integers here. Objects and functions are known only by
  identity.
- **Property lookups.** Getters, prototype lookups and inherited enumerable properties are not
  modelled: a `for...in` visits the object's own entries in order.
- **Middleware entries that are not objects.** Every middleware entry is an object with
  `priority` and `onRequest`. An entry that is `null` or `undefined` cannot be represented. For
  such an entry, reading `.priority` throws a `TypeError` inside the `try`. The code then rethrows
  the wrapped middleware error without making that `registerMiddleware` call. The model produces
  a wrapped error only after logging the refused `MiddlewaresRegister` call. A throwing getter on
  `priority` or `onRequest` takes the same path and is likewise not modelled.
- **The shape of `routes.httpRoutes`.** It is taken to be `undefined` or an object with an
  `app` member. The model holds it as `httpRoutes`, the list of that member's entries. An
  `httpRoutes` object without `app`, which makes `Object.keys(undefined)` throw, cannot be
  represented. (A middlewares or sockets object without `app` is
  modelled.)
- **What the callback does.** The model records only whether a truthy callback was given and
  when it is invoked.
- **The rebinding of `_onServerListening` (line 18).** It only fixes `this` for the libraries'
  calls, which the model makes directly on the component.
- **The thrown error.** A constructor that throws leaves the JavaScript caller without the
  object, but the created servers still hold its bound listener. The model keeps the object and
  stores the error in `thrown`.
