/**
 * What start-up guarantees: which calls it makes and in what order, when it creates a server,
 * when it throws, and what the cluster call receives.
 */
module StartupProperties {
  import opened Wrappers
  import opened JsValues
  import opened Settings
  import opened Discovered
  import opened Trace
  import opened Steps
  import opened Registration
  import opened StartupSpec

  /** The order `_createHTTPServer` talks to the libraries in. */
  function WiringRank(e: Event): nat {
    match e
    case RouterNew => 0
    case MiddlewaresNew => 1
    case MiddlewaresRegister(_, _) => 2
    case RouterSetMiddleware => 3
    case RouterSetMethods(_) => 4
    case RouterRegisterRoute(_) => 5
    case ServersCreateHttp(_, _, _) => 6
    case _ => 7
  }

  /** The step of `_createServers` an event belongs to: http, websocket, tcp, udp, cluster. */
  function PhaseRank(e: Event): nat {
    match e
    case ServersAttachWebSocket(_) => 1
    case ServersCreateTcp(_, _, _, _, _) => 2
    case ServersCreateUdp(_, _, _, _) => 3
    case ServersCluster(_) => 4
    case Listening => 5
    case ReadyCallback => 5
    case _ => 0
  }

  function Flag(v: Value): nat {
    if Truthy(v) then 1 else 0
  }

  /** Every call `Attempt` makes has the given rank when every requested call has it. */
  lemma AttemptRanks(calls: seq<Event>, earlier: seq<Event>, verdict: Verdict, rank: Event -> nat, m: nat)
    requires forall i :: 0 <= i < |calls| ==> rank(calls[i]) == m
    ensures forall e :: e in Attempt(calls, earlier, verdict).made ==> rank(e) == m
    ensures Sorted(Attempt(calls, earlier, verdict).made, rank)
  {
    AttemptMakesOnlyRequestedCalls(calls, earlier, verdict);
    var made := Attempt(calls, earlier, verdict).made;
    forall e | e in made ensures rank(e) == m {
      assert e in calls;
    }
    forall i, j | 0 <= i < j < |made| ensures rank(made[i]) <= rank(made[j]) {
      assert made[i] in made && made[j] in made;
    }
  }

  /** Registering middlewares logs only middleware registrations, and never creates a server. */
  lemma MiddlewareStepRanks(middlewares: map<string, Entries<MiddlewareModule>>, verdict: Verdict)
    ensures var s := MiddlewareStep(middlewares, verdict);
      Sorted(s.events, WiringRank) && (forall e :: e in s.events ==> WiringRank(e) == 2) && Created(s.events) == 0
  {
    var s := MiddlewareStep(middlewares, verdict);
    AttemptRanks(HttpMiddlewareCalls(middlewares), [], verdict, WiringRank, 2);
    forall i | 0 <= i < |s.events| ensures !IsCreate(s.events[i]) {
      assert s.events[i] in s.events;
    }
    CountZero(s.events, IsCreate);
  }

  /** Registering routes logs only route registrations, and never creates a server. */
  lemma RouteStepRanks(methods: Value, routes: Entries<RouteModule>, verdict: Verdict)
    ensures var s := RouteStep(methods, routes, verdict);
      Sorted(s.events, WiringRank) && (forall e :: e in s.events ==> WiringRank(e) == 5) && Created(s.events) == 0
  {
    var s := RouteStep(methods, routes, verdict);
    AttemptRanks(RouteCalls(routes), RouterSetup(methods), verdict, WiringRank, 5);
    forall i | 0 <= i < |s.events| ensures !IsCreate(s.events[i]) {
      assert s.events[i] in s.events;
    }
    CountZero(s.events, IsCreate);
  }

  /** The hook and the methods, then route registrations, then the server creation, in wiring order. */
  lemma WiringTailSorted(methods: Value, route: Step, create: Event)
    requires Sorted(route.events, WiringRank) && forall e :: e in route.events ==> WiringRank(e) == 5
    requires create.ServersCreateHttp?
    ensures var s := Then(Step(RouterSetup(methods), None), Then(route, Step([create], None)));
      Sorted(s.events, WiringRank) && forall e :: e in s.events ==> 3 <= WiringRank(e) <= 6
  {
    var setup := Step(RouterSetup(methods), None);
    var last := Step([create], None);
    assert forall e :: e in last.events ==> e == create;
    ThenSorted(route, last, WiringRank, 5, 5, 6);
    assert forall e :: e in setup.events ==> e == RouterSetMiddleware || e == RouterSetMethods(methods);
    ThenSorted(setup, Then(route, last), WiringRank, 3, 4, 6);
  }

  /**
   * The router and engine creation, then middleware registrations, then the hook and the methods,
   * then route registrations and then the server creation log their events in wiring order.
   */
  lemma WiringChainSorted(methods: Value, engine: Step, route: Step, create: Event)
    requires Sorted(engine.events, WiringRank) && forall e :: e in engine.events ==> WiringRank(e) == 2
    requires Sorted(route.events, WiringRank) && forall e :: e in route.events ==> WiringRank(e) == 5
    requires create.ServersCreateHttp?
    ensures var s := Then(Step([RouterNew, MiddlewaresNew], None),
                     Then(engine, Then(Step(RouterSetup(methods), None), Then(route, Step([create], None)))));
      Sorted(s.events, WiringRank) && forall e :: e in s.events ==> WiringRank(e) <= 6
  {
    var opening := Step([RouterNew, MiddlewaresNew], None);
    var tail := Then(Step(RouterSetup(methods), None), Then(route, Step([create], None)));
    WiringTailSorted(methods, route, create);
    ThenSorted(engine, tail, WiringRank, 2, 2, 6);
    assert forall e :: e in opening.events ==> e == RouterNew || e == MiddlewaresNew;
    ThenSorted(opening, Then(engine, tail), WiringRank, 0, 1, 6);
  }

  /**
   * `_createHTTPServer` creates the router, then the middleware engine, registers the middlewares,
   * sets the router's middleware hook, sets the supported methods, registers the routes and
   * finally creates the server, never out of this order.
   */
  lemma HttpWiringOrder(http: HttpSettings, cluster: ClusterSettings, routes: Option<Entries<RouteModule>>,
                        middlewares: Option<map<string, Entries<MiddlewareModule>>>,
                        middlewareVerdict: Verdict, routeVerdict: Verdict)
    ensures var s := HttpStep(http, cluster, routes, middlewares, middlewareVerdict, routeVerdict);
      Sorted(s.events, WiringRank) && forall e :: e in s.events ==> WiringRank(e) <= 6
  {
    if routes.Some? && |routes.value| > 0 && middlewares.Some? {
      HttpStepChain(http, cluster, routes, middlewares, middlewareVerdict, routeVerdict);
      RouteStepRanks(http.methods, routes.value, routeVerdict);
      MiddlewareStepRanks(middlewares.value, middlewareVerdict);
      WiringChainSorted(http.methods, MiddlewareStep(middlewares.value, middlewareVerdict),
                        RouteStep(http.methods, routes.value, routeVerdict),
                        ServersCreateHttp(http.port, http.webSockets, cluster.enabled));
    }
  }

  /** Five steps of which only the last, which cannot throw, creates a server, create one exactly when none throws. */
  lemma CreateChainCount(opening: Step, engine: Step, setup: Step, route: Step, create: Step)
    requires Created(opening.events) == 0 && opening.failure.None?
    requires Created(engine.events) == 0
    requires Created(setup.events) == 0 && setup.failure.None?
    requires Created(route.events) == 0
    requires Created(create.events) == 1 && create.failure.None?
    ensures var s := Then(opening, Then(engine, Then(setup, Then(route, create))));
      Created(s.events) == (if s.failure.None? then 1 else 0)
  {
    ThenCount(route, create, IsCreate);
    ThenCount(setup, Then(route, create), IsCreate);
    ThenCount(engine, Then(setup, Then(route, create)), IsCreate);
    ThenCount(opening, Then(engine, Then(setup, Then(route, create))), IsCreate);
  }

  /** `_createHTTPServer` creates exactly one server when it returns normally and none when it throws. */
  lemma HttpStepCreatesOnlyOnSuccess(http: HttpSettings, cluster: ClusterSettings, routes: Option<Entries<RouteModule>>,
                                     middlewares: Option<map<string, Entries<MiddlewareModule>>>,
                                     middlewareVerdict: Verdict, routeVerdict: Verdict)
    ensures var s := HttpStep(http, cluster, routes, middlewares, middlewareVerdict, routeVerdict);
      Created(s.events) == (if s.failure.None? then 1 else 0)
  {
    if routes.Some? && |routes.value| > 0 {
      CountSingle(RouterNew, IsCreate);
      CountAppend([RouterNew], MiddlewaresNew, IsCreate);
      assert [RouterNew, MiddlewaresNew] == [RouterNew] + [MiddlewaresNew];
      if middlewares.Some? {
        HttpStepChain(http, cluster, routes, middlewares, middlewareVerdict, routeVerdict);
        RouteStepRanks(http.methods, routes.value, routeVerdict);
        MiddlewareStepRanks(middlewares.value, middlewareVerdict);
        var create := [ServersCreateHttp(http.port, http.webSockets, cluster.enabled)];
        CountSingle(ServersCreateHttp(http.port, http.webSockets, cluster.enabled), IsCreate);
        CountSingle(RouterSetMiddleware, IsCreate);
        CountAppend([RouterSetMiddleware], RouterSetMethods(http.methods), IsCreate);
        assert RouterSetup(http.methods) == [RouterSetMiddleware] + [RouterSetMethods(http.methods)];
        CreateChainCount(Step([RouterNew, MiddlewaresNew], None),
                         MiddlewareStep(middlewares.value, middlewareVerdict),
                         Step(RouterSetup(http.methods), None),
                         RouteStep(http.methods, routes.value, routeVerdict),
                         Step(create, None));
      }
    }
  }


  /**
   * The socket-based steps call the server library only when the socket folder exports an
   * `index.onRequest` function; otherwise they throw the matching error and make no call.
   * TCP and UDP create one server when they succeed; attaching the websocket creates none.
   */
  lemma SocketStepsNeedHandler(tcp: TcpSettings, udp: UdpSettings, cluster: ClusterSettings, socket: Option<SocketModule>)
    ensures SocketHandler(socket).None? ==>
      WebSocketStep(socket) == Step([], Some(MissingSocketHandler(HttpWebSocket)))
      && TcpStep(tcp, cluster, socket) == Step([], Some(MissingSocketHandler(TcpSocket)))
      && UdpStep(udp, cluster, socket) == Step([], Some(MissingSocketHandler(UdpSocket)))
    ensures SocketHandler(socket).Some? ==>
      WebSocketStep(socket).failure.None? && Created(WebSocketStep(socket).events) == 0
      && TcpStep(tcp, cluster, socket).failure.None? && Created(TcpStep(tcp, cluster, socket).events) == 1
      && UdpStep(udp, cluster, socket).failure.None? && Created(UdpStep(udp, cluster, socket).events) == 1
  {
    if SocketHandler(socket).Some? {
      var h := SocketHandler(socket).value;
      assert [ServersCreateTcp(tcp.port, cluster.enabled, h, tcp.allowHalfOpen, tcp.pauseOnConnect)][..0] == [];
      assert [ServersCreateUdp(udp.port, udp.socketType, cluster.enabled, h)][..0] == [];
    }
  }

  /** The `if (conf.http.enabled)` block logs only calls made while creating the http server. */
  lemma HttpPhaseRanked(servers: Option<ServerSettings>, cluster: ClusterSettings, routes: Option<RouteFolders>,
                        middlewares: Option<MiddlewareFolders>, middlewareVerdict: Verdict, routeVerdict: Verdict)
    ensures forall e :: e in HttpPhase(servers, cluster, routes, middlewares, middlewareVerdict, routeVerdict).events
              ==> PhaseRank(e) == 0
  {
    if servers.Some? && servers.value.http.Some? && Truthy(servers.value.http.value.enabled)
       && routes.Some? && middlewares.Some? {
      var http := servers.value.http.value;
      HttpWiringOrder(http, cluster, routes.value.httpRoutes, middlewares.value.app, middlewareVerdict, routeVerdict);
      var s := HttpStep(http, cluster, routes.value.httpRoutes, middlewares.value.app, middlewareVerdict, routeVerdict);
      forall e | e in s.events ensures PhaseRank(e) == 0 {
        assert WiringRank(e) <= 6;
      }
    }
  }

  /** Each step of `_createServers` logs only events of its own rank. */
  lemma PhasesRanked(servers: Option<ServerSettings>, cluster: ClusterSettings, routes: Option<RouteFolders>,
                     sockets: Option<SocketFolders>, middlewares: Option<MiddlewareFolders>,
                     middlewareVerdict: Verdict, routeVerdict: Verdict)
    ensures var ps := StartupPhases(servers, cluster, routes, sockets, middlewares, middlewareVerdict, routeVerdict);
      forall i, e :: 0 <= i < |ps| && e in ps[i].events ==> PhaseRank(e) == i
  {
    HttpPhaseRanked(servers, cluster, routes, middlewares, middlewareVerdict, routeVerdict);
  }

  /**
   * Start-up talks to the libraries in the fixed order http, websocket, tcp, udp, cluster, and
   * it logs no listening notification or callback invocation of its own.
   */
  lemma StartupOrder(config: Config, routes: Option<RouteFolders>, sockets: Option<SocketFolders>,
                     middlewares: Option<MiddlewareFolders>, cpus: nat,
                     middlewareVerdict: Verdict, routeVerdict: Verdict)
    ensures var l := Startup(config, routes, sockets, middlewares, cpus, middlewareVerdict, routeVerdict);
      Sorted(l.run.events, PhaseRank) && forall e :: e in l.run.events ==> PhaseRank(e) < 5
  {
    if config.cluster.Some? {
      var cluster := ResolveCores(config.cluster.value, cpus);
      PhasesRanked(config.servers, cluster, routes, sockets, middlewares, middlewareVerdict, routeVerdict);
      RunPhasesOrdered(StartupPhases(config.servers, cluster, routes, sockets, middlewares, middlewareVerdict, routeVerdict),
                       PhaseRank, 0);
    }
  }

  /** Start-up itself never logs a listening notification nor invokes the callback. */
  lemma StartupLogsNoNotifications(config: Config, routes: Option<RouteFolders>, sockets: Option<SocketFolders>,
                                   middlewares: Option<MiddlewareFolders>, cpus: nat,
                                   middlewareVerdict: Verdict, routeVerdict: Verdict)
    ensures var l := Startup(config, routes, sockets, middlewares, cpus, middlewareVerdict, routeVerdict);
      Heard(l.run.events) == 0 && Fired(l.run.events) == 0
  {
    var l := Startup(config, routes, sockets, middlewares, cpus, middlewareVerdict, routeVerdict);
    StartupOrder(config, routes, sockets, middlewares, cpus, middlewareVerdict, routeVerdict);
    forall i | 0 <= i < |l.run.events| ensures !IsListening(l.run.events[i]) && !IsReady(l.run.events[i]) {
      assert l.run.events[i] in l.run.events;
    }
    CountZero(l.run.events, IsListening);
    CountZero(l.run.events, IsReady);
  }
}
