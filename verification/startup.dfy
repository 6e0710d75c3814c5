/**
 * What `_createServers` does, step by step, as values: the calls it makes, the error it throws and
 * the configuration it leaves behind. The servers component's methods are proved against these.
 */
module StartupSpec {
  import opened Wrappers
  import opened JsValues
  import opened Settings
  import opened Discovered
  import opened Trace
  import opened Steps
  import opened Registration

  /** A `for...in` over `undefined` runs no iteration. */
  function EntriesOf<T>(o: Option<Entries<T>>): Entries<T> {
    if o.Some? then o.value else []
  }

  /** The calls the router has received when routes are registered. */
  function RouterSetup(methods: Value): seq<Event> {
    [RouterSetMiddleware, RouterSetMethods(methods)]
  }

  /** The middlewares `_createHTTPServer` hands to the engine: those of the `http-middlewares` folder. */
  function HttpMiddlewareCalls(middlewares: map<string, Entries<MiddlewareModule>>): seq<Event> {
    MiddlewareCalls(EntriesOf(Lookup(middlewares, "http-middlewares")))
  }

  /** `_registerMiddlewares` on a fresh engine: a refusal is rethrown wrapped, with the original error. */
  function MiddlewareStep(middlewares: map<string, Entries<MiddlewareModule>>, verdict: Verdict): Step {
    var a := Attempt(HttpMiddlewareCalls(middlewares), [], verdict);
    Step(a.made, if a.rejection.Some? then Some(MiddlewareRejected(a.rejection.value)) else None)
  }

  /** `_setRouterRoutes` on a router that has its hook and methods set. */
  function RouteStep(methods: Value, routes: Entries<RouteModule>, verdict: Verdict): Step {
    var a := Attempt(RouteCalls(routes), RouterSetup(methods), verdict);
    Step(a.made, if a.rejection.Some? then Some(RouteRejected(a.rejection.value)) else None)
  }

  /** The calls `_createHTTPServer` makes before registering routes: router, engine, middlewares, hook, methods. */
  function HttpWiring(methods: Value, engine: Step): seq<Event> {
    [RouterNew, MiddlewaresNew] + engine.events + [RouterSetMiddleware] + [RouterSetMethods(methods)]
  }

  /**
   * `_createHTTPServer`: check the routes, then create the router and the engine, register the
   * middlewares, set the hook and the methods, register the routes and create the server; a
   * refused middleware or route ends it right after the refused call.
   */
  function HttpStep(http: HttpSettings, cluster: ClusterSettings, routes: Option<Entries<RouteModule>>,
                    middlewares: Option<map<string, Entries<MiddlewareModule>>>,
                    middlewareVerdict: Verdict, routeVerdict: Verdict): Step
  {
    if routes.None? || |routes.value| == 0 then Step([], Some(MissingHttpRoutes))
    else if middlewares.None? then Step([RouterNew, MiddlewaresNew], Some(UndefinedRead("http-middlewares")))
    else
      var engine := MiddlewareStep(middlewares.value, middlewareVerdict);
      if engine.failure.Some? then Step([RouterNew, MiddlewaresNew] + engine.events, engine.failure)
      else
        var route := RouteStep(http.methods, routes.value, routeVerdict);
        var wired := HttpWiring(http.methods, engine) + route.events;
        if route.failure.Some? then Step(wired, route.failure)
        else Step(wired + [ServersCreateHttp(http.port, http.webSockets, cluster.enabled)], None)
  }

  /** The same, as a chain of steps each of which runs only when the one before it returned normally. */
  lemma HttpStepChain(http: HttpSettings, cluster: ClusterSettings, routes: Option<Entries<RouteModule>>,
                      middlewares: Option<map<string, Entries<MiddlewareModule>>>,
                      middlewareVerdict: Verdict, routeVerdict: Verdict)
    requires routes.Some? && |routes.value| > 0 && middlewares.Some?
    ensures HttpStep(http, cluster, routes, middlewares, middlewareVerdict, routeVerdict)
         == Then(Step([RouterNew, MiddlewaresNew], None),
            Then(MiddlewareStep(middlewares.value, middlewareVerdict),
            Then(Step(RouterSetup(http.methods), None),
            Then(RouteStep(http.methods, routes.value, routeVerdict),
                 Step([ServersCreateHttp(http.port, http.webSockets, cluster.enabled)], None)))))
  {
    var engine := MiddlewareStep(middlewares.value, middlewareVerdict);
    var route := RouteStep(http.methods, routes.value, routeVerdict);
    var opening: seq<Event> := [RouterNew, MiddlewaresNew];
    var setup := RouterSetup(http.methods);
    var create := [ServersCreateHttp(http.port, http.webSockets, cluster.enabled)];
    assert HttpWiring(http.methods, engine) == opening + (engine.events + setup);
    assert opening + (engine.events + (setup + route.events)) == HttpWiring(http.methods, engine) + route.events;
    assert opening + (engine.events + (setup + (route.events + create)))
        == HttpWiring(http.methods, engine) + route.events + create;
  }

  /** `_enableHTTPWebSocket`: attach the connection handler, or throw when there is none. */
  function WebSocketStep(socket: Option<SocketModule>): Step {
    match SocketHandler(socket)
    case None => Step([], Some(MissingSocketHandler(HttpWebSocket)))
    case Some(h) => Step([ServersAttachWebSocket(h)], None)
  }

  /** `_createTCPServer`. */
  function TcpStep(tcp: TcpSettings, cluster: ClusterSettings, socket: Option<SocketModule>): Step {
    match SocketHandler(socket)
    case None => Step([], Some(MissingSocketHandler(TcpSocket)))
    case Some(h) => Step([ServersCreateTcp(tcp.port, cluster.enabled, h, tcp.allowHalfOpen, tcp.pauseOnConnect)], None)
  }

  /** `_createUDPServer`. */
  function UdpStep(udp: UdpSettings, cluster: ClusterSettings, socket: Option<SocketModule>): Step {
    match SocketHandler(socket)
    case None => Step([], Some(MissingSocketHandler(UdpSocket)))
    case Some(h) => Step([ServersCreateUdp(udp.port, udp.socketType, cluster.enabled, h)], None)
  }

  /** The `if (conf.http.enabled)` block, with the property reads its arguments make. */
  function HttpPhase(servers: Option<ServerSettings>, cluster: ClusterSettings, routes: Option<RouteFolders>,
                     middlewares: Option<MiddlewareFolders>, middlewareVerdict: Verdict, routeVerdict: Verdict): Step
  {
    if servers.None? then Step([], Some(UndefinedRead("http")))
    else if servers.value.http.None? then Step([], Some(UndefinedRead("enabled")))
    else if !Truthy(servers.value.http.value.enabled) then Step([], None)
    else if routes.None? then Step([], Some(UndefinedRead("httpRoutes")))
    else if middlewares.None? then Step([], Some(UndefinedRead("app")))
    else HttpStep(servers.value.http.value, cluster, routes.value.httpRoutes, middlewares.value.app,
                  middlewareVerdict, routeVerdict)
  }

  /** The `if (conf.http.webSockets)` block. */
  function WebSocketPhase(servers: Option<ServerSettings>, sockets: Option<SocketFolders>): Step {
    if servers.None? then Step([], Some(UndefinedRead("http")))
    else if servers.value.http.None? then Step([], Some(UndefinedRead("webSockets")))
    else if !Truthy(servers.value.http.value.webSockets) then Step([], None)
    else if sockets.None? then Step([], Some(UndefinedRead("app")))
    else if sockets.value.app.None? then Step([], Some(UndefinedRead("http-websocket")))
    else WebSocketStep(Lookup(sockets.value.app.value, "http-websocket"))
  }

  /** The `if (conf.tcp.enabled)` block. */
  function TcpPhase(servers: Option<ServerSettings>, cluster: ClusterSettings, sockets: Option<SocketFolders>): Step {
    if servers.None? then Step([], Some(UndefinedRead("tcp")))
    else if servers.value.tcp.None? then Step([], Some(UndefinedRead("enabled")))
    else if !Truthy(servers.value.tcp.value.enabled) then Step([], None)
    else if sockets.None? then Step([], Some(UndefinedRead("app")))
    else if sockets.value.app.None? then Step([], Some(UndefinedRead("tcp")))
    else TcpStep(servers.value.tcp.value, cluster, Lookup(sockets.value.app.value, "tcp"))
  }

  /** The `if (conf.udp.enabled)` block. */
  function UdpPhase(servers: Option<ServerSettings>, cluster: ClusterSettings, sockets: Option<SocketFolders>): Step {
    if servers.None? then Step([], Some(UndefinedRead("udp")))
    else if servers.value.udp.None? then Step([], Some(UndefinedRead("enabled")))
    else if !Truthy(servers.value.udp.value.enabled) then Step([], None)
    else if sockets.None? then Step([], Some(UndefinedRead("app")))
    else if sockets.value.app.None? then Step([], Some(UndefinedRead("udp")))
    else UdpStep(servers.value.udp.value, cluster, Lookup(sockets.value.app.value, "udp"))
  }

  /** The closing `if (config.cluster.enabled) Servers.cluster(config.cluster.cores)`. */
  function ClusterPhase(cluster: ClusterSettings): Step {
    if Truthy(cluster.enabled) then Step([ServersCluster(cluster.cores)], None) else Step([], None)
  }

  /** The five steps of `_createServers`, in source order, given the resolved cluster section. */
  function StartupPhases(servers: Option<ServerSettings>, cluster: ClusterSettings, routes: Option<RouteFolders>,
                         sockets: Option<SocketFolders>, middlewares: Option<MiddlewareFolders>,
                         middlewareVerdict: Verdict, routeVerdict: Verdict): seq<Step>
  {
    [ HttpPhase(servers, cluster, routes, middlewares, middlewareVerdict, routeVerdict),
      WebSocketPhase(servers, sockets),
      TcpPhase(servers, cluster, sockets),
      UdpPhase(servers, cluster, sockets),
      ClusterPhase(cluster) ]
  }

  /** The configuration after start-up and what start-up did. */
  datatype Launch = Launch(config: Config, run: Step)

  /** `_createServers(config, routes, sockets, middlewares)` with `cpus` standing for `os.cpus().length`. */
  function Startup(config: Config, routes: Option<RouteFolders>, sockets: Option<SocketFolders>,
                   middlewares: Option<MiddlewareFolders>, cpus: nat,
                   middlewareVerdict: Verdict, routeVerdict: Verdict): Launch
  {
    if config.cluster.None? then Launch(config, Step([], Some(UndefinedRead("enabled"))))
    else
      var cluster := ResolveCores(config.cluster.value, cpus);
      Launch(config.(cluster := Some(cluster)),
             RunPhases(StartupPhases(config.servers, cluster, routes, sockets, middlewares,
                                     middlewareVerdict, routeVerdict)))
  }

  /** The five-step run, unfolded. */
  lemma RunFive(a: Step, b: Step, c: Step, d: Step, e: Step)
    ensures RunPhases([a, b, c, d, e]) == Then(a, Then(b, Then(c, Then(d, Then(e, Step([], None))))))
  {
    assert [e][1..] == [];
    assert RunPhases([e]) == Then(e, Step([], None));
    assert [d, e][1..] == [e];
    assert RunPhases([d, e]) == Then(d, RunPhases([e]));
    assert [c, d, e][1..] == [d, e];
    assert RunPhases([c, d, e]) == Then(c, RunPhases([d, e]));
    assert [b, c, d, e][1..] == [c, d, e];
    assert RunPhases([b, c, d, e]) == Then(b, RunPhases([c, d, e]));
    assert [a, b, c, d, e][1..] == [b, c, d, e];
  }
}
