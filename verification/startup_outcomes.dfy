/**
 * How start-up ends: how many servers a successful start-up creates, what happens when nothing is
 * enabled, which error ends a start-up that fails and what it has done by then, and what the
 * cluster call receives.
 */
module StartupOutcomes {
  import opened Wrappers
  import opened JsValues
  import opened Settings
  import opened Discovered
  import opened Trace
  import opened Steps
  import opened Registration
  import opened StartupSpec
  import opened StartupProperties

  /** The `if (conf.http.enabled)` block returns normally only when it could read the flag; it then creates a server exactly when the flag is truthy. */
  lemma HttpPhaseCount(servers: Option<ServerSettings>, cluster: ClusterSettings, routes: Option<RouteFolders>,
                       middlewares: Option<MiddlewareFolders>, middlewareVerdict: Verdict, routeVerdict: Verdict)
    ensures var s := HttpPhase(servers, cluster, routes, middlewares, middlewareVerdict, routeVerdict);
      s.failure.None? ==> servers.Some? && servers.value.http.Some?
                          && Created(s.events) == Flag(servers.value.http.value.enabled)
  {
    if servers.Some? && servers.value.http.Some? && Truthy(servers.value.http.value.enabled)
       && routes.Some? && middlewares.Some? {
      HttpStepCreatesOnlyOnSuccess(servers.value.http.value, cluster, routes.value.httpRoutes, middlewares.value.app,
                                   middlewareVerdict, routeVerdict);
    }
  }

  /** The `if (conf.http.webSockets)` block never creates a server. */
  lemma WebSocketPhaseCount(servers: Option<ServerSettings>, sockets: Option<SocketFolders>)
    ensures Created(WebSocketPhase(servers, sockets).events) == 0
  {
    if servers.Some? && sockets.Some? && sockets.value.app.Some? {
      var socket := Lookup(sockets.value.app.value, "http-websocket");
      if SocketHandler(socket).Some? {
        CountSingle(ServersAttachWebSocket(SocketHandler(socket).value), IsCreate);
      }
    }
  }

  /** The `if (conf.tcp.enabled)` block, like the http one, creates a server exactly when its flag is truthy. */
  lemma TcpPhaseCount(servers: Option<ServerSettings>, cluster: ClusterSettings, sockets: Option<SocketFolders>)
    ensures var s := TcpPhase(servers, cluster, sockets);
      s.failure.None? ==> servers.Some? && servers.value.tcp.Some?
                          && Created(s.events) == Flag(servers.value.tcp.value.enabled)
  {
    if servers.Some? && servers.value.tcp.Some? && sockets.Some? && sockets.value.app.Some? {
      var tcp := servers.value.tcp.value;
      var socket := Lookup(sockets.value.app.value, "tcp");
      if SocketHandler(socket).Some? {
        var h := SocketHandler(socket).value;
        CountSingle(ServersCreateTcp(tcp.port, cluster.enabled, h, tcp.allowHalfOpen, tcp.pauseOnConnect), IsCreate);
      }
    }
  }

  /** So does the `if (conf.udp.enabled)` block. */
  lemma UdpPhaseCount(servers: Option<ServerSettings>, cluster: ClusterSettings, sockets: Option<SocketFolders>)
    ensures var s := UdpPhase(servers, cluster, sockets);
      s.failure.None? ==> servers.Some? && servers.value.udp.Some?
                          && Created(s.events) == Flag(servers.value.udp.value.enabled)
  {
    if servers.Some? && servers.value.udp.Some? && sockets.Some? && sockets.value.app.Some? {
      var udp := servers.value.udp.value;
      var socket := Lookup(sockets.value.app.value, "udp");
      if SocketHandler(socket).Some? {
        var h := SocketHandler(socket).value;
        CountSingle(ServersCreateUdp(udp.port, udp.socketType, cluster.enabled, h), IsCreate);
      }
    }
  }

  /** A chain of five steps returns normally only when each of them does, and then logs all they logged. */
  lemma ChainSucceeds(a: Step, b: Step, c: Step, d: Step, e: Step, p: Event -> bool)
    requires Then(a, Then(b, Then(c, Then(d, Then(e, Step([], None)))))).failure.None?
    ensures a.failure.None? && b.failure.None? && c.failure.None? && d.failure.None? && e.failure.None?
    ensures Count(Then(a, Then(b, Then(c, Then(d, Then(e, Step([], None)))))).events, p)
         == Count(a.events, p) + Count(b.events, p) + Count(c.events, p) + Count(d.events, p) + Count(e.events, p)
  {
    var rest4 := Then(e, Step([], None));
    var rest3 := Then(d, rest4);
    var rest2 := Then(c, rest3);
    var rest1 := Then(b, rest2);
    ThenCount(a, rest1, p);
    ThenCount(b, rest2, p);
    ThenCount(c, rest3, p);
    ThenCount(d, rest4, p);
    ThenCount(e, Step([], None), p);
  }

  /**
   * A start-up that returns normally has created one server per enabled protocol among http, tcp
   * and udp (the websocket only attaches to the http server), so that many "listening"
   * notifications are awaited.
   */
  lemma SuccessfulStartupCreatesEnabled(config: Config, routes: Option<RouteFolders>, sockets: Option<SocketFolders>,
                                        middlewares: Option<MiddlewareFolders>, cpus: nat,
                                        middlewareVerdict: Verdict, routeVerdict: Verdict)
    requires Startup(config, routes, sockets, middlewares, cpus, middlewareVerdict, routeVerdict).run.failure.None?
    ensures config.cluster.Some? && config.servers.Some?
    ensures var s := config.servers.value;
      s.http.Some? && s.tcp.Some? && s.udp.Some?
      && Created(Startup(config, routes, sockets, middlewares, cpus, middlewareVerdict, routeVerdict).run.events)
         == Flag(s.http.value.enabled) + Flag(s.tcp.value.enabled) + Flag(s.udp.value.enabled)
  {
    var cluster := ResolveCores(config.cluster.value, cpus);
    var p0 := HttpPhase(config.servers, cluster, routes, middlewares, middlewareVerdict, routeVerdict);
    var p1 := WebSocketPhase(config.servers, sockets);
    var p2 := TcpPhase(config.servers, cluster, sockets);
    var p3 := UdpPhase(config.servers, cluster, sockets);
    var p4 := ClusterPhase(cluster);
    RunFive(p0, p1, p2, p3, p4);
    ChainSucceeds(p0, p1, p2, p3, p4, IsCreate);
    HttpPhaseCount(config.servers, cluster, routes, middlewares, middlewareVerdict, routeVerdict);
    WebSocketPhaseCount(config.servers, sockets);
    TcpPhaseCount(config.servers, cluster, sockets);
    UdpPhaseCount(config.servers, cluster, sockets);
    CountSingle(ServersCluster(cluster.cores), IsCreate);
  }

  /**
   * With every protocol switched off, start-up makes no call but the cluster call (when
   * clustering is on), returns normally and creates no server: there is nothing to wait for.
   */
  lemma NothingEnabledCreatesNothing(config: Config, routes: Option<RouteFolders>, sockets: Option<SocketFolders>,
                                     middlewares: Option<MiddlewareFolders>, cpus: nat,
                                     middlewareVerdict: Verdict, routeVerdict: Verdict)
    requires config.cluster.Some? && config.servers.Some?
    requires var s := config.servers.value;
      s.http.Some? && s.tcp.Some? && s.udp.Some?
      && !Truthy(s.http.value.enabled) && !Truthy(s.http.value.webSockets)
      && !Truthy(s.tcp.value.enabled) && !Truthy(s.udp.value.enabled)
    ensures var l := Startup(config, routes, sockets, middlewares, cpus, middlewareVerdict, routeVerdict);
      l.run == Step(ClusterPhase(l.config.cluster.value).events, None) && Created(l.run.events) == 0
  {
    var l := Startup(config, routes, sockets, middlewares, cpus, middlewareVerdict, routeVerdict);
    var cluster := ResolveCores(config.cluster.value, cpus);
    var p0 := HttpPhase(config.servers, cluster, routes, middlewares, middlewareVerdict, routeVerdict);
    var p1 := WebSocketPhase(config.servers, sockets);
    var p2 := TcpPhase(config.servers, cluster, sockets);
    var p3 := UdpPhase(config.servers, cluster, sockets);
    var p4 := ClusterPhase(cluster);
    RunFive(p0, p1, p2, p3, p4);
    assert l.run.events == [] + ([] + ([] + ([] + (p4.events + []))));
    CountSingle(ServersCluster(cluster.cores), IsCreate);
  }

  /**
   * When step `k` of start-up (http, websocket, tcp, udp) is the first to throw, start-up throws
   * that error and makes no call that belongs to a later step: no later server is created and
   * the cluster is not forked.
   */
  lemma StartupStopsAtFirstFailure(config: Config, routes: Option<RouteFolders>, sockets: Option<SocketFolders>,
                                   middlewares: Option<MiddlewareFolders>, cpus: nat,
                                   middlewareVerdict: Verdict, routeVerdict: Verdict, k: nat)
    requires config.cluster.Some? && k < 5
    requires var ps := StartupPhases(config.servers, ResolveCores(config.cluster.value, cpus), routes, sockets,
                                     middlewares, middlewareVerdict, routeVerdict);
      ps[k].failure.Some? && forall i :: 0 <= i < k ==> ps[i].failure.None?
    ensures var ps := StartupPhases(config.servers, ResolveCores(config.cluster.value, cpus), routes, sockets,
                                    middlewares, middlewareVerdict, routeVerdict);
      var l := Startup(config, routes, sockets, middlewares, cpus, middlewareVerdict, routeVerdict);
      l.run.failure == ps[k].failure && forall e :: e in l.run.events ==> PhaseRank(e) <= k
  {
    var cluster := ResolveCores(config.cluster.value, cpus);
    var ps := StartupPhases(config.servers, cluster, routes, sockets, middlewares, middlewareVerdict, routeVerdict);
    var upTo := ps[..k + 1];
    RunPhasesStopsAtFirstFailure(ps, k);
    assert upTo[..k + 1] == upTo;
    RunPhasesStopsAtFirstFailure(upTo, k);
    PhasesRanked(config.servers, cluster, routes, sockets, middlewares, middlewareVerdict, routeVerdict);
    RunPhasesOrdered(upTo, PhaseRank, 0);
  }

  /** The cluster step never throws, so the first failing step is one of the protocol steps. */
  lemma FailureBeforeCluster(config: Config, routes: Option<RouteFolders>, sockets: Option<SocketFolders>,
                             middlewares: Option<MiddlewareFolders>, cpus: nat,
                             middlewareVerdict: Verdict, routeVerdict: Verdict)
    requires config.cluster.Some?
    requires Startup(config, routes, sockets, middlewares, cpus, middlewareVerdict, routeVerdict).run.failure.Some?
    ensures var l := Startup(config, routes, sockets, middlewares, cpus, middlewareVerdict, routeVerdict);
      forall e :: e in l.run.events ==> PhaseRank(e) < 4
  {
    var cluster := ResolveCores(config.cluster.value, cpus);
    var ps := StartupPhases(config.servers, cluster, routes, sockets, middlewares, middlewareVerdict, routeVerdict);
    RunFive(ps[0], ps[1], ps[2], ps[3], ps[4]);
    assert ps == [ps[0], ps[1], ps[2], ps[3], ps[4]];
    var k := if ps[0].failure.Some? then 0 else if ps[1].failure.Some? then 1
             else if ps[2].failure.Some? then 2 else 3;
    StartupStopsAtFirstFailure(config, routes, sockets, middlewares, cpus, middlewareVerdict, routeVerdict, k);
  }

  /**
   * The cluster call, `Servers.cluster(cores)`, is made once, as the very last call, exactly when
   * start-up returns normally with clustering on; it never receives the "auto" sentinel, and
   * "auto" becomes the CPU count. A start-up that throws never forks the cluster.
   */
  lemma ClusterFanOut(config: Config, routes: Option<RouteFolders>, sockets: Option<SocketFolders>,
                      middlewares: Option<MiddlewareFolders>, cpus: nat,
                      middlewareVerdict: Verdict, routeVerdict: Verdict)
    requires config.cluster.Some?
    ensures var l := Startup(config, routes, sockets, middlewares, cpus, middlewareVerdict, routeVerdict);
      var c := l.config.cluster.value;
      l.run.failure.None? && Truthy(c.enabled) ==>
        |l.run.events| > 0 && l.run.events[|l.run.events| - 1] == ServersCluster(c.cores)
        && c.cores != AutoCores && (config.cluster.value.cores == AutoCores ==> c.cores == Num(cpus))
    ensures var l := Startup(config, routes, sockets, middlewares, cpus, middlewareVerdict, routeVerdict);
      Count(l.run.events, IsCluster) == (if l.run.failure.None? then Flag(l.config.cluster.value.enabled) else 0)
  {
    var l := Startup(config, routes, sockets, middlewares, cpus, middlewareVerdict, routeVerdict);
    var cluster := ResolveCores(config.cluster.value, cpus);
    var ps := StartupPhases(config.servers, cluster, routes, sockets, middlewares, middlewareVerdict, routeVerdict);
    var p0, p1, p2, p3, p4 := ps[0], ps[1], ps[2], ps[3], ps[4];
    RunFive(p0, p1, p2, p3, p4);
    assert ps == [p0, p1, p2, p3, p4];
    PhasesRanked(config.servers, cluster, routes, sockets, middlewares, middlewareVerdict, routeVerdict);
    CountSingle(ServersCluster(cluster.cores), IsCluster);
    if l.run.failure.None? {
      ChainSucceeds(p0, p1, p2, p3, p4, IsCluster);
      assert l.run.events == p0.events + (p1.events + (p2.events + (p3.events + (p4.events + []))));
      NoClusterCall(p0.events, 0);
      NoClusterCall(p1.events, 1);
      NoClusterCall(p2.events, 2);
      NoClusterCall(p3.events, 3);
    } else {
      FailureBeforeCluster(config, routes, sockets, middlewares, cpus, middlewareVerdict, routeVerdict);
      NoClusterCall(l.run.events, 3);
    }
  }

  /** Calls ranked before the cluster step are not cluster calls. */
  lemma NoClusterCall(log: seq<Event>, k: nat)
    requires k < 4 && forall e :: e in log ==> PhaseRank(e) <= k
    ensures Count(log, IsCluster) == 0
  {
    forall i | 0 <= i < |log| ensures !IsCluster(log[i]) {
      assert log[i] in log;
    }
    CountZero(log, IsCluster);
  }

  /** The start-up inputs under which `_createHTTPServer` is reached: http enabled, folders present. */
  predicate ReachesHttpServer(config: Config, routes: Option<RouteFolders>, middlewares: Option<MiddlewareFolders>) {
    config.cluster.Some? && config.servers.Some? && config.servers.value.http.Some?
    && Truthy(config.servers.value.http.value.enabled) && routes.Some? && middlewares.Some?
  }

  /** HTTP enabled without any route: start-up throws before making a single call. */
  lemma HttpWithoutRoutesAborts(config: Config, routes: Option<RouteFolders>, sockets: Option<SocketFolders>,
                                middlewares: Option<MiddlewareFolders>, cpus: nat,
                                middlewareVerdict: Verdict, routeVerdict: Verdict)
    requires ReachesHttpServer(config, routes, middlewares)
    requires routes.value.httpRoutes.None? || |routes.value.httpRoutes.value| == 0
    ensures Startup(config, routes, sockets, middlewares, cpus, middlewareVerdict, routeVerdict).run
         == Step([], Some(MissingHttpRoutes))
  {
    var cluster := ResolveCores(config.cluster.value, cpus);
    var ps := StartupPhases(config.servers, cluster, routes, sockets, middlewares, middlewareVerdict, routeVerdict);
    RunFive(ps[0], ps[1], ps[2], ps[3], ps[4]);
    assert ps == [ps[0], ps[1], ps[2], ps[3], ps[4]];
  }

  /**
   * A middlewares object without an `app` member: once the routes are found, the router and the
   * engine are constructed and reading its `http-middlewares` folder throws; nothing else happens.
   */
  lemma HttpWithoutMiddlewareFoldersAborts(config: Config, routes: Option<RouteFolders>, sockets: Option<SocketFolders>,
                                           middlewares: Option<MiddlewareFolders>, cpus: nat,
                                           middlewareVerdict: Verdict, routeVerdict: Verdict)
    requires ReachesHttpServer(config, routes, middlewares)
    requires routes.value.httpRoutes.Some? && |routes.value.httpRoutes.value| > 0 && middlewares.value.app.None?
    ensures Startup(config, routes, sockets, middlewares, cpus, middlewareVerdict, routeVerdict).run
         == Step([RouterNew, MiddlewaresNew], Some(UndefinedRead("http-middlewares")))
  {
    var cluster := ResolveCores(config.cluster.value, cpus);
    var ps := StartupPhases(config.servers, cluster, routes, sockets, middlewares, middlewareVerdict, routeVerdict);
    RunFive(ps[0], ps[1], ps[2], ps[3], ps[4]);
    assert ps == [ps[0], ps[1], ps[2], ps[3], ps[4]];
  }

  /**
   * A middleware the engine refuses (the `j`-th, every earlier one accepted): start-up throws the
   * wrapped error right after that registration; no route is registered and no server created.
   */
  lemma MiddlewareRefusalAborts(config: Config, routes: Option<RouteFolders>, sockets: Option<SocketFolders>,
                                middlewares: Option<MiddlewareFolders>, cpus: nat,
                                middlewareVerdict: Verdict, routeVerdict: Verdict, j: nat)
    requires ReachesHttpServer(config, routes, middlewares)
    requires routes.value.httpRoutes.Some? && |routes.value.httpRoutes.value| > 0 && middlewares.value.app.Some?
    requires var calls := HttpMiddlewareCalls(middlewares.value.app.value);
      j < |calls| && middlewareVerdict(calls[..j], calls[j]).Some?
      && forall i :: 0 <= i < j ==> middlewareVerdict(calls[..i], calls[i]).None?
    ensures var calls := HttpMiddlewareCalls(middlewares.value.app.value);
      Startup(config, routes, sockets, middlewares, cpus, middlewareVerdict, routeVerdict).run
      == Step([RouterNew, MiddlewaresNew] + calls[..j + 1],
              Some(MiddlewareRejected(middlewareVerdict(calls[..j], calls[j]).value)))
  {
    var calls := HttpMiddlewareCalls(middlewares.value.app.value);
    forall i | 0 <= i <= j ensures [] + calls[..i] == calls[..i] {}
    AttemptFromVerdicts(calls, [], middlewareVerdict, j);
    var cluster := ResolveCores(config.cluster.value, cpus);
    var ps := StartupPhases(config.servers, cluster, routes, sockets, middlewares, middlewareVerdict, routeVerdict);
    RunFive(ps[0], ps[1], ps[2], ps[3], ps[4]);
    assert ps == [ps[0], ps[1], ps[2], ps[3], ps[4]];
  }

  /**
   * Every middleware accepted, and a route the router refuses (the `j`-th, every earlier one
   * accepted): start-up throws the wrapped error right after that registration, having set the
   * hook and the methods first, and creates no server.
   */
  lemma RouteRefusalAborts(config: Config, routes: Option<RouteFolders>, sockets: Option<SocketFolders>,
                           middlewares: Option<MiddlewareFolders>, cpus: nat,
                           middlewareVerdict: Verdict, routeVerdict: Verdict, j: nat)
    requires ReachesHttpServer(config, routes, middlewares)
    requires routes.value.httpRoutes.Some? && middlewares.value.app.Some?
    requires MiddlewareStep(middlewares.value.app.value, middlewareVerdict).failure.None?
    requires var setup := RouterSetup(config.servers.value.http.value.methods);
      var calls := RouteCalls(routes.value.httpRoutes.value);
      j < |calls| && routeVerdict(setup + calls[..j], calls[j]).Some?
      && forall i :: 0 <= i < j ==> routeVerdict(setup + calls[..i], calls[i]).None?
    ensures var http := config.servers.value.http.value;
      var setup := RouterSetup(http.methods);
      var calls := RouteCalls(routes.value.httpRoutes.value);
      var l := Startup(config, routes, sockets, middlewares, cpus, middlewareVerdict, routeVerdict);
      l.run.events == HttpWiring(http.methods, MiddlewareStep(middlewares.value.app.value, middlewareVerdict)) + calls[..j + 1]
      && l.run.failure == Some(RouteRejected(routeVerdict(setup + calls[..j], calls[j]).value))
      && Created(l.run.events) == 0
  {
    var http := config.servers.value.http.value;
    var calls := RouteCalls(routes.value.httpRoutes.value);
    AttemptFromVerdicts(calls, RouterSetup(http.methods), routeVerdict, j);
    var cluster := ResolveCores(config.cluster.value, cpus);
    var ps := StartupPhases(config.servers, cluster, routes, sockets, middlewares, middlewareVerdict, routeVerdict);
    RunFive(ps[0], ps[1], ps[2], ps[3], ps[4]);
    assert ps == [ps[0], ps[1], ps[2], ps[3], ps[4]];
    HttpStepCreatesOnlyOnSuccess(http, cluster, routes.value.httpRoutes, middlewares.value.app,
                                 middlewareVerdict, routeVerdict);
  }
}
