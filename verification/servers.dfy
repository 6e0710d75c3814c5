/**
 * The servers component: it resolves the cluster core count, brings up the enabled protocol
 * servers in a fixed order, and counts "listening" notifications until every server it created is
 * up, at which point it invokes the user's callback.
 */
module Servers {
  import opened Wrappers
  import opened JsValues
  import opened Settings
  import opened Discovered
  import opened Trace
  import opened Steps
  import opened Registration
  import opened StartupSpec
  import opened StartupProperties

  /** What one "listening" notification adds to the log when the counter stood at `waiting`. */
  function ListeningEntries(waiting: int, callback: bool): seq<Event> {
    [Listening] + (if waiting - 1 == 0 && callback then [ReadyCallback] else [])
  }

  /** What `k` successive "listening" notifications add to the log, starting from counter `waiting`. */
  function Listened(waiting: int, callback: bool, k: nat): seq<Event>
    decreases k
  {
    if k == 0 then [] else Listened(waiting, callback, k - 1) + ListeningEntries(waiting - (k - 1), callback)
  }

  /**
   * `k` notifications starting from counter `n`: each one is logged, none creates a server, and
   * the callback (when there is one) is invoked once if the `n` awaited servers are all among
   * them, and never otherwise: not before the `n`-th, not again after it, and not at all when
   * no server was awaited.
   */
  lemma {:induction false} ListenedCounts(n: int, callback: bool, k: nat)
    ensures Heard(Listened(n, callback, k)) == k
    ensures Created(Listened(n, callback, k)) == 0
    ensures Fired(Listened(n, callback, k)) == if callback && 1 <= n <= k then 1 else 0
  {
    if k > 0 {
      ListenedCounts(n, callback, k - 1);
      var before := Listened(n, callback, k - 1);
      var entries := ListeningEntries(n - (k - 1), callback);
      CountConcat(before, entries, IsListening);
      CountConcat(before, entries, IsCreate);
      CountConcat(before, entries, IsReady);
      EntriesCounts(n - (k - 1), callback);
    }
  }

  /** What `k` notifications add to a log's counts. */
  lemma AppendListened(before: seq<Event>, n: int, callback: bool, k: nat)
    ensures var after := before + Listened(n, callback, k);
      Heard(after) == Heard(before) + k && Created(after) == Created(before)
      && Fired(after) == Fired(before) + (if callback && 1 <= n <= k then 1 else 0)
  {
    ListenedCounts(n, callback, k);
    CountConcat(before, Listened(n, callback, k), IsListening);
    CountConcat(before, Listened(n, callback, k), IsCreate);
    CountConcat(before, Listened(n, callback, k), IsReady);
  }

  /** One notification is logged, creates nothing, and invokes the callback exactly when the counter drops to zero. */
  lemma EntriesCounts(waiting: int, callback: bool)
    ensures Heard(ListeningEntries(waiting, callback)) == 1
    ensures Created(ListeningEntries(waiting, callback)) == 0
    ensures Fired(ListeningEntries(waiting, callback)) == if waiting - 1 == 0 && callback then 1 else 0
  {
    CountSingle(Listening, IsListening);
    CountSingle(Listening, IsCreate);
    CountSingle(Listening, IsReady);
    if waiting - 1 == 0 && callback {
      assert ListeningEntries(waiting, callback) == [Listening] + [ReadyCallback];
      CountAppend([Listening], ReadyCallback, IsListening);
      CountAppend([Listening], ReadyCallback, IsCreate);
      CountAppend([Listening], ReadyCallback, IsReady);
    } else {
      assert ListeningEntries(waiting, callback) == [Listening];
    }
  }

  /**
   * A start-up that throws can still end in the ready callback: here the http server is created,
   * then the tcp block throws for want of a handler, and the http server's own "listening"
   * notification brings the counter to zero and invokes the callback.
   */
  lemma ReadyAfterAbortedStartup()
    ensures var config := Config(Some(ServerSettings(Some(HttpSettings(Bool(true), Bool(false), Num(3333), Undefined)),
                                                     Some(TcpSettings(Bool(true), Num(3334), Undefined, Undefined)),
                                                     Some(UdpSettings(Bool(false), Undefined, Undefined)))),
                                 Some(ClusterSettings(Bool(false), AutoCores)));
      var routes := Some(RouteFolders(Some([("test", RouteModule(Str("/test"), ["get"]))])));
      var accept: Verdict := (earlier, call) => None;
      var l := Startup(config, routes, Some(SocketFolders(Some(map[]))), Some(MiddlewareFolders(Some(map[]))), 4, accept, accept);
      l.run.failure == Some(MissingSocketHandler(TcpSocket)) && Created(l.run.events) == 1
      && Fired(Listened(Created(l.run.events), true, 1)) == 1
  {
    var http := HttpSettings(Bool(true), Bool(false), Num(3333), Undefined);
    var config := Config(Some(ServerSettings(Some(http),
                                             Some(TcpSettings(Bool(true), Num(3334), Undefined, Undefined)),
                                             Some(UdpSettings(Bool(false), Undefined, Undefined)))),
                         Some(ClusterSettings(Bool(false), AutoCores)));
    var routeList := [("test", RouteModule(Str("/test"), ["get"]))];
    var routes := Some(RouteFolders(Some(routeList)));
    var accept: Verdict := (earlier, call) => None;
    var sockets := Some(SocketFolders(Some(map[])));
    var middlewares := Some(MiddlewareFolders(Some(map[])));
    var cluster := ResolveCores(config.cluster.value, 4);
    var ps := StartupPhases(config.servers, cluster, routes, sockets, middlewares, accept, accept);
    RunFive(ps[0], ps[1], ps[2], ps[3], ps[4]);
    assert ps == [ps[0], ps[1], ps[2], ps[3], ps[4]];
    AttemptFromVerdicts(HttpMiddlewareCalls(map[]), [], accept, 0);
    AttemptFromVerdicts(RouteCalls(routeList), RouterSetup(Undefined), accept, 1);
    HttpStepCreatesOnlyOnSuccess(http, cluster, Some(routeList), Some(map[]), accept, accept);
    assert ps[0].failure.None? && ps[1] == Step([], None) && ps[2] == Step([], Some(MissingSocketHandler(TcpSocket)));
    var run := Startup(config, routes, sockets, middlewares, 4, accept, accept).run;
    assert run == Step(ps[0].events + ([] + []), Some(MissingSocketHandler(TcpSocket)));
    assert run.events == ps[0].events;
    ListenedCounts(1, true, 1);
  }

  class ServersComponent {
    /** `_waitingForServers`: servers created but not yet reported listening. */
    var waitingForServers: int
    /** Whether the user passed a (truthy) callback. */
    var callback: bool
    /** The caller's configuration object, which start-up updates in place. */
    var config: Config
    /** Every external call made and every notification received, in order. */
    var log: seq<Event>
    /** The error the constructor threw, if it threw. */
    var thrown: Option<Failure>

    /** The counter is always the number of servers created minus the notifications received. */
    ghost predicate Valid()
      reads this
    {
      waitingForServers == Created(log) - Heard(log)
    }

    /** `new ServersComponent(config, routes, sockets, middlewares, callback)`. */
    constructor(config: Config, routes: Option<RouteFolders>, sockets: Option<SocketFolders>,
                middlewares: Option<MiddlewareFolders>, callback: bool, cpus: nat,
                middlewareVerdict: Verdict, routeVerdict: Verdict)
      ensures Valid()
      ensures var l := Startup(config, routes, sockets, middlewares, cpus, middlewareVerdict, routeVerdict);
        this.config == l.config && log == l.run.events && thrown == l.run.failure
        && waitingForServers == Created(l.run.events) && this.callback == callback
      ensures Heard(log) == 0 && Fired(log) == 0
    {
      waitingForServers := 0;
      this.callback := callback;
      this.config := config;
      log := [];
      thrown := None;
      new;
      ghost var run := Startup(config, routes, sockets, middlewares, cpus, middlewareVerdict, routeVerdict).run;
      StartupLogsNoNotifications(config, routes, sockets, middlewares, cpus, middlewareVerdict, routeVerdict);
      assert [] + run.events == run.events;
      thrown := CreateServers(routes, sockets, middlewares, cpus, middlewareVerdict, routeVerdict);
      assert Created([]) == 0;
    }

    /**
     * `_createServers`: the whole start-up sequence, stopping at the first error. The counter goes
     * up by one for every server it asks the server library to create.
     */
    method CreateServers(routes: Option<RouteFolders>, sockets: Option<SocketFolders>,
                         middlewares: Option<MiddlewareFolders>, cpus: nat,
                         middlewareVerdict: Verdict, routeVerdict: Verdict) returns (failure: Option<Failure>)
      modifies this`config, this`log, this`waitingForServers
      ensures var l := Startup(old(config), routes, sockets, middlewares, cpus, middlewareVerdict, routeVerdict);
        config == l.config && log == old(log) + l.run.events && failure == l.run.failure
      ensures waitingForServers - Created(log) == old(waitingForServers) - Created(old(log))
    {
      if config.cluster.None? {
        return Some(UndefinedRead("enabled"));
      }
      var cluster := ResolveCores(config.cluster.value, cpus);
      config := config.(cluster := Some(cluster));
      var conf := config.servers;

      // What start-up still has to do after each block: rest_i == Then(block_i, rest_(i+1)).
      ghost var l := Startup(old(config), routes, sockets, middlewares, cpus, middlewareVerdict, routeVerdict);
      ghost var p0 := HttpPhase(conf, cluster, routes, middlewares, middlewareVerdict, routeVerdict);
      ghost var p1 := WebSocketPhase(conf, sockets);
      ghost var p2 := TcpPhase(conf, cluster, sockets);
      ghost var p3 := UdpPhase(conf, cluster, sockets);
      ghost var p4 := ClusterPhase(cluster);
      ghost var rest4 := Then(p4, Step([], None));
      ghost var rest3 := Then(p3, rest4);
      ghost var rest2 := Then(p2, rest3);
      ghost var rest1 := Then(p1, rest2);
      RunFive(p0, p1, p2, p3, p4);
      assert l.run == Then(p0, rest1);

      failure := StartHttp(conf, cluster, routes, middlewares, middlewareVerdict, routeVerdict);
      if failure.Some? {
        return;
      }
      AppendAssociative(old(log), p0.events, rest1.events);
      ghost var before := log;
      failure := StartWebSocket(conf, sockets);
      if failure.Some? {
        return;
      }
      AppendAssociative(before, p1.events, rest2.events);
      before := log;
      failure := StartTcp(conf, cluster, sockets);
      if failure.Some? {
        return;
      }
      AppendAssociative(before, p2.events, rest3.events);
      before := log;
      failure := StartUdp(conf, cluster, sockets);
      if failure.Some? {
        return;
      }
      AppendAssociative(before, p3.events, rest4.events);
      assert rest4.events == p4.events + [] == p4.events;
      StartCluster(cluster);
    }

    /** The `if (conf.http.enabled)` block of `_createServers`. */
    method StartHttp(conf: Option<ServerSettings>, cluster: ClusterSettings, routes: Option<RouteFolders>,
                     middlewares: Option<MiddlewareFolders>, middlewareVerdict: Verdict, routeVerdict: Verdict)
      returns (failure: Option<Failure>)
      modifies this`log, this`waitingForServers
      ensures var s := HttpPhase(conf, cluster, routes, middlewares, middlewareVerdict, routeVerdict);
        log == old(log) + s.events && failure == s.failure
      ensures waitingForServers - Created(log) == old(waitingForServers) - Created(old(log))
    {
      CountConcat(log, HttpPhase(conf, cluster, routes, middlewares, middlewareVerdict, routeVerdict).events, IsCreate);
      if conf.None? {
        return Some(UndefinedRead("http"));
      }
      if conf.value.http.None? {
        return Some(UndefinedRead("enabled"));
      }
      if !Truthy(conf.value.http.value.enabled) {
        return None;
      }
      if routes.None? {
        return Some(UndefinedRead("httpRoutes"));
      }
      if middlewares.None? {
        return Some(UndefinedRead("app"));
      }
      HttpStepCreatesOnlyOnSuccess(conf.value.http.value, cluster, routes.value.httpRoutes, middlewares.value.app,
                                   middlewareVerdict, routeVerdict);
      failure := CreateHttpServer(conf.value.http.value, cluster, routes.value.httpRoutes, middlewares.value.app,
                                  middlewareVerdict, routeVerdict);
    }

    /** The `if (conf.http.webSockets)` block of `_createServers`. */
    method StartWebSocket(conf: Option<ServerSettings>, sockets: Option<SocketFolders>) returns (failure: Option<Failure>)
      modifies this`log
      ensures var s := WebSocketPhase(conf, sockets);
        log == old(log) + s.events && failure == s.failure
      ensures Created(log) == Created(old(log))
    {
      ghost var s := WebSocketPhase(conf, sockets);
      CountConcat(log, s.events, IsCreate);
      CountZero(s.events, IsCreate);
      if conf.None? {
        return Some(UndefinedRead("http"));
      }
      if conf.value.http.None? {
        return Some(UndefinedRead("webSockets"));
      }
      if !Truthy(conf.value.http.value.webSockets) {
        return None;
      }
      if sockets.None? {
        return Some(UndefinedRead("app"));
      }
      if sockets.value.app.None? {
        return Some(UndefinedRead("http-websocket"));
      }
      failure := EnableHttpWebSocket(Lookup(sockets.value.app.value, "http-websocket"));
    }

    /** The `if (conf.tcp.enabled)` block of `_createServers`. */
    method StartTcp(conf: Option<ServerSettings>, cluster: ClusterSettings, sockets: Option<SocketFolders>)
      returns (failure: Option<Failure>)
      modifies this`log, this`waitingForServers
      ensures var s := TcpPhase(conf, cluster, sockets);
        log == old(log) + s.events && failure == s.failure
      ensures waitingForServers - Created(log) == old(waitingForServers) - Created(old(log))
    {
      ghost var s := TcpPhase(conf, cluster, sockets);
      CountConcat(log, s.events, IsCreate);
      if s.events != [] {
        CountSingle(s.events[0], IsCreate);
        assert s.events == [s.events[0]];
      }
      if conf.None? {
        return Some(UndefinedRead("tcp"));
      }
      if conf.value.tcp.None? {
        return Some(UndefinedRead("enabled"));
      }
      if !Truthy(conf.value.tcp.value.enabled) {
        return None;
      }
      if sockets.None? {
        return Some(UndefinedRead("app"));
      }
      if sockets.value.app.None? {
        return Some(UndefinedRead("tcp"));
      }
      failure := CreateTcpServer(conf.value.tcp.value, cluster, Lookup(sockets.value.app.value, "tcp"));
    }

    /** The `if (conf.udp.enabled)` block of `_createServers`. */
    method StartUdp(conf: Option<ServerSettings>, cluster: ClusterSettings, sockets: Option<SocketFolders>)
      returns (failure: Option<Failure>)
      modifies this`log, this`waitingForServers
      ensures var s := UdpPhase(conf, cluster, sockets);
        log == old(log) + s.events && failure == s.failure
      ensures waitingForServers - Created(log) == old(waitingForServers) - Created(old(log))
    {
      ghost var s := UdpPhase(conf, cluster, sockets);
      CountConcat(log, s.events, IsCreate);
      if s.events != [] {
        CountSingle(s.events[0], IsCreate);
        assert s.events == [s.events[0]];
      }
      if conf.None? {
        return Some(UndefinedRead("udp"));
      }
      if conf.value.udp.None? {
        return Some(UndefinedRead("enabled"));
      }
      if !Truthy(conf.value.udp.value.enabled) {
        return None;
      }
      if sockets.None? {
        return Some(UndefinedRead("app"));
      }
      if sockets.value.app.None? {
        return Some(UndefinedRead("udp"));
      }
      failure := CreateUdpServer(conf.value.udp.value, cluster, Lookup(sockets.value.app.value, "udp"));
    }

    /** The closing `if (config.cluster.enabled)` block of `_createServers`: fork the workers. */
    method StartCluster(cluster: ClusterSettings)
      modifies this`log
      ensures log == old(log) + ClusterPhase(cluster).events && Created(log) == Created(old(log))
    {
      CountConcat(log, ClusterPhase(cluster).events, IsCreate);
      CountSingle(ServersCluster(cluster.cores), IsCreate);
      if Truthy(cluster.enabled) {
        log := log + [ServersCluster(cluster.cores)];
      }
    }


    /** `_createHTTPServer`. */
    method CreateHttpServer(http: HttpSettings, cluster: ClusterSettings, routes: Option<Entries<RouteModule>>,
                            middlewares: Option<map<string, Entries<MiddlewareModule>>>,
                            middlewareVerdict: Verdict, routeVerdict: Verdict) returns (failure: Option<Failure>)
      modifies this`log, this`waitingForServers
      ensures var s := HttpStep(http, cluster, routes, middlewares, middlewareVerdict, routeVerdict);
        log == old(log) + s.events && failure == s.failure
      ensures waitingForServers == old(waitingForServers) + (if failure.None? then 1 else 0)
    {
      if routes.None? || |routes.value| == 0 {
        return Some(MissingHttpRoutes);
      }
      ghost var start := log;
      log := log + [RouterNew, MiddlewaresNew];
      if middlewares.None? {
        return Some(UndefinedRead("http-middlewares"));
      }
      var made, err := RegisterMiddlewares([], Lookup(middlewares.value, "http-middlewares"), middlewareVerdict);
      AppendAssociative(start, [RouterNew, MiddlewaresNew], made);
      log := log + made;
      if err.Some? {
        return err;
      }
      ghost var wired := [RouterNew, MiddlewaresNew] + made;
      AppendAssociative(start, wired, [RouterSetMiddleware]);
      log := log + [RouterSetMiddleware];            // _setHTTPRouterMiddleware
      wired := wired + [RouterSetMiddleware];
      AppendAssociative(start, wired, [RouterSetMethods(http.methods)]);
      log := log + [RouterSetMethods(http.methods)]; // _setRouterMethods
      wired := wired + [RouterSetMethods(http.methods)];
      made, err := SetRouterRoutes(RouterSetup(http.methods), routes.value, routeVerdict);
      AppendAssociative(start, wired, made);
      log := log + made;
      if err.Some? {
        return err;
      }
      wired := wired + made;
      AppendAssociative(start, wired, [ServersCreateHttp(http.port, http.webSockets, cluster.enabled)]);
      log := log + [ServersCreateHttp(http.port, http.webSockets, cluster.enabled)];
      OnServerCreated();
      failure := None;
    }

    /** `_enableHTTPWebSocket`: attaches to the HTTP server instance; it does not change the counter. */
    method EnableHttpWebSocket(socket: Option<SocketModule>) returns (failure: Option<Failure>)
      modifies this`log
      ensures log == old(log) + WebSocketStep(socket).events && failure == WebSocketStep(socket).failure
    {
      var handler := SocketHandler(socket);
      if handler.None? {
        return Some(MissingSocketHandler(HttpWebSocket));
      }
      log := log + [ServersAttachWebSocket(handler.value)];
      failure := None;
    }

    /** `_createTCPServer`. */
    method CreateTcpServer(tcp: TcpSettings, cluster: ClusterSettings, socket: Option<SocketModule>)
      returns (failure: Option<Failure>)
      modifies this`log, this`waitingForServers
      ensures var s := TcpStep(tcp, cluster, socket);
        log == old(log) + s.events && failure == s.failure
        && waitingForServers == old(waitingForServers) + Created(s.events)
    {
      var handler := SocketHandler(socket);
      if handler.None? {
        return Some(MissingSocketHandler(TcpSocket));
      }
      log := log + [ServersCreateTcp(tcp.port, cluster.enabled, handler.value, tcp.allowHalfOpen, tcp.pauseOnConnect)];
      OnServerCreated();
      failure := None;
    }

    /** `_createUDPServer`. */
    method CreateUdpServer(udp: UdpSettings, cluster: ClusterSettings, socket: Option<SocketModule>)
      returns (failure: Option<Failure>)
      modifies this`log, this`waitingForServers
      ensures var s := UdpStep(udp, cluster, socket);
        log == old(log) + s.events && failure == s.failure
        && waitingForServers == old(waitingForServers) + Created(s.events)
    {
      var handler := SocketHandler(socket);
      if handler.None? {
        return Some(MissingSocketHandler(UdpSocket));
      }
      log := log + [ServersCreateUdp(udp.port, udp.socketType, cluster.enabled, handler.value)];
      OnServerCreated();
      failure := None;
    }

    /**
     * `_registerMiddlewares`: register each middleware of `http-middlewares` in order with an engine
     * that has received `engine`; the first refusal is rethrown wrapped, carrying the original error.
     */
    static method RegisterMiddlewares(engine: seq<Event>, middlewares: Option<Entries<MiddlewareModule>>,
                                      verdict: Verdict) returns (made: seq<Event>, failure: Option<Failure>)
      ensures var a := Attempt(MiddlewareCalls(EntriesOf(middlewares)), engine, verdict);
        made == a.made
        && (a.rejection.None? ==> failure.None?)
        && (a.rejection.Some? ==> failure == Some(MiddlewareRejected(a.rejection.value)))
    {
      var entries := EntriesOf(middlewares);
      ghost var calls := MiddlewareCalls(entries);
      made := [];
      var i := 0;
      while i < |entries|
        invariant 0 <= i <= |entries|
        invariant made == calls[..i]
        invariant forall k :: 0 <= k < i ==> verdict(engine + calls[..k], calls[k]).None?
      {
        var call := MiddlewaresRegister(entries[i].1.priority, entries[i].1.onRequest);
        assert call == calls[i];
        var refusal := verdict(engine + made, call);
        if refusal.Some? {
          AttemptFromVerdicts(calls, engine, verdict, i);
          return made + [call], Some(MiddlewareRejected(refusal.value));
        }
        made := made + [call];
        i := i + 1;
      }
      AttemptFromVerdicts(calls, engine, verdict, i);
      failure := None;
    }

    /**
     * `_setRouterRoutes`: register each route in order with a router that has received `router`;
     * the first refusal is rethrown wrapped, carrying the original error.
     */
    static method SetRouterRoutes(router: seq<Event>, routes: Entries<RouteModule>, verdict: Verdict)
      returns (made: seq<Event>, failure: Option<Failure>)
      ensures var a := Attempt(RouteCalls(routes), router, verdict);
        made == a.made
        && (a.rejection.None? ==> failure.None?)
        && (a.rejection.Some? ==> failure == Some(RouteRejected(a.rejection.value)))
    {
      ghost var calls := RouteCalls(routes);
      made := [];
      var i := 0;
      while i < |routes|
        invariant 0 <= i <= |routes|
        invariant made == calls[..i]
        invariant forall k :: 0 <= k < i ==> verdict(router + calls[..k], calls[k]).None?
      {
        var call := RouterRegisterRoute(routes[i].1);
        assert call == calls[i];
        var refusal := verdict(router + made, call);
        if refusal.Some? {
          AttemptFromVerdicts(calls, router, verdict, i);
          return made + [call], Some(RouteRejected(refusal.value));
        }
        made := made + [call];
        i := i + 1;
      }
      AttemptFromVerdicts(calls, router, verdict, i);
      failure := None;
    }

    /** `_onServerCreated`. */
    method OnServerCreated()
      modifies this`waitingForServers
      ensures waitingForServers == old(waitingForServers) + 1
    {
      waitingForServers := waitingForServers + 1;
    }

    /**
     * `_onServerListening`: one fewer server to wait for; the callback, when there is one, is
     * invoked exactly when the counter reaches zero.
     */
    method OnServerListening()
      requires Valid()
      modifies this`waitingForServers, this`log
      ensures Valid()
      ensures waitingForServers == old(waitingForServers) - 1
      ensures log == old(log) + ListeningEntries(old(waitingForServers), callback)
    {
      ghost var created, heard := Created(log), Heard(log);
      CountAppend(log, Listening, IsCreate);
      CountAppend(log, Listening, IsListening);
      waitingForServers := waitingForServers - 1;
      log := log + [Listening];
      assert Created(log) == created && Heard(log) == heard + 1;
      if waitingForServers == 0 {
        if callback {
          CountAppend(log, ReadyCallback, IsCreate);
          CountAppend(log, ReadyCallback, IsListening);
          AppendAssociative(old(log), [Listening], [ReadyCallback]);
          log := log + [ReadyCallback];
          assert Created(log) == created && Heard(log) == heard + 1;
        }
      }
    }

    /**
     * `k` "listening" notifications delivered one after another, as the server library reports
     * each created server up. Once the `n` awaited servers have all reported, the callback (when
     * there is one) has been invoked exactly once; before that, and without servers, never.
     */
    method ListenAll(k: nat)
      requires Valid()
      modifies this`waitingForServers, this`log
      ensures Valid()
      ensures waitingForServers == old(waitingForServers) - k
      ensures log == old(log) + Listened(old(waitingForServers), callback, k)
      ensures Heard(log) == Heard(old(log)) + k && Created(log) == Created(old(log))
      ensures Fired(log) == Fired(old(log)) + (if callback && 1 <= old(waitingForServers) <= k then 1 else 0)
    {
      var i := 0;
      while i < k
        invariant 0 <= i <= k
        invariant Valid()
        invariant waitingForServers == old(waitingForServers) - i
        invariant log == old(log) + Listened(old(waitingForServers), callback, i)
      {
        OnServerListening();
        AppendAssociative(old(log), Listened(old(waitingForServers), callback, i),
                          ListeningEntries(old(waitingForServers) - i, callback));
        i := i + 1;
      }
      AppendListened(old(log), old(waitingForServers), callback, k);
    }
  }
}
