/**
 * The log of everything the servers component does to the outside world: each call into the
 * server, router and middleware libraries, each "listening" notification it receives, and each
 * invocation of the user's ready callback, in order.
 */
module Trace {
  import opened JsValues
  import opened Discovered

  datatype Event =
    | RouterNew                                   // new Router()
    | MiddlewaresNew                              // new Middlewares()
    | MiddlewaresRegister(priority: Value, middleware: Value)
    | RouterSetMiddleware                         // router.setMiddleware(hook)
    | RouterSetMethods(methods: Value)            // router.setSupportedHttpMethods(methods)
    | RouterRegisterRoute(route: RouteModule)
    | ServersCreateHttp(port: Value, webSocket: Value, cluster: Value)
    | ServersAttachWebSocket(onConnection: Value) // createHTTPWebSocket(getHTTPServerInstance()).on('connection', h)
    | ServersCreateTcp(port: Value, cluster: Value, router: Value, allowHalfOpen: Value, pauseOnConnect: Value)
    | ServersCreateUdp(port: Value, socketType: Value, cluster: Value, router: Value)
    | ServersCluster(cores: Value)
    | Listening                                   // a created server reported "listening"
    | ReadyCallback                               // the user's callback was invoked

  predicate IsCreate(e: Event) { e.ServersCreateHttp? || e.ServersCreateTcp? || e.ServersCreateUdp? }
  predicate IsListening(e: Event) { e.Listening? }
  predicate IsReady(e: Event) { e.ReadyCallback? }
  predicate IsCluster(e: Event) { e.ServersCluster? }

  /** How many entries of `log` satisfy `p`. */
  function Count(log: seq<Event>, p: Event -> bool): (n: nat)
    ensures n <= |log|
  {
    if log == [] then 0 else Count(log[..|log| - 1], p) + (if p(log[|log| - 1]) then 1 else 0)
  }

  /** Appending one entry adds one to the count exactly when the entry satisfies `p`. */
  lemma CountAppend(log: seq<Event>, e: Event, p: Event -> bool)
    ensures Count(log + [e], p) == Count(log, p) + (if p(e) then 1 else 0)
  {
    assert (log + [e])[..|log|] == log;
  }

  lemma CountSingle(e: Event, p: Event -> bool)
    ensures Count([e], p) == if p(e) then 1 else 0
  {
    assert [e][..0] == [];
  }

  /** No entry of `log` satisfies `p` exactly when none is counted. */
  lemma {:induction false} CountZero(log: seq<Event>, p: Event -> bool)
    ensures Count(log, p) == 0 <==> forall i :: 0 <= i < |log| ==> !p(log[i])
    decreases |log|
  {
    if log != [] {
      var init := log[..|log| - 1];
      CountZero(init, p);
      assert forall i :: 0 <= i < |init| ==> init[i] == log[i];
    }
  }

  /** Servers the component asked the server library to create. */
  function Created(log: seq<Event>): nat { Count(log, IsCreate) }

  /** "listening" notifications received. */
  function Heard(log: seq<Event>): nat { Count(log, IsListening) }

  /** Invocations of the ready callback. */
  function Fired(log: seq<Event>): nat { Count(log, IsReady) }

  lemma {:induction false} CountConcat(a: seq<Event>, b: seq<Event>, p: Event -> bool)
    ensures Count(a + b, p) == Count(a, p) + Count(b, p)
    decreases |b|
  {
    if b != [] {
      var b' := b[..|b| - 1];
      assert (a + b)[..|a + b| - 1] == a + b';
      assert (a + b)[|a + b| - 1] == b[|b| - 1];
      CountConcat(a, b', p);
    } else {
      assert a + b == a;
    }
  }

  lemma AppendAssociative(a: seq<Event>, b: seq<Event>, c: seq<Event>)
    ensures a + (b + c) == a + b + c
  {
  }

  /** `log` lists its events in non-decreasing `rank`. */
  ghost predicate Sorted(log: seq<Event>, rank: Event -> nat) {
    forall i, j :: 0 <= i < j < |log| ==> rank(log[i]) <= rank(log[j])
  }

  /** Two sorted logs whose ranks are separated by `m` stay sorted when joined. */
  lemma SortedConcat(a: seq<Event>, b: seq<Event>, rank: Event -> nat, m: nat)
    requires Sorted(a, rank) && Sorted(b, rank)
    requires forall x :: x in a ==> rank(x) <= m
    requires forall y :: y in b ==> m <= rank(y)
    ensures Sorted(a + b, rank)
  {
    var ab := a + b;
    forall i, j | 0 <= i < j < |ab| ensures rank(ab[i]) <= rank(ab[j]) {
      if j < |a| {
        assert ab[i] == a[i] && ab[j] == a[j];
      } else if i < |a| {
        assert ab[i] in a && ab[j] in b;
      } else {
        assert ab[i] == b[i - |a|] && ab[j] == b[j - |a|];
      }
    }
  }
}
