/**
 * Handing modules one by one to a library that may refuse one of them by throwing: the
 * `for...in` loops that register middlewares with the middleware engine and routes with the router.
 */
module Registration {
  import opened Wrappers
  import opened Discovered
  import opened Trace

  /**
   * A library's decision on one call, given the calls the same library object received before it:
   * `None` accepts the call, `Some(message)` is the error the library throws.
   */
  type Verdict = (seq<Event>, Event) -> Option<string>

  /** The calls made before the loop stopped, and the error that stopped it, if any. */
  datatype Attempted = Attempted(made: seq<Event>, rejection: Option<string>)

  /** Make `calls` in order on an object that already received `earlier`; stop at the first refusal. */
  function Attempt(calls: seq<Event>, earlier: seq<Event>, verdict: Verdict): Attempted
    decreases |calls|
  {
    if calls == [] then Attempted([], None)
    else
      match verdict(earlier, calls[0])
      case Some(e) => Attempted([calls[0]], Some(e))
      case None =>
        var rest := Attempt(calls[1..], earlier + [calls[0]], verdict);
        Attempted([calls[0]] + rest.made, rest.rejection)
  }

  /**
   * The calls made are a prefix of those asked for: all of them when nothing was refused, and at
   * least one (the refused call) when something was.
   */
  lemma {:induction false} AttemptMakesPrefix(calls: seq<Event>, earlier: seq<Event>, verdict: Verdict)
    ensures var r := Attempt(calls, earlier, verdict);
      |r.made| <= |calls| && r.made == calls[..|r.made|]
      && (r.rejection.None? ==> r.made == calls)
      && (r.rejection.Some? ==> r.made != [])
    decreases |calls|
  {
    if calls != [] && verdict(earlier, calls[0]).None? {
      AttemptMakesPrefix(calls[1..], earlier + [calls[0]], verdict);
    }
  }

  /**
   * Every call made was accepted except, when the loop stopped early, the last one, and the error
   * that stopped it is the library's verdict on that last call; each verdict is given the calls
   * made before it.
   */
  lemma {:induction false} AttemptVerdicts(calls: seq<Event>, earlier: seq<Event>, verdict: Verdict)
    ensures var r := Attempt(calls, earlier, verdict);
      var accepted := if r.rejection.Some? then |r.made| - 1 else |r.made|;
      |r.made| <= |calls|
      && (forall k :: 0 <= k < accepted ==> verdict(earlier + calls[..k], calls[k]).None?)
      && (r.rejection.Some? ==> 1 <= |r.made| && r.rejection == verdict(earlier + calls[..|r.made| - 1], calls[|r.made| - 1]))
    decreases |calls|
  {
    if calls != [] {
      assert earlier + calls[..0] == earlier;
      if verdict(earlier, calls[0]).None? {
        var tail := calls[1..];
        var earlier' := earlier + [calls[0]];
        AttemptVerdicts(tail, earlier', verdict);
        forall k | 0 <= k < |tail|
          ensures earlier' + tail[..k] == earlier + calls[..k + 1]
        {
          assert calls[..k + 1] == [calls[0]] + tail[..k];
        }
      }
    }
  }

  /**
   * The first refusal stops the loop: it finishes every call exactly when the library accepts
   * each of them, and otherwise stops right after the first call it refuses.
   */
  lemma AttemptStopsAtFirstRefusal(calls: seq<Event>, earlier: seq<Event>, verdict: Verdict)
    ensures var r := Attempt(calls, earlier, verdict);
      (r.rejection.None? <==> forall k :: 0 <= k < |calls| ==> verdict(earlier + calls[..k], calls[k]).None?)
      && (r.rejection.Some? ==>
            var n := |r.made| - 1;
            n < |calls| && r.made == calls[..n + 1]
            && verdict(earlier + calls[..n], calls[n]).Some?
            && forall k :: 0 <= k < n ==> verdict(earlier + calls[..k], calls[k]).None?)
  {
    AttemptMakesPrefix(calls, earlier, verdict);
    AttemptVerdicts(calls, earlier, verdict);
  }

  /** Every call made is one of the calls asked for. */
  lemma AttemptMakesOnlyRequestedCalls(calls: seq<Event>, earlier: seq<Event>, verdict: Verdict)
    ensures forall e :: e in Attempt(calls, earlier, verdict).made ==> e in calls
  {
    AttemptMakesPrefix(calls, earlier, verdict);
    var r := Attempt(calls, earlier, verdict);
    forall e | e in r.made ensures e in calls {
      var i :| 0 <= i < |r.made| && r.made[i] == e;
      assert calls[i] == e;
    }
  }

  /**
   * Conversely, the verdicts determine the outcome: when the first `i` calls are accepted, all
   * calls are made when there are no more, and the loop stops after call `i` when it is refused.
   */
  lemma AttemptFromVerdicts(calls: seq<Event>, earlier: seq<Event>, verdict: Verdict, i: nat)
    requires i <= |calls|
    requires forall k :: 0 <= k < i ==> verdict(earlier + calls[..k], calls[k]).None?
    ensures i == |calls| ==> Attempt(calls, earlier, verdict) == Attempted(calls, None)
    ensures i < |calls| && verdict(earlier + calls[..i], calls[i]).Some? ==>
      Attempt(calls, earlier, verdict) == Attempted(calls[..i + 1], verdict(earlier + calls[..i], calls[i]))
  {
    AttemptMakesPrefix(calls, earlier, verdict);
    AttemptVerdicts(calls, earlier, verdict);
    AttemptStopsAtFirstRefusal(calls, earlier, verdict);
  }

  /** `registerMiddleware({priority, middleware: onRequest})` for each middleware, in order. */
  function MiddlewareCalls(middlewares: Entries<MiddlewareModule>): seq<Event> {
    seq(|middlewares|, i requires 0 <= i < |middlewares| =>
      MiddlewaresRegister(middlewares[i].1.priority, middlewares[i].1.onRequest))
  }

  /** `registerRoute(route)` for each route, in order. */
  function RouteCalls(routes: Entries<RouteModule>): seq<Event> {
    seq(|routes|, i requires 0 <= i < |routes| => RouterRegisterRoute(routes[i].1))
  }
}
