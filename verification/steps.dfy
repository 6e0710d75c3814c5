/**
 * What one step of start-up does: the events it logs and the error it throws, if any; and how the
 * steps of `_createServers` chain, each one running only when every earlier one returned normally.
 */
module Steps {
  import opened Wrappers
  import opened Trace

  datatype SocketKind = HttpWebSocket | TcpSocket | UdpSocket

  /** The errors start-up can throw. */
  datatype Failure =
    | UndefinedRead(property: string)          // a TypeError: reading `property` of undefined
    | MissingHttpRoutes                         // http enabled without any http route
    | MissingSocketHandler(kind: SocketKind)    // no `index.onRequest` function for that socket
    | MiddlewareRejected(original: string)      // wraps the middleware library's error
    | RouteRejected(original: string)           // wraps the router library's error

  datatype Step = Step(events: seq<Event>, failure: Option<Failure>)

  /** Run `first`; run `next` only when `first` did not throw. */
  function Then(first: Step, next: Step): Step {
    if first.failure.Some? then first else Step(first.events + next.events, next.failure)
  }

  /** Run the steps in order, stopping at the first that throws. */
  function RunPhases(ps: seq<Step>): Step {
    if ps == [] then Step([], None) else Then(ps[0], RunPhases(ps[1..]))
  }

  function Flatten(ps: seq<Step>): seq<Event> {
    if ps == [] then [] else ps[0].events + Flatten(ps[1..])
  }

  /**
   * When step `k` is the first to throw, the run logs exactly the events of steps 0..k and throws
   * step `k`'s error: nothing of any later step happens.
   */
  lemma {:induction false} RunPhasesStopsAtFirstFailure(ps: seq<Step>, k: nat)
    requires k < |ps| && ps[k].failure.Some?
    requires forall i :: 0 <= i < k ==> ps[i].failure.None?
    ensures RunPhases(ps) == Step(Flatten(ps[..k + 1]), ps[k].failure)
  {
    if k == 0 {
      assert ps[..1][1..] == [];
    } else {
      RunPhasesStopsAtFirstFailure(ps[1..], k - 1);
      assert ps[..k + 1][1..] == ps[1..][..k];
    }
  }

  /** When no step throws, the run logs every step's events, in order, and throws nothing. */
  lemma {:induction false} RunPhasesAllSucceed(ps: seq<Step>)
    requires forall i :: 0 <= i < |ps| ==> ps[i].failure.None?
    ensures RunPhases(ps) == Step(Flatten(ps), None)
  {
    if ps != [] {
      RunPhasesAllSucceed(ps[1..]);
    }
  }

  /**
   * When every event of step `i` has rank `base + i`, the run lists its events in rank order and
   * every rank it holds lies in `base .. base + |ps| - 1`.
   */
  lemma {:induction false} RunPhasesOrdered(ps: seq<Step>, rank: Event -> nat, base: nat)
    requires forall i, e :: 0 <= i < |ps| && e in ps[i].events ==> rank(e) == base + i
    ensures Sorted(RunPhases(ps).events, rank)
    ensures forall e :: e in RunPhases(ps).events ==> base <= rank(e) < base + |ps|
  {
    if ps != [] {
      var rest := RunPhases(ps[1..]);
      forall i, e | 0 <= i < |ps[1..]| && e in ps[1..][i].events
        ensures rank(e) == base + 1 + i
      {
        assert ps[1..][i] == ps[i + 1];
      }
      RunPhasesOrdered(ps[1..], rank, base + 1);
      assert forall e :: e in ps[0].events ==> rank(e) == base;
      if ps[0].failure.None? {
        var all := ps[0].events + rest.events;
        forall i, j | 0 <= i < j < |all| ensures rank(all[i]) <= rank(all[j]) {
          if j < |ps[0].events| {
            assert all[i] in ps[0].events && all[j] in ps[0].events;
          } else if i < |ps[0].events| {
            assert all[i] in ps[0].events && all[j] in rest.events;
          } else {
            assert all[i] == rest.events[i - |ps[0].events|];
            assert all[j] == rest.events[j - |ps[0].events|];
          }
        }
        forall e | e in all ensures base <= rank(e) < base + |ps| {
          assert e in ps[0].events || e in rest.events;
        }
      } else {
        assert RunPhases(ps) == ps[0];
        forall i, j | 0 <= i < j < |ps[0].events| ensures rank(ps[0].events[i]) <= rank(ps[0].events[j]) {
          assert ps[0].events[i] in ps[0].events && ps[0].events[j] in ps[0].events;
        }
      }
    }
  }

  /** A `Then` counts what its first step logged, and what the second logged when it ran. */
  lemma ThenCount(first: Step, next: Step, p: Event -> bool)
    ensures Count(Then(first, next).events, p)
         == Count(first.events, p) + (if first.failure.None? then Count(next.events, p) else 0)
  {
    if first.failure.None? {
      CountConcat(first.events, next.events, p);
    }
  }

  /**
   * A `Then` of two rank-sorted steps, the first ranked within `lo .. m` and the second within
   * `m .. hi`, is sorted and ranked within `lo .. hi`.
   */
  lemma ThenSorted(first: Step, next: Step, rank: Event -> nat, lo: nat, m: nat, hi: nat)
    requires lo <= m <= hi
    requires Sorted(first.events, rank) && Sorted(next.events, rank)
    requires forall x :: x in first.events ==> lo <= rank(x) <= m
    requires forall y :: y in next.events ==> m <= rank(y) <= hi
    ensures Sorted(Then(first, next).events, rank)
    ensures forall e :: e in Then(first, next).events ==> lo <= rank(e) <= hi
  {
    if first.failure.None? {
      SortedConcat(first.events, next.events, rank, m);
      forall e | e in first.events + next.events ensures lo <= rank(e) <= hi {
        assert e in first.events || e in next.events;
      }
    }
  }
}
