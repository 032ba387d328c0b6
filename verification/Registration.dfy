/** Registering routes and starting the mux: the wiring half of pkg/eventmux/mux.go. */
module Registration {

  /** A filter by identity; nil matches everything, a func-typed one is identical to none. */
  datatype Filter = Nil | Comparable(id: nat) | Uncomparable

  predicate Identical(a: Filter, b: Filter) {
    (a.Nil? && b.Nil?) || (a.Comparable? && a == b)
  }

  /** wraps is how many observing decorators are around the route's publisher, chains how often its chain was built. */
  datatype Route = Route(filter: Filter, publishes: bool, wraps: nat, chains: nat)

  datatype Started = Ok | AlreadyStarted | Failed

  predicate AllDistinct(routes: seq<Route>) {
    forall i, j :: 0 <= i < j < |routes| ==> !Identical(routes[i].filter, routes[j].filter)
  }

  predicate Wired(rt: Route, frozen: bool, observed: bool) {
    rt.chains == (if frozen then 1 else 0) && rt.wraps == (if frozen && observed && rt.publishes then 1 else 0)
  }

  class Mux {
    const observed: bool
    const deadLetters: bool
    var routes: seq<Route>
    var started: bool
    var frozen: bool
    // Decorators around the dead-letter publisher, and preflight chains built.
    var copyWraps: nat
    var preflights: nat

    /** However often the mux is started: no unreachable route, every chain built once, no publish observed twice. */
    ghost predicate Valid()
      reads this
    {
      && (started ==> frozen) && AllDistinct(routes)
      && preflights == (if frozen then 1 else 0)
      && copyWraps == (if frozen && observed && deadLetters then 1 else 0)
      && forall i :: 0 <= i < |routes| ==> Wired(routes[i], frozen, observed)
    }

    constructor (observed: bool, deadLetters: bool)
      ensures Valid() && this.observed == observed && this.deadLetters == deadLetters
      ensures routes == [] && !started && !frozen
    {
      this.observed, this.deadLetters := observed, deadLetters;
      routes, started, frozen, copyWraps, preflights := [], false, false, 0, 0;
    }

    /** Handle; false is a panic: the routes are frozen, or the new one could never run. */
    method Handle(filter: Filter, publishes: bool) returns (ok: bool)
      requires Valid()
      modifies this`routes
      ensures Valid()
      ensures ok <==> !frozen && (filter == Uncomparable || forall rt :: rt in old(routes) ==> rt.filter != filter)
      ensures routes == old(routes) + if ok then [Route(filter, publishes, 0, 0)] else []
    {
      if frozen {
        return false;
      }
      for i := 0 to |routes|
        invariant forall j :: 0 <= j < i ==> !Identical(routes[j].filter, filter)
      {
        if Identical(routes[i].filter, filter) {
          return false;
        }
      }
      routes := routes + [Route(filter, publishes, 0, 0)];
      ok := true;
    }

    /** Start, when the subscription's own Start succeeds or not: the first one freezes the routes even if it fails. */
    method Start(subscribes: bool) returns (r: Started)
      requires Valid()
      modifies this
      ensures Valid()
      ensures r == if old(started) then AlreadyStarted else if subscribes then Ok else Failed
      ensures frozen && started == (old(started) || subscribes)
      ensures old(frozen) ==> routes == old(routes) && copyWraps == old(copyWraps) && preflights == old(preflights)
      ensures |routes| == |old(routes)|
      ensures forall i :: 0 <= i < |routes| ==>
                routes[i].filter == old(routes)[i].filter && routes[i].publishes == old(routes)[i].publishes
    {
      if started {
        return AlreadyStarted;
      }
      if !frozen {
        frozen := true;
        var wired: seq<Route> := [];
        for i := 0 to |routes|
          invariant |wired| == i && routes == old(routes)
          invariant forall j :: 0 <= j < i ==>
            && wired[j].filter == routes[j].filter && wired[j].publishes == routes[j].publishes
            && Wired(wired[j], true, observed)
        {
          var rt := routes[i];
          rt := rt.(chains := rt.chains + 1);
          if observed && rt.publishes {
            rt := rt.(wraps := rt.wraps + 1);
          }
          wired := wired + [rt];
        }
        routes := wired;
        preflights := preflights + 1;
        if observed && deadLetters {
          copyWraps := copyWraps + 1;
        }
      }
      if !subscribes {
        return Failed;
      }
      started := true;
      r := Ok;
    }

    /** Stop, when the subscription's own Stop succeeds or not: after a failure a later Stop must try again. */
    method Stop(ends: bool) returns (ok: bool)
      requires Valid()
      modifies this`started
      ensures Valid() && ok == (!old(started) || ends) && started == (old(started) && !ends)
    {
      if !started {
        return true;
      }
      if !ends {
        return false;
      }
      started := false;
      ok := true;
    }
  }
}
