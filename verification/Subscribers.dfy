/**
 A subscriber's Start and Stop, with everything else that may happen between Stop's sections: other
 Starts and Stops, workers leaving, runs ending. Every execution is a run of module Subscriptions.
 */
module Subscribers {
  import opened Options
  import opened Subscriptions

  datatype Started = Ok | AlreadyStarted | Failed

  class Subscriber {
    const kind: Kind
    var runs: seq<Run>
    var current: Option<nat>
    var draining: bool
    var stops: seq<StopCall>
    ghost var history: seq<Step>

    function Now(): State
      reads this
    {
      State(kind, runs, current, draining, stops)
    }

    /** The fields are what the history leads to. */
    ghost predicate Valid()
      reads this
    {
      Possible(Empty(kind), history) && Now() == After(Empty(kind), history) && Inv(Now())
    }

    constructor (kind: Kind)
      ensures Valid() && this.kind == kind && history == []
    {
      this.kind := kind;
      runs, current, draining, stops, history := [], None, false, [], [];
    }

    /** The step the fields were just moved by. */
    lemma Next(s: State, steps: seq<Step>, step: Step)
      requires Possible(Empty(kind), steps) && s == After(Empty(kind), steps) && Inv(s) && Enabled(s, step)
      ensures Possible(Empty(kind), steps + [step]) && After(Empty(kind), steps + [step]) == Apply(s, step)
      ensures Inv(Apply(s, step))
    {
      Extend(Empty(kind), steps, step);
      InvKept(s, step);
    }

    /** What the protocol says of Stop number k and the run it saw. */
    lemma Fits(k: nat)
      requires Valid() && k < |stops|
      ensures StopFits(Now(), k)
      ensures stops[k].run.Some? && stops[k].run.value < |runs| ==> RunFits(kind, runs[stops[k].run.value])
    {
    }

    /** Start: all of it under the lock. */
    method Start(resolved: bool, workers: nat) returns (r: Started)
      requires Valid() && workers > 0
      modifies this
      ensures Valid() && old(history) <= history
      ensures r == if old(current).Some? then AlreadyStarted else if resolved then Ok else Failed
      ensures !r.Ok? ==> Now() == old(Now())
      ensures r.Ok? ==> Now() == Apply(old(Now()), Step.Start(workers))
    {
      if current.Some? {
        return AlreadyStarted;
      }
      if !resolved {
        return Failed;
      }
      Next(Now(), history, Step.Start(workers));
      runs, current := runs + [Run(workers, false, None, 0, false, false, false, Unseen)], Some(|runs|);
      history := history + [Step.Start(workers)];
      r := Ok;
    }

    /** What another goroutine, or the broker, does: anything but move Stop number k. */
    method Other(step: Step, k: nat)
      requires Valid() && Enabled(Now(), step) && !Moves(step, k) && k < |stops|
      modifies this
      ensures Valid() && old(history) <= history && k < |stops| && stops[k] == old(stops[k])
    {
      var t := Apply(Now(), step);
      Next(Now(), history, step);
      OthersStay(Now(), step, k);
      runs, current, draining, stops := t.runs, t.current, t.draining, t.stops;
      history := history + [step];
    }

    /** Any number of such actions. */
    method Others(k: nat)
      requires Valid() && k < |stops|
      modifies this
      ensures Valid() && old(history) <= history && k < |stops| && stops[k] == old(stops[k])
    {
      hide Possible, After, Inv, Enabled, Apply;
      var turns: nat :| true;
      for turn := 0 to turns
        invariant Valid() && old(history) <= history && k < |stops| && stops[k] == old(stops[k])
      {
        var step: Step := *;
        if Enabled(Now(), step) && !Moves(step, k) {
          Other(step, k);
        }
      }
    }

    /** Stop's first section: the number of this Stop, and the run it saw. */
    method BeginStop() returns (k: nat)
      requires Valid()
      modifies this
      ensures Valid() && old(history) <= history && Now() == Apply(old(Now()), Step.BeginStop)
      ensures k == old(|stops|) < |stops|
      ensures old(current) == None ==>
                stops[k] == StopCall(None, Returned(true)) && runs == old(runs) && current == None
      ensures old(current).Some? ==> stops[k].run == old(current) && old(current).value < |runs| == old(|runs|)
      ensures old(current).Some? ==> stops[k].phase == Waiting || stops[k].phase.Signalling?
    {
      k := |stops|;
      Next(Now(), history, Step.BeginStop);
      history := history + [Step.BeginStop];
      if current == None {
        stops, draining := stops + [StopCall(None, Returned(true))], false;
        return;
      }
      var g := current.value;
      match kind {
        case JetStream =>
          stops := stops + [StopCall(Some(g), Waiting)];
          if !runs[g].signalled {
            runs := runs[g := runs[g].(signalled := true, drainer := Some(k), drains := runs[g].drains + 1)];
          }
        case Core =>
          stops := stops + [StopCall(Some(g), Signalling(!draining))];
          if !draining {
            runs := runs[g := runs[g].(signalled := true, drainer := Some(k))];
          }
          draining := true;
        case _ =>
          stops := stops + [StopCall(Some(g), Signalling(false))];
      }
    }

    /** The core Drain, or the cancellation, outside the lock; drained is what Drain answers. */
    method SignalRun(k: nat, drained: bool) returns (ok: bool)
      requires Valid() && Subscriptions.At(Now(), k) && stops[k].phase.Signalling?
      modifies this
      ensures Valid() && old(history) <= history && Now() == Apply(old(Now()), Signal(k, drained))
      ensures k < |stops| && stops[k] == StopCall(old(stops[k].run), if ok then Waiting else Returned(false))
      ensures !ok ==> kind.Core? && !drained
    {
      hide Possible, After, Inv;
      Next(Now(), history, Signal(k, drained));
      history := history + [Signal(k, drained)];
      var g := stops[k].run.value;
      ok := true;
      if kind.Core? {
        if stops[k].phase.drain {
          runs := runs[g := runs[g].(drains := runs[g].drains + 1)];
          ok := drained;
        }
      } else {
        runs := runs[g := runs[g].(signalled := true)];
      }
      stops := stops[k := stops[k].(phase := if ok then Waiting else Returned(false))];
    }

    /** The wait for the run's end, or for the caller's patience to end. */
    method Wait(k: nat) returns (ok: bool)
      requires Valid() && Subscriptions.At(Now(), k) && stops[k].phase == Waiting
      modifies this
      ensures Valid() && old(history) <= history && k < |stops|
      ensures stops[k] == StopCall(old(stops[k].run), if ok then Clearing else Returned(false))
    {
      hide Possible, After, Inv, Apply;
      var polls: nat :| true;
      for poll := 0 to polls
        invariant Valid() && old(history) <= history && k < |stops| && stops[k] == old(stops[k])
        invariant Subscriptions.At(Now(), k)
      {
        if runs[stops[k].run.value].ended {
          Move(k, SeesEnd(k), Clearing);
          return true;
        }
        Others(k);
        Fits(k);
      }
      Move(k, TimesOut(k), Returned(false));
      ok := false;
    }

    /** This Stop goes on to its next phase. */
    method Move(k: nat, step: Step, phase: Phase)
      requires Valid() && Enabled(Now(), step) && k < |stops|
      requires (step == SeesEnd(k) && phase == Clearing) || (step == TimesOut(k) && phase == Returned(false))
      modifies this
      ensures Valid() && old(history) <= history && runs == old(runs)
      ensures k < |stops| && stops[k] == old(stops[k]).(phase := phase)
    {
      Next(Now(), history, step);
      history := history + [step];
      stops := stops[k := stops[k].(phase := phase)];
    }

    /** Stop's last section: the fields are cleared if they still hold the run this Stop saw. */
    method ClearRun(k: nat)
      requires Valid() && Subscriptions.At(Now(), k) && stops[k].phase == Clearing
      modifies this
      ensures Valid() && old(history) <= history && runs == old(runs)
      ensures k < |stops| && stops[k] == StopCall(old(stops[k].run), Returned(true))
      ensures current == if old(current) == old(stops[k].run) then None else old(current)
    {
      Next(Now(), history, Clear(k));
      history := history + [Clear(k)];
      if current == stops[k].run {
        current, draining := None, false;
      }
      stops := stops[k := stops[k].(phase := Returned(true))];
    }

    /**
     Stop. Without a run it returns nil and changes nothing but core's flag. Otherwise the run it saw
     has been signalled, and nil means that this run is over and is no longer the current one.
     */
    method Stop(drained: bool) returns (ok: bool)
      requires Valid()
      modifies this
      ensures Valid() && old(history) <= history
      ensures old(current) == None ==> ok && runs == old(runs) && current == None
      ensures old(current).Some? ==>
                var g := old(current).value;
                && g < |runs| && runs[g].signalled
                && (ok ==> runs[g].ended && runs[g].workers == 0 && current != Some(g))
    {
      hide Possible, After, Inv, Apply;
      var k := BeginStop();
      if stops[k].run == None {
        return true;
      }
      Others(k);
      Fits(k);
      ok := true;
      if stops[k].phase.Signalling? {
        ok := SignalRun(k, drained);
        Others(k);
        Fits(k);
      }
      if ok {
        ok := Wait(k);
      }
      if ok {
        Others(k);
        Fits(k);
        ClearRun(k);
      }
      Fits(k);
    }
  }

  predicate Moves(step: Step, k: nat) {
    (step.Signal? || step.SeesEnd? || step.TimesOut? || step.Clear?) && step.stop == k
  }

  lemma OthersStay(s: State, step: Step, k: nat)
    requires Enabled(s, step) && !Moves(step, k) && k < |s.stops|
    ensures k < |Apply(s, step).stops| && Apply(s, step).stops[k] == s.stops[k] && Apply(s, step).kind == s.kind
  {
  }
}
