/**
 The group's methods, with the other goroutines of a program acting wherever the lock is not held.
 Every execution of them is a run of the protocol in module Lifecycle.
 */
module Groups {
  import opened Lifecycle

  datatype Returned = Ok | AlreadyStarted | Failure(result: Result)

  class Group {
    var up: seq<int>
    var started: bool
    var running: nat
    var stopping: bool
    var lock: Lock
    ghost var history: seq<Step>

    /** The fields are those of the state the history leads to. */
    ghost predicate Valid()
      reads this
    {
      Possible(EMPTY, history) && Shows(After(EMPTY, history)) && Inv(After(EMPTY, history))
    }

    ghost predicate Shows(s: State)
      reads this
    {
      up == s.up && started == s.started && running == s.running && stopping == s.stopping && lock == s.lock
    }

    ghost function At(): (s: State)
      requires Valid()
      reads this
      ensures Shows(s) && Inv(s) && s.running <= |s.up|
    {
      After(EMPTY, history)
    }

    constructor ()
      ensures Valid() && history == []
    {
      up, started, running, stopping, lock, history := [], false, 0, false, Free, [];
    }

    /** The group's own Start is where s has it, and s is in the history. */
    twostate predicate Elsewhere()
      requires old(Valid()) && Valid()
      reads this
    {
      var (s, t) := (old(At()), At());
      && old(history) <= history
      && t.pc == s.pc && t.cycles == s.cycles && t.total == s.total && t.result == s.result && (t.started ==> s.started)
    }

    lemma Next(step: Step)
      requires Valid() && Enabled(At(), step)
      ensures Possible(EMPTY, history + [step]) && Inv(After(EMPTY, history + [step]))
      ensures After(EMPTY, history + [step]) == Apply(At(), step)
    {
      Extend(EMPTY, history, step);
      InvKept(At(), step);
    }

    /** stopLocked's loop, one iteration, or its end. */
    method Turn()
      requires Valid() && lock.Walking?
      modifies this
      ensures Valid() && old(history) <= history
      ensures At() == Apply(old(At()), if old(lock.next) == 0 then EndStop else StopMember)
    {
      if lock.next == 0 {
        Next(EndStop);
        started, running, lock := false, 0, Free;
        history := history + [EndStop];
      } else {
        Next(StopMember);
        up, lock := Bump(up, lock.next - 1, -1), lock.(next := lock.next - 1);
        history := history + [StopMember];
      }
    }

    /** stopLocked's first statement: what is stopped from now on is stopped on purpose. */
    method BeginWalk(aborting: bool)
      requires Valid() && lock.Free? && if aborting then At().pc.Failed? else started
      modifies this
      ensures Valid() && old(history) <= history
      ensures At() == Apply(old(At()), if aborting then BeginAbort else BeginStop)
    {
      var step := if aborting then BeginAbort else BeginStop;
      Next(step);
      stopping, lock := true, Walking(running, aborting);
      history := history + [step];
    }

    /** The walk's state apart from what it has stopped. */
    ghost predicate Walks(s: State, aborting: bool)
      requires Valid()
      reads this
    {
      var t := At();
      && stopping && lock.Walking? && lock.aborting == aborting && lock.next <= running <= |up|
      && t.pc == s.pc && t.cycles == s.cycles && t.total == s.total && t.result == s.result
      && |up| == |s.up| && running == s.running
      && forall i :: 0 <= i < |up| ==> up[i] == s.up[i] - if lock.next <= i < s.running then 1 else 0
    }

    /** stopLocked: the accounted members are stopped in reverse. */
    method StopLocked(aborting: bool)
      requires Valid() && lock.Free? && if aborting then At().pc.Failed? else started
      modifies this
      ensures Valid() && old(history) <= history && lock.Free? && !started && stopping
      ensures var (s, t) := (old(At()), At());
              && t.cycles == s.cycles && t.total == s.total
              && if aborting then t.pc == Idle && t.result == StartFailed else t.pc == s.pc && t.result == s.result
      ensures |up| == old(|up|)
      ensures forall i :: 0 <= i < |up| ==> up[i] == old(up[i]) - if i < old(running) then 1 else 0
    {
      hide Possible, After, Inv;
      ghost var s := At();
      BeginWalk(aborting);
      while lock.next > 0
        invariant Valid() && old(history) <= history && Walks(s, aborting)
        decreases lock.next
      {
        Turn();
      }
      Turn();
    }

    /** Stop, by the one that has the lock: without a Start it does nothing. */
    method Stop()
      requires Valid() && lock.Free?
      modifies this
      ensures Valid() && Elsewhere() && lock.Free? && !started
      ensures old(!started) ==> history == old(history)
      ensures forall i :: 0 <= i < |up| && up[i] == 1 ==> At().pc in {Started(i), Unaccounted(i)}
    {
      if started {
        StopLocked(false);
      }
    }

    /** One action of another goroutine: part of a Stop, an Add, or a failure report. */
    method Other()
      requires Valid() && !(lock.Walking? && lock.aborting)
      modifies this
      ensures Valid() && Elsewhere() && !(lock.Walking? && lock.aborting)
    {
      hide Possible, After, Inv;
      if lock.Walking? {
        Turn();
      } else if started {
        BeginWalk(false);
      } else {
        Next(Step.Add);
        up := up + [0];
        history := history + [Step.Add];
      }
    }

    /** A report touches none of the group's fields. */
    ghost method OtherReport(step: Step)
      requires Valid() && (step.CheckReport? || step.FireReport?) && Enabled(At(), step)
      modifies this`history
      ensures Valid() && Elsewhere()
    {
      hide Possible, After, Inv;
      Next(step);
      history := history + [step];
    }

    /** Any number of such actions. */
    method Others()
      requires Valid() && !(lock.Walking? && lock.aborting)
      modifies this
      ensures Valid() && Elsewhere() && !(lock.Walking? && lock.aborting)
    {
      hide Possible, After, Inv;
      var turns: nat :| true;
      for turn := 0 to turns
        invariant Valid() && Elsewhere() && !(lock.Walking? && lock.aborting)
      {
        if * {
          Other();
        } else {
          ghost var step: Step := *;
          if (step.CheckReport? || step.FireReport?) && Enabled(At(), step) {
            OtherReport(step);
          }
        }
      }
    }

    /** Waits for the lock: whoever holds it finishes. */
    method Acquire()
      requires Valid() && !(lock.Walking? && lock.aborting)
      modifies this
      ensures Valid() && Elsewhere() && lock.Free?
    {
      Others();
      while lock.Walking?
        invariant Valid() && Elsewhere() && !(lock.Walking? && lock.aborting)
        decreases lock.Walking?, if lock.Walking? then lock.next else 0
      {
        Turn();
      }
    }

    /** Add: it panics after Start. */
    method Add() returns (ok: bool)
      requires Valid() && lock.Free?
      modifies this
      ensures Valid() && ok == old(!started) && up == if ok then old(up) + [0] else old(up)
    {
      ok := !started;
      if ok {
        Next(Step.Add);
        up := up + [0];
        history := history + [Step.Add];
      }
    }

    /** abortStart: member i's Start failed. */
    method AbortStart() returns (r: Returned)
      requires Valid() && At().pc.Failed? && !(lock.Walking? && lock.aborting)
      modifies this
      ensures Valid() && old(history) <= history && lock.Free? && r == Failure(StartFailed)
      ensures At().pc == Idle && At().result == StartFailed && At().cycles == old(At()).cycles
    {
      hide Possible, After, Inv;
      Acquire();
      StopLocked(true);
      r := Failure(StartFailed);
    }

    /** stopUnaccounted: the member that finished starting after a Stop had walked the group back. */
    method StopUnaccounted(i: nat) returns (r: Returned)
      requires Valid() && At().pc == Unaccounted(i) && lock.Free?
      modifies this
      ensures Valid() && old(history) <= history && r == Failure(StoppedDuringStart)
      ensures At().pc == Idle && At().result == StoppedDuringStart && At().cycles == old(At()).cycles
    {
      Others();
      Next(Step.StopUnaccounted);
      up := Bump(up, i, -1);
      history := history + [Step.StopUnaccounted];
      r := Failure(StoppedDuringStart);
    }

    /** Member i's Start, during and after which anything may happen elsewhere. */
    method StartMember(i: nat) returns (ok: bool)
      requires Valid() && At().pc == Starting(i) && !(lock.Walking? && lock.aborting)
      modifies this
      ensures Valid() && old(history) <= history && !(lock.Walking? && lock.aborting)
      ensures At().pc == if ok then Started(i) else Pc.Failed(i)
      ensures At().cycles == old(At()).cycles && At().total == old(At()).total
    {
      Others();
      ok := *;
      Next(MemberStarts(ok));
      if ok {
        up := Bump(up, i, 1);
      }
      history := history + [MemberStarts(ok)];
    }

    /** The accounting of member i: false when a Stop ran while it was starting. */
    method AccountFor(i: nat) returns (ok: bool)
      requires Valid() && At().pc == Started(i) && !(lock.Walking? && lock.aborting)
      modifies this
      ensures Valid() && old(history) <= history && lock.Free? && ok == started
      ensures At().pc == if ok then NextMember(i + 1, At().total) else Unaccounted(i)
      ensures At().cycles == old(At()).cycles && At().total == old(At()).total
    {
      Acquire();
      ok := started;
      Next(Account);
      if ok {
        running := running + 1;
      }
      history := history + [Account];
    }

    /** Start's first section. */
    method BeginCycle()
      requires Valid() && At().pc.Idle? && lock.Free? && !started
      modifies this
      ensures Valid() && old(history) <= history && lock.Free? && started
      ensures At().pc == NextMember(0, |up|) && At().total == |up| && At().cycles == old(At()).cycles + 1
    {
      Next(BeginStart);
      started, running, stopping := true, 0, false;
      history := history + [BeginStart];
    }

    /**
     Start: in Add order. An error leaves nothing up; nil leaves everything up when the last member is
     accounted for.
     */
    method Start() returns (r: Returned)
      requires Valid() && At().pc.Idle? && lock.Free?
      modifies this
      ensures Valid() && At().pc.Idle? && old(history) <= history
      ensures r == AlreadyStarted <==> old(started)
      ensures r == AlreadyStarted ==> history == old(history)
      ensures r != AlreadyStarted ==> At().cycles == old(At()).cycles + 1
      ensures r.Failure? ==> !started && AllDown(At())
      ensures r.Ok? ==> started && running == |up| && forall i :: 0 <= i < |up| ==> up[i] == 1
    {
      hide Possible, After, Inv;
      if started {
        return AlreadyStarted;
      }
      ghost var cycles := At().cycles + 1;
      BeginCycle();
      var total := |up|;
      for i := 0 to total
        invariant Valid() && old(history) <= history && lock.Free?
        invariant At().pc == NextMember(i, total) && At().total == total && At().cycles == cycles
        invariant started || i < total
      {
        var ok := StartMember(i);
        if !ok {
          r := AbortStart();
          FailedLeavesNothing(At());
          return;
        }
        ok := AccountFor(i);
        if !ok {
          r := StopUnaccounted(i);
          FailedLeavesNothing(At());
          return;
        }
      }
      FinishedHasAll(At());
      r := Ok;
    }

    lemma FailedLeavesNothing(s: State)
      requires Inv(s) && s.result != Nil
      ensures !s.started && AllDown(s)
    {
    }

    lemma FinishedHasAll(s: State)
      requires Inv(s) && s.started && s.pc.Idle? && s.lock.Free?
      ensures s.running == |s.up| && forall i :: 0 <= i < |s.up| ==> s.up[i] == 1
    {
    }
  }
}
