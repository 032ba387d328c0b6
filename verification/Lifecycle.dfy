/**
 The component group as a protocol: pkg/kit/lifecycle/group.go.
 Group.Start does not hold the group's lock while a member starts, so a Stop, a member's failure
 and its report may land anywhere. One Start is in progress at a time.
 */
module Lifecycle {

  /** Where Group.Start is: outside, in member i's Start, past it on the way to the lock, or about to stop it itself. */
  datatype Pc = Idle | Starting(i: nat) | Started(i: nat) | Failed(i: nat) | Unaccounted(i: nat)

  /** The lock is free, or held by stopLocked with the members below next still to be stopped. */
  datatype Lock = Free | Walking(next: nat, aborting: bool)

  datatype Result = Nil | StartFailed | StoppedDuringStart

  /** A failure report past its check, and whether its cycle was ending or over when it was checked. */
  datatype Report = Report(cycle: nat, ended: bool)

  /**
   Failure reports: each cycle has one sync.Once and one onFatal. A component can report once its
   Start was called, so a cycle can have reports when it had a member to start. fired counts the calls
   of onFatal, strayed those for a report checked after its cycle began to end.
   */
  datatype Reports = Reports(
    staffed: seq<bool>, once: seq<bool>, fired: seq<nat>, strayed: seq<nat>, inflight: multiset<Report>)

  /**
   up[i] is how many Starts of member i succeeded minus how many Stops it got. total is the length
   of the members Start works on. late counts the members whose Start completed after a Stop began.
   result is what the last finished Start returned. Cycles are numbered from 0; cycles is how many began.
   */
  datatype State = State(
    up: seq<int>, started: bool, running: nat, stopping: bool,
    total: nat, pc: Pc, lock: Lock, late: nat, result: Result,
    cycles: nat, reports: Reports)

  const EMPTY := State([], false, 0, false, 0, Idle, Free, 0, Nil, 0, Reports([], [], [], [], multiset{}))

  datatype Step =
    | Add
    | BeginStart
    | MemberStarts(ok: bool)
    | Account
    | StopUnaccounted
    | BeginAbort
    | BeginStop
    | StopMember
    | EndStop
    | CheckReport(cycle: nat)
    | FireReport(report: Report)

  /** Add panics after Start, and both Start and Stop do nothing when the group is not in the state for them. */
  predicate Enabled(s: State, step: Step) {
    match step
    case Add => s.lock.Free? && !s.started
    case BeginStart => s.lock.Free? && !s.started && s.pc.Idle?
    case MemberStarts(_) => s.pc.Starting? && s.pc.i < |s.up|
    case Account => s.pc.Started? && s.lock.Free?
    case StopUnaccounted => s.pc.Unaccounted? && s.pc.i < |s.up|
    case BeginAbort => s.pc.Failed? && s.lock.Free?
    case BeginStop => s.lock.Free? && s.started
    case StopMember => s.lock.Walking? && 0 < s.lock.next <= |s.up|
    case EndStop => s.lock.Walking? && s.lock.next == 0
    case CheckReport(c) => c < s.cycles && c < |s.reports.staffed| && s.reports.staffed[c]
    case FireReport(r) => CanFire(s.reports, r)
  }

  function Bump(up: seq<int>, i: nat, change: int): seq<int>
    requires i < |up|
  {
    up[i := up[i] + change]
  }

  function Apply(s: State, step: Step): State
    requires Enabled(s, step)
  {
    match step
    case Add => s.(up := s.up + [0])
    case BeginStart =>
      s.(started := true, running := 0, stopping := false, total := |s.up|, late := 0,
         pc := NextMember(0, |s.up|), result := Nil, cycles := s.cycles + 1,
         reports := NewCycle(s.reports, |s.up| > 0))
    case MemberStarts(ok) =>
      if ok then
        s.(up := Bump(s.up, s.pc.i, 1), pc := Started(s.pc.i), late := if s.stopping then s.late + 1 else s.late)
      else s.(pc := Failed(s.pc.i))
    case Account =>
      if s.started then s.(running := s.running + 1, pc := NextMember(s.pc.i + 1, s.total))
      else s.(pc := Unaccounted(s.pc.i))
    case StopUnaccounted => s.(up := Bump(s.up, s.pc.i, -1), pc := Idle, result := StoppedDuringStart)
    case BeginAbort => s.(stopping := true, lock := Walking(s.running, true))
    case BeginStop => s.(stopping := true, lock := Walking(s.running, false))
    case StopMember => s.(up := Bump(s.up, s.lock.next - 1, -1), lock := s.lock.(next := s.lock.next - 1))
    case EndStop =>
      if s.lock.aborting then s.(started := false, running := 0, lock := Free, pc := Idle, result := StartFailed)
      else s.(started := false, running := 0, lock := Free)
    case CheckReport(c) =>
      if s.stopping then s
      else s.(reports := s.reports.(inflight := s.reports.inflight + multiset{Report(c, Ended(s, c))}))
    case FireReport(r) => s.(reports := Fire(s.reports, r))
  }

  /** The next member to start, or the return when there is none. */
  function NextMember(i: nat, total: nat): Pc {
    if i < total then Starting(i) else Idle
  }

  function NewCycle(r: Reports, staffed: bool): Reports {
    r.(staffed := r.staffed + [staffed], once := r.once + [false], fired := r.fired + [0], strayed := r.strayed + [0])
  }

  /** Cycle c began to end: its Stop or abort began, or a later cycle did. */
  predicate Ended(s: State, c: nat) {
    s.stopping || c + 1 < s.cycles
  }

  predicate CanFire(r: Reports, report: Report) {
    report in r.inflight && report.cycle < |r.once| && report.cycle < |r.fired| && report.cycle < |r.strayed|
  }

  /** once.Do(onFatal). */
  function Fire(r: Reports, report: Report): Reports
    requires CanFire(r, report)
  {
    var c := report.cycle;
    var inflight := r.inflight - multiset{report};
    if r.once[c] then r.(inflight := inflight)
    else Reports(r.staffed, r.once[c := true], r.fired[c := r.fired[c] + 1],
                 if report.ended then r.strayed[c := r.strayed[c] + 1] else r.strayed, inflight)
  }

  /** The run is possible, and where it leads. */
  predicate Possible(s: State, steps: seq<Step>)
    decreases |steps|
  {
    steps == [] || (Enabled(s, steps[0]) && Possible(Apply(s, steps[0]), steps[1..]))
  }

  function After(s: State, steps: seq<Step>): State
    requires Possible(s, steps)
    decreases |steps|
  {
    if steps == [] then s else After(Apply(s, steps[0]), steps[1..])
  }

  /** A run may be extended by any step its last state enables. */
  lemma {:induction false} Extend(s: State, steps: seq<Step>, step: Step)
    requires Possible(s, steps) && Enabled(After(s, steps), step)
    ensures Possible(s, steps + [step]) && After(s, steps + [step]) == Apply(After(s, steps), step)
    decreases |steps|
  {
    if steps == [] {
      assert [step][1..] == [];
    } else {
      assert (steps + [step])[1..] == steps[1..] + [step];
      Extend(Apply(s, steps[0]), steps[1..], step);
    }
  }

  // ---------------------------------------------------------------- the invariant

  /** How many members the group accounts for as up. */
  function Level(s: State): nat {
    if s.lock.Walking? then s.lock.next else s.running
  }

  /** Member i has started, and is not or will not be accounted for. */
  predicate Extra(s: State, i: int) {
    (s.pc.Started? || s.pc.Unaccounted?) && s.pc.i == i
  }

  /** Exactly the accounted members and the just-started one are up, each once. */
  predicate Balanced(s: State) {
    forall i :: 0 <= i < |s.up| ==> s.up[i] == if i < Level(s) || Extra(s, i) then 1 else 0
  }

  predicate Placed(s: State) {
    && s.running <= s.total <= |s.up|
    && (s.started ==> s.total == |s.up|)
    && (s.result != Nil ==> !s.started && s.pc.Idle?)
    && (!s.pc.Idle? ==> s.pc.i < s.total)
    && (s.started && !s.pc.Idle? ==> s.pc.i == s.running)
    && (s.started && s.pc.Idle? ==> s.running == s.total)
    && (!s.started ==> s.running == 0 && (s.lock.Free? || s.lock.aborting))
    && (s.pc.Unaccounted? ==> !s.started)
    && (s.lock.Walking? ==> s.lock.next <= s.running && s.stopping)
    && (s.lock.Walking? && s.lock.aborting ==> s.pc.Failed?)
  }

  /** stopping is the end of the current cycle: only a cycle that is being stopped is both started and stopping. */
  predicate Timely(s: State) {
    && (s.started && s.stopping ==> s.lock.Walking?)
    && (!s.started && s.cycles > 0 ==> s.stopping)
    && (s.cycles == 0 ==> !s.started && s.pc.Idle?)
    && s.late <= 1
    && (s.late == 1 && s.started ==> s.pc.Started?)
    && (!s.stopping || s.pc.Starting? || s.pc.Failed? ==> s.late == 0)
  }

  /** onFatal is called once per cycle; only a report of an earlier cycle can pass after its own cycle ended. */
  predicate Reported(s: State) {
    && |s.reports.staffed| == |s.reports.once| == |s.reports.fired| == |s.reports.strayed| == s.cycles
    && (forall c :: 0 <= c < s.cycles ==> s.reports.fired[c] == if s.reports.once[c] then 1 else 0)
    && (forall c :: 0 <= c < s.cycles ==> s.reports.strayed[c] <= s.reports.fired[c])
    && (forall c :: 0 <= c < s.cycles && s.reports.strayed[c] > 0 ==> c + 1 < s.cycles)
    && (forall r :: r in s.reports.inflight ==>
          r.cycle < s.cycles && s.reports.staffed[r.cycle] && (r.ended ==> r.cycle + 1 < s.cycles))
    && (forall c :: 0 <= c < s.cycles && s.reports.fired[c] > 0 ==> s.reports.staffed[c])
  }

  predicate Inv(s: State) {
    Placed(s) && Timely(s) && Balanced(s) && Reported(s)
  }

  lemma PlacedKept(s: State, step: Step)
    requires Placed(s) && Enabled(s, step)
    ensures Placed(Apply(s, step))
  {
  }

  lemma TimelyKept(s: State, step: Step)
    requires Placed(s) && Timely(s) && Enabled(s, step)
    ensures Timely(Apply(s, step))
  {
  }

  lemma BalancedKept(s: State, step: Step)
    requires Placed(s) && Timely(s) && Balanced(s) && Enabled(s, step)
    ensures Balanced(Apply(s, step))
  {
  }

  lemma FireKept(s: State, r: Report)
    requires Reported(s) && CanFire(s.reports, r)
    ensures Reported(s.(reports := Fire(s.reports, r)))
  {
  }

  lemma CheckKept(s: State, c: nat)
    requires Reported(s) && Enabled(s, CheckReport(c))
    ensures Reported(Apply(s, CheckReport(c)))
  {
  }

  lemma NewCycleKept(s: State)
    requires Reported(s) && Enabled(s, BeginStart)
    ensures Reported(Apply(s, BeginStart))
  {
  }

  lemma OthersKeepReports(s: State, step: Step)
    requires Reported(s) && Enabled(s, step) && !step.BeginStart? && !step.CheckReport? && !step.FireReport?
    ensures Reported(Apply(s, step))
  {
    assert Apply(s, step).reports == s.reports && Apply(s, step).cycles == s.cycles;
  }

  lemma ReportedKept(s: State, step: Step)
    requires Reported(s) && Enabled(s, step)
    ensures Reported(Apply(s, step))
  {
    match step
    case FireReport(r) => FireKept(s, r); hide Reported, Fire;
    case CheckReport(c) => CheckKept(s, c); hide Reported;
    case BeginStart => NewCycleKept(s); hide Reported, NewCycle;
    case _ => OthersKeepReports(s, step);
  }

  lemma InvKept(s: State, step: Step)
    requires Inv(s) && Enabled(s, step)
    ensures Inv(Apply(s, step))
  {
    PlacedKept(s, step);
    TimelyKept(s, step);
    BalancedKept(s, step);
    ReportedKept(s, step);
  }

  /** Every interleaving keeps the invariant. */
  lemma {:induction false} InvHolds(s: State, steps: seq<Step>)
    requires Inv(s) && Possible(s, steps)
    ensures Inv(After(s, steps))
    decreases |steps|
  {
    if steps != [] {
      InvKept(s, steps[0]);
      InvHolds(Apply(s, steps[0]), steps[1..]);
    }
  }

  // ---------------------------------------------------------------- what it means

  /** In every interleaving over any number of cycles: who is up. */
  lemma WhoIsUp(steps: seq<Step>, i: nat)
    requires Possible(EMPTY, steps) && i < |After(EMPTY, steps).up|
    ensures var s := After(EMPTY, steps);
            s.up[i] == if i < Level(s) || Extra(s, i) then 1 else 0
  {
    InvHolds(EMPTY, steps);
  }

  predicate AllDown(s: State) {
    forall i :: 0 <= i < |s.up| ==> s.up[i] == 0
  }

  /** The step makes Group.Start return. */
  predicate Returns(s: State, step: Step)
    requires Enabled(s, step)
  {
    (step.BeginStart? || !s.pc.Idle?) && Apply(s, step).pc.Idle?
  }

  /** What the return of a Start means. */
  predicate ReturnedWell(t: State, step: Step) {
    && (t.result != Nil ==> AllDown(t) && !t.started && t.stopping)
    && (t.result == Nil ==>
          t.started && t.running == t.total == |t.up| && forall i :: 0 <= i < |t.up| ==> t.up[i] == 1)
    && (t.result == StoppedDuringStart <==> step == StopUnaccounted)
    && (t.result == StartFailed <==> step == EndStop)
  }

  lemma ReturnMeans(s: State, step: Step)
    requires Placed(s) && Timely(s) && Enabled(s, step) && Returns(s, step)
    requires var t := Apply(s, step); Placed(t) && Timely(t) && Balanced(t)
    ensures ReturnedWell(Apply(s, step), step)
  {
  }

  /**
   A Start that returns an error leaves nothing up; one that returns nil leaves everything up, unless a
   Stop is already taking or has taken it down.
   */
  lemma StartReturns(steps: seq<Step>, step: Step)
    requires Possible(EMPTY, steps) && Enabled(After(EMPTY, steps), step) && Returns(After(EMPTY, steps), step)
    ensures ReturnedWell(Apply(After(EMPTY, steps), step), step)
  {
    hide Possible, After, Apply, Returns, ReturnedWell, Placed, Timely, Balanced, Reported;
    InvHolds(EMPTY, steps);
    InvKept(After(EMPTY, steps), step);
    ReturnMeans(After(EMPTY, steps), step);
  }

  /**
   Members are stopped in reverse: the one being stopped is up, every accounted one below it too, and
   none above it but the just-started one.
   */
  lemma StopsInReverse(steps: seq<Step>)
    requires Possible(EMPTY, steps) && Enabled(After(EMPTY, steps), StopMember)
    ensures var s := After(EMPTY, steps);
            var k := s.lock.next - 1;
            && (forall i :: 0 <= i <= k ==> s.up[i] == 1)
            && (forall i :: k < i < |s.up| ==> s.up[i] == if Extra(s, i) then 1 else 0)
  {
    InvHolds(EMPTY, steps);
  }

  /** When a Stop is over nothing is up but the member whose Start was under way. */
  lemma StopStops(steps: seq<Step>, i: nat)
    requires Possible(EMPTY, steps) && Enabled(After(EMPTY, steps), EndStop) && i < |After(EMPTY, steps).up|
    ensures var t := Apply(After(EMPTY, steps), EndStop);
            t.up[i] == 1 ==> t.pc == Started(i)
  {
    InvHolds(EMPTY, steps);
    InvKept(After(EMPTY, steps), EndStop);
  }

  /** How many members' Starts complete in these steps. */
  function StartsIn(steps: seq<Step>): nat {
    if steps == [] then 0 else (if steps[0] == MemberStarts(true) then 1 else 0) + StartsIn(steps[1..])
  }

  /** While a cycle that began to end is not followed by another, each completed Start is a late one. */
  lemma {:induction false} LateCounts(s: State, steps: seq<Step>)
    requires Possible(s, steps) && Timely(s) && Placed(s) && s.stopping && BeginStart !in steps
    ensures var t := After(s, steps); t.stopping && t.late == s.late + StartsIn(steps)
    decreases |steps|
  {
    if steps != [] {
      PlacedKept(s, steps[0]);
      TimelyKept(s, steps[0]);
      assert BeginStart !in steps[1..] && steps[0] != BeginStart;
      LateCounts(Apply(s, steps[0]), steps[1..]);
      hide Placed, Timely;
    }
  }

  /**
   Once a Stop, or an abort, began at most one more member's Start completes before the next Start of
   the group; no further member is started after it, and it is down again when Start has returned.
   */
  lemma AtMostOneLate(steps: seq<Step>, more: seq<Step>)
    requires Possible(EMPTY, steps) && After(EMPTY, steps).stopping && Possible(After(EMPTY, steps), more)
    requires BeginStart !in more
    ensures var t := After(After(EMPTY, steps), more);
            && StartsIn(more) <= 1
            && (StartsIn(more) == 1 ==> !t.pc.Starting? && (t.pc.Idle? ==> AllDown(t)))
  {
    var s := After(EMPTY, steps);
    InvHolds(EMPTY, steps);
    InvHolds(s, more);
    LateCounts(s, more);
    LateIsDown(After(s, more));
    hide Possible, After, Balanced, Placed, Reported;
  }

  lemma LateIsDown(s: State)
    requires Inv(s)
    ensures s.late == 1 ==> !s.pc.Starting? && (s.pc.Idle? ==> AllDown(s))
  {
  }

  // ---------------------------------------------------------------- failure reports

  /**
   onFatal is called at most once per cycle, and in the latest cycle only for a report checked before
   its Stop began.
   */
  lemma OnFatalOnce(steps: seq<Step>, c: nat)
    requires Possible(EMPTY, steps) && c < After(EMPTY, steps).cycles
    ensures var s := After(EMPTY, steps);
            && |s.reports.strayed| == |s.reports.fired| == s.cycles
            && s.reports.strayed[c] <= s.reports.fired[c] <= 1
            && (c + 1 == s.cycles ==> s.reports.strayed[c] == 0)
  {
    InvHolds(EMPTY, steps);
  }

  /** A report of the running cycle, if it is the first, reaches onFatal. */
  lemma LiveFailureFires(steps: seq<Step>)
    requires Possible(EMPTY, steps)
    requires var s := After(EMPTY, steps);
             && s.cycles > 0 && Enabled(s, CheckReport(s.cycles - 1)) && !s.stopping
             && s.cycles <= |s.reports.once| && !s.reports.once[s.cycles - 1]
    ensures var c := After(EMPTY, steps).cycles - 1;
            var more := steps + [CheckReport(c)] + [FireReport(Report(c, false))];
            && Possible(EMPTY, more) && |After(EMPTY, more).reports.fired| > c
            && After(EMPTY, more).reports.fired[c] == 1
  {
    var c := After(EMPTY, steps).cycles - 1;
    InvHolds(EMPTY, steps);
    Extend(EMPTY, steps, CheckReport(c));
    Extend(EMPTY, steps + [CheckReport(c)], FireReport(Report(c, false)));
    hide Possible, After, Balanced, Placed;
  }

  /**
   A report checked after its cycle began to end is dropped exactly while the group is stopping or
   stopped: once the group is started again, a straggler of an earlier cycle passes.
   */
  lemma DroppedExactly(steps: seq<Step>, c: nat)
    requires Possible(EMPTY, steps)
    requires Enabled(After(EMPTY, steps), CheckReport(c)) && Ended(After(EMPTY, steps), c)
    ensures var s := After(EMPTY, steps);
            && (Apply(s, CheckReport(c)) != s <==> s.started && !s.lock.Walking?)
            && (Apply(s, CheckReport(c)) != s ==> c + 1 < s.cycles)
  {
    InvHolds(EMPTY, steps);
    var s := After(EMPTY, steps);
    assert |s.reports.inflight + multiset{Report(c, Ended(s, c))}| == |s.reports.inflight| + 1;
  }

  /** Such a straggler, if it is the first report of its cycle, reaches the onFatal of a run that is over. */
  lemma StragglerFires(steps: seq<Step>, c: nat)
    requires Possible(EMPTY, steps)
    requires var s := After(EMPTY, steps);
             && Enabled(s, CheckReport(c)) && s.started && s.lock.Free?
             && c + 1 < s.cycles && c < |s.reports.once| && !s.reports.once[c]
    ensures var late := steps + [CheckReport(c)] + [FireReport(Report(c, true))];
            && Possible(EMPTY, late) && |After(EMPTY, late).reports.strayed| > c
            && After(EMPTY, late).reports.strayed[c] == 1
  {
    InvHolds(EMPTY, steps);
    Extend(EMPTY, steps, CheckReport(c));
    Extend(EMPTY, steps + [CheckReport(c)], FireReport(Report(c, true)));
    hide Possible, After, Balanced, Placed;
  }

  /** A group of one member, up; then stopped and started again. */
  const UP := [Add, BeginStart, MemberStarts(true), Account]
  const AGAIN := [BeginStop, StopMember, EndStop, BeginStart]

  /** The group of one member is up, and nothing was reported. */
  const ONE_UP := State([1], true, 1, false, 1, Idle, Free, 0, Nil, 1, Reports([true], [false], [0], [0], multiset{}))

  lemma OneIsUp()
    ensures Possible(EMPTY, UP) && After(EMPTY, UP) == ONE_UP
  {
  }

  lemma OneIsUpAgain()
    ensures Possible(ONE_UP, AGAIN)
    ensures var s := After(ONE_UP, AGAIN);
            && s.started && s.lock.Free? && s.cycles == 2
            && s.reports.staffed == [true, true] && s.reports.once == [false, false]
  {
  }

  lemma {:induction false} Concatenates(s: State, a: seq<Step>, b: seq<Step>)
    requires Possible(s, a) && Possible(After(s, a), b)
    ensures Possible(s, a + b) && After(s, a + b) == After(After(s, a), b)
    decreases |a|
  {
    hide Enabled, Apply;
    if a == [] {
      assert a + b == b;
    } else {
      assert (a + b)[1..] == a[1..] + b;
      Concatenates(Apply(s, a[0]), a[1..], b);
    }
  }

  /** A run to such a state: a member is started, stopped and started again. */
  lemma RestartIsPossible()
    ensures Possible(EMPTY, UP + AGAIN)
    ensures var s := After(EMPTY, UP + AGAIN);
            && Enabled(s, CheckReport(0)) && s.started && s.lock.Free?
            && s.cycles == 2 && s.reports.once == [false, false]
  {
    OneIsUp();
    OneIsUpAgain();
    Concatenates(EMPTY, UP, AGAIN);
    hide Possible, After, UP, AGAIN, ONE_UP;
  }
}
