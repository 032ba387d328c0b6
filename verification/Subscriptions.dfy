/**
 Starting and stopping a broker subscriber, as the protocol its four implementations share.
 Start holds the lock throughout. Stop looks at the current run under the lock, waits for that
 run's end without it, and takes the lock again to forget the run, if it is still the same one.
 pkg/transport/nats/jetstream, pkg/transport/nats/core, pkg/transport/aws/sqs, pkg/transport/gcp/pubsub.
 */
module Subscriptions {
  import opened Options

  datatype Kind = JetStream | Core | Sqs | PubSub

  /** What became of a run's failure, once its watcher looked. */
  datatype Watch = Unseen | Silent | Reported

  /**
   One run: its workers or consumers still going, whether a Stop signalled it (closed stopping,
   cancelled it, or set draining), the Drain calls it got, whether it has ended, whether it ended
   before any signal, and whether it failed. drainer is the Stop that owes the Drain call.
   */
  datatype Run = Run(
    workers: nat, signalled: bool, drainer: Option<nat>, drains: nat,
    ended: bool, unprompted: bool, failed: bool, watch: Watch)

  /** Where a Stop call is. */
  datatype Phase = Signalling(drain: bool) | Waiting | Clearing | Returned(ok: bool)

  /** A Stop call and the run it saw. */
  datatype StopCall = StopCall(run: Option<nat>, phase: Phase)

  /** Every run and every Stop so far; current is the run the subscriber's fields hold. */
  datatype State = State(kind: Kind, runs: seq<Run>, current: Option<nat>, draining: bool, stops: seq<StopCall>)

  function Empty(kind: Kind): State {
    State(kind, [], None, false, [])
  }

  datatype Step =
    | Start(workers: nat)
    | BeginStop
    | Signal(stop: nat, ok: bool)
    | WorkerExits(run: nat)
    | Ends(run: nat, failed: bool)
    | Looks(run: nat)
    | SeesEnd(stop: nat)
    | TimesOut(stop: nat)
    | Clear(stop: nat)

  /** Stop number k is at a phase, for a run. */
  predicate At(s: State, k: nat) {
    k < |s.stops| && s.stops[k].run.Some? && s.stops[k].run.value < |s.runs|
  }

  /** SQS workers leave only once cancelled. The other brokers may end a run by themselves. */
  predicate Enabled(s: State, step: Step) {
    match step
    case Start(n) => s.current == None && n > 0
    case BeginStop => s.current.Some? ==> s.current.value < |s.runs|
    case Signal(k, _) => At(s, k) && s.stops[k].phase.Signalling?
    case WorkerExits(g) => g < |s.runs| && s.runs[g].workers > 0 && (s.kind.Sqs? ==> s.runs[g].signalled)
    case Ends(g, _) => g < |s.runs| && s.runs[g].workers == 0 && !s.runs[g].ended
    case Looks(g) => g < |s.runs| && s.runs[g].ended && s.runs[g].watch.Unseen?
    case SeesEnd(k) => At(s, k) && s.stops[k].phase.Waiting? && s.runs[s.stops[k].run.value].ended
    case TimesOut(k) => At(s, k) && s.stops[k].phase.Waiting?
    case Clear(k) => At(s, k) && s.stops[k].phase.Clearing?
  }

  function SetRun(s: State, g: nat, r: Run): State
    requires g < |s.runs|
  {
    s.(runs := s.runs[g := r])
  }

  function SetPhase(s: State, k: nat, p: Phase): State
    requires k < |s.stops|
  {
    s.(stops := s.stops[k := s.stops[k].(phase := p)])
  }

  function Apply(s: State, step: Step): State
    requires Enabled(s, step)
  {
    match step
    case Start(n) =>
      s.(runs := s.runs + [Run(n, false, None, 0, false, false, false, Unseen)], current := Some(|s.runs|))
    case BeginStop => Begin(s)
    case Signal(k, ok) => Signalled(s, k, ok)
    case WorkerExits(g) => SetRun(s, g, s.runs[g].(workers := s.runs[g].workers - 1))
    case Ends(g, failed) =>
      SetRun(s, g, s.runs[g].(ended := true, failed := failed, unprompted := !s.runs[g].signalled))
    case Looks(g) => SetRun(s, g, s.runs[g].(watch := if Fatal(s.kind, s.runs[g]) then Reported else Silent))
    case SeesEnd(k) => SetPhase(s, k, Clearing)
    case TimesOut(k) => SetPhase(s, k, Returned(false))
    case Clear(k) =>
      var t := SetPhase(s, k, Returned(true));
      if s.current == s.stops[k].run then t.(current := None, draining := false) else t
  }

  /** The failure is reported: JetStream's consumer closed, or Pub/Sub's Receive failed, without a Stop. */
  predicate Fatal(kind: Kind, r: Run) {
    !r.signalled && (kind.JetStream? || (kind.PubSub? && r.failed))
  }

  /**
   Stop's first section. JetStream signals and drains in it, unless a Stop already has; core only
   notes in draining that it is about to drain, and without a run clears that note.
   */
  function Begin(s: State): State
    requires s.current.Some? ==> s.current.value < |s.runs|
  {
    var k := |s.stops|;
    if s.current == None then s.(stops := s.stops + [StopCall(None, Returned(true))], draining := false)
    else
      var g := s.current.value;
      var r := s.runs[g];
      match s.kind
      case JetStream =>
        var t := s.(stops := s.stops + [StopCall(Some(g), Waiting)]);
        if r.signalled then t else SetRun(t, g, r.(signalled := true, drainer := Some(k), drains := r.drains + 1))
      case Core =>
        var t := s.(stops := s.stops + [StopCall(Some(g), Signalling(!s.draining))], draining := true);
        if s.draining then t else SetRun(t, g, r.(signalled := true, drainer := Some(k)))
      case _ => s.(stops := s.stops + [StopCall(Some(g), Signalling(false))])
  }

  /** Between the sections: the core Drain, whose failure ends the Stop, or the cancellation. */
  function Signalled(s: State, k: nat, ok: bool): State
    requires At(s, k) && s.stops[k].phase.Signalling?
  {
    var g := s.stops[k].run.value;
    var r := s.runs[g];
    if s.kind.Core? then
      if s.stops[k].phase.drain then
        SetRun(SetPhase(s, k, if ok then Waiting else Returned(false)), g, r.(drains := r.drains + 1))
      else SetPhase(s, k, Waiting)
    else SetRun(SetPhase(s, k, Waiting), g, r.(signalled := true))
  }

  predicate Possible(s: State, steps: seq<Step>)
    decreases |steps|
  {
    steps == [] || (Enabled(s, steps[0]) && Possible(Apply(s, steps[0]), steps[1..]))
  }

  function After(s: State, steps: seq<Step>): State
    requires Possible(s, steps)
    decreases |steps|
  {
    if steps == [] then s else After(Apply(s, steps[0]), steps[1..])
  }

  /** A run may be extended by any step its last state enables. */
  lemma {:induction false} Extend(s: State, steps: seq<Step>, step: Step)
    requires Possible(s, steps) && Enabled(After(s, steps), step)
    ensures Possible(s, steps + [step]) && After(s, steps + [step]) == Apply(After(s, steps), step)
    decreases |steps|
  {
    hide Enabled, Apply;
    if steps == [] {
      assert [step][1..] == [];
    } else {
      assert (steps + [step])[1..] == steps[1..] + [step];
      Extend(Apply(s, steps[0]), steps[1..], step);
    }
  }

  // ---------------------------------------------------------------- the invariant

  /** A run that is not the current one has ended, and a Stop that saw its end returned nil. */
  predicate Forgotten(s: State, g: nat)
    requires g < |s.runs|
  {
    s.runs[g].ended && Confirmed(s, g)
  }

  predicate Confirmed(s: State, g: nat) {
    exists k :: 0 <= k < |s.stops| && s.stops[k] == StopCall(Some(g), Returned(true))
  }

  predicate OneRun(s: State) {
    && (s.current.Some? ==> |s.runs| > 0 && s.current.value == |s.runs| - 1)
    && forall g: nat :: g < |s.runs| && s.current != Some(g) ==> Forgotten(s, g)
  }

  predicate RunFits(kind: Kind, r: Run) {
    && (r.ended ==> r.workers == 0)
    && (!r.watch.Unseen? ==> r.ended)
    && (r.ended && !r.signalled ==> r.unprompted)
    && (!r.watch.Unseen? && !r.signalled && (kind.JetStream? || (kind.PubSub? && r.failed)) ==> r.watch.Reported?)
    && (r.watch.Reported? ==> r.unprompted && (kind.JetStream? || (kind.PubSub? && r.failed)))
    && r.drains <= 1
    && (r.drains == 1 ==> r.signalled)
    && (kind.Sqs? && r.ended ==> !r.unprompted)
    && (kind.Sqs? && r.workers == 0 ==> r.signalled)
    && (kind.JetStream? || kind.Core? ==> r.signalled == r.drainer.Some?)
    && (kind.JetStream? && r.signalled ==> r.drains == 1)
    && (!(kind.JetStream? || kind.Core?) ==> r.drains == 0)
  }

  predicate RunsFit(s: State) {
    forall g: nat :: g < |s.runs| ==> RunFits(s.kind, s.runs[g])
  }

  predicate StopFits(s: State, k: nat)
    requires k < |s.stops|
  {
    var p := s.stops[k];
    && (p.run == None ==> p.phase == Returned(true))
    && (p.run.Some? ==>
          && p.run.value < |s.runs|
          && var r := s.runs[p.run.value];
             && (p.phase.Clearing? || p.phase == Returned(true) ==> r.ended)
             && (p.phase.Waiting? || p.phase.Clearing? || p.phase.Returned? ==> r.signalled)
             && (p.phase.Signalling? ==> !s.kind.JetStream? && (s.kind.Core? ==> r.signalled))
             && (p.phase.Signalling? && p.phase.drain ==> s.kind.Core? && r.drainer == Some(k) && r.drains == 0))
  }

  predicate StopsFit(s: State) {
    forall k: nat :: k < |s.stops| ==> StopFits(s, k)
  }

  /** core's flag says whether the current run was signalled. */
  predicate FlagFits(s: State) {
    && (s.current == None ==> !s.draining)
    && (s.kind.Core? && s.current.Some? && s.current.value < |s.runs| ==>
          s.draining == s.runs[s.current.value].signalled)
  }

  predicate Inv(s: State) {
    OneRun(s) && RunsFit(s) && StopsFit(s) && FlagFits(s)
  }

  /** What a Stop returned stays returned. */
  predicate StopsKept(s: State, t: State) {
    |s.stops| <= |t.stops| && forall k :: 0 <= k < |s.stops| && s.stops[k].phase.Returned? ==> t.stops[k] == s.stops[k]
  }

  lemma StopsAreKept(s: State, step: Step)
    requires Enabled(s, step)
    ensures StopsKept(s, Apply(s, step))
  {
  }

  lemma ConfirmedKept(s: State, t: State, g: nat)
    requires StopsKept(s, t) && Confirmed(s, g)
    ensures Confirmed(t, g)
  {
    var k :| 0 <= k < |s.stops| && s.stops[k] == StopCall(Some(g), Returned(true));
    assert t.stops[k] == StopCall(Some(g), Returned(true));
  }

  lemma EndedKept(s: State, step: Step, g: nat)
    requires Enabled(s, step) && g < |s.runs|
    ensures g < |Apply(s, step).runs| && (s.runs[g].ended ==> Apply(s, step).runs[g].ended)
  {
  }

  lemma OneRunKept(s: State, step: Step)
    requires OneRun(s) && StopsFit(s) && Enabled(s, step)
    ensures OneRun(Apply(s, step))
  {
    var t := Apply(s, step);
    StopsAreKept(s, step);
    forall g: nat | g < |t.runs| && t.current != Some(g) ensures Forgotten(t, g) {
      EndedKept(s, step, g);
      if s.current != Some(g) {
        ConfirmedKept(s, t, g);
      } else {
        assert StopFits(s, step.stop) && t.stops[step.stop] == StopCall(Some(g), Returned(true));
      }
    }
  }

  lemma RunsFitKept(s: State, step: Step)
    requires OneRun(s) && RunsFit(s) && StopsFit(s) && FlagFits(s) && Enabled(s, step)
    ensures RunsFit(Apply(s, step))
  {
    match step
    case BeginStop =>
      if s.current.Some? { assert RunFits(s.kind, s.runs[s.current.value]); }
    case Signal(k, _) => assert StopFits(s, k) && RunFits(s.kind, s.runs[s.stops[k].run.value]);
    case WorkerExits(g) => assert RunFits(s.kind, s.runs[g]);
    case Ends(g, _) => assert RunFits(s.kind, s.runs[g]);
    case Looks(g) => assert RunFits(s.kind, s.runs[g]);
    case _ =>
  }

  lemma StopsFitBegin(s: State, k: nat)
    requires OneRun(s) && RunsFit(s) && StopsFit(s) && FlagFits(s) && k <= |s.stops|
    ensures StopFits(Begin(s), k)
  {
    if s.current.Some? {
      assert RunFits(s.kind, s.runs[s.current.value]);
    }
    assert k < |s.stops| ==> StopFits(s, k);
  }

  lemma StopsFitSignal(s: State, j: nat, ok: bool, k: nat)
    requires StopsFit(s) && At(s, j) && s.stops[j].phase.Signalling? && k < |s.stops|
    ensures StopFits(Signalled(s, j, ok), k)
  {
    assert StopFits(s, j) && StopFits(s, k);
  }

  /** The steps that only move a Stop. */
  lemma StopsFitMove(s: State, step: Step, k: nat)
    requires StopsFit(s) && Enabled(s, step) && (step.SeesEnd? || step.TimesOut? || step.Clear?) && k < |s.stops|
    ensures StopFits(Apply(s, step), k)
  {
    assert StopFits(s, step.stop) && StopFits(s, k);
  }

  /** The steps that only move a run. */
  lemma StopsFitRun(s: State, step: Step, k: nat)
    requires StopsFit(s) && Enabled(s, step) && k < |s.stops|
    requires step.Start? || step.WorkerExits? || step.Ends? || step.Looks?
    ensures StopFits(Apply(s, step), k)
  {
    assert StopFits(s, k);
  }

  lemma StopsFitKept(s: State, step: Step)
    requires OneRun(s) && RunsFit(s) && StopsFit(s) && FlagFits(s) && Enabled(s, step)
    ensures StopsFit(Apply(s, step))
  {
    hide StopFits, OneRun, RunsFit, FlagFits, Begin, Signalled;
    forall k: nat | k < |Apply(s, step).stops| ensures StopFits(Apply(s, step), k) {
      StopCount(s, step);
      match step
      case BeginStop => StopsFitBegin(s, k);
      case Signal(j, ok) => StopsFitSignal(s, j, ok, k);
      case Start(_) => StopsFitRun(s, step, k);
      case WorkerExits(_) => StopsFitRun(s, step, k);
      case Ends(_, _) => StopsFitRun(s, step, k);
      case Looks(_) => StopsFitRun(s, step, k);
      case _ => StopsFitMove(s, step, k);
    }
  }

  lemma StopCount(s: State, step: Step)
    requires Enabled(s, step)
    ensures |Apply(s, step).stops| == |s.stops| + if step.BeginStop? then 1 else 0
  {
  }

  lemma FlagFitsKept(s: State, step: Step)
    requires OneRun(s) && RunsFit(s) && StopsFit(s) && FlagFits(s) && Enabled(s, step)
    ensures FlagFits(Apply(s, step))
  {
  }

  lemma InvKept(s: State, step: Step)
    requires Inv(s) && Enabled(s, step)
    ensures Inv(Apply(s, step))
  {
    OneRunKept(s, step);
    RunsFitKept(s, step);
    StopsFitKept(s, step);
    FlagFitsKept(s, step);
  }

  /** Every interleaving keeps the invariant. */
  lemma {:induction false} InvHolds(s: State, steps: seq<Step>)
    requires Inv(s) && Possible(s, steps)
    ensures Inv(After(s, steps))
    decreases |steps|
  {
    hide Inv;
    if steps != [] {
      InvKept(s, steps[0]);
      InvHolds(Apply(s, steps[0]), steps[1..]);
    }
  }

  // ---------------------------------------------------------------- what it means

  /**
   Two sets of workers or consumers never coexist, and a run is left behind only by a Stop that saw it
   end and returned nil.
   */
  lemma OneSetOfWorkers(kind: Kind, steps: seq<Step>, g: nat)
    requires Possible(Empty(kind), steps) && g < |After(Empty(kind), steps).runs|
    ensures var s := After(Empty(kind), steps);
            s.current != Some(g) ==> s.runs[g].ended && s.runs[g].workers == 0 && Confirmed(s, g)
  {
    InvHolds(Empty(kind), steps);
    var s := After(Empty(kind), steps);
    assert RunFits(s.kind, s.runs[g]);
    hide Possible, After;
  }

  /**
   A Stop that returned nil after seeing a run leaves no worker of it; one that timed out or failed has
   at least signalled it.
   */
  lemma StopMeansEnded(kind: Kind, steps: seq<Step>, k: nat)
    requires Possible(Empty(kind), steps) && k < |After(Empty(kind), steps).stops|
    requires After(Empty(kind), steps).stops[k].run.Some? && After(Empty(kind), steps).stops[k].phase.Returned?
    ensures var s := After(Empty(kind), steps);
            var g := s.stops[k].run.value;
            && g < |s.runs| && s.runs[g].signalled
            && (s.stops[k].phase.ok ==> s.runs[g].ended && s.runs[g].workers == 0)
  {
    InvHolds(Empty(kind), steps);
    var s := After(Empty(kind), steps);
    assert StopFits(s, k) && RunFits(s.kind, s.runs[s.stops[k].run.value]);
    hide Possible, After;
  }

  /**
   The subscriber forgets a run only in the last section of a Stop that saw this very run end: a late
   Stop clears nothing newer.
   */
  lemma OnlyItsOwnRun(kind: Kind, steps: seq<Step>, step: Step)
    requires Possible(Empty(kind), steps) && Enabled(After(Empty(kind), steps), step)
    ensures var (s, t) := (After(Empty(kind), steps), Apply(After(Empty(kind), steps), step));
            && (s.current.Some? && t.current != s.current ==>
                  && step.Clear? && t.current == None && s.stops[step.stop].run == s.current
                  && s.current.value < |s.runs| && s.runs[s.current.value].ended)
            && (s.current == None && t.current.Some? ==> step.Start? && t.current == Some(|s.runs|))
  {
    InvHolds(Empty(kind), steps);
    var s := After(Empty(kind), steps);
    assert step.Clear? ==> StopFits(s, step.stop);
    hide Possible, After;
  }

  /** Drain is called at most once per run, and only on NATS. */
  lemma DrainedOnce(kind: Kind, steps: seq<Step>, g: nat)
    requires Possible(Empty(kind), steps) && g < |After(Empty(kind), steps).runs|
    ensures var r := After(Empty(kind), steps).runs[g];
            && r.drains <= (if kind.JetStream? || kind.Core? then 1 else 0)
            && (kind.JetStream? ==> r.drains == if r.signalled then 1 else 0)
  {
    InvHolds(Empty(kind), steps);
    KindKept(Empty(kind), steps);
    var s := After(Empty(kind), steps);
    assert RunFits(s.kind, s.runs[g]);
    hide Possible, After;
  }

  /** A Drain that failed is the only one: the next Stop does not drain again but waits, with nothing under way. */
  lemma FailedDrainIsFinal()
    ensures var steps := [Start(1), BeginStop, Signal(0, false), BeginStop, Signal(1, true)];
            && Possible(Empty(Core), steps)
            && var s := After(Empty(Core), steps);
               && s.stops == [StopCall(Some(0), Returned(false)), StopCall(Some(0), Waiting)]
               && |s.runs| == 1 && s.runs[0].drains == 1 && s.runs[0].workers == 1 && !s.runs[0].ended
  {
  }

  /** The runs whose end is a failure of the subscription: on SQS and core none. */
  predicate FailsByItself(kind: Kind, r: Run) {
    r.unprompted && (kind.JetStream? || (kind.PubSub? && r.failed))
  }

  /**
   onError is called at most once per run, and only for one that ended by itself before any Stop
   signalled it; once its watcher looked it was called, unless a Stop signalled the run meanwhile.
   */
  lemma FailureReported(kind: Kind, steps: seq<Step>, g: nat)
    requires Possible(Empty(kind), steps) && g < |After(Empty(kind), steps).runs|
    ensures var r := After(Empty(kind), steps).runs[g];
            && (r.watch.Reported? ==> r.ended && FailsByItself(kind, r))
            && (!r.watch.Unseen? && !r.signalled ==> (r.watch.Reported? <==> FailsByItself(kind, r)))
            && (kind.Sqs? && r.ended ==> !r.unprompted)
  {
    InvHolds(Empty(kind), steps);
    KindKept(Empty(kind), steps);
    var s := After(Empty(kind), steps);
    assert RunFits(s.kind, s.runs[g]);
    hide Possible, After;
  }

  /** A run that ended is looked at: onError is called exactly when it failed by itself and no Stop signalled it. */
  lemma WatcherReports(kind: Kind, steps: seq<Step>, g: nat)
    requires Possible(Empty(kind), steps) && g < |After(Empty(kind), steps).runs|
    requires var r := After(Empty(kind), steps).runs[g]; r.ended && r.watch.Unseen?
    ensures var (r, more) := (After(Empty(kind), steps).runs[g], steps + [Looks(g)]);
            && Possible(Empty(kind), more) && g < |After(Empty(kind), more).runs|
            && (After(Empty(kind), more).runs[g].watch == Reported <==> !r.signalled && FailsByItself(kind, r))
  {
    InvHolds(Empty(kind), steps);
    KindKept(Empty(kind), steps);
    var s := After(Empty(kind), steps);
    assert RunFits(s.kind, s.runs[g]);
    Extend(Empty(kind), steps, Looks(g));
    hide Possible, After;
  }

  /** A consumer that closes by itself, and a Receive that fails. */
  lemma OwnFailureReported(kind: Kind)
    requires kind.JetStream? || kind.PubSub?
    ensures var steps := [Start(1), WorkerExits(0), Ends(0, true), Looks(0)];
            && Possible(Empty(kind), steps) && |After(Empty(kind), steps).runs| == 1
            && After(Empty(kind), steps).runs[0].watch == Reported
  {
  }

  lemma {:induction false} KindKept(s: State, steps: seq<Step>)
    requires Possible(s, steps)
    ensures After(s, steps).kind == s.kind
    decreases |steps|
  {
    if steps != [] {
      KindKept(Apply(s, steps[0]), steps[1..]);
    }
  }
}
