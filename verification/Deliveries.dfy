/** What holds of every delivery, for every script: pkg/eventmux/failure.go, mux.go and observer.go. */
module Deliveries {
  import opened Options
  import opened Faults
  import opened CloudEvents
  import opened Correlation
  import opened Settlement
  import Retry

  // ---------------------------------------------------------------- counting calls

  /**
   How often each call occurs: handler runs, delivery callbacks, OnMessage, OnPublish, publishes
   that returned, and publishes that succeeded.
   */
  datatype Tally = Tally(runs: nat, calls: nat, messages: nat, notices: nat, returned: nat, successes: nat)

  const ZERO := Tally(0, 0, 0, 0, 0, 0)

  function Plus(a: Tally, b: Tally): Tally {
    Tally(a.runs + b.runs, a.calls + b.calls, a.messages + b.messages, a.notices + b.notices,
          a.returned + b.returned, a.successes + b.successes)
  }

  function One(ev: Ev): Tally {
    match ev
    case Ran(_) => Tally(1, 0, 0, 0, 0, 0)
    case Called(_, _) => Tally(0, 1, 0, 0, 0, 0)
    case OnMessage(_, _) => Tally(0, 0, 1, 0, 0, 0)
    case OnPublish(_, _) => Tally(0, 0, 0, 1, 0, 0)
    case Published(_, answer, _) => OfAnswer(answer)
    case Copied(_, answer) => OfAnswer(answer)
  }

  function OfAnswer(answer: Answer): Tally {
    match answer
    case Ok => Tally(0, 0, 0, 0, 1, 1)
    case Fail(_) => Tally(0, 0, 0, 0, 1, 0)
    case Panic(_) => ZERO
  }

  function Tallied(trace: seq<Ev>): Tally {
    if trace == [] then ZERO else Plus(One(trace[0]), Tallied(trace[1..]))
  }

  lemma PlusLaws(a: Tally, b: Tally, c: Tally)
    ensures Plus(Plus(a, b), c) == Plus(a, Plus(b, c))
    ensures Plus(ZERO, a) == a && Plus(a, ZERO) == a
  {
  }

  lemma TallyOne(ev: Ev)
    ensures Tallied([ev]) == One(ev)
  {
    hide One, Plus;
    assert [ev][1..] == [];
    PlusLaws(One(ev), ZERO, ZERO);
  }

  lemma {:induction false} TallyAppend(a: seq<Ev>, b: seq<Ev>)
    ensures Tallied(a + b) == Plus(Tallied(a), Tallied(b))
    decreases |a|
  {
    hide One, Plus;
    if a == [] {
      assert a + b == b;
      PlusLaws(Tallied(b), ZERO, ZERO);
    } else {
      assert (a + b)[1..] == a[1..] + b;
      TallyAppend(a[1..], b);
      PlusLaws(One(a[0]), Tallied(a[1..]), Tallied(b));
    }
  }

  lemma {:induction false} TallyRuns(n: nat)
    ensures Tallied(Runs(n)) == Tally(n, 0, 0, 0, 0, 0)
    decreases n
  {
    hide Tallied;
    if n == 0 {
      TallyNone();
    } else {
      TallyRuns(n - 1);
      TallyAppend(Runs(n - 1), [Ran(n - 1)]);
      TallyOne(Ran(n - 1));
    }
  }

  lemma TallyNone()
    ensures Tallied([]) == ZERO
  {
  }

  lemma TallyNoticed(cfg: Config, publish: Ev, event: Event, answer: Answer)
    requires (publish.Published? || publish.Copied?) && publish.answer == answer
    ensures var t := Tallied(Noticed(cfg, publish, event, answer));
            && Undecided(cfg, t) && t.runs == 0
            && t.returned == (if answer.Panic? then 0 else 1) && t.successes == (if answer.Ok? then 1 else 0)
  {
    hide Tallied;
    TallyOne(publish);
    if cfg.observer && !answer.Panic? {
      TallyOne(OnPublish(event, answer));
      TallyAppend([publish], [OnPublish(event, answer)]);
    } else {
      assert [publish] + [] == [publish];
    }
  }

  /** A part of a trace in which nothing is decided, and the observer hears of every publish that returned. */
  predicate Undecided(cfg: Config, t: Tally) {
    t.calls == 0 && t.messages == 0 && t.notices == (if cfg.observer then t.returned else 0)
  }

  lemma TallyPublishResult(sdk: Sdk, cfg: Config, e: Event, s: Script, data: string, at: Outcome)
    ensures var (answer, evs) := PublishResult(sdk, cfg, e, s, data, at);
            var t := Tallied(evs);
            Undecided(cfg, t) && t.runs == 0 && t.successes == if answer.Ok? then 1 else 0
  {
    if s.encode == None {
      var r := ResultOf(sdk, e, s, data);
      TallyNoticed(cfg, Published(r, s.publish, at), r, s.publish);
    }
  }

  /** How often the handler ran in a delivery. */
  function RunsOf(cfg: Config, d: Delivery, s: Script): nat {
    Retry.Last(s.handling, Retry.Retries(cfg.retry, d.count), 0) + 1
  }

  lemma TallyPublished(sdk: Sdk, cfg: Config, d: Delivery, e: Event, s: Script, i: nat, data: Option<string>)
    requires i < |cfg.routes|
    ensures var (f, evs) := FindPublished(sdk, cfg, d, e, s, i, data);
            var t := Tallied(evs);
            && Undecided(cfg, t) && t.runs == 0 && t.successes <= 1
            && (t.successes == 1 ==> f.Success? && !cfg.publishAfterAck)
  {
    hide Tallied, PublishResult, ClassifyPublish, Wrap;
    TallyNone();
    if !cfg.publishAfterAck && cfg.routes[i] && data.Some? {
      TallyPublishResult(sdk, cfg, e, s, data.value, Pending);
    }
  }

  lemma TallyRouted(sdk: Sdk, cfg: Config, d: Delivery, e: Event, s: Script, i: nat)
    requires i < |cfg.routes|
    ensures var (f, evs) := FindRouted(sdk, cfg, d, e, s, i);
            var t := Tallied(evs);
            && Undecided(cfg, t) && t.runs in {0, RunsOf(cfg, d, s)}
            && t.successes <= 1 && (t.successes == 1 ==> f.Success? && !cfg.publishAfterAck)
  {
    hide FindPublished, Runs, Retry.Outcome, Classify, PanicCause, Wrap, Tallied;
    var runs := Runs(RunsOf(cfg, d, s));
    var result := Retry.Outcome(s.handling, Retry.Retries(cfg.retry, d.count));
    TallyNone();
    TallyRuns(RunsOf(cfg, d, s));
    if s.decode == Ok && s.preflight == Ok && result.Returned? {
      var (f, evs) := FindPublished(sdk, cfg, d, e, s, i, result.data);
      assert FindRouted(sdk, cfg, d, e, s, i) == (f, runs + evs);
      TallyPublished(sdk, cfg, d, e, s, i, result.data);
      TallyAppend(runs, evs);
      hide FindRouted, RunsOf;
    }
  }

  lemma TallyStaged(sdk: Sdk, cfg: Config, d: Delivery, e: Event, undecodable: Option<Error>, s: Script)
    ensures var (f, staged) := Find(sdk, cfg, d, e, undecodable, s);
            var t := Tallied(staged);
            && Undecided(cfg, t) && t.runs in {0, RunsOf(cfg, d, s)}
            && t.successes <= 1 && (t.successes == 1 ==> f.Success? && !cfg.publishAfterAck)
  {
    var found := FirstMatch(cfg, s, 0);
    if found.FoundAt? && found.route < |cfg.routes| {
      TallyRouted(sdk, cfg, d, e, s, found.route);
    }
    hide FindRouted, FirstMatch, RunsOf;
  }

  lemma TallyDefinitively(cfg: Config, d: Delivery, e: Event, reason: Reason, cause: Error, s: Script, k: nat)
    ensures var (v, evs) := Definitively(cfg, d, e, reason, cause, s, k);
            var t := Tallied(evs);
            && Undecided(cfg, t) && t.runs == 0
            && t.successes == (if cfg.deadLetter && s.copy(k).Ok? then 1 else 0)
            && (t.successes == 1 ==> v.Some? && v.value.outcome == Discarded)
  {
    if cfg.deadLetter {
      var copy := CopyOf(e, reason, cause);
      TallyNoticed(cfg, Copied(copy, s.copy(k)), copy, s.copy(k));
    }
  }

  lemma TallyCopies(cfg: Config, d: Delivery, e: Event, f: Finding, s: Script)
    ensures var (v, evs) := Decide(cfg, d, e, f, s);
            var t := Tallied(evs);
            && Undecided(cfg, t) && t.runs == 0
            && t.successes == (if IsDefinitive(f) && cfg.deadLetter && s.copy(LastCopy(f, s)).Ok? then 1 else 0)
            && (t.successes == 1 ==> v.outcome == Discarded)
  {
    hide Tallied, Definitively, PanicCause;
    TallyNone();
    match f
    case Crash(value) =>
      var evs := Recovered(cfg, d, e, value, s, 0).1;
      TallyDefinitively(cfg, d, e, Panicking, PanicCause(value), s, 0);
      assert [] + evs == evs;
    case Failure(Some(reason), cause) => TallyFailure(cfg, d, e, reason, cause, s);
    case _ =>
  }

  lemma TallyFailure(cfg: Config, d: Delivery, e: Event, reason: Reason, cause: Error, s: Script)
    ensures var f := Failure(Some(reason), cause);
            var (v, evs) := Decide(cfg, d, e, f, s);
            var t := Tallied(evs);
            && Undecided(cfg, t) && t.runs == 0
            && t.successes == (if cfg.deadLetter && s.copy(LastCopy(f, s)).Ok? then 1 else 0)
            && (t.successes == 1 ==> v.outcome == Discarded)
  {
    hide Tallied, PanicCause;
    var (v, evs) := Definitively(cfg, d, e, reason, cause, s, 0);
    TallyDefinitively(cfg, d, e, reason, cause, s, 0);
    if v == None {
      var value := s.copy(0).value;
      TallyDefinitively(cfg, d, e, Panicking, PanicCause(value), s, 1);
      hide Definitively;
      TallyAppend(evs, Recovered(cfg, d, e, value, s, 1).1);
    }
  }

  lemma TallyTold(d: Delivery, v: Verdict, s: Script)
    ensures var t := Tallied(Told(d, v, s));
            && t.calls == (if FnOf(d, v.outcome).Some? then 1 else 0)
            && t.messages == (if v.outcome != Pending && !CallbackPanics(d, v.outcome, s) then 1 else 0)
            && t.runs == t.notices == t.returned == t.successes == 0
  {
    hide Tallied, CallbackPanics, FnOf;
    TallyNone();
    if v.outcome == Pending {
      PendingCallsNothing(d);
    } else {
      var fn := FnOf(d, v.outcome);
      TallyCalls(if fn.Some? then [Called(fn.value, s.callback(fn.value))] else [],
                 if CallbackPanics(d, v.outcome, s) then [] else [OnMessage(v.outcome, v.reason)]);
    }
  }

  lemma TallyCalls(call: seq<Ev>, told: seq<Ev>)
    requires |call| <= 1 && |told| <= 1
    requires (call != [] ==> call[0].Called?) && (told != [] ==> told[0].OnMessage?)
    ensures Tallied(call + told) == Tally(0, |call|, |told|, 0, 0, 0)
  {
    hide *;
    TallyCall(call);
    TallyMessage(told);
    TallyAppend(call, told);
    Sum(|call|, |told|);
  }

  lemma Sum(calls: nat, messages: nat)
    ensures Plus(Tally(0, calls, 0, 0, 0, 0), Tally(0, 0, messages, 0, 0, 0)) == Tally(0, calls, messages, 0, 0, 0)
  {
  }

  lemma TallyCall(call: seq<Ev>)
    requires |call| <= 1 && (call != [] ==> call[0].Called?)
    ensures Tallied(call) == Tally(0, |call|, 0, 0, 0, 0)
  {
    hide Tallied;
    if call == [] {
      TallyNone();
    } else {
      assert call == [call[0]];
      TallyOne(call[0]);
    }
  }

  lemma TallyMessage(told: seq<Ev>)
    requires |told| <= 1 && (told != [] ==> told[0].OnMessage?)
    ensures Tallied(told) == Tally(0, 0, |told|, 0, 0, 0)
  {
    hide Tallied;
    if told == [] {
      TallyNone();
    } else {
      assert told == [told[0]];
      TallyOne(told[0]);
    }
  }

  lemma PendingCallsNothing(d: Delivery)
    ensures FnOf(d, Pending) == None
  {
  }

  lemma TallyAfterAck(sdk: Sdk, cfg: Config, d: Delivery, e: Event, f: Finding, s: Script)
    ensures var t := Tallied(AfterAck(sdk, cfg, d, e, f, s));
            && Undecided(cfg, t) && t.runs == 0 && t.successes <= 1
            && (t.successes == 1 ==> f.Success? && cfg.publishAfterAck)
  {
    if AfterAck(sdk, cfg, d, e, f, s) != [] {
      TallyPublishResult(sdk, cfg, e, s, f.data.value, Acked);
    }
  }

  /** The four parts of a delivery's trace. */
  lemma TallyParts(sdk: Sdk, cfg: Config, d: Delivery, e: Event, undecodable: Option<Error>, s: Script)
    ensures var (f, staged) := Find(sdk, cfg, d, Stamped(e), undecodable, s);
            var (v, copies) := Decide(cfg, d, Stamped(e), f, s);
            Tallied(Deliver(sdk, cfg, d, e, undecodable, s).trace) ==
            Plus(Plus(Plus(Tallied(staged), Tallied(copies)), Tallied(Told(d, v, s))),
                 Tallied(AfterAck(sdk, cfg, d, Stamped(e), f, s)))
  {
    var (f, staged) := Find(sdk, cfg, d, Stamped(e), undecodable, s);
    var (v, copies) := Decide(cfg, d, Stamped(e), f, s);
    hide Find, Decide, Told, AfterAck, Stamped;
    TallyAppend(staged, copies);
    TallyAppend(staged + copies, Told(d, v, s));
    TallyAppend(staged + copies + Told(d, v, s), AfterAck(sdk, cfg, d, Stamped(e), f, s));
  }

  // ---------------------------------------------------------------- when a message is nacked, or left undecided

  /**
   The dead-letter publish that a delivery's decision rests on: the first, unless it panicked in the
   handler's own failure.
   */
  function LastCopy(f: Finding, s: Script): nat {
    if f.Failure? && s.copy(0).Panic? then 1 else 0
  }

  predicate IsDefinitive(f: Finding) {
    f.Crash? || (f.Failure? && f.reason.Some?)
  }

  /** Exactly when a delivery is nacked: a retryable failure, or a dead-letter copy worth another attempt. */
  lemma NackedExactly(sdk: Sdk, cfg: Config, d: Delivery, e: Event, undecodable: Option<Error>, s: Script)
    ensures var f := Find(sdk, cfg, d, Stamped(e), undecodable, s).0;
            Deliver(sdk, cfg, d, e, undecodable, s).outcome == Nacked <==>
            || (f.Failure? && f.reason == None)
            || (IsDefinitive(f) && cfg.deadLetter && RedeliveryBounded(cfg, d)
                && s.copy(LastCopy(f, s)).Fail? && !IsNonRetryable(s.copy(LastCopy(f, s)).err))
  {
    hide Find, RedeliveryBounded;
  }

  /** A nack always leads to a redelivery the transport can make and the limit still allows. */
  lemma NackedWithinLimit(sdk: Sdk, cfg: Config, d: Delivery, e: Event, undecodable: Option<Error>, s: Script)
    requires Deliver(sdk, cfg, d, e, undecodable, s).outcome == Nacked
    ensures d.hasNack && !PastMaxRetries(cfg, d)
  {
    NackedExactly(sdk, cfg, d, e, undecodable, s);
    RetryableFailure(sdk, cfg, d, Stamped(e), undecodable, s);
    hide Find;
  }

  lemma RetryableFailure(sdk: Sdk, cfg: Config, d: Delivery, e: Event, undecodable: Option<Error>, s: Script)
    ensures var f := Find(sdk, cfg, d, e, undecodable, s).0;
            f.Failure? && f.reason == None ==> d.hasNack && !PastMaxRetries(cfg, d)
  {
  }

  /** The dead-letter publish of the recovery itself panics, after a finding that f names definitive. */
  predicate RecoveryPanics(cfg: Config, f: Finding, s: Script) {
    IsDefinitive(f) && cfg.deadLetter && s.copy(0).Panic? && s.copy(LastCopy(f, s)).Panic?
  }

  /** Exactly when a message stays undecided. */
  lemma PendingExactly(sdk: Sdk, cfg: Config, d: Delivery, e: Event, undecodable: Option<Error>, s: Script)
    ensures var f := Find(sdk, cfg, d, Stamped(e), undecodable, s).0;
            Deliver(sdk, cfg, d, e, undecodable, s).outcome == Pending <==> RecoveryPanics(cfg, f, s)
  {
    hide Find;
  }

  // ---------------------------------------------------------------- what a failing handler leads to

  /** The stages pass, on a route, and the handler chain ends in err. */
  predicate HandlerFails(cfg: Config, d: Delivery, undecodable: Option<Error>, s: Script, err: Error) {
    && undecodable == None && FirstMatch(cfg, s, 0).FoundAt? && FirstMatch(cfg, s, 0).route < |cfg.routes|
    && s.decode == Ok && s.preflight == Ok
    && Retry.Outcome(s.handling, Retry.Retries(cfg.retry, d.count)) == Retry.Failed(err)
  }

  /** A handler's error is worth a redelivery, and the broker can make one. */
  predicate WorthReturning(cfg: Config, d: Delivery, err: Error) {
    !IsNonRetryable(err) && d.hasNack && !PastMaxRetries(cfg, d)
  }

  /** The first dead-letter publish ends the matter: it worked, there is none, or another delivery is no use. */
  predicate CopySettles(cfg: Config, d: Delivery, s: Script) {
    || !cfg.deadLetter || s.copy(0).Ok?
    || (s.copy(0).Fail? && (IsNonRetryable(s.copy(0).err) || !RedeliveryBounded(cfg, d)))
  }

  /**
   A handler's error is given back to the broker when that is worth it. Otherwise the message is
   discarded with exactly one reason, unless its copy failed in a way worth a bounded redelivery,
   which nacks it, or panicked, which is then the failure the recovery reports.
   */
  lemma HandlerFailureTold(
    sdk: Sdk, cfg: Config, d: Delivery, e: Event, undecodable: Option<Error>, s: Script, err: Error)
    requires HandlerFails(cfg, d, undecodable, s, err)
    ensures var r := Deliver(sdk, cfg, d, e, undecodable, s);
            var panics := cfg.deadLetter && s.copy(0).Panic?;
            && (WorthReturning(cfg, d, err) ==> r.outcome == Nacked && r.reason == None && r.cause == Some(err))
            && (!WorthReturning(cfg, d, err) && !panics ==>
                  && r.outcome == (if CopySettles(cfg, d, s) then Discarded else Nacked)
                  && (r.outcome == Nacked <==> r.reason == None)
                  && (r.outcome == Discarded ==>
                        && r.cause == Some(err)
                        && (r.reason == Some(Definitive) <==> IsNonRetryable(err))
                        && (r.reason == Some(NoRedelivery) <==> !IsNonRetryable(err) && !d.hasNack)
                        && (r.reason == Some(MaxRetries) <==>
                              !IsNonRetryable(err) && d.hasNack && PastMaxRetries(cfg, d))))
            && (!WorthReturning(cfg, d, err) && panics ==>
                  && (r.outcome == Pending <==> s.copy(1).Panic?)
                  && (r.outcome == Discarded ==> r.reason == Some(Panicking))
                  && r.outcome != Acked)
  {
    var f := Find(sdk, cfg, d, Stamped(e), undecodable, s).0;
    assert f == Failure(Classify(cfg, d, err), err);
    hide Find, Stamped, FirstMatch, Retry.Outcome;
  }

  /** No two reasons have the same text. */
  lemma ReasonTextsDiffer(a: Reason, b: Reason)
    ensures ReasonText(a) == ReasonText(b) <==> a == b
  {
    assert ReasonText(Invalid)[0] == 'v' && ReasonText(MaxRetries)[0] == 'm';
    assert ReasonText(Definitive)[2] == 'n' && ReasonText(NoRedelivery)[2] == 'r';
  }

  // ---------------------------------------------------------------- callbacks, observers and publishes

  /**
   At most one callback and one OnMessage. OnMessage runs exactly when the message is decided and
   its callback did not panic, and the observer hears of exactly the publishes that returned.
   */
  lemma DecidedOnce(sdk: Sdk, cfg: Config, d: Delivery, e: Event, undecodable: Option<Error>, s: Script)
    ensures var r := Deliver(sdk, cfg, d, e, undecodable, s);
            var t := Tallied(r.trace);
            && t.calls == (if FnOf(d, r.outcome).Some? then 1 else 0)
            && t.messages == (if r.outcome != Pending && !CallbackPanics(d, r.outcome, s) then 1 else 0)
            && t.notices == (if cfg.observer then t.returned else 0)
            && t.runs in {0, RunsOf(cfg, d, s)}
  {
    var f := Find(sdk, cfg, d, Stamped(e), undecodable, s).0;
    var v := Decide(cfg, d, Stamped(e), f, s).0;
    TallyParts(sdk, cfg, d, e, undecodable, s);
    TallyStaged(sdk, cfg, d, Stamped(e), undecodable, s);
    TallyCopies(cfg, d, Stamped(e), f, s);
    TallyTold(d, v, s);
    TallyAfterAck(sdk, cfg, d, Stamped(e), f, s);
    hide Find, Decide, Told, AfterAck, Stamped, Tallied, RunsOf, CallbackPanics;
  }

  /**
   The documented promise, by the script alone: when no delivery callback panics, OnMessage runs
   exactly once, except that it never runs when the recovery's own dead-letter publish panicked.
   */
  lemma ToldExactlyOnce(sdk: Sdk, cfg: Config, d: Delivery, e: Event, undecodable: Option<Error>, s: Script)
    requires forall fn :: !s.callback(fn).Panic?
    ensures var f := Find(sdk, cfg, d, Stamped(e), undecodable, s).0;
            Tallied(Deliver(sdk, cfg, d, e, undecodable, s).trace).messages ==
            if RecoveryPanics(cfg, f, s) then 0 else 1
  {
    DecidedOnce(sdk, cfg, d, e, undecodable, s);
    PendingExactly(sdk, cfg, d, e, undecodable, s);
    hide Deliver, Find, Stamped, Tallied, RecoveryPanics;
  }

  /** Every OnMessage and every callback in a trace is the recorded decision's. */
  lemma ToldTheDecision(sdk: Sdk, cfg: Config, d: Delivery, e: Event, undecodable: Option<Error>, s: Script, ev: Ev)
    requires ev in Deliver(sdk, cfg, d, e, undecodable, s).trace
    ensures var r := Deliver(sdk, cfg, d, e, undecodable, s);
            && (ev.OnMessage? ==> ev == OnMessage(r.outcome, r.reason))
            && (ev.Called? ==> Some(ev.fn) == FnOf(d, r.outcome) && ev.answer == s.callback(ev.fn))
  {
    var (f, staged) := Find(sdk, cfg, d, Stamped(e), undecodable, s);
    var (v, copies) := Decide(cfg, d, Stamped(e), f, s);
    var after := AfterAck(sdk, cfg, d, Stamped(e), f, s);
    TallyStaged(sdk, cfg, d, Stamped(e), undecodable, s);
    TallyCopies(cfg, d, Stamped(e), f, s);
    TallyAfterAck(sdk, cfg, d, Stamped(e), f, s);
    hide Find, Decide, AfterAck, Stamped, RunsOf, Tallied, Told, FnOf;
    if ev in staged {
      NotTallied(staged, ev);
    } else if ev in copies {
      NotTallied(copies, ev);
    } else if ev in after {
      NotTallied(after, ev);
    } else {
      ToldOnly(d, v, s, ev);
    }
  }

  lemma ToldOnly(d: Delivery, v: Verdict, s: Script, ev: Ev)
    requires ev in Told(d, v, s)
    ensures || ev == OnMessage(v.outcome, v.reason)
            || (ev.Called? && Some(ev.fn) == FnOf(d, v.outcome) && ev.answer == s.callback(ev.fn))
  {
  }

  /** The decision's callback, when there is one, is called. */
  lemma CallMade(sdk: Sdk, cfg: Config, d: Delivery, e: Event, undecodable: Option<Error>, s: Script)
    requires FnOf(d, Deliver(sdk, cfg, d, e, undecodable, s).outcome).Some?
    ensures var r := Deliver(sdk, cfg, d, e, undecodable, s);
            var fn := FnOf(d, r.outcome).value;
            Called(fn, s.callback(fn)) in r.trace
  {
    var f := Find(sdk, cfg, d, Stamped(e), undecodable, s).0;
    var v := Decide(cfg, d, Stamped(e), f, s).0;
    hide Find, Decide, AfterAck, Stamped;
    assert Called(FnOf(d, v.outcome).value, s.callback(FnOf(d, v.outcome).value)) in Told(d, v, s);
    hide Told;
  }

  lemma {:induction false} NotTallied(trace: seq<Ev>, ev: Ev)
    requires ev in trace && Tallied(trace).calls == 0 && Tallied(trace).messages == 0
    ensures !ev.Called? && !ev.OnMessage?
    decreases |trace|
  {
    if ev != trace[0] {
      NotTallied(trace[1..], ev);
    }
  }

  /** One delivery gets at most one result or copy out, and then the message is not redelivered by decision. */
  lemma OneFate(sdk: Sdk, cfg: Config, d: Delivery, e: Event, undecodable: Option<Error>, s: Script)
    ensures var r := Deliver(sdk, cfg, d, e, undecodable, s);
            Tallied(r.trace).successes <= 1 && (Tallied(r.trace).successes == 1 ==> r.outcome in {Acked, Discarded})
  {
    var f := Find(sdk, cfg, d, Stamped(e), undecodable, s).0;
    var v := Decide(cfg, d, Stamped(e), f, s).0;
    TallyParts(sdk, cfg, d, e, undecodable, s);
    TallyStaged(sdk, cfg, d, Stamped(e), undecodable, s);
    TallyCopies(cfg, d, Stamped(e), f, s);
    TallyTold(d, v, s);
    TallyAfterAck(sdk, cfg, d, Stamped(e), f, s);
    assert f.Success? ==> v.outcome == Acked;
    hide Find, Decide, Told, AfterAck, Stamped, Tallied, RunsOf;
  }

  /** A message discarded for a reason, with a dead-letter publisher: the copy went out, or was rightly given up. */
  lemma DiscardedFate(sdk: Sdk, cfg: Config, d: Delivery, e: Event, undecodable: Option<Error>, s: Script)
    requires cfg.deadLetter
    ensures var r := Deliver(sdk, cfg, d, e, undecodable, s);
            var f := Find(sdk, cfg, d, Stamped(e), undecodable, s).0;
            var answer := s.copy(LastCopy(f, s));
            r.outcome == Discarded && r.reason.Some? ==>
              || (answer.Ok? && Tallied(r.trace).successes == 1)
              || (answer.Fail? && Tallied(r.trace).successes == 0
                  && (IsNonRetryable(answer.err) || !RedeliveryBounded(cfg, d)))
  {
    var f := Find(sdk, cfg, d, Stamped(e), undecodable, s).0;
    var v := Decide(cfg, d, Stamped(e), f, s).0;
    TallyParts(sdk, cfg, d, e, undecodable, s);
    TallyStaged(sdk, cfg, d, Stamped(e), undecodable, s);
    TallyCopies(cfg, d, Stamped(e), f, s);
    TallyTold(d, v, s);
    TallyAfterAck(sdk, cfg, d, Stamped(e), f, s);
    hide Find, Told, AfterAck, Stamped, Tallied, RunsOf, RedeliveryBounded;
  }
}
