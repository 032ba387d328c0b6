/** What the end of each stage of a delivery leads to, for every script: pkg/eventmux/mux.go and failure.go. */
module Stages {
  import opened Options
  import opened Faults
  import opened CloudEvents
  import opened Correlation
  import opened Settlement
  import Deliveries
  import Ordering
  import Retry

  // ---------------------------------------------------------------- the route

  /** Route i is the first one whose filter matches. */
  predicate Routes(cfg: Config, s: Script, i: nat) {
    i < |cfg.routes| && s.filter(i) == Matches && forall j: nat :: j < i ==> s.filter(j) == Skips
  }

  /** The filter of route i panics before any other matched. */
  predicate FilterFails(cfg: Config, s: Script, i: nat, value: string) {
    i < |cfg.routes| && s.filter(i) == FilterPanics(value) && forall j: nat :: j < i ==> s.filter(j) == Skips
  }

  predicate AllSkip(cfg: Config, s: Script) {
    forall j: nat :: j < |cfg.routes| ==> s.filter(j) == Skips
  }

  /** The search from route k on, when all before it skip. */
  lemma {:induction false} SearchFrom(cfg: Config, s: Script, k: nat)
    requires forall j: nat :: j < k ==> s.filter(j) == Skips
    ensures var found := FirstMatch(cfg, s, k);
            && (found.FoundAt? ==> Routes(cfg, s, found.route))
            && (found.FilterCrash? ==> exists i :: FilterFails(cfg, s, i, found.value))
            && (found.NotFound? ==> AllSkip(cfg, s))
    decreases |cfg.routes| - k
  {
    if k < |cfg.routes| {
      match s.filter(k)
      case Skips => SearchFrom(cfg, s, k + 1);
      case FilterPanics(v) => assert FilterFails(cfg, s, k, v);
      case Matches =>
    }
  }

  lemma {:induction false} SkipTo(cfg: Config, s: Script, k: nat)
    requires k <= |cfg.routes| && forall j: nat :: j < k ==> s.filter(j) == Skips
    ensures FirstMatch(cfg, s, 0) == FirstMatch(cfg, s, k)
    decreases k
  {
    if k > 0 {
      SkipTo(cfg, s, k - 1);
    }
  }

  /** The search finds a route, a filter's panic or nothing exactly when it should. */
  lemma SearchExactly(cfg: Config, s: Script, i: nat, value: string)
    ensures FirstMatch(cfg, s, 0) == FoundAt(i) <==> Routes(cfg, s, i)
    ensures FilterFails(cfg, s, i, value) ==> FirstMatch(cfg, s, 0) == FilterCrash(value)
    ensures FirstMatch(cfg, s, 0) == FilterCrash(value) ==> exists j :: FilterFails(cfg, s, j, value)
    ensures FirstMatch(cfg, s, 0) == NotFound <==> AllSkip(cfg, s)
  {
    SearchFrom(cfg, s, 0);
    if Routes(cfg, s, i) || FilterFails(cfg, s, i, value) {
      SkipTo(cfg, s, i);
    }
    if AllSkip(cfg, s) {
      SkipTo(cfg, s, |cfg.routes|);
    }
  }

  // ---------------------------------------------------------------- what a definitive failure comes to

  /** Another delivery of the message is sure to be its last one at some point. */
  predicate Bounded(cfg: Config, d: Delivery) {
    d.hasNack && 0 < d.count <= cfg.maxRetries
  }

  /**
   The message was discarded for the reason, or its copy failed in a way worth a bounded redelivery
   and it was nacked with an error that is all three: the cause, the copy's and a failed publish.
   */
  predicate EndsWith(cfg: Config, d: Delivery, copy: Answer, r: Report, reason: Reason, cause: Error) {
    if cfg.deadLetter && copy.Fail? && !IsNonRetryable(copy.err) && Bounded(cfg, d) then
      && r.outcome == Nacked && r.reason == None
      && r.cause.Some? && r.cause.value.marks == cause.marks + {Publication} + copy.err.marks
    else
      r.outcome == Discarded && r.reason == Some(reason) && r.cause == Some(cause)
  }

  /** A panic outside the handler: the recovery reports it, unless its own dead-letter publish, the k-th, panics too. */
  predicate RecoveredFrom(cfg: Config, d: Delivery, s: Script, r: Report, k: nat, value: string) {
    if cfg.deadLetter && s.copy(k).Panic? then r.outcome == Pending && r.reason == None && r.cause == None
    else EndsWith(cfg, d, s.copy(k), r, Panicking, PanicCause(value))
  }

  /** A definitive failure: it is reported for its reason, unless the dead-letter publish panics. */
  predicate ReportedFor(cfg: Config, d: Delivery, s: Script, r: Report, reason: Reason, cause: Error) {
    if cfg.deadLetter && s.copy(0).Panic? then RecoveredFrom(cfg, d, s, r, 1, s.copy(0).value)
    else EndsWith(cfg, d, s.copy(0), r, reason, cause)
  }

  /** The handler did not run, and no result was published. */
  predicate Untouched(r: Report) {
    forall ev :: ev in r.trace ==> !ev.Ran? && !ev.Published?
  }

  lemma FailureEnds(
      sdk: Sdk, cfg: Config, d: Delivery, e: Event, undecodable: Option<Error>, s: Script, reason: Reason, cause: Error)
    requires Find(sdk, cfg, d, Stamped(e), undecodable, s).0 == Failure(Some(reason), cause)
    ensures ReportedFor(cfg, d, s, Deliver(sdk, cfg, d, e, undecodable, s), reason, cause)
  {
    hide Find, Stamped, CopyOf, PanicCause;
  }

  lemma CrashEnds(sdk: Sdk, cfg: Config, d: Delivery, e: Event, undecodable: Option<Error>, s: Script, value: string)
    requires Find(sdk, cfg, d, Stamped(e), undecodable, s).0 == Crash(value)
    ensures RecoveredFrom(cfg, d, s, Deliver(sdk, cfg, d, e, undecodable, s), 0, value)
  {
    hide Find, Stamped, CopyOf, PanicCause;
  }

  lemma NothingStaged(sdk: Sdk, cfg: Config, d: Delivery, e: Event, undecodable: Option<Error>, s: Script)
    requires var (f, evs) := Find(sdk, cfg, d, Stamped(e), undecodable, s); evs == [] && !f.Success?
    ensures Untouched(Deliver(sdk, cfg, d, e, undecodable, s))
  {
    var r := Deliver(sdk, cfg, d, e, undecodable, s);
    forall ev | ev in r.trace ensures !ev.Ran? && !ev.Published? {
      Ordering.PlacedHas(sdk, cfg, d, e, undecodable, s, ev);
      hide Find, Decide, Told, AfterAck, Stamped;
    }
  }

  // ---------------------------------------------------------------- before the handler

  /** A message whose envelope the transport could not decode is never routed. */
  lemma UndecodableTold(sdk: Sdk, cfg: Config, d: Delivery, e: Event, err: Error, s: Script)
    ensures var r := Deliver(sdk, cfg, d, e, Some(err), s);
            ReportedFor(cfg, d, s, r, Undecodable, err) && Untouched(r)
  {
    assert Find(sdk, cfg, d, Stamped(e), Some(err), s) == (Failure(Some(Undecodable), err), []);
    FailureEnds(sdk, cfg, d, e, Some(err), s, Undecodable, err);
    NothingStaged(sdk, cfg, d, e, Some(err), s);
  }

  /** A message without a route is discarded without a reason, and no copy goes out. */
  lemma UnroutedTold(sdk: Sdk, cfg: Config, d: Delivery, e: Event, s: Script)
    requires AllSkip(cfg, s)
    ensures var r := Deliver(sdk, cfg, d, e, None, s);
            && r.outcome == Discarded && r.reason == None
            && r.cause == Some(ERR_NO_ROUTE) && ERR_NO_ROUTE.marks == {Mark.NoRoute}
            && r.trace == Told(d, Verdict(Discarded, None, Some(ERR_NO_ROUTE)), s)
  {
    SearchExactly(cfg, s, 0, "");
    hide FirstMatch, Told;
  }

  lemma FilterPanicTold(sdk: Sdk, cfg: Config, d: Delivery, e: Event, s: Script, i: nat, value: string)
    requires FilterFails(cfg, s, i, value)
    ensures var r := Deliver(sdk, cfg, d, e, None, s);
            RecoveredFrom(cfg, d, s, r, 0, value) && Untouched(r)
  {
    SearchExactly(cfg, s, i, value);
    assert Find(sdk, cfg, d, Stamped(e), None, s) == (Crash(value), []) by { hide FirstMatch; }
    CrashEnds(sdk, cfg, d, e, None, s, value);
    NothingStaged(sdk, cfg, d, e, None, s);
  }

  /** A payload that does not decode is poison, whatever its error and however often it came. */
  lemma DecodeTold(sdk: Sdk, cfg: Config, d: Delivery, e: Event, s: Script, i: nat)
    requires Routes(cfg, s, i) && s.decode != Ok
    ensures var r := Deliver(sdk, cfg, d, e, None, s);
            && Untouched(r)
            && (s.decode.Fail? ==> ReportedFor(cfg, d, s, r, Undecodable, Wrap(ERR_DECODE, s.decode.err)))
            && (s.decode.Panic? ==> RecoveredFrom(cfg, d, s, r, 0, s.decode.value))
  {
    SearchExactly(cfg, s, i, "");
    hide FirstMatch, Wrap;
    assert Find(sdk, cfg, d, Stamped(e), None, s).1 == [];
    NothingStaged(sdk, cfg, d, e, None, s);
    match s.decode
    case Fail(err) => FailureEnds(sdk, cfg, d, e, None, s, Undecodable, Wrap(ERR_DECODE, err));
    case Panic(v) => CrashEnds(sdk, cfg, d, e, None, s, v);
  }

  /** A preflight refusal is a definitive failure too, and so is its panic. */
  lemma PreflightTold(sdk: Sdk, cfg: Config, d: Delivery, e: Event, s: Script, i: nat)
    requires Routes(cfg, s, i) && s.decode == Ok && s.preflight != Ok
    ensures var r := Deliver(sdk, cfg, d, e, None, s);
            && Untouched(r)
            && (s.preflight.Fail? ==> ReportedFor(cfg, d, s, r, Invalid, s.preflight.err))
            && (s.preflight.Panic? ==> ReportedFor(cfg, d, s, r, Panicking, PanicCause(s.preflight.value)))
  {
    SearchExactly(cfg, s, i, "");
    hide FirstMatch, PanicCause;
    assert Find(sdk, cfg, d, Stamped(e), None, s).1 == [];
    NothingStaged(sdk, cfg, d, e, None, s);
    match s.preflight
    case Fail(err) => FailureEnds(sdk, cfg, d, e, None, s, Invalid, err);
    case Panic(v) => FailureEnds(sdk, cfg, d, e, None, s, Panicking, PanicCause(v));
  }

  // ---------------------------------------------------------------- from the handler on

  /** The message reaches the handler of route i, and its retry loop ends in a. */
  predicate Handles(cfg: Config, d: Delivery, s: Script, i: nat, a: Retry.Attempt) {
    && Routes(cfg, s, i) && s.decode == Ok && s.preflight == Ok
    && Retry.Outcome(s.handling, Retry.Retries(cfg.retry, d.count)) == a
  }

  lemma HandlerPanicTold(sdk: Sdk, cfg: Config, d: Delivery, e: Event, s: Script, i: nat, value: string)
    requires Handles(cfg, d, s, i, Retry.Crashed(value))
    ensures ReportedFor(cfg, d, s, Deliver(sdk, cfg, d, e, None, s), Panicking, PanicCause(value))
    ensures PanicCause(value).marks == {Mark.Panicked}
  {
    assert PanicCause(value).marks == {Mark.Panicked};
    SearchExactly(cfg, s, i, "");
    hide FirstMatch, PanicCause, Retry.Outcome;
    FailureEnds(sdk, cfg, d, e, None, s, Panicking, PanicCause(value));
  }

  /** A handler's error goes back to the broker unless something stands in the way; then it is reported for that. */
  lemma HandlerErrorTold(sdk: Sdk, cfg: Config, d: Delivery, e: Event, s: Script, i: nat, err: Error)
    requires Handles(cfg, d, s, i, Retry.Failed(err))
    ensures var r := Deliver(sdk, cfg, d, e, None, s);
            if IsNonRetryable(err) then ReportedFor(cfg, d, s, r, Definitive, err)
            else if !d.hasNack then ReportedFor(cfg, d, s, r, NoRedelivery, err)
            else if 0 < cfg.maxRetries < d.count then ReportedFor(cfg, d, s, r, MaxRetries, err)
            else r.outcome == Nacked && r.reason == None && r.cause == Some(err)
  {
    SearchExactly(cfg, s, i, "");
    hide FirstMatch, Retry.Outcome;
    var reason := Classify(cfg, d, err);
    assert Find(sdk, cfg, d, Stamped(e), None, s).0 == Failure(reason, err);
    if reason.Some? {
      FailureEnds(sdk, cfg, d, e, None, s, reason.value, err);
    }
    hide Find, ReportedFor;
  }

  /** Without a publisher, or without data, the message is acked and nothing goes out, in either order. */
  lemma NothingToPublish(sdk: Sdk, cfg: Config, d: Delivery, e: Event, s: Script, i: nat, data: Option<string>)
    requires Handles(cfg, d, s, i, Retry.Returned(data)) && (!cfg.routes[i] || data == None)
    ensures var r := Deliver(sdk, cfg, d, e, None, s);
            && r.outcome == Acked && r.reason == None && r.cause == None
            && r.trace == Ordering.RunsIn(cfg, d, s) + Told(d, Verdict(Acked, None, None), s)
  {
    SearchExactly(cfg, s, i, "");
    hide FirstMatch, Retry.Outcome, Runs, Told;
  }

  /** What the publish of a produced result comes to: an encoding error counts as non-retryable. */
  function PublishAnswer(s: Script): Answer {
    if s.encode.Some? then Fail(Error(s.encode.value.marks + {NonRetryable}, s.encode.value.text)) else s.publish
  }

  /** In default order a result's failed publish goes back to the broker, or is reported as a publish. */
  lemma PublishFailureTold(sdk: Sdk, cfg: Config, d: Delivery, e: Event, s: Script, i: nat, data: string)
    requires Handles(cfg, d, s, i, Retry.Returned(Some(data))) && cfg.routes[i] && !cfg.publishAfterAck
    requires PublishAnswer(s) != Ok
    ensures var r := Deliver(sdk, cfg, d, e, None, s);
            match PublishAnswer(s)
            case Panic(v) => RecoveredFrom(cfg, d, s, r, 0, v)
            case Fail(err) =>
              var cause := Error({Publication} + err.marks, Wrap(ERR_PUBLICATION, err).text);
              if IsNonRetryable(err) || !d.hasNack || 0 < cfg.maxRetries < d.count
              then ReportedFor(cfg, d, s, r, Unpublished, cause)
              else r.outcome == Nacked && r.reason == None && r.cause == Some(cause)
  {
    SearchExactly(cfg, s, i, "");
    hide FirstMatch, Retry.Outcome, Runs, Noticed, ResultOf;
    var f := Find(sdk, cfg, d, Stamped(e), None, s).0;
    match PublishAnswer(s)
    case Panic(v) => CrashEnds(sdk, cfg, d, e, None, s, v);
    case Fail(err) =>
      var reason := ClassifyPublish(cfg, d, err);
      assert f == Failure(reason, Wrap(ERR_PUBLICATION, err));
      if reason.Some? {
        FailureEnds(sdk, cfg, d, e, None, s, reason.value, Wrap(ERR_PUBLICATION, err));
      }
      hide Find, ReportedFor;
  }

  // ---------------------------------------------------------------- the callback and the notifications

  /** The transport's own callback for an outcome; without one of its own a discard is an Ack. */
  predicate Chooses(d: Delivery, o: Outcome, fn: Fn) {
    match fn
    case AckFn => d.hasAck && (o == Acked || (o == Discarded && !d.hasDiscard))
    case NackFn => d.hasNack && o == Nacked
    case DiscardFn => d.hasDiscard && o == Discarded
  }

  /** The transport is told the outcome by exactly the callback meant for it. */
  lemma CallbackChosen(sdk: Sdk, cfg: Config, d: Delivery, e: Event, undecodable: Option<Error>, s: Script, fn: Fn)
    ensures var r := Deliver(sdk, cfg, d, e, undecodable, s);
            Called(fn, s.callback(fn)) in r.trace <==> Chooses(d, r.outcome, fn)
  {
    var r := Deliver(sdk, cfg, d, e, undecodable, s);
    FnOfIs(d, r.outcome, fn);
    if Called(fn, s.callback(fn)) in r.trace {
      Deliveries.ToldTheDecision(sdk, cfg, d, e, undecodable, s, Called(fn, s.callback(fn)));
    }
    if FnOf(d, r.outcome) == Some(fn) {
      Deliveries.CallMade(sdk, cfg, d, e, undecodable, s);
    }
    hide Deliver, FnOf, Chooses;
  }

  lemma FnOfIs(d: Delivery, o: Outcome, fn: Fn)
    ensures FnOf(d, o) == Some(fn) <==> Chooses(d, o, fn)
  {
  }

  /** The transport is told before the observer is. */
  lemma CalledBeforeTold(
      sdk: Sdk, cfg: Config, d: Delivery, e: Event, undecodable: Option<Error>, s: Script, k: nat, j: nat)
    requires var r := Deliver(sdk, cfg, d, e, undecodable, s);
             k < |r.trace| && j < |r.trace| && r.trace[k].Called? && r.trace[j].OnMessage?
    ensures k < j
  {
    var (f, staged) := Find(sdk, cfg, d, Stamped(e), undecodable, s);
    var (v, copies) := Decide(cfg, d, Stamped(e), f, s);
    var told := Told(d, v, s);
    var after := AfterAck(sdk, cfg, d, Stamped(e), f, s);
    var trace := Deliver(sdk, cfg, d, e, undecodable, s).trace;
    assert trace == staged + copies + told + after;
    Ordering.PlacedHas(sdk, cfg, d, e, undecodable, s, trace[j]);
    Ordering.PlacedHas(sdk, cfg, d, e, undecodable, s, trace[k]);
    Ordering.Place(staged, copies, told, after, j);
    Ordering.Place(staged, copies, told, after, k);
    hide Find, Decide, AfterAck, Stamped, Deliver, CallbackPanics, FnOf;
    var start := |staged| + |copies|;
    assert trace[j] == told[j - start] && trace[k] == told[k - start];
  }

  /** An observer's notice of a publish follows that publish at once, with its event and answer. */
  predicate Follows(trace: seq<Ev>, k: nat)
    requires k < |trace|
  {
    trace[k].OnPublish? ==>
      k > 0 && match trace[k - 1]
               case Published(result, answer, _) => trace[k] == OnPublish(result, answer)
               case Copied(copy, answer) => trace[k] == OnPublish(copy, answer)
               case _ => false
  }

  predicate NoticesFollow(trace: seq<Ev>) {
    forall k :: 0 <= k < |trace| ==> Follows(trace, k)
  }

  lemma FollowsAppend(a: seq<Ev>, b: seq<Ev>)
    requires NoticesFollow(a) && NoticesFollow(b)
    ensures NoticesFollow(a + b)
  {
    forall k | 0 <= k < |a + b| ensures Follows(a + b, k) {
      if k < |a| {
        assert Follows(a, k);
      } else {
        assert Follows(b, k - |a|);
      }
    }
  }

  lemma NoticedFollows(cfg: Config, publish: Ev, event: Event, answer: Answer)
    requires || publish == Copied(event, answer)
             || (publish.Published? && publish.result == event && publish.answer == answer)
    ensures NoticesFollow(Noticed(cfg, publish, event, answer))
  {
  }

  lemma QuietFollows(trace: seq<Ev>)
    requires forall ev :: ev in trace ==> !ev.OnPublish?
    ensures NoticesFollow(trace)
  {
  }

  lemma ResultFollows(sdk: Sdk, cfg: Config, e: Event, s: Script, data: string, at: Outcome)
    ensures NoticesFollow(PublishResult(sdk, cfg, e, s, data, at).1)
  {
    var r := ResultOf(sdk, e, s, data);
    NoticedFollows(cfg, Published(r, s.publish, at), r, s.publish);
    hide ResultOf, Noticed;
  }

  lemma RunsFollow(cfg: Config, d: Delivery, s: Script)
    ensures NoticesFollow(Ordering.RunsIn(cfg, d, s))
  {
    var n := Retry.Last(s.handling, Retry.Retries(cfg.retry, d.count), 0) + 1;
    forall ev | ev in Runs(n) ensures !ev.OnPublish? {
      Ordering.RunsHas(n, ev);
    }
    hide Runs;
    QuietFollows(Runs(n));
  }

  lemma StagedFollows(sdk: Sdk, cfg: Config, d: Delivery, e: Event, undecodable: Option<Error>, s: Script)
    ensures NoticesFollow(Find(sdk, cfg, d, e, undecodable, s).1)
  {
    hide FirstMatch, Classify, ClassifyPublish, Wrap, PanicCause, Retry.Outcome, Runs, PublishResult, NoticesFollow;
    QuietFollows([]);
    RunsFollow(cfg, d, s);
    var result := Retry.Outcome(s.handling, Retry.Retries(cfg.retry, d.count));
    if result.Returned? && result.data.Some? {
      ResultFollows(sdk, cfg, e, s, result.data.value, Pending);
      FollowsAppend(Ordering.RunsIn(cfg, d, s), PublishResult(sdk, cfg, e, s, result.data.value, Pending).1);
    }
    assert Ordering.RunsIn(cfg, d, s) + [] == Ordering.RunsIn(cfg, d, s);
  }

  lemma CopyFollows(cfg: Config, d: Delivery, e: Event, reason: Reason, cause: Error, s: Script, k: nat)
    ensures NoticesFollow(Definitively(cfg, d, e, reason, cause, s, k).1)
    ensures Definitively(cfg, d, e, reason, cause, s, k).0 == None ==> s.copy(k).Panic?
  {
    var copy := CopyOf(e, reason, cause);
    NoticedFollows(cfg, Copied(copy, s.copy(k)), copy, s.copy(k));
    hide CopyOf, Noticed;
  }

  lemma CopiesFollow(cfg: Config, d: Delivery, e: Event, f: Finding, s: Script)
    ensures NoticesFollow(Decide(cfg, d, e, f, s).1)
  {
    hide Definitively, PanicCause, NoticesFollow;
    QuietFollows([]);
    match f
    case Crash(value) =>
      var evs := Recovered(cfg, d, e, value, s, 0).1;
      CopyFollows(cfg, d, e, Panicking, PanicCause(value), s, 0);
      assert [] + evs == evs;
    case Failure(Some(reason), cause) =>
      var (v, evs) := Definitively(cfg, d, e, reason, cause, s, 0);
      CopyFollows(cfg, d, e, reason, cause, s, 0);
      if v == None {
        CopyFollows(cfg, d, e, Panicking, PanicCause(s.copy(0).value), s, 1);
        FollowsAppend(evs, Recovered(cfg, d, e, s.copy(0).value, s, 1).1);
      }
    case _ =>
  }

  lemma AfterFollows(sdk: Sdk, cfg: Config, d: Delivery, e: Event, f: Finding, s: Script)
    ensures NoticesFollow(AfterAck(sdk, cfg, d, e, f, s))
  {
    hide PublishResult, NoticesFollow, CallbackPanics;
    QuietFollows([]);
    if f.Success? && f.data.Some? {
      ResultFollows(sdk, cfg, e, s, f.data.value, Acked);
    }
  }

  /** Every notice of a publish follows it at once, with its event and answer. */
  lemma NoticesFollowPublishes(sdk: Sdk, cfg: Config, d: Delivery, e: Event, undecodable: Option<Error>, s: Script)
    ensures NoticesFollow(Deliver(sdk, cfg, d, e, undecodable, s).trace)
  {
    var (f, staged) := Find(sdk, cfg, d, Stamped(e), undecodable, s);
    var (v, copies) := Decide(cfg, d, Stamped(e), f, s);
    var told, after := Told(d, v, s), AfterAck(sdk, cfg, d, Stamped(e), f, s);
    StagedFollows(sdk, cfg, d, Stamped(e), undecodable, s);
    CopiesFollow(cfg, d, Stamped(e), f, s);
    AfterFollows(sdk, cfg, d, Stamped(e), f, s);
    QuietFollows(told);
    hide Find, Decide, Told, AfterAck, Stamped, NoticesFollow;
    FollowsAppend(staged, copies);
    FollowsAppend(staged + copies, told);
    FollowsAppend(staged + copies + told, after);
  }
}
