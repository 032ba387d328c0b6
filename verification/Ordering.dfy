/** In which order a delivery's calls happen: the result, the copies, the decision and what follows it. */
module Ordering {
  import opened Options
  import opened Faults
  import opened CloudEvents
  import opened Correlation
  import opened Settlement
  import Retry
  import Utf8

  lemma {:induction false} RunsHas(n: nat, ev: Ev)
    requires ev in Runs(n)
    ensures ev.Ran?
    decreases n
  {
    if ev != Ran(n - 1) {
      RunsHas(n - 1, ev);
    }
  }

  /** The attempts are numbered in order, from 0. */
  lemma {:induction false} RunsAre(n: nat)
    ensures |Runs(n)| == n && forall k :: 0 <= k < n ==> Runs(n)[k] == Ran(k)
    decreases n
  {
    if n > 0 {
      RunsAre(n - 1);
    }
  }

  lemma PublishedHas(sdk: Sdk, cfg: Config, d: Delivery, e: Event, s: Script, i: nat, data: Option<string>, ev: Ev)
    requires i < |cfg.routes| && ev in FindPublished(sdk, cfg, d, e, s, i, data).1
    ensures !cfg.publishAfterAck && (ev.OnPublish? || (ev.Published? && ev.at == Pending))
  {
  }

  lemma RoutedHas(sdk: Sdk, cfg: Config, d: Delivery, e: Event, s: Script, i: nat, ev: Ev)
    requires i < |cfg.routes| && ev in FindRouted(sdk, cfg, d, e, s, i).1
    ensures ev.Ran? || (!cfg.publishAfterAck && (ev.OnPublish? || (ev.Published? && ev.at == Pending)))
  {
    hide FindPublished, Runs, Classify, Wrap, PanicCause, Retry.Outcome;
    var retries := Retry.Retries(cfg.retry, d.count);
    var result := Retry.Outcome(s.handling, retries);
    if ev in Runs(Retry.Last(s.handling, retries, 0) + 1) {
      RunsHas(Retry.Last(s.handling, retries, 0) + 1, ev);
    } else {
      PublishedHas(sdk, cfg, d, e, s, i, result.data, ev);
    }
  }

  lemma StagedHas(sdk: Sdk, cfg: Config, d: Delivery, e: Event, undecodable: Option<Error>, s: Script, ev: Ev)
    requires ev in Find(sdk, cfg, d, e, undecodable, s).1
    ensures ev.Ran? || (!cfg.publishAfterAck && (ev.OnPublish? || (ev.Published? && ev.at == Pending)))
  {
    hide FindRouted, FirstMatch;
    RoutedHas(sdk, cfg, d, e, s, FirstMatch(cfg, s, 0).route, ev);
  }

  lemma CopiesHas(cfg: Config, d: Delivery, e: Event, f: Finding, s: Script, ev: Ev)
    requires ev in Decide(cfg, d, e, f, s).1
    ensures ev.Copied? || ev.OnPublish?
  {
    hide CopyOf, AfterCopy, PanicCause;
  }

  lemma ToldHas(d: Delivery, v: Verdict, s: Script, ev: Ev)
    requires ev in Told(d, v, s)
    ensures ev.Called? || ev.OnMessage?
  {
  }

  lemma AfterHas(sdk: Sdk, cfg: Config, d: Delivery, e: Event, f: Finding, s: Script, ev: Ev)
    requires ev in AfterAck(sdk, cfg, d, e, f, s)
    ensures cfg.publishAfterAck && f.Success? && (ev.OnPublish? || (ev.Published? && ev.at == Acked))
  {
  }

  /** The call is the decision's own: a delivery callback, or the observer being told of it. */
  predicate Deciding(ev: Ev) {
    ev.Called? || ev.OnMessage?
  }

  /**
   In default order no decision is taken before the result's publish, nor in any order before a
   dead-letter copy's.
   */
  lemma PublishesPrecedeDecision(
      sdk: Sdk, cfg: Config, d: Delivery, e: Event, undecodable: Option<Error>, s: Script, k: nat, j: nat)
    requires var r := Deliver(sdk, cfg, d, e, undecodable, s);
             k < |r.trace| && j < |r.trace| && Deciding(r.trace[j])
    ensures var r := Deliver(sdk, cfg, d, e, undecodable, s);
            && (r.trace[k].Copied? ==> k < j)
            && (!cfg.publishAfterAck && r.trace[k].Published? ==> k < j && r.trace[k].at == Pending)
            && (cfg.publishAfterAck && r.trace[k].Published? ==> j < k && r.trace[k].at == Acked && r.outcome == Acked)
  {
    var (f, staged) := Find(sdk, cfg, d, Stamped(e), undecodable, s);
    var (v, copies) := Decide(cfg, d, Stamped(e), f, s);
    var told := Told(d, v, s);
    var after := AfterAck(sdk, cfg, d, Stamped(e), f, s);
    assert f.Success? ==> v.outcome == Acked;
    var trace := Deliver(sdk, cfg, d, e, undecodable, s).trace;
    assert trace == staged + copies + told + after;
    hide *;
    Place(staged, copies, told, after, j);
    Place(staged, copies, told, after, k);
    PlacedHas(sdk, cfg, d, e, undecodable, s, trace[j]);
    PlacedHas(sdk, cfg, d, e, undecodable, s, trace[k]);
  }

  /** What each part of a delivery's trace can hold. */
  lemma PlacedHas(sdk: Sdk, cfg: Config, d: Delivery, e: Event, undecodable: Option<Error>, s: Script, ev: Ev)
    ensures var (f, staged) := Find(sdk, cfg, d, Stamped(e), undecodable, s);
            var (v, copies) := Decide(cfg, d, Stamped(e), f, s);
            && (ev in staged ==>
                  ev.Ran? || (!cfg.publishAfterAck && (ev.OnPublish? || (ev.Published? && ev.at == Pending))))
            && (ev in copies ==> ev.Copied? || ev.OnPublish?)
            && (ev in Told(d, v, s) ==> Deciding(ev))
            && (ev in AfterAck(sdk, cfg, d, Stamped(e), f, s) ==>
                  cfg.publishAfterAck && f.Success? && (ev.OnPublish? || (ev.Published? && ev.at == Acked)))
  {
    var (f, staged) := Find(sdk, cfg, d, Stamped(e), undecodable, s);
    var (v, copies) := Decide(cfg, d, Stamped(e), f, s);
    hide Find, Decide, Told, AfterAck, Stamped;
    if ev in staged { StagedHas(sdk, cfg, d, Stamped(e), undecodable, s, ev); }
    if ev in copies { CopiesHas(cfg, d, Stamped(e), f, s, ev); }
    if ev in Told(d, v, s) { ToldHas(d, v, s, ev); }
    if ev in AfterAck(sdk, cfg, d, Stamped(e), f, s) { AfterHas(sdk, cfg, d, Stamped(e), f, s, ev); }
  }

  /** The part of a trace an index falls in. */
  lemma Place(staged: seq<Ev>, copies: seq<Ev>, told: seq<Ev>, after: seq<Ev>, k: nat)
    requires k < |staged + copies + told + after|
    ensures var ev := (staged + copies + told + after)[k];
            var (a, b, c) := (|staged|, |staged| + |copies|, |staged| + |copies| + |told|);
            && (k < a ==> ev in staged) && (a <= k < b ==> ev in copies)
            && (b <= k < c ==> ev in told) && (c <= k ==> ev in after)
  {
  }

  // ---------------------------------------------------------------- results and the Ack

  /** The stages pass and the handler returns data, on a route. */
  predicate Produces(cfg: Config, d: Delivery, undecodable: Option<Error>, s: Script, i: nat, data: string) {
    && undecodable == None && FirstMatch(cfg, s, 0) == FoundAt(i) && i < |cfg.routes|
    && s.decode == Ok && s.preflight == Ok
    && Retry.Outcome(s.handling, Retry.Retries(cfg.retry, d.count)) == Retry.Returned(Some(data))
  }

  /** The handler's runs in the delivery. */
  function RunsIn(cfg: Config, d: Delivery, s: Script): seq<Ev> {
    Runs(Retry.Last(s.handling, Retry.Retries(cfg.retry, d.count), 0) + 1)
  }

  /**
   In default order a message whose handler produced a result is acked exactly when its publish
   returned nil, and then the whole delivery is the runs, that publish and the Ack.
   */
  lemma AckedIffPublished(
      sdk: Sdk, cfg: Config, d: Delivery, e: Event, undecodable: Option<Error>, s: Script, i: nat, data: string)
    requires Produces(cfg, d, undecodable, s, i, data) && cfg.routes[i] && !cfg.publishAfterAck
    ensures var r := Deliver(sdk, cfg, d, e, undecodable, s);
            var result := ResultOf(sdk, Stamped(e), s, data);
            && (r.outcome == Acked <==> s.encode == None && s.publish == Ok)
            && (r.outcome == Acked ==>
                  r.trace == RunsIn(cfg, d, s) + Noticed(cfg, Published(result, Ok, Pending), result, Ok)
                      + Told(d, Verdict(Acked, None, None), s))
  {
    FoundPublished(sdk, cfg, d, Stamped(e), undecodable, s, i, data);
    var (f, staged) := Find(sdk, cfg, d, Stamped(e), undecodable, s);
    AckedIsSuccess(cfg, d, Stamped(e), f, s);
    hide Find, Stamped, Runs, Noticed, Told, ResultOf, Decide;
    assert f.Success? ==> AfterAck(sdk, cfg, d, Stamped(e), f, s) == [];
  }

  lemma AckedIsSuccess(cfg: Config, d: Delivery, e: Event, f: Finding, s: Script)
    ensures var (v, copies) := Decide(cfg, d, e, f, s);
            (v.outcome == Acked <==> f.Success?) && (f.Success? ==> v == Verdict(Acked, None, None) && copies == [])
  {
  }

  lemma FoundPublished(
      sdk: Sdk, cfg: Config, d: Delivery, e: Event, undecodable: Option<Error>, s: Script, i: nat, data: string)
    requires Produces(cfg, d, undecodable, s, i, data) && cfg.routes[i] && !cfg.publishAfterAck
    ensures var (f, evs) := Find(sdk, cfg, d, e, undecodable, s);
            var result := ResultOf(sdk, e, s, data);
            && f != Unrouted
            && (f.Success? <==> s.encode == None && s.publish == Ok)
            && (f.Success? ==> evs == RunsIn(cfg, d, s) + Noticed(cfg, Published(result, Ok, Pending), result, Ok))
  {
    hide Runs, Noticed, ResultOf, ClassifyPublish, Wrap;
  }

  /** After the Ack a result's publish, whatever becomes of it, changes neither the decision nor what led to it. */
  lemma LatePublishDecidesNothing(
      sdk: Sdk, cfg: Config, d: Delivery, e: Event, undecodable: Option<Error>, s: Script,
      encode: Option<Error>, publish: Answer)
    requires cfg.publishAfterAck
    ensures var r := Deliver(sdk, cfg, d, e, undecodable, s);
            var other := Deliver(sdk, cfg, d, e, undecodable, s.(encode := encode, publish := publish));
            && other.outcome == r.outcome && other.reason == r.reason && other.cause == r.cause
            && (r.outcome != Acked ==> other.trace == r.trace)
  {
    SameFinding(sdk, cfg, d, Stamped(e), undecodable, s, encode, publish);
    var f := Find(sdk, cfg, d, Stamped(e), undecodable, s).0;
    hide Find, Stamped;
    SameDecision(cfg, d, Stamped(e), f, s, encode, publish);
    AckedIsSuccess(cfg, d, Stamped(e), f, s);
    hide Decide, Told, PublishResult;
  }

  lemma SameDecision(cfg: Config, d: Delivery, e: Event, f: Finding, s: Script, encode: Option<Error>, publish: Answer)
    ensures var other := s.(encode := encode, publish := publish);
            && Decide(cfg, d, e, f, other) == Decide(cfg, d, e, f, s)
            && forall v :: Told(d, v, other) == Told(d, v, s)
  {
  }

  lemma SameFinding(
      sdk: Sdk, cfg: Config, d: Delivery, e: Event, undecodable: Option<Error>, s: Script,
      encode: Option<Error>, publish: Answer)
    requires cfg.publishAfterAck
    ensures Find(sdk, cfg, d, e, undecodable, s.(encode := encode, publish := publish)) ==
        Find(sdk, cfg, d, e, undecodable, s)
  {
    SameMatch(cfg, s, encode, publish, 0);
  }

  lemma {:induction false} SameMatch(cfg: Config, s: Script, encode: Option<Error>, publish: Answer, i: nat)
    ensures FirstMatch(cfg, s.(encode := encode, publish := publish), i) == FirstMatch(cfg, s, i)
    decreases |cfg.routes| - i
  {
    if i < |cfg.routes| {
      SameMatch(cfg, s, encode, publish, i + 1);
    }
  }

  /**
   With results after the Ack: acked as soon as the handler succeeds, and published unless the Ack
   panicked or the result did not encode.
   */
  lemma AckedThenPublished(
      sdk: Sdk, cfg: Config, d: Delivery, e: Event, undecodable: Option<Error>, s: Script, i: nat, data: string)
    requires Produces(cfg, d, undecodable, s, i, data) && cfg.routes[i] && cfg.publishAfterAck
    ensures var r := Deliver(sdk, cfg, d, e, undecodable, s);
            var result := ResultOf(sdk, Stamped(e), s, data);
            && r.outcome == Acked
            && r.trace == RunsIn(cfg, d, s) + Told(d, Verdict(Acked, None, None), s)
                        + if CallbackPanics(d, Acked, s) || s.encode.Some? then []
                          else Noticed(cfg, Published(result, s.publish, Acked), result, s.publish)
  {
    assert Find(sdk, cfg, d, Stamped(e), undecodable, s) == (Success(i, Some(data)), RunsIn(cfg, d, s)) by {
      assert RunsIn(cfg, d, s) + [] == RunsIn(cfg, d, s);
    }
    hide Find, Stamped, Runs, Noticed, Told, ResultOf, CallbackPanics;
  }

  // ---------------------------------------------------------------- what goes out

  /** A result names e as its cause and a copy is e itself; both keep its correlation id. */
  ghost predicate OfChain(e: Event, ev: Ev) {
    && (ev.Published? ==> CorrelationId(ev.result) == CorrelationId(e) && EXT_CAUSATION_ID in ev.result.ext
                          && ev.result.ext[EXT_CAUSATION_ID] == Text(e.id))
    && (ev.Copied? ==>
          && CorrelationId(ev.copy) == CorrelationId(e) && ev.copy == e.(ext := ev.copy.ext)
          && EXT_DEAD_LETTER_REASON in ev.copy.ext)
  }

  lemma ResultOfChain(sdk: Sdk, e: Event, s: Script, data: string)
    requires e.id != "" && CorrelationId(e) != ""
    ensures var r := ResultOf(sdk, e, s, data);
            CorrelationId(r) == CorrelationId(e) && EXT_CAUSATION_ID in r.ext && r.ext[EXT_CAUSATION_ID] == Text(e.id)
  {
    ReservedHold(e, s.meta);
    hide ResultExtensions;
  }

  lemma CopyOfChain(e: Event, reason: Reason, cause: Error)
    ensures var c := CopyOf(e, reason, cause);
            CorrelationId(c) == CorrelationId(e) && c == e.(ext := c.ext) && EXT_DEAD_LETTER_REASON in c.ext
  {
    ReasonName();
    ErrorName();
    NamesDiffer();
    hide IsExtensionName, LowerAscii, Utf8.Sanitize, Utf8.Truncated, ReasonText;
  }

  /** The handler returned data. */
  predicate Returns(cfg: Config, d: Delivery, s: Script, data: string) {
    Retry.Outcome(s.handling, Retry.Retries(cfg.retry, d.count)) == Retry.Returned(Some(data))
  }

  /** A published event is the result of e with what the handler returned, and a copied one is a copy of e. */
  ghost predicate SentOn(sdk: Sdk, cfg: Config, d: Delivery, e: Event, s: Script, ev: Ev) {
    && (ev.Published? ==> exists data :: Returns(cfg, d, s, data) && ev.result == ResultOf(sdk, e, s, data))
    && (ev.Copied? ==> exists reason, cause :: ev.copy == CopyOf(e, reason, cause))
  }

  lemma PublishedSent(
      sdk: Sdk, cfg: Config, d: Delivery, e: Event, s: Script, i: nat, data: Option<string>, ev: Ev)
    requires i < |cfg.routes| && ev in FindPublished(sdk, cfg, d, e, s, i, data).1
    requires Retry.Outcome(s.handling, Retry.Retries(cfg.retry, d.count)) == Retry.Returned(data)
    ensures SentOn(sdk, cfg, d, e, s, ev)
  {
    assert data.Some? ==> Returns(cfg, d, s, data.value);
    hide ResultOf, CopyOf, ClassifyPublish, Wrap;
  }

  lemma StagedSent(sdk: Sdk, cfg: Config, d: Delivery, e: Event, undecodable: Option<Error>, s: Script, ev: Ev)
    requires ev in Find(sdk, cfg, d, e, undecodable, s).1
    ensures SentOn(sdk, cfg, d, e, s, ev)
  {
    hide FindPublished, Runs, Classify, Wrap, PanicCause, Retry.Outcome, FirstMatch, ResultOf, CopyOf, Returns;
    var i := FirstMatch(cfg, s, 0).route;
    var retries := Retry.Retries(cfg.retry, d.count);
    if ev in Runs(Retry.Last(s.handling, retries, 0) + 1) {
      RunsHas(Retry.Last(s.handling, retries, 0) + 1, ev);
    } else {
      PublishedSent(sdk, cfg, d, e, s, i, Retry.Outcome(s.handling, retries).data, ev);
    }
  }

  lemma CopySent(
      sdk: Sdk, cfg: Config, d: Delivery, e: Event, reason: Reason, cause: Error, s: Script, k: nat, ev: Ev)
    requires ev in Definitively(cfg, d, e, reason, cause, s, k).1
    ensures SentOn(sdk, cfg, d, e, s, ev)
  {
    hide ResultOf, CopyOf, AfterCopy;
  }

  lemma CopiesSent(sdk: Sdk, cfg: Config, d: Delivery, e: Event, f: Finding, s: Script, ev: Ev)
    requires ev in Decide(cfg, d, e, f, s).1
    ensures SentOn(sdk, cfg, d, e, s, ev)
  {
    hide Definitively, PanicCause, SentOn;
    match f
    case Crash(value) => CopySent(sdk, cfg, d, e, Panicking, PanicCause(value), s, 0, ev);
    case Failure(Some(reason), cause) =>
      if ev in Definitively(cfg, d, e, reason, cause, s, 0).1 {
        CopySent(sdk, cfg, d, e, reason, cause, s, 0, ev);
      } else {
        CopySent(sdk, cfg, d, e, Panicking, PanicCause(Try(cfg, d, e, f, s).0.value), s, 1, ev);
      }
    case _ =>
  }

  /** A success is that of a handler that returned its data. */
  lemma SuccessReturned(sdk: Sdk, cfg: Config, d: Delivery, e: Event, undecodable: Option<Error>, s: Script)
    ensures var f := Find(sdk, cfg, d, e, undecodable, s).0;
            f.Success? ==> Retry.Outcome(s.handling, Retry.Retries(cfg.retry, d.count)) == Retry.Returned(f.data)
  {
    hide Runs, Classify, ClassifyPublish, Wrap, PanicCause, Retry.Outcome, FirstMatch, PublishResult;
  }

  lemma AfterSent(sdk: Sdk, cfg: Config, d: Delivery, e: Event, f: Finding, s: Script, ev: Ev)
    requires ev in AfterAck(sdk, cfg, d, e, f, s)
    requires f.Success? ==> Retry.Outcome(s.handling, Retry.Retries(cfg.retry, d.count)) == Retry.Returned(f.data)
    ensures SentOn(sdk, cfg, d, e, s, ev)
  {
    assert f.Success? && f.data.Some? ==> Returns(cfg, d, s, f.data.value);
    hide ResultOf, CopyOf;
  }

  /** Whatever a delivery publishes is the result, or a dead-letter copy, of the message it handles. */
  lemma PublishesAreSentOn(
      sdk: Sdk, cfg: Config, d: Delivery, e: Event, undecodable: Option<Error>, s: Script, ev: Ev)
    requires ev in Deliver(sdk, cfg, d, e, undecodable, s).trace
    ensures SentOn(sdk, cfg, d, Stamped(e), s, ev)
  {
    var (f, staged) := Find(sdk, cfg, d, Stamped(e), undecodable, s);
    var (v, copies) := Decide(cfg, d, Stamped(e), f, s);
    SuccessReturned(sdk, cfg, d, Stamped(e), undecodable, s);
    hide Find, Decide, Told, AfterAck, Stamped, SentOn, Retry.Outcome;
    if ev in staged {
      StagedSent(sdk, cfg, d, Stamped(e), undecodable, s, ev);
    } else if ev in copies {
      CopiesSent(sdk, cfg, d, Stamped(e), f, s, ev);
    } else if ev in Told(d, v, s) {
      ToldHas(d, v, s, ev);
      NotSent(sdk, cfg, d, Stamped(e), s, ev);
    } else {
      AfterSent(sdk, cfg, d, Stamped(e), f, s, ev);
    }
  }

  lemma NotSent(sdk: Sdk, cfg: Config, d: Delivery, e: Event, s: Script, ev: Ev)
    requires ev.Called? || ev.OnMessage?
    ensures SentOn(sdk, cfg, d, e, s, ev)
  {
  }

  /** So it belongs to the message's chain. */
  lemma PublishesStayInChain(
      sdk: Sdk, cfg: Config, d: Delivery, e: Event, undecodable: Option<Error>, s: Script, ev: Ev)
    requires e.id != "" && ev in Deliver(sdk, cfg, d, e, undecodable, s).trace
    ensures OfChain(Stamped(e), ev)
  {
    CorrelationName();
    assert Stamped(e).id == e.id && CorrelationId(Stamped(e)) != "";
    PublishesAreSentOn(sdk, cfg, d, e, undecodable, s, ev);
    hide Deliver, Stamped, CorrelationId, ResultOf, CopyOf;
    if ev.Published? {
      var data :| Returns(cfg, d, s, data) && ev.result == ResultOf(sdk, Stamped(e), s, data);
      ResultOfChain(sdk, Stamped(e), s, data);
    }
    if ev.Copied? {
      var reason, cause :| ev.copy == CopyOf(Stamped(e), reason, cause);
      CopyOfChain(Stamped(e), reason, cause);
    }
  }

  /** The copy of a message discarded for reason, because of cause. */
  predicate TellsReason(copy: Event, reason: Reason, cause: Error) {
    && EXT_DEAD_LETTER_REASON in copy.ext && copy.ext[EXT_DEAD_LETTER_REASON] == Text(ReasonText(reason))
    && EXT_DEAD_LETTER_ERROR in copy.ext
    && copy.ext[EXT_DEAD_LETTER_ERROR] == Text(Utf8.Truncated(Utf8.Sanitize(cause.text), MAX_DEAD_LETTER_ERROR_LEN))
  }

  lemma CopyTells(e: Event, reason: Reason, cause: Error)
    ensures TellsReason(CopyOf(e, reason, cause), reason, cause)
  {
    ReasonName();
    ErrorName();
    NamesDiffer();
    hide IsExtensionName, LowerAscii, Utf8.Sanitize, Utf8.Truncated, ReasonText;
  }

  lemma DefinitivelyTells(cfg: Config, d: Delivery, e: Event, reason: Reason, cause: Error, s: Script, k: nat, ev: Ev)
    requires ev in Definitively(cfg, d, e, reason, cause, s, k).1 && ev.Copied? && ev.answer == Ok
    ensures Definitively(cfg, d, e, reason, cause, s, k).0 == Some(Verdict(Discarded, Some(reason), Some(cause)))
    ensures TellsReason(ev.copy, reason, cause)
  {
    CopyTells(e, reason, cause);
    hide CopyOf, TellsReason;
  }

  lemma DecideTells(cfg: Config, d: Delivery, e: Event, f: Finding, s: Script, ev: Ev)
    requires ev in Decide(cfg, d, e, f, s).1 && ev.Copied? && ev.answer == Ok
    ensures var v := Decide(cfg, d, e, f, s).0;
            && v.outcome == Discarded && v.reason.Some? && v.cause.Some?
            && TellsReason(ev.copy, v.reason.value, v.cause.value)
  {
    hide Definitively, PanicCause, TellsReason;
    match f
    case Crash(value) => DefinitivelyTells(cfg, d, e, Panicking, PanicCause(value), s, 0, ev);
    case Failure(Some(reason), cause) =>
      if ev in Definitively(cfg, d, e, reason, cause, s, 0).1 {
        DefinitivelyTells(cfg, d, e, reason, cause, s, 0, ev);
      } else {
        DefinitivelyTells(cfg, d, e, Panicking, PanicCause(Try(cfg, d, e, f, s).0.value), s, 1, ev);
      }
    case _ =>
  }

  /** A dead-letter copy that went out tells the reason and the error the message was discarded with. */
  lemma CopyTellsTheDecision(
      sdk: Sdk, cfg: Config, d: Delivery, e: Event, undecodable: Option<Error>, s: Script, ev: Ev)
    requires ev in Deliver(sdk, cfg, d, e, undecodable, s).trace && ev.Copied? && ev.answer == Ok
    ensures var r := Deliver(sdk, cfg, d, e, undecodable, s);
            && r.outcome == Discarded && r.reason.Some? && r.cause.Some?
            && TellsReason(ev.copy, r.reason.value, r.cause.value)
  {
    var f := Find(sdk, cfg, d, Stamped(e), undecodable, s).0;
    PlacedHas(sdk, cfg, d, e, undecodable, s, ev);
    hide Find, Decide, Told, AfterAck, Stamped, TellsReason;
    DecideTells(cfg, d, Stamped(e), f, s, ev);
  }

  /** What such a copy says in its deadletterreason, by the stage that failed. */
  lemma CopyNamesTheStage(sdk: Sdk, cfg: Config, d: Delivery, e: Event, undecodable: Option<Error>, s: Script, ev: Ev)
    requires ev in Deliver(sdk, cfg, d, e, undecodable, s).trace && ev.Copied? && ev.answer == Ok
    ensures var r := Deliver(sdk, cfg, d, e, undecodable, s);
            && r.reason.Some? && EXT_DEAD_LETTER_REASON in ev.copy.ext
            && ev.copy.ext[EXT_DEAD_LETTER_REASON] ==
               Text(match r.reason.value
                    case Undecodable => "decode"
                    case Invalid => "validation"
                    case Panicking => "panic"
                    case Definitive => "nonretryable"
                    case NoRedelivery => "noredelivery"
                    case MaxRetries => "maxretries"
                    case Unpublished => "publish")
  {
    CopyTellsTheDecision(sdk, cfg, d, e, undecodable, s, ev);
    hide Deliver;
  }
}
