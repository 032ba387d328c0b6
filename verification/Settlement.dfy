/**
 What the router must decide about one delivery, as a table: which stage ended it, what that
 stage's end means, and the calls the outside sees, in order. The router itself, with its panics
 and its two recoveries, is in module Router and is proved to do exactly this.
 pkg/eventmux/failure.go, pkg/eventmux/mux.go and pkg/event/message.go.
 */
module Settlement {
  import opened Options
  import opened Faults
  import opened CloudEvents
  import opened Correlation
  import Retry

  datatype Outcome = Pending | Acked | Nacked | Discarded

  datatype Reason = Undecodable | Invalid | Panicking | Definitive | NoRedelivery | MaxRetries | Unpublished

  /** The text of the deadletterreason extension. */
  function ReasonText(r: Reason): string {
    match r
    case Undecodable => "decode"
    case Invalid => "validation"
    case Panicking => "panic"
    case Definitive => "nonretryable"
    case NoRedelivery => "noredelivery"
    case MaxRetries => "maxretries"
    case Unpublished => "publish"
  }

  /** The transport's callbacks. */
  datatype Fn = AckFn | NackFn | DiscardFn

  /** The callbacks a transport provides and the delivery number it reports; 0 is unknown. */
  datatype Delivery = Delivery(hasAck: bool, hasNack: bool, hasDiscard: bool, count: nat)

  /** The callback a decision runs: a nil Discard means Ack. */
  function FnOf(d: Delivery, o: Outcome): Option<Fn> {
    match o
    case Acked => if d.hasAck then Some(AckFn) else None
    case Nacked => if d.hasNack then Some(NackFn) else None
    case Discarded => if d.hasDiscard then Some(DiscardFn) else if d.hasAck then Some(AckFn) else None
    case Pending => None
  }

  /** routes says, for each route, whether it has a result publisher; maxRetries 0 is no limit. */
  datatype Config = Config(
    routes: seq<bool>,
    maxRetries: nat,
    deadLetter: bool,
    publishAfterAck: bool,
    observer: bool,
    retry: Retry.Policy)

  datatype Match = Matches | Skips | FilterPanics(value: string)

  /**
   The adversary: how every call of one delivery into user or broker code ends. copy is indexed
   by the dead-letter publishes of the delivery, observerPanics by the observer calls.
   */
  datatype Script = Script(
    filter: nat -> Match,
    decode: Answer,
    preflight: Answer,
    handling: Retry.Handling,
    meta: Metadata,
    resultId: string,
    now: Time,
    encode: Option<Error>,
    publish: Answer,
    copy: nat -> Answer,
    callback: Fn -> Answer,
    observerPanics: nat -> bool)

  /** What the outside sees, in order. */
  datatype Ev =
    | Ran(attempt: nat)
    | Published(result: Event, answer: Answer, at: Outcome)
    | Copied(copy: Event, answer: Answer)
    | OnPublish(event: Event, answer: Answer)
    | Called(fn: Fn, answer: Answer)
    | OnMessage(outcome: Outcome, reason: Option<Reason>)

  // ---------------------------------------------------------------- the policy

  predicate PastMaxRetries(cfg: Config, d: Delivery) {
    cfg.maxRetries > 0 && d.count > 0 && d.count > cfg.maxRetries
  }

  /** A nack leads to a redelivery the router will eventually stop. */
  predicate RedeliveryBounded(cfg: Config, d: Delivery) {
    d.hasNack && cfg.maxRetries > 0 && d.count > 0 && !PastMaxRetries(cfg, d)
  }

  /** classify for an error the handler chain returned; None is retryable. */
  function Classify(cfg: Config, d: Delivery, err: Error): Option<Reason> {
    if IsNonRetryable(err) then Some(Definitive)
    else if !d.hasNack then Some(NoRedelivery)
    else if PastMaxRetries(cfg, d) then Some(MaxRetries)
    else None
  }

  function ClassifyPublish(cfg: Config, d: Delivery, err: Error): Option<Reason> {
    if IsNonRetryable(err) || !d.hasNack || PastMaxRetries(cfg, d) then Some(Unpublished) else None
  }

  // ---------------------------------------------------------------- the stages

  /** Where the stages end: no route, a panic outside the handler, a failure, or success on a route. */
  datatype Finding =
    | Unrouted
    | Crash(value: string)
    | Failure(reason: Option<Reason>, cause: Error)
    | Success(route: nat, data: Option<string>)

  datatype Found = NotFound | FoundAt(route: nat) | FilterCrash(value: string)

  /** The first route, from i on, whose filter matches. */
  function FirstMatch(cfg: Config, s: Script, i: nat): Found
    decreases |cfg.routes| - i
  {
    if i >= |cfg.routes| then NotFound
    else
      match s.filter(i)
      case FilterPanics(v) => FilterCrash(v)
      case Matches => FoundAt(i)
      case Skips => FirstMatch(cfg, s, i + 1)
  }

  function Runs(n: nat): seq<Ev> {
    if n == 0 then [] else Runs(n - 1) + [Ran(n - 1)]
  }

  /** The result event of the stamped event e. */
  function ResultOf(sdk: Sdk, e: Event, s: Script, data: string): Event {
    ResultEvent(sdk, e, Hop(s.meta, s.resultId, s.now, data))
  }

  /** A publish and, unless it panicked, the observer's notification. */
  function Noticed(cfg: Config, publish: Ev, event: Event, answer: Answer): seq<Ev> {
    [publish] + if cfg.observer && !answer.Panic? then [OnPublish(event, answer)] else []
  }

  function PublishResult(sdk: Sdk, cfg: Config, e: Event, s: Script, data: string, at: Outcome): (Answer, seq<Ev>) {
    if s.encode.Some? then (Fail(Error(s.encode.value.marks + {NonRetryable}, s.encode.value.text)), [])
    else
      var r := ResultOf(sdk, e, s, data);
      (s.publish, Noticed(cfg, Published(r, s.publish, at), r, s.publish))
  }

  /** The handler succeeded: in default order its result goes out before any decision. */
  function FindPublished(
      sdk: Sdk, cfg: Config, d: Delivery, e: Event, s: Script, i: nat, data: Option<string>)
    : (Finding, seq<Ev>)
    requires i < |cfg.routes|
  {
    if cfg.publishAfterAck || !cfg.routes[i] || data.None? then (Success(i, data), [])
    else
      var (answer, evs) := PublishResult(sdk, cfg, e, s, data.value, Pending);
      match answer
      case Ok => (Success(i, data), evs)
      case Panic(v) => (Crash(v), evs)
      case Fail(err) => (Failure(ClassifyPublish(cfg, d, err), Wrap(ERR_PUBLICATION, err)), evs)
  }

  /** The stages of a routed message. */
  function FindRouted(sdk: Sdk, cfg: Config, d: Delivery, e: Event, s: Script, i: nat): (Finding, seq<Ev>)
    requires i < |cfg.routes|
  {
    match s.decode
    case Panic(v) => (Crash(v), [])
    case Fail(err) => (Failure(Some(Undecodable), Wrap(ERR_DECODE, err)), [])
    case Ok =>
      match s.preflight
      case Panic(v) => (Failure(Some(Panicking), PanicCause(v)), [])
      case Fail(err) => (Failure(Some(Invalid), err), [])
      case Ok =>
        var retries := Retry.Retries(cfg.retry, d.count);
        var runs := Runs(Retry.Last(s.handling, retries, 0) + 1);
        match Retry.Outcome(s.handling, retries)
        case Crashed(v) => (Failure(Some(Panicking), PanicCause(v)), runs)
        case Failed(err) => (Failure(Classify(cfg, d, err), err), runs)
        case Returned(data) =>
          var (f, evs) := FindPublished(sdk, cfg, d, e, s, i, data);
          (f, runs + evs)
  }

  function Find(
      sdk: Sdk, cfg: Config, d: Delivery, e: Event, undecodable: Option<Error>, s: Script)
    : (Finding, seq<Ev>)
  {
    if undecodable.Some? then (Failure(Some(Undecodable), undecodable.value), [])
    else
      match FirstMatch(cfg, s, 0)
      case NotFound => (Unrouted, [])
      case FilterCrash(v) => (Crash(v), [])
      case FoundAt(i) => if i < |cfg.routes| then FindRouted(sdk, cfg, d, e, s, i) else (Unrouted, [])
  }

  // ---------------------------------------------------------------- the decision

  /** A decision, the reason the observer is told and the error the message records; Pending is none. */
  datatype Verdict = Verdict(outcome: Outcome, reason: Option<Reason>, cause: Option<Error>)

  const UNDECIDED := Verdict(Pending, None, None)

  function CopyOf(e: Event, reason: Reason, cause: Error): Event {
    DeadLetterEvent(e, ReasonText(reason), cause.text)
  }

  /** A definitive failure whose k-th dead-letter publish ends with answer; None when that panicked. */
  function AfterCopy(cfg: Config, d: Delivery, reason: Reason, cause: Error, answer: Answer): Option<Verdict> {
    match answer
    case Panic(_) => None
    case Ok => Some(Verdict(Discarded, Some(reason), Some(cause)))
    case Fail(err) =>
      if IsNonRetryable(err) || !RedeliveryBounded(cfg, d) then Some(Verdict(Discarded, Some(reason), Some(cause)))
      else Some(Verdict(Nacked, None, Some(Wrap(cause, Wrap(ERR_PUBLICATION, err)))))
  }

  /** fail with a reason, for the k-th dead-letter publish of the delivery. */
  function Definitively(
      cfg: Config, d: Delivery, e: Event, reason: Reason, cause: Error, s: Script, k: nat)
    : (Option<Verdict>, seq<Ev>)
  {
    if !cfg.deadLetter then (Some(Verdict(Discarded, Some(reason), Some(cause))), [])
    else
      var copy := CopyOf(e, reason, cause);
      (AfterCopy(cfg, d, reason, cause, s.copy(k)), Noticed(cfg, Copied(copy, s.copy(k)), copy, s.copy(k)))
  }

  /** The recovery of a panic before the decision: its own dead-letter publish may panic again. */
  function Recovered(cfg: Config, d: Delivery, e: Event, value: string, s: Script, k: nat): (Verdict, seq<Ev>) {
    var (v, evs) := Definitively(cfg, d, e, Panicking, PanicCause(value), s, k);
    (if v.Some? then v.value else UNDECIDED, evs)
  }

  /** What happens before any recovery: a decision, or a panic that unwinds after some dead-letter publishes. */
  datatype Tried = Settled(verdict: Verdict) | Unwound(value: string, copies: nat)

  function Try(cfg: Config, d: Delivery, e: Event, f: Finding, s: Script): (Tried, seq<Ev>) {
    match f
    case Unrouted => (Settled(Verdict(Discarded, None, Some(ERR_NO_ROUTE))), [])
    case Success(_, _) => (Settled(Verdict(Acked, None, None)), [])
    case Crash(value) => (Unwound(value, 0), [])
    case Failure(None, cause) => (Settled(Verdict(Nacked, None, Some(cause))), [])
    case Failure(Some(reason), cause) =>
      var (v, evs) := Definitively(cfg, d, e, reason, cause, s, 0);
      (if v.Some? then Settled(v.value) else Unwound(s.copy(0).value, 1), evs)
  }

  function Decide(cfg: Config, d: Delivery, e: Event, f: Finding, s: Script): (Verdict, seq<Ev>) {
    var (tried, evs) := Try(cfg, d, e, f, s);
    match tried
    case Settled(v) => (v, evs)
    case Unwound(value, k) =>
      var (v, more) := Recovered(cfg, d, e, value, s, k);
      (v, evs + more)
  }

  /** The callback the decision runs, and the observer's notification unless the callback panicked. */
  function Told(d: Delivery, v: Verdict, s: Script): seq<Ev> {
    var fn := FnOf(d, v.outcome);
    if v.outcome == Pending then []
    else
      (if fn.Some? then [Called(fn.value, s.callback(fn.value))] else []) +
      if CallbackPanics(d, v.outcome, s) then [] else [OnMessage(v.outcome, v.reason)]
  }

  predicate CallbackPanics(d: Delivery, o: Outcome, s: Script) {
    FnOf(d, o).Some? && s.callback(FnOf(d, o).value).Panic?
  }

  /** What follows the Ack when results are published after it; an Ack that panicked skips it. */
  function AfterAck(sdk: Sdk, cfg: Config, d: Delivery, e: Event, f: Finding, s: Script): seq<Ev> {
    if
      && f.Success? && cfg.publishAfterAck && f.route < |cfg.routes| && cfg.routes[f.route] && f.data.Some?
      && !CallbackPanics(d, Acked, s)
    then PublishResult(sdk, cfg, e, s, f.data.value, Acked).1
    else []
  }

  /** One delivery: the recorded outcome and cause, and the whole trace. */
  datatype Report = Report(outcome: Outcome, reason: Option<Reason>, cause: Option<Error>, trace: seq<Ev>)

  function Deliver(sdk: Sdk, cfg: Config, d: Delivery, e: Event, undecodable: Option<Error>, s: Script): Report {
    var stamped := Stamped(e);
    var (f, staged) := Find(sdk, cfg, d, stamped, undecodable, s);
    var (v, copies) := Decide(cfg, d, stamped, f, s);
    Report(v.outcome, v.reason, v.cause,
           staged + copies + Told(d, v, s) + AfterAck(sdk, cfg, d, stamped, f, s))
  }
}
