/**
 Runs of redeliveries: the same message delivered with counts 1, 2, 3, … for as long as the broker
 gives it back. The two retry layers, in the process and in the broker, are bounded together.
 */
module Redelivery {
  import opened Options
  import opened Faults
  import opened CloudEvents
  import opened Correlation
  import opened Settlement
  import opened Deliveries
  import Retry
  import Ordering

  /** What stays the same over a run; the delivery's count is not looked at. */
  datatype Subject = Subject(sdk: Sdk, cfg: Config, delivery: Delivery, event: Event, undecodable: Option<Error>)

  /** The k-th delivery of a run. */
  function ReportAt(x: Subject, run: seq<Script>, k: nat): Report
    requires k < |run|
  {
    Deliver(x.sdk, x.cfg, x.delivery.(count := k + 1), x.event, x.undecodable, run[k])
  }

  /** The broker carried out the decision it was given, if any. */
  predicate Accepted(r: Report) {
    forall ev :: ev in r.trace && ev.Called? ==> ev.answer == Ok
  }

  /**
   The broker delivers the message again: it was nacked or left undecided, or the decision did not
   reach the broker.
   */
  predicate Redelivers(r: Report) {
    r.outcome in {Nacked, Pending} || !Accepted(r)
  }

  /** Every delivery but the last one leads to the next. */
  predicate IsRun(x: Subject, run: seq<Script>) {
    forall k :: 0 <= k < |run| - 1 ==> Redelivers(ReportAt(x, run, k))
  }

  /** The broker accepts every decision. */
  predicate BrokerAccepts(run: seq<Script>) {
    forall k, fn :: 0 <= k < |run| ==> run[k].callback(fn) == Ok
  }

  /** The dead-letter publisher does not panic. */
  ghost predicate CopiesReturn(run: seq<Script>) {
    forall k, j :: 0 <= k < |run| ==> !run[k].copy(j).Panic?
  }

  // ---------------------------------------------------------------- every run settles

  lemma AcceptedAt(x: Subject, run: seq<Script>, k: nat)
    requires BrokerAccepts(run) && k < |run|
    ensures Accepted(ReportAt(x, run, k))
  {
    forall ev | ev in ReportAt(x, run, k).trace && ev.Called? ensures ev.answer == Ok {
      ToldTheDecision(x.sdk, x.cfg, x.delivery.(count := k + 1), x.event, x.undecodable, run[k], ev);
      assert run[k].callback(ev.fn) == Ok;
      hide Deliver;
    }
  }

  /** What the k-th delivery's stages find. */
  function FoundAtDelivery(x: Subject, run: seq<Script>, k: nat): Finding
    requires k < |run|
  {
    Find(x.sdk, x.cfg, x.delivery.(count := k + 1), Stamped(x.event), x.undecodable, run[k]).0
  }

  /** The k-th delivery decides the message, and the decision reaches the broker. */
  predicate Settles(x: Subject, run: seq<Script>, k: nat)
    requires k < |run|
  {
    !RecoveryPanics(x.cfg, FoundAtDelivery(x, run, k), run[k]) && Accepted(ReportAt(x, run, k))
  }

  /** The number of redeliveries the router itself may ask for. */
  function Limit(x: Subject): nat {
    if x.delivery.hasNack then x.cfg.maxRetries else 0
  }

  predicate HasLimit(x: Subject) {
    x.cfg.maxRetries > 0 || !x.delivery.hasNack
  }

  /** Past the limit a delivery leads to another exactly when it stays undecided or its decision is lost. */
  lemma RedeliveredExactly(x: Subject, run: seq<Script>, k: nat)
    requires HasLimit(x) && Limit(x) <= k < |run|
    ensures Redelivers(ReportAt(x, run, k)) <==> !Settles(x, run, k)
  {
    var d := x.delivery.(count := k + 1);
    PendingExactly(x.sdk, x.cfg, d, x.event, x.undecodable, run[k]);
    if ReportAt(x, run, k).outcome == Nacked {
      NackedWithinLimit(x.sdk, x.cfg, d, x.event, x.undecodable, run[k]);
    }
    hide Deliver, Find, Stamped, RecoveryPanics, Accepted;
  }

  /**
   With a limit of M retries every run ends within M + 1 deliveries, and without a Nack in the
   first, whatever happens before the limit, if the delivery at the limit settles.
   */
  lemma RunsSettle(x: Subject, run: seq<Script>)
    requires HasLimit(x) && IsRun(x, run)
    requires |run| > Limit(x) ==> Settles(x, run, Limit(x))
    ensures |run| <= Limit(x) + 1
  {
    if |run| > Limit(x) + 1 {
      RedeliveredExactly(x, run, Limit(x));
      hide Redelivers, Settles;
    }
  }

  /** That condition is the exact one: a run of M + 1 deliveries goes on exactly when its last one does not settle. */
  lemma RunsSettleExactly(x: Subject, run: seq<Script>, next: Script)
    requires HasLimit(x) && IsRun(x, run) && |run| == Limit(x) + 1
    ensures IsRun(x, run + [next]) <==> !Settles(x, run, Limit(x))
  {
    RedeliveredExactly(x, run, Limit(x));
    hide Redelivers, Settles;
    LongerRun(x, run, next);
  }

  lemma LongerRun(x: Subject, run: seq<Script>, next: Script)
    requires IsRun(x, run) && run != []
    ensures IsRun(x, run + [next]) <==> Redelivers(ReportAt(x, run, |run| - 1))
  {
    hide Deliver, Redelivers;
    var longer := run + [next];
    forall j | 0 <= j < |run| ensures ReportAt(x, longer, j) == ReportAt(x, run, j) {
      assert longer[j] == run[j];
    }
    hide ReportAt;
    var last := |longer| - 2;
    assert ReportAt(x, longer, last) == ReportAt(x, run, |run| - 1);
  }

  /** A broker that accepts every decision and a dead-letter publisher that never panics are enough. */
  lemma TrustedSettles(x: Subject, run: seq<Script>, k: nat)
    requires BrokerAccepts(run) && CopiesReturn(run) && k < |run|
    ensures Settles(x, run, k)
  {
    AcceptedAt(x, run, k);
  }

  /** Whether the decision reached the broker, by the outcome and the callback it runs. */
  lemma AcceptedExactly(x: Subject, run: seq<Script>, k: nat)
    requires k < |run|
    ensures var fn := FnOf(x.delivery.(count := k + 1), ReportAt(x, run, k).outcome);
            Accepted(ReportAt(x, run, k)) <==> (fn.Some? ==> run[k].callback(fn.value) == Ok)
  {
    var d := x.delivery.(count := k + 1);
    var r, fn := ReportAt(x, run, k), FnOf(x.delivery.(count := k + 1), ReportAt(x, run, k).outcome);
    forall ev | ev in r.trace && ev.Called? ensures Some(ev.fn) == fn && ev.answer == run[k].callback(ev.fn) {
      ToldTheDecision(x.sdk, x.cfg, d, x.event, x.undecodable, run[k], ev);
      hide Deliver, FnOf;
    }
    if fn.Some? {
      CallMade(x.sdk, x.cfg, d, x.event, x.undecodable, run[k]);
      hide Deliver, FnOf;
    }
  }

  // ---------------------------------------------------------------- both retry layers together

  /** How often the handler ran in the first n deliveries. */
  function HandlerRuns(x: Subject, run: seq<Script>, n: nat): nat
    requires n <= |run|
  {
    if n == 0 then 0 else HandlerRuns(x, run, n - 1) + Tallied(ReportAt(x, run, n - 1).trace).runs
  }

  /** The most a run of n deliveries lets the handler run. */
  function MostRuns(p: Retry.Policy, n: nat): nat {
    if n == 0 then 0 else if p.skipOnRedelivery then p.maxRetries + n else n * (p.maxRetries + 1)
  }

  lemma RunsAt(x: Subject, run: seq<Script>, k: nat)
    requires k < |run|
    ensures Tallied(ReportAt(x, run, k).trace).runs <=
            if x.cfg.retry.skipOnRedelivery && k > 0 then 1 else x.cfg.retry.maxRetries + 1
  {
    DecidedOnce(x.sdk, x.cfg, x.delivery.(count := k + 1), x.event, x.undecodable, run[k]);
    hide Deliver, Tallied;
  }

  lemma {:induction false} RunsAdd(x: Subject, run: seq<Script>, n: nat)
    requires n <= |run|
    ensures HandlerRuns(x, run, n) <= MostRuns(x.cfg.retry, n)
    decreases n
  {
    hide ReportAt, Tallied;
    if n > 0 {
      RunsAdd(x, run, n - 1);
      RunsAt(x, run, n - 1);
      MostNext(x.cfg.retry, n);
    }
  }

  lemma MostNext(p: Retry.Policy, n: nat)
    requires n > 0
    ensures MostRuns(p, n) == MostRuns(p, n - 1) + if p.skipOnRedelivery && n > 1 then 1 else p.maxRetries + 1
  {
    Retry.MulNext(n - 1, p.maxRetries + 1);
  }

  /**
   r retries in the process and M in the broker: (r + 1) * (M + 1) runs at most, or r + 1 + M when
   redeliveries are not retried.
   */
  lemma RetryLayersCompose(x: Subject, run: seq<Script>)
    requires HasLimit(x) && IsRun(x, run)
    requires |run| > Limit(x) ==> Settles(x, run, Limit(x))
    ensures HandlerRuns(x, run, |run|) <= Bound(x.cfg.retry, Limit(x))
  {
    RunsSettle(x, run);
    RunsAdd(x, run, |run|);
    BoundIsMost(x.cfg.retry, |run|, Limit(x));
    hide *;
  }

  /** With r retries in the process and m in the broker. */
  function Bound(p: Retry.Policy, m: nat): nat {
    if p.skipOnRedelivery then p.maxRetries + 1 + m else (p.maxRetries + 1) * (m + 1)
  }

  lemma BoundIsMost(p: Retry.Policy, n: nat, m: nat)
    requires n <= m + 1
    ensures MostRuns(p, n) <= Bound(p, m)
    ensures n == m + 1 ==> MostRuns(p, n) == Bound(p, m)
  {
    Retry.MulMonotone(n, m + 1, p.maxRetries + 1);
  }

  // ---------------------------------------------------------------- the bounds are reached

  /** A delivery in which every handler call fails in a way worth retrying. */
  function Failing(s: Script): Script {
    s.(filter := (i: nat) => Matches,
       decode := Ok,
       preflight := Ok,
       handling := Retry.Handling((i: nat) => Retry.Failed(ERR_CONTEXT), (i: nat) => false, (i: nat) => 0),
       callback := (fn: Fn) => Ok,
       copy := (i: nat) => Ok)
  }

  /** The worst run: any script will do for the calls that are not made. */
  function Worst(s: Script, n: nat): (run: seq<Script>)
    ensures |run| == n && forall k :: 0 <= k < n ==> run[k] == Failing(s)
  {
    seq(n, _ => Failing(s))
  }

  lemma FailingLast(p: Retry.Policy, count: nat, s: Script)
    ensures Retry.Last(Failing(s).handling, Retry.Retries(p, count), 0) == Retry.Retries(p, count)
    ensures Retry.Outcome(Failing(s).handling, Retry.Retries(p, count)) == Retry.Failed(ERR_CONTEXT)
  {
    Retry.LastIs(Failing(s).handling, Retry.Retries(p, count), Retry.Retries(p, count));
  }

  lemma FailingFinds(x: Subject, d: Delivery, e: Event, s: Script)
    requires x.undecodable == None && x.cfg.routes != []
    ensures var retries := Retry.Retries(x.cfg.retry, d.count);
            Find(x.sdk, x.cfg, d, e, None, Failing(s)) ==
            (Failure(Classify(x.cfg, d, ERR_CONTEXT), ERR_CONTEXT), Runs(retries + 1))
  {
    FailingLast(x.cfg.retry, d.count, s);
    assert FirstMatch(x.cfg, Failing(s), 0) == FoundAt(0);
    hide Runs, Classify, Retry.Outcome;
  }

  /** The failing delivery is nacked while the limit allows it. */
  lemma FailingIsNacked(x: Subject, s: Script, k: nat, run: seq<Script>)
    requires x.undecodable == None && x.cfg.routes != [] && x.delivery.hasNack
    requires x.cfg.maxRetries == 0 || k < x.cfg.maxRetries
    requires k < |run| && run[k] == Failing(s)
    ensures ReportAt(x, run, k).outcome == Nacked
  {
    var d := x.delivery.(count := k + 1);
    FailingFinds(x, d, Stamped(x.event), s);
    hide Find, Stamped, Runs;
  }

  /** A run of n deliveries exists for every n the limit allows, and for every n when there is no limit. */
  lemma WorstIsRun(x: Subject, s: Script, n: nat)
    requires x.undecodable == None && x.cfg.routes != [] && x.delivery.hasNack
    requires x.cfg.maxRetries == 0 || n <= x.cfg.maxRetries + 1
    ensures IsRun(x, Worst(s, n)) && BrokerAccepts(Worst(s, n)) && CopiesReturn(Worst(s, n))
  {
    var run := Worst(s, n);
    forall k | 0 <= k < |run| - 1 ensures Redelivers(ReportAt(x, run, k)) {
      FailingIsNacked(x, s, k, run);
    }
  }

  /** At the limit it is discarded as past it, with the handler's error. */
  lemma WorstEnds(x: Subject, s: Script)
    requires x.undecodable == None && x.cfg.routes != [] && x.delivery.hasNack && x.cfg.maxRetries > 0
    ensures var last := ReportAt(x, Worst(s, x.cfg.maxRetries + 1), x.cfg.maxRetries);
            last.outcome == Discarded && last.reason == Some(MaxRetries) && last.cause == Some(ERR_CONTEXT)
  {
    var d := x.delivery.(count := x.cfg.maxRetries + 1);
    FailingLast(x.cfg.retry, d.count, s);
    assert FirstMatch(x.cfg, Failing(s), 0) == FoundAt(0);
    HandlerFailureTold(x.sdk, x.cfg, d, x.event, None, Failing(s), ERR_CONTEXT);
    hide Deliver;
  }

  /** Each of its deliveries uses up the in-process retries. */
  lemma FailingRuns(x: Subject, s: Script, k: nat, run: seq<Script>)
    requires x.undecodable == None && x.cfg.routes != [] && k < |run| && run[k] == Failing(s)
    ensures Tallied(ReportAt(x, run, k).trace).runs == Retry.Retries(x.cfg.retry, k + 1) + 1
  {
    var d := x.delivery.(count := k + 1);
    var f := Find(x.sdk, x.cfg, d, Stamped(x.event), x.undecodable, run[k]).0;
    FailingFinds(x, d, Stamped(x.event), s);
    TallyRuns(Retry.Retries(x.cfg.retry, k + 1) + 1);
    TallyParts(x.sdk, x.cfg, d, x.event, x.undecodable, run[k]);
    TallyCopies(x.cfg, d, Stamped(x.event), f, run[k]);
    TallyTold(d, Decide(x.cfg, d, Stamped(x.event), f, run[k]).0, run[k]);
    TallyAfterAck(x.sdk, x.cfg, d, Stamped(x.event), f, run[k]);
    hide Find, Stamped, Runs, Decide, Told, AfterAck, Tallied, Deliver, Failing;
  }

  lemma {:induction false} WorstRuns(x: Subject, s: Script, run: seq<Script>, n: nat)
    requires x.undecodable == None && x.cfg.routes != [] && n <= |run|
    requires forall k :: 0 <= k < n ==> run[k] == Failing(s)
    ensures HandlerRuns(x, run, n) == MostRuns(x.cfg.retry, n)
    decreases n
  {
    hide ReportAt, Tallied, Failing;
    if n > 0 {
      WorstRuns(x, s, run, n - 1);
      FailingRuns(x, s, n - 1, run);
      MostNext(x.cfg.retry, n);
    }
  }

  /** Both bounds are exact: some run reaches them. */
  lemma BoundsAreReached(x: Subject, s: Script)
    requires x.undecodable == None && x.cfg.routes != [] && x.delivery.hasNack && x.cfg.maxRetries > 0
    ensures var run := Worst(s, x.cfg.maxRetries + 1);
            && IsRun(x, run) && BrokerAccepts(run) && CopiesReturn(run) && |run| == x.cfg.maxRetries + 1
            && HandlerRuns(x, run, |run|) == Bound(x.cfg.retry, x.cfg.maxRetries)
  {
    var n := x.cfg.maxRetries + 1;
    WorstIsRun(x, s, n);
    WorstRuns(x, s, Worst(s, n), n);
    BoundIsMost(x.cfg.retry, n, x.cfg.maxRetries);
    hide *;
  }

  /** A dead-letter publisher that panics defeats the limit: the message stays undecided, however often it comes. */
  lemma PanickingCopiesNeverSettle(x: Subject, s: Script, n: nat)
    requires x.undecodable == None && x.cfg.routes != [] && x.cfg.deadLetter
    ensures IsRun(x, seq(n, _ => s.(filter := (i: nat) => FilterPanics(""), copy := (i: nat) => Panic(""))))
  {
    var hopeless := s.(filter := (i: nat) => FilterPanics(""), copy := (i: nat) => Panic(""));
    var run := seq(n, _ => hopeless);
    forall k | 0 <= k < |run| - 1 ensures Redelivers(ReportAt(x, run, k)) {
      PendingExactly(x.sdk, x.cfg, x.delivery.(count := k + 1), x.event, x.undecodable, hopeless);
      hide Stamped, Deliver;
    }
  }

  // ---------------------------------------------------------------- conservation of fate

  /** What the k-th delivery got out: results and dead-letter copies whose publish succeeded. */
  function SuccessesAt(x: Subject, run: seq<Script>, k: nat): nat
    requires k < |run|
  {
    Tallied(ReportAt(x, run, k).trace).successes
  }

  /** The result publishes and dead-letter copies that succeeded in the first n deliveries. */
  function Successes(x: Subject, run: seq<Script>, n: nat): nat
    requires n <= |run|
  {
    if n == 0 then 0 else Successes(x, run, n - 1) + SuccessesAt(x, run, n - 1)
  }

  /** A delivery that got something out is followed by another exactly when its decision is lost. */
  lemma SuccessGoesOnExactly(x: Subject, run: seq<Script>, k: nat)
    requires k < |run| && SuccessesAt(x, run, k) > 0
    ensures SuccessesAt(x, run, k) == 1
    ensures Redelivers(ReportAt(x, run, k)) <==> !Accepted(ReportAt(x, run, k))
  {
    OneFate(x.sdk, x.cfg, x.delivery.(count := k + 1), x.event, x.undecodable, run[k]);
    hide Deliver, Tallied, Accepted;
  }

  /** Every decision before the last one's that followed a success reached the broker. */
  predicate SuccessesAccepted(x: Subject, run: seq<Script>) {
    forall k :: 0 <= k < |run| - 1 && SuccessesAt(x, run, k) > 0 ==> Accepted(ReportAt(x, run, k))
  }

  lemma {:induction false} NoneBefore(x: Subject, run: seq<Script>, n: nat)
    requires IsRun(x, run) && SuccessesAccepted(x, run) && n < |run|
    ensures Successes(x, run, n) == 0
    decreases n
  {
    hide ReportAt, Tallied, SuccessesAt;
    if n > 0 {
      NoneBefore(x, run, n - 1);
      assert Redelivers(ReportAt(x, run, n - 1));
      if SuccessesAt(x, run, n - 1) > 0 {
        SuccessGoesOnExactly(x, run, n - 1);
      }
    }
  }

  /** A success counts from its delivery on. */
  lemma {:induction false} SuccessCounts(x: Subject, run: seq<Script>, k: nat, n: nat)
    requires k < n <= |run|
    ensures SuccessesAt(x, run, k) <= Successes(x, run, n)
    decreases n
  {
    hide ReportAt, Tallied;
    if k < n - 1 {
      SuccessCounts(x, run, k, n - 1);
    }
  }

  /**
   In either publish order: over a whole run one result or dead-letter copy gets out at most, in the
   last delivery, when every success before it had its decision accepted.
   */
  lemma FateIsConserved(x: Subject, run: seq<Script>)
    requires IsRun(x, run) && SuccessesAccepted(x, run) && run != []
    ensures var last := ReportAt(x, run, |run| - 1);
            && Successes(x, run, |run|) == SuccessesAt(x, run, |run| - 1) <= 1
            && (Successes(x, run, |run|) == 1 ==> last.outcome in {Acked, Discarded})
  {
    NoneBefore(x, run, |run| - 1);
    var k := |run| - 1;
    OneFate(x.sdk, x.cfg, x.delivery.(count := k + 1), x.event, x.undecodable, run[k]);
    hide Deliver, Tallied;
  }

  /** That condition is the exact one for a run in which nothing gets out before the last delivery. */
  lemma FateIsConservedExactly(x: Subject, run: seq<Script>)
    requires IsRun(x, run) && run != []
    ensures Successes(x, run, |run| - 1) == 0 <==> SuccessesAccepted(x, run)
  {
    hide ReportAt, SuccessesAt, Redelivers, Accepted;
    if SuccessesAccepted(x, run) {
      NoneBefore(x, run, |run| - 1);
    }
    if Successes(x, run, |run| - 1) == 0 {
      forall k | 0 <= k < |run| - 1 ensures SuccessesAt(x, run, k) == 0 {
        SuccessCounts(x, run, k, |run| - 1);
      }
    }
  }

  /** A dead-letter publish of the n-th delivery failed, and another delivery would not help or could not be bounded. */
  predicate GivenUp(x: Subject, copy: Answer, n: nat) {
    copy.Fail? && (IsNonRetryable(copy.err) || !x.delivery.hasNack || x.cfg.maxRetries == 0 || n > x.cfg.maxRetries)
  }

  /**
   A run that ends discarded for a reason delivered exactly one copy if the publish its decision
   rests on succeeded. Otherwise that very publish failed and was given up.
   */
  lemma DiscardedRuns(x: Subject, run: seq<Script>)
    requires IsRun(x, run) && SuccessesAccepted(x, run) && run != [] && x.cfg.deadLetter
    requires ReportAt(x, run, |run| - 1).outcome == Discarded && ReportAt(x, run, |run| - 1).reason.Some?
    ensures var last := run[|run| - 1];
            var copy := last.copy(LastCopy(FoundAtDelivery(x, run, |run| - 1), last));
            && Successes(x, run, |run|) == (if copy.Ok? then 1 else 0)
            && (copy.Ok? || GivenUp(x, copy, |run|))
  {
    NoneBefore(x, run, |run| - 1);
    var k := |run| - 1;
    DiscardedFate(x.sdk, x.cfg, x.delivery.(count := k + 1), x.event, x.undecodable, run[k]);
    hide Deliver, Tallied, Find, Stamped, LastCopy;
  }

  // ---------------------------------------------------------------- when the broker loses decisions

  /** A delivery whose result goes out and whose Ack then fails. */
  function LostAck(s: Script, data: string): Script {
    s.(filter := (i: nat) => Matches,
       decode := Ok,
       preflight := Ok,
       handling := Retry.Handling((i: nat) => Retry.Returned(Some(data)), (i: nat) => false, (i: nat) => 0),
       encode := None,
       publish := Ok,
       callback := (fn: Fn) => Fail(ERR_CONTEXT))
  }

  predicate PublishesFirst(x: Subject) {
    x.undecodable == None && x.cfg.routes != [] && x.cfg.routes[0] && !x.cfg.publishAfterAck && x.delivery.hasAck
  }

  lemma LostAckProduces(x: Subject, d: Delivery, s: Script, data: string)
    requires PublishesFirst(x)
    ensures Ordering.Produces(x.cfg, d, None, LostAck(s, data), 0, data)
  {
    assert FirstMatch(x.cfg, LostAck(s, data), 0) == FoundAt(0);
  }

  lemma LostAckTold(d: Delivery, s: Script)
    requires d.hasAck && s.callback(AckFn) != Ok
    ensures Called(AckFn, s.callback(AckFn)) in Told(d, Verdict(Acked, None, None), s)
  {
  }

  /** The tally of a delivery that published its result. */
  lemma TallyAcked(cfg: Config, d: Delivery, s: Script, n: nat, result: Event)
    ensures var v := Verdict(Acked, None, None);
            Tallied(Runs(n) + Noticed(cfg, Published(result, Ok, Pending), result, Ok) + Told(d, v, s)).successes == 1
  {
    hide Told, Noticed, Runs, Tallied, FnOf, CallbackPanics;
    var noticed := Noticed(cfg, Published(result, Ok, Pending), result, Ok);
    var told := Told(d, Verdict(Acked, None, None), s);
    TallyRuns(n);
    TallyNoticed(cfg, Published(result, Ok, Pending), result, Ok);
    TallyTold(d, Verdict(Acked, None, None), s);
    TallyAppend(Runs(n), noticed);
    TallyAppend(Runs(n) + noticed, told);
  }

  lemma LostAckDelivers(x: Subject, s: Script, data: string, run: seq<Script>, k: nat)
    requires PublishesFirst(x) && k < |run| && run[k] == LostAck(s, data)
    ensures Tallied(ReportAt(x, run, k).trace).successes == 1 && Redelivers(ReportAt(x, run, k))
  {
    var d := x.delivery.(count := k + 1);
    LostAckProduces(x, d, s, data);
    Ordering.AckedIffPublished(x.sdk, x.cfg, d, x.event, None, run[k], 0, data);
    TallyAcked(x.cfg, d, run[k], RunsOf(x.cfg, d, run[k]), ResultOf(x.sdk, Stamped(x.event), run[k], data));
    LostAckTold(d, run[k]);
    hide Deliver, Told, ResultOf, Noticed, Runs, Stamped, Tallied, RunsOf;
  }

  /** Acceptance by the broker is needed: while Acks get lost, every delivery publishes the result again. */
  lemma {:induction false} LostAcksDuplicate(x: Subject, s: Script, data: string, run: seq<Script>, n: nat)
    requires PublishesFirst(x) && n <= |run| && forall k :: 0 <= k < |run| ==> run[k] == LostAck(s, data)
    ensures IsRun(x, run) && Successes(x, run, n) == n
    decreases n
  {
    hide LostAck, ReportAt, Redelivers, Tallied;
    forall k | 0 <= k < |run| - 1 ensures Redelivers(ReportAt(x, run, k)) {
      LostAckDelivers(x, s, data, run, k);
    }
    if n > 0 {
      LostAcksDuplicate(x, s, data, run, n - 1);
      LostAckDelivers(x, s, data, run, n - 1);
    }
  }
}
