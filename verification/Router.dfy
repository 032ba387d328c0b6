/** The router: pkg/eventmux/mux.go, failure.go and observer.go, and the message of pkg/event/message.go. */
module Router {
  import opened Options
  import opened Faults
  import opened CloudEvents
  import opened Correlation
  import opened Settlement
  import Retry

  /** Everything outside the router during one delivery: it answers from a script and records the calls. */
  class World {
    const script: Script
    var trace: seq<Ev>
    var copies: nat
    var observed: nat

    constructor (script: Script)
      ensures this.script == script && trace == [] && copies == 0 && observed == 0
    {
      this.script := script;
      trace, copies, observed := [], 0, 0;
    }

    method Record(ev: Ev)
      modifies this`trace
      ensures trace == old(trace) + [ev]
    {
      trace := trace + [ev];
    }

    /** observe: an observer callback, whose panic is contained. */
    method Observe(ev: Ev)
      modifies this`trace, this`observed
      ensures trace == old(trace) + [ev]
    {
      Record(ev);
      var panicked := script.observerPanics(observed);
      observed := observed + 1;
      if panicked {
        // recovered: nothing else happens
      }
    }

    /** observedPublisher.Publish: the publisher's answer, reported to the observer unless it panicked. */
    method Publish(cfg: Config, ev: Ev, event: Event, answer: Answer) returns (r: Answer)
      modifies this`trace, this`observed
      ensures r == answer && trace == old(trace) + Noticed(cfg, ev, event, answer)
    {
      Record(ev);
      if cfg.observer && !answer.Panic? {
        Observe(OnPublish(event, answer));
      }
      r := answer;
    }

    /** A result publish. */
    method PublishResult(cfg: Config, event: Event, at: Outcome) returns (r: Answer)
      modifies this`trace, this`observed
      ensures r == script.publish && trace == old(trace) + Noticed(cfg, Published(event, r, at), event, r)
    {
      r := Publish(cfg, Published(event, script.publish, at), event, script.publish);
    }

    /** A dead-letter publish. */
    method PublishCopy(cfg: Config, event: Event) returns (r: Answer)
      modifies this
      ensures r == script.copy(old(copies)) && copies == old(copies) + 1
      ensures trace == old(trace) + Noticed(cfg, Copied(event, r), event, r)
    {
      var answer := script.copy(copies);
      copies := copies + 1;
      r := Publish(cfg, Copied(event, answer), event, answer);
    }

    method Call(fn: Fn) returns (r: Answer)
      modifies this`trace
      ensures r == script.callback(fn) && trace == old(trace) + [Called(fn, r)]
    {
      r := script.callback(fn);
      Record(Called(fn, r));
    }

    /** The handler under its retry middleware. */
    method Handle(policy: Retry.Policy, count: nat) returns (r: Retry.Attempt)
      requires Retry.Accepts(policy)
      modifies this`trace
      ensures r == Retry.Outcome(script.handling, Retry.Retries(policy, count))
      ensures trace == old(trace) + Runs(Retry.Last(script.handling, Retry.Retries(policy, count), 0) + 1)
    {
      var runs, waited;
      r, runs, waited := Retry.Run(policy, count, script.handling);
      for i := 0 to runs
        invariant trace == old(trace) + Runs(i)
      {
        Record(Ran(i));
      }
    }
  }

  /** event.Message: an event, its delivery and the decision about it, which is taken once. */
  class Message {
    const delivery: Delivery
    const undecodable: Option<Error>
    var event: Event
    var outcome: Outcome
    var cause: Option<Error>
    var cancelled: bool

    /** NewMessage, or NewUndecodable when there is an error. */
    constructor (e: Event, d: Delivery, undecodable: Option<Error>)
      ensures event == e && delivery == d && this.undecodable == undecodable
      ensures outcome == Pending && cause == None && !cancelled
    {
      event, delivery, this.undecodable := e, d, undecodable;
      outcome, cause, cancelled := Pending, None, false;
    }

    /**
     decide: the first decision is recorded before its callback runs; a panicking callback skips
     the cancellation. Later decisions change nothing and reach no callback.
     */
    method Decide(o: Outcome, cause: Option<Error>, w: World) returns (r: Answer)
      requires o != Pending
      modifies this`outcome, this`cause, this`cancelled, w`trace
      ensures old(outcome) != Pending ==>
                && r == Ok && outcome == old(outcome) && this.cause == old(this.cause) && cancelled == old(cancelled)
                && w.trace == old(w.trace)
      ensures old(outcome) == Pending ==>
                && outcome == o && this.cause == cause
                && r == (if FnOf(delivery, o).Some? then w.script.callback(FnOf(delivery, o).value) else Ok)
                && w.trace == old(w.trace) +
                              (if FnOf(delivery, o).Some? then [Called(FnOf(delivery, o).value, r)] else [])
                && cancelled == (old(cancelled) || !r.Panic?)
    {
      if outcome != Pending {
        return Ok;
      }
      outcome, this.cause := o, cause;
      r := Ok;
      var fn := FnOf(delivery, o);
      if fn.Some? {
        r := w.Call(fn.value);
      }
      if !r.Panic? {
        cancelled := true;
      }
    }
  }

  /** A method of the router that panics returns the panic's value: the caller unwinds. */
  type Unwinding = Option<string>

  class Mux {
    const sdk: Sdk
    const cfg: Config

    constructor (sdk: Sdk, cfg: Config)
      ensures this.sdk == sdk && this.cfg == cfg
    {
      this.sdk, this.cfg := sdk, cfg;
    }

    /** settle: the decision, and the observer's notification unless the decision panicked. */
    method Settle(msg: Message, w: World, v: Verdict) returns (p: Unwinding)
      requires msg.outcome == Pending && !msg.cancelled && v.outcome != Pending
      modifies msg`outcome, msg`cause, msg`cancelled, w`trace, w`observed
      ensures msg.outcome == v.outcome && msg.cause == v.cause
      ensures w.trace == old(w.trace) + Told(msg.delivery, v, w.script)
      ensures p.Some? <==> CallbackPanics(msg.delivery, v.outcome, w.script)
      ensures msg.cancelled == p.None?
    {
      var r := msg.Decide(v.outcome, v.cause, w);
      if r.Panic? {
        return Some(r.value);
      }
      w.Observe(OnMessage(v.outcome, v.reason));
      return None;
    }

    /** fail: nack a retryable failure; otherwise dead-letter it when configured, then discard. */
    method Fail(msg: Message, w: World, reason: Option<Reason>, cause: Error) returns (p: Unwinding)
      requires msg.outcome == Pending && !msg.cancelled
      modifies msg`outcome, msg`cause, msg`cancelled, w
      ensures reason == None ==>
                && Decision(msg, w, old(w.trace), Verdict(Nacked, None, Some(cause)), [], p)
                && w.copies == old(w.copies)
      ensures reason.Some? ==>
                var (d, e, k) := (msg.delivery, msg.event, old(w.copies));
                var (v, evs) := Definitively(cfg, d, e, reason.value, cause, w.script, k);
                && (v.Some? ==> Decision(msg, w, old(w.trace), v.value, evs, p))
                && (v.None? ==> cfg.deadLetter && p == Some(w.script.copy(old(w.copies)).value)
                                && msg.outcome == Pending && !msg.cancelled && msg.cause == old(msg.cause)
                                && w.trace == old(w.trace) + evs && w.copies == old(w.copies) + 1)
    {
      if reason == None {
        p := Settle(msg, w, Verdict(Nacked, None, Some(cause)));
        assert w.trace == old(w.trace) + [] + Told(msg.delivery, Verdict(Nacked, None, Some(cause)), w.script);
        return;
      }
      if cfg.deadLetter {
        var answer := w.PublishCopy(cfg, CopyOf(msg.event, reason.value, cause));
        match answer {
          case Panic(value) => return Some(value);
          case Ok =>
          case Fail(err) =>
            if !(IsNonRetryable(err) || !RedeliveryBounded(cfg, msg.delivery)) {
              p := Settle(msg, w, Verdict(Nacked, None, Some(Wrap(cause, Wrap(ERR_PUBLICATION, err)))));
              return;
            }
        }
      }
      p := Settle(msg, w, Verdict(Discarded, reason, Some(cause)));
    }

    /** The message was decided as v after the calls evs. */
    ghost predicate Decision(msg: Message, w: World, before: seq<Ev>, v: Verdict, evs: seq<Ev>, p: Unwinding)
      reads msg, w
    {
      && v.outcome != Pending && msg.outcome == v.outcome && msg.cause == v.cause
      && w.trace == before + evs + Told(msg.delivery, v, w.script)
      && (p.Some? <==> CallbackPanics(msg.delivery, v.outcome, w.script))
      && msg.cancelled == p.None?
    }

    /** findMatchingRoute. */
    method FindMatchingRoute(w: World) returns (found: Found)
      ensures found == FirstMatch(cfg, w.script, 0)
      ensures found.FoundAt? ==> found.route < |cfg.routes|
    {
      for i := 0 to |cfg.routes|
        invariant FirstMatch(cfg, w.script, i) == FirstMatch(cfg, w.script, 0)
      {
        match w.script.filter(i) {
          case FilterPanics(value) => return FilterCrash(value);
          case Matches => return FoundAt(i);
          case Skips =>
        }
      }
      return NotFound;
    }

    /** publishResult. */
    method PublishResult(msg: Message, w: World, data: string, at: Outcome) returns (r: Answer)
      requires StoredNames(msg.event.ext)
      modifies w`trace, w`observed
      ensures (r, w.trace) ==
              var (answer, evs) := Settlement.PublishResult(sdk, cfg, msg.event, w.script, data, at);
              (answer, old(w.trace) + evs)
    {
      if w.script.encode.Some? {
        assert w.trace == old(w.trace) + [];
        return Answer.Fail(Error(w.script.encode.value.marks + {NonRetryable}, w.script.encode.value.text));
      }
      var blank := ResultEvent(sdk, msg.event, Hop([], w.script.resultId, w.script.now, data));
      var ext := BuildExtensions(msg.event, w.script.meta);
      r := w.PublishResult(cfg, blank.(ext := ext), at);
    }

    /** fail, as the end of a stage whose calls so far are staged. */
    method FailStage(
        msg: Message, w: World, reason: Option<Reason>, cause: Error, ghost before: seq<Ev>, ghost staged: seq<Ev>)
      returns (p: Unwinding)
      requires Ready(msg, w) && w.trace == before + staged
      modifies msg`outcome, msg`cause, msg`cancelled, w
      ensures Routed(msg, w, before, (Failure(reason, cause), staged), p)
    {
      p := Fail(msg, w, reason, cause);
      if reason == None {
        assert before + staged + [] == before + staged;
      }
    }

    /** settle, as the end of a stage. */
    method SettleStage(
        msg: Message, w: World, f: Finding, ghost before: seq<Ev>, ghost staged: seq<Ev>)
      returns (p: Unwinding)
      requires Ready(msg, w) && w.trace == before + staged
      requires f == Unrouted || (f.Success? && !cfg.publishAfterAck)
      modifies msg`outcome, msg`cause, msg`cancelled, w
      ensures Routed(msg, w, before, (f, staged), p)
    {
      assert before + staged + [] == before + staged;
      var verdict := if f.Unrouted? then Verdict(Discarded, None, Some(ERR_NO_ROUTE)) else Verdict(Acked, None, None);
      p := Settle(msg, w, verdict);
    }

    lemma CrashStage(msg: Message, w: World, value: string, before: seq<Ev>, staged: seq<Ev>)
      requires Ready(msg, w) && w.trace == before + staged
      ensures Routed(msg, w, before, (Crash(value), staged), Some(value))
    {
    }

    /** processAndHandle: decode, preflight, handler, result and decision of a routed message. */
    method ProcessAndHandle(msg: Message, w: World, i: nat) returns (p: Unwinding)
      requires i < |cfg.routes| && Ready(msg, w)
      modifies msg`outcome, msg`cause, msg`cancelled, w
      ensures Routed(msg, w, old(w.trace), FindRouted(sdk, cfg, msg.delivery, msg.event, w.script, i), p)
    {
      hide Routed, Ready, FindPublished, Wrap, PanicCause, Classify, Retry.Outcome, Runs, CopyOf;
      ghost var before := w.trace;
      assert w.trace == before + [];
      match w.script.decode {
        case Panic(value) =>
          CrashStage(msg, w, value, before, []);
          return Some(value);
        case Fail(err) =>
          p := FailStage(msg, w, Some(Undecodable), Wrap(ERR_DECODE, err), before, []);
          return;
        case Ok =>
      }
      match w.script.preflight {
        case Panic(value) =>
          p := FailStage(msg, w, Some(Panicking), PanicCause(value), before, []);
          return;
        case Fail(err) =>
          p := FailStage(msg, w, Some(Invalid), err, before, []);
          return;
        case Ok =>
      }
      var result := Invoke(msg, w);
      ghost var runs := Runs(Retry.Last(w.script.handling, Retry.Retries(cfg.retry, msg.delivery.count), 0) + 1);
      match result {
        case Crashed(value) =>
          p := FailStage(msg, w, Some(Panicking), PanicCause(value), before, runs);
        case Failed(err) =>
          p := FailStage(msg, w, Classify(cfg, msg.delivery, err), err, before, runs);
        case Returned(data) =>
          p := Deliver(msg, w, i, data, before, runs);
      }
    }

    /** The handler chain, under its retry middleware. */
    method Invoke(msg: Message, w: World) returns (r: Retry.Attempt)
      requires Ready(msg, w)
      modifies w`trace
      ensures r == Retry.Outcome(w.script.handling, Retry.Retries(cfg.retry, msg.delivery.count))
      ensures Ready(msg, w)
      ensures w.trace ==
              old(w.trace) + Runs(Retry.Last(w.script.handling, Retry.Retries(cfg.retry, msg.delivery.count), 0) + 1)
    {
      r := w.Handle(cfg.retry, msg.delivery.count);
    }

    /** The end of processAndHandle, once the handler returned data. */
    method Deliver(msg: Message, w: World, i: nat, data: Option<string>, ghost before: seq<Ev>, ghost runs: seq<Ev>)
      returns (p: Unwinding)
      requires i < |cfg.routes| && Ready(msg, w) && w.trace == before + runs
      modifies msg`outcome, msg`cause, msg`cancelled, w
      ensures var (f, evs) := FindPublished(sdk, cfg, msg.delivery, msg.event, w.script, i, data);
              Routed(msg, w, before, (f, runs + evs), p)
    {
      if cfg.publishAfterAck {
        assert runs + [] == runs;
        p := DeliverAfterAck(msg, w, i, data, before, runs);
        return;
      }
      ghost var evs := [];
      if cfg.routes[i] && data.Some? {
        var answer := PublishResult(msg, w, data.value, msg.outcome);
        evs := Settlement.PublishResult(sdk, cfg, msg.event, w.script, data.value, Pending).1;
        assert w.trace == before + (runs + evs);
        match answer {
          case Panic(value) =>
            CrashStage(msg, w, value, before, runs + evs);
            return Some(value);
          case Fail(err) =>
            var reason := ClassifyPublish(cfg, msg.delivery, err);
            p := FailStage(msg, w, reason, Wrap(ERR_PUBLICATION, err), before, runs + evs);
            return;
          case Ok =>
        }
      }
      assert w.trace == before + (runs + evs);
      p := SettleStage(msg, w, Success(i, data), before, runs + evs);
    }

    /** The other publish order: the Ack first, then the result, whose failure changes nothing. */
    method DeliverAfterAck(
        msg: Message, w: World, i: nat, data: Option<string>, ghost before: seq<Ev>, ghost runs: seq<Ev>)
      returns (p: Unwinding)
      requires i < |cfg.routes| && Ready(msg, w) && w.trace == before + runs && cfg.publishAfterAck
      modifies msg`outcome, msg`cause, msg`cancelled, w
      ensures Routed(msg, w, before, (Success(i, data), runs), p)
    {
      ghost var ack := Verdict(Acked, None, None);
      p := Settle(msg, w, Verdict(Acked, None, None));
      assert w.trace == before + runs + [] + Told(msg.delivery, ack, w.script);
      if p.None? && cfg.routes[i] && data.Some? {
        var answer := PublishResult(msg, w, data.value, msg.outcome);
        if answer.Panic? {
          p := Some(answer.value);
        }
      } else {
        assert w.trace == before + runs + [] + Told(msg.delivery, ack, w.script) + [];
      }
    }

    /** Nothing is decided and no copy was published. */
    ghost predicate Ready(msg: Message, w: World)
      reads msg, w
    {
      msg.outcome == Pending && !msg.cancelled && msg.cause == None && w.copies == 0
      && StoredNames(msg.event.ext) && Retry.Accepts(cfg.retry)
    }

    /** What is true when handle's body has returned or unwound, before its deferred recovery runs. */
    ghost predicate Routed(msg: Message, w: World, before: seq<Ev>, found: (Finding, seq<Ev>), p: Unwinding)
      reads msg, w
    {
      var (tried, evs) := Try(cfg, msg.delivery, msg.event, found.0, w.script);
      match tried
      case Unwound(value, copies) =>
        && p == Some(value) && msg.outcome == Pending && !msg.cancelled && msg.cause == None
        && w.copies == copies && w.trace == before + found.1 + evs
      case Settled(v) =>
        && msg.outcome == v.outcome && msg.cause == v.cause
        && msg.cancelled == !CallbackPanics(msg.delivery, v.outcome, w.script)
        && w.trace == before + found.1 + evs + Told(msg.delivery, v, w.script)
                      + AfterAck(sdk, cfg, msg.delivery, msg.event, found.0, w.script)
    }

    /** recoverOutsideHandler: settles a message a panic left undecided; a second panic is swallowed. */
    method Recover(msg: Message, w: World, value: string)
      requires msg.outcome == Pending ==> !msg.cancelled && msg.cause == None
      modifies msg`outcome, msg`cause, msg`cancelled, w
      ensures old(msg.outcome) != Pending ==>
                && msg.outcome == old(msg.outcome) && msg.cause == old(msg.cause) && msg.cancelled == old(msg.cancelled)
                && w.trace == old(w.trace)
      ensures old(msg.outcome) == Pending ==>
                var (v, evs) := Recovered(cfg, msg.delivery, msg.event, value, w.script, old(w.copies));
                && msg.outcome == v.outcome && msg.cause == v.cause
                && w.trace == old(w.trace) + evs + Told(msg.delivery, v, w.script)
                && msg.cancelled == (v.outcome != Pending && !CallbackPanics(msg.delivery, v.outcome, w.script))
    {
      if msg.outcome != Pending {
        return;
      }
      var again := Fail(msg, w, Some(Panicking), PanicCause(value));
    }

    /** handle's body, whose panics its deferred recovery catches. */
    method Route(msg: Message, w: World) returns (p: Unwinding)
      requires Ready(msg, w)
      modifies msg`outcome, msg`cause, msg`cancelled, w
      ensures Routed(msg, w, old(w.trace), Find(sdk, cfg, msg.delivery, msg.event, msg.undecodable, w.script), p)
    {
      ghost var before := w.trace;
      assert w.trace == before + [];
      hide Routed, Ready, FindRouted;
      if msg.undecodable.Some? {
        p := FailStage(msg, w, Some(Undecodable), msg.undecodable.value, before, []);
        return;
      }
      var found := FindMatchingRoute(w);
      match found {
        case FilterCrash(value) =>
          CrashStage(msg, w, value, before, []);
          return Some(value);
        case NotFound => p := SettleStage(msg, w, Unrouted, before, []);
        case FoundAt(i) => p := ProcessAndHandle(msg, w, i);
      }
    }

    /** The first event of a chain identifies it. */
    method Stamp(msg: Message)
      requires StoredNames(msg.event.ext)
      modifies msg`event
      ensures msg.event == Stamped(old(msg.event)) && StoredNames(msg.event.ext)
    {
      if CorrelationId(msg.event) == "" && msg.event.id != "" {
        SetExtensionKeepsNames(msg.event.ext, EXT_CORRELATION_ID, Text(msg.event.id));
        msg.event := msg.event.(ext := SetExtension(msg.event.ext, EXT_CORRELATION_ID, Text(msg.event.id)));
      }
    }

    /** handle's deferred recovery, after its body returned or unwound. */
    method Contain(msg: Message, w: World, p: Unwinding, ghost before: seq<Ev>, ghost found: (Finding, seq<Ev>))
      requires Routed(msg, w, before, found, p)
      modifies msg`outcome, msg`cause, msg`cancelled, w
      ensures var (v, calls) := Decide(cfg, msg.delivery, msg.event, found.0, w.script);
              && msg.outcome == v.outcome && msg.cause == v.cause
              && w.trace == before + (found.1 + calls + Told(msg.delivery, v, w.script)
                                      + AfterAck(sdk, cfg, msg.delivery, msg.event, found.0, w.script))
              && msg.cancelled == (v.outcome != Pending && !CallbackPanics(msg.delivery, v.outcome, w.script))
    {
      ghost var (tried, evs) := Try(cfg, msg.delivery, msg.event, found.0, w.script);
      ghost var told := Told(msg.delivery, Decide(cfg, msg.delivery, msg.event, found.0, w.script).0, w.script);
      DecideTried(cfg, msg.delivery, msg.event, found.0, w.script);
      hide Try, Decide, Recovered, AfterAck, Told, Definitively, PanicCause, CallbackPanics;
      if p.Some? {
        Recover(msg, w, p.value);
      }
      if tried.Unwound? {
        ghost var again := Recovered(cfg, msg.delivery, msg.event, tried.value, w.script, tried.copies).1;
        Associate(before, found.1, evs, again, told);
      } else {
        AssociateAfter(before, found.1, evs, told, AfterAck(sdk, cfg, msg.delivery, msg.event, found.0, w.script));
      }
    }

    /** What Decide makes of a try: its decision, or that of the recovery, and then nothing follows an Ack. */
    lemma DecideTried(cfg: Config, d: Delivery, e: Event, f: Finding, s: Script)
      ensures var (tried, evs) := Try(cfg, d, e, f, s);
              match tried
              case Settled(v) => v.outcome != Pending && Decide(cfg, d, e, f, s) == (v, evs)
              case Unwound(value, k) =>
                var (v, more) := Recovered(cfg, d, e, value, s, k);
                Decide(cfg, d, e, f, s) == (v, evs + more) && AfterAck(sdk, cfg, d, e, f, s) == []
    {
    }

    /** handle: no panic leaves it, and the delivery ends as the table says. */
    method Handle(msg: Message, w: World)
      requires Ready(msg, w)
      modifies msg, w
      ensures var r := Settlement.Deliver(sdk, cfg, msg.delivery, old(msg.event), msg.undecodable, w.script);
              && msg.outcome == r.outcome && msg.cause == r.cause
              && w.trace == old(w.trace) + r.trace
              && msg.cancelled == (r.outcome != Pending && !CallbackPanics(msg.delivery, r.outcome, w.script))
      ensures msg.event == Stamped(old(msg.event))
    {
      ghost var before := w.trace;
      Stamp(msg);
      var p := Route(msg, w);
      Contain(msg, w, p, before, Find(sdk, cfg, msg.delivery, msg.event, msg.undecodable, w.script));
      hide Find, Decide, AfterAck, Told, Stamped, CallbackPanics;
    }

    lemma Associate(a: seq<Ev>, b: seq<Ev>, c: seq<Ev>, d: seq<Ev>, e: seq<Ev>)
      ensures a + b + c + d + e == a + (b + (c + d) + e + [])
    {
    }

    lemma AssociateAfter(a: seq<Ev>, b: seq<Ev>, c: seq<Ev>, d: seq<Ev>, e: seq<Ev>)
      ensures a + b + c + d + e == a + (b + c + d + e)
    {
    }
  }
}
