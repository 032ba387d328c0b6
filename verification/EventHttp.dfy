/**
 The HTTP subscriber: pkg/transport/eventhttp/subscriber.go, error.go and response.go.
 A request becomes an event with a valid correlation id or is refused, the router handles the
 event, and the router's decision becomes the response.
 */
module EventHttp {
  import opened Options
  import opened Faults
  import opened CloudEvents
  import opened Envelope
  import opened Correlation
  import opened Settlement
  import Retry
  import Router
  import Utf8
  import Ordering
  import Stages

  datatype Code =
    | InvalidRequest | InvalidCorrelationId | PayloadTooLarge | UnsupportedMediaType
    | RouteNotFound | InvalidPayload | ValidationFailed | HandlerFailed | Custom(text: string)

  const NO_ROUTE_DETAIL := "Command or event type not supported"
  const PAYLOAD_DETAIL := "Payload could not be decoded"
  const GENERIC_DETAIL := "The event could not be processed"

  // The details of refusals.
  const NOT_JSON := "Content-Type must be application/json"
  const TOO_LARGE := "Body too large"
  const UNREADABLE := "Unreadable body"
  const MALFORMED := "Malformed CloudEvent"
  const BAD_ID := "Invalid event id"
  const BAD_TYPE := "Invalid event type"
  const BAD_CORRELATION_ID := "Invalid correlation id"

  /** An error rule; a status of 0 is the zero value of the field. */
  datatype Rule = Rule(matches: Error -> bool, status: nat, code: Code, detail: Error -> string)

  /** rules are the caller's, evaluated before the default ones; clientDetail is ClientDetail() of a client error. */
  datatype Config = Config(pattern: string, defaultType: string, rules: seq<Rule>, clientDetail: Error -> string)

  /** What the SDK makes of a request, and what reading its body gives. */
  datatype Parsed = Parsed(ev: Event) | BodyTooLarge | NotParsed
  datatype Body = Read(data: string) | TooLarge | Unreadable

  /**
   A request: mediaType is mime.ParseMediaType of its Content-Type (None with an error, then found is
   the media type it still returns), freshId a new UUID, url the source of a plain event.
   */
  datatype Request = Request(
    sdk: Parsed, specVersion: string, mediaType: Option<string>, found: string, body: Body,
    messageId: string, correlationId: string, freshId: string, url: string, now: Time)

  /** The event to handle, or a refusal with the event the response echoes. */
  datatype Extracted = Accepted(ev: Event) | Refused(echo: Event, status: nat, code: Code, detail: string)

  // ---------------------------------------------------------------- extracting the event

  function MediaType(r: Request): string {
    if r.mediaType.Some? then r.mediaType.value else r.found
  }

  predicate IsCloudEventsRequest(r: Request) {
    r.specVersion != "" || MediaType(r) == STRUCTURED_JSON
  }

  /** The plain event before its body is looked at. */
  function PlainDraft(sdk: Sdk, cfg: Config, r: Request): Draft {
    var d := Set(sdk, Set(sdk, Draft(BLANK, {}), Kind, cfg.defaultType), Source, r.url);
    d.(ev := d.ev.(time := if r.now == sdk.zeroTime then None else Some(r.now)))
  }

  function PlainEvent(sdk: Sdk, cfg: Config, r: Request): Extracted {
    var d := PlainDraft(sdk, cfg, r);
    if r.mediaType != Some(APPLICATION_JSON) then
      Refused(d.ev, 415, UnsupportedMediaType, NOT_JSON)
    else
      match r.body
      case TooLarge => Refused(d.ev, 413, PayloadTooLarge, TOO_LARGE)
      case Unreadable => Refused(d.ev, 400, InvalidRequest, UNREADABLE)
      case Read(data) =>
        var named := Set(sdk, d, Id, if r.messageId == "" then r.freshId else r.messageId);
        var chained :=
          if r.correlationId == "" then named
          else Set(sdk, named, Ext(EXT_CORRELATION_ID), r.correlationId);
        Accepted(SetData(sdk, chained, APPLICATION_JSON, data).ev)
  }

  /** echoable: no id, the type only when asked, the correlation id when there is one. */
  function Echoable(sdk: Sdk, e: Event, keepType: bool): Event {
    BLANK.(kind := if keepType then sdk.trim(e.kind) else "",
           ext := if CorrelationId(e) == "" then map[]
                  else SetExtension(map[], EXT_CORRELATION_ID, Text(CorrelationId(e))))
  }

  /** The event of the request before its ids are checked. */
  function Raw(sdk: Sdk, cfg: Config, r: Request): Extracted {
    match r.sdk
    case Parsed(e) => Accepted(e)
    case BodyTooLarge => Refused(BLANK, 413, PayloadTooLarge, TOO_LARGE)
    case NotParsed =>
      if IsCloudEventsRequest(r) then Refused(BLANK, 400, InvalidRequest, MALFORMED)
      else PlainEvent(sdk, cfg, r)
  }

  function WithCorrelation(e: Event, id: string): Event {
    e.(ext := SetExtension(e.ext, EXT_CORRELATION_ID, Text(id)))
  }

  /** extractCloudEvent's checks. */
  function Checked(sdk: Sdk, e: Event): Extracted {
    if Validate(e.id) != Valid then Refused(Echoable(sdk, e, true), 400, InvalidRequest, BAD_ID)
    else if !Utf8.IsValid(e.kind) then Refused(Echoable(sdk, e, false), 400, InvalidRequest, BAD_TYPE)
    else if CorrelationId(e) == "" then Accepted(WithCorrelation(e, e.id))
    else if Validate(CorrelationId(e)) != Valid then
      Refused(WithCorrelation(e, ""), 400, InvalidCorrelationId, BAD_CORRELATION_ID)
    else Accepted(e)
  }

  function Extract(sdk: Sdk, cfg: Config, r: Request): Extracted {
    match Raw(sdk, cfg, r)
    case Accepted(e) => Checked(sdk, e)
    case refused => refused
  }

  // ---------------------------------------------------------------- answering

  datatype Response = Response(
    id: string, kind: string, correlationId: string, instance: string, code: Option<Code>, detail: string, status: nat)

  /** What is written: the JSON envelope, or plain text. */
  datatype Reply = Json(response: Response) | PlainText(code: nat)

  function StatusOf(reply: Reply): nat {
    match reply
    case Json(response) => response.status
    case PlainText(code) => code
  }

  /** json.Marshal accepts the envelope: every string is valid UTF-8. */
  predicate Encodable(r: Response) {
    && Utf8.IsValid(r.id) && Utf8.IsValid(r.kind) && Utf8.IsValid(r.correlationId) && Utf8.IsValid(r.instance)
    && Utf8.IsValid(r.detail) && (r.code.Some? && r.code.value.Custom? ==> Utf8.IsValid(r.code.value.text))
  }

  /** Response.JSON: an unset status is 202. */
  function Send(r: Response): Reply {
    if Encodable(r) then Json(if r.status == 0 then r.(status := 202) else r) else PlainText(500)
  }

  function Respond(cfg: Config, e: Event, status: nat, code: Option<Code>, detail: string): Reply {
    Send(Response(e.id, e.kind, CorrelationId(e), cfg.pattern, code, detail, status))
  }

  function AllRules(cfg: Config): seq<Rule> {
    cfg.rules + [
      Rule((e: Error) => Client in e.marks, 400, ValidationFailed, cfg.clientDetail),
      Rule((e: Error) => NoRoute in e.marks, 400, RouteNotFound, (e: Error) => NO_ROUTE_DETAIL),
      Rule((e: Error) => Faults.Decode in e.marks, 400, InvalidPayload, (e: Error) => PAYLOAD_DETAIL)]
  }

  /** The first rule, from i on, that matches. */
  function FirstRule(rules: seq<Rule>, i: nat, err: Error): Option<Rule>
    decreases |rules| - i
  {
    if i >= |rules| then None else if rules[i].matches(err) then Some(rules[i]) else FirstRule(rules, i + 1, err)
  }

  /** The response to a decided, or undecided, message. */
  function Judged(cfg: Config, e: Event, outcome: Outcome, cause: Option<Error>): Reply {
    match outcome
    case Acked => Respond(cfg, e, 202, None, "")
    case Pending => Respond(cfg, e, 500, Some(HandlerFailed), GENERIC_DETAIL)
    case _ =>
      var rule := if cause.Some? then FirstRule(AllRules(cfg), 0, cause.value) else None;
      if rule.Some? then Respond(cfg, e, rule.value.status, Some(rule.value.code), rule.value.detail(cause.value))
      else Respond(cfg, e, 500, Some(HandlerFailed), GENERIC_DETAIL)
  }

  /** The caller gets a 5xx and retries: a request can be nacked, and its delivery count is unknown. */
  const DELIVERY := Delivery(false, true, false, 0)

  // ---------------------------------------------------------------- the subscriber

  class Subscriber {
    const sdk: Sdk
    const cfg: Config
    var handler: Router.Mux?

    constructor (sdk: Sdk, cfg: Config)
      ensures this.sdk == sdk && this.cfg == cfg && handler == null
    {
      this.sdk, this.cfg, handler := sdk, cfg, null;
    }

    /** Start: false is ErrAlreadyStarted. */
    method Start(mux: Router.Mux) returns (ok: bool)
      modifies this
      ensures ok == (old(handler) == null) && handler == if ok then mux else old(handler)
    {
      ok := handler == null;
      if ok {
        handler := mux;
      }
    }

    method Stop()
      modifies this
      ensures handler == null
    {
      handler := null;
    }

    /** ErrorResponder.Respond. */
    method FindRule(err: Error) returns (rule: Option<Rule>)
      ensures rule == FirstRule(AllRules(cfg), 0, err)
    {
      var rules := AllRules(cfg);
      for i := 0 to |rules|
        invariant FirstRule(rules, i, err) == FirstRule(rules, 0, err)
      {
        if rules[i].matches(err) {
          return Some(rules[i]);
        }
      }
      rule := None;
    }

    /** The registered route and Handler: 503 unless started, then the extraction, the router and the answer. */
    method Serve(r: Request, w: Router.World) returns (reply: Reply)
      requires handler != null ==> Retry.Accepts(handler.cfg.retry)
      requires r.sdk.Parsed? ==> StoredNames(r.sdk.ev.ext)
      requires w.copies == 0
      modifies w
      ensures handler == null ==> reply == PlainText(503) && w.trace == old(w.trace)
      ensures handler != null ==>
                match Extract(sdk, cfg, r)
                case Refused(echo, status, code, detail) =>
                  reply == Refusal(cfg, Refused(echo, status, code, detail)) && w.trace == old(w.trace)
                case Accepted(e) =>
                  var report := Settlement.Deliver(handler.sdk, handler.cfg, DELIVERY, e, None, w.script);
                  reply == Judged(cfg, e, report.outcome, report.cause) && w.trace == old(w.trace) + report.trace
    {
      if handler == null {
        return PlainText(503);
      }
      match Extract(sdk, cfg, r) {
        case Refused(echo, status, code, detail) =>
          reply := Respond(cfg, echo, status, Some(code), detail);
        case Accepted(e) =>
          ExtractKeepsNames(sdk, cfg, r);
          var msg := new Router.Message(e, DELIVERY, None);
          hide Extract, Settlement.Deliver, Judged;
          handler.Handle(msg, w);
          reply := Judge(e, msg);
      }
    }

    /** Handler's switch on the outcome. */
    method Judge(e: Event, msg: Router.Message) returns (reply: Reply)
      ensures reply == Judged(cfg, e, msg.outcome, msg.cause)
    {
      match msg.outcome {
        case Acked => return Respond(cfg, e, 202, None, "");
        case Pending => return Respond(cfg, e, 500, Some(HandlerFailed), GENERIC_DETAIL);
        case _ =>
      }
      if msg.cause.Some? {
        var rule := FindRule(msg.cause.value);
        if rule.Some? {
          return Respond(cfg, e, rule.value.status, Some(rule.value.code), rule.value.detail(msg.cause.value));
        }
      }
      reply := Respond(cfg, e, 500, Some(HandlerFailed), GENERIC_DETAIL);
    }
  }

  lemma ExtractKeepsNames(sdk: Sdk, cfg: Config, r: Request)
    requires r.sdk.Parsed? ==> StoredNames(r.sdk.ev.ext)
    ensures Extract(sdk, cfg, r).Accepted? ==> StoredNames(Extract(sdk, cfg, r).ev.ext)
  {
    var raw := Raw(sdk, cfg, r);
    if raw.Accepted? {
      if !r.sdk.Parsed? {
        PlainKeepsNames(sdk, cfg, r);
      }
      SetExtensionKeepsNames(raw.ev.ext, EXT_CORRELATION_ID, Text(raw.ev.id));
    }
    hide Raw, StoredNames, SetExtension, Validate;
  }

  lemma PlainKeepsNames(sdk: Sdk, cfg: Config, r: Request)
    requires PlainEvent(sdk, cfg, r).Accepted?
    ensures StoredNames(PlainEvent(sdk, cfg, r).ev.ext)
  {
    SetExtensionKeepsNames(map[], EXT_CORRELATION_ID, Text(r.correlationId));
    assert StoredNames(map[]);
  }

  // ---------------------------------------------------------------- which requests are accepted

  /**
   A request is handed to the router exactly when its ids and type check out, and then only a missing
   correlation id is filled in.
   */
  lemma AcceptedExactly(sdk: Sdk, cfg: Config, r: Request)
    ensures var raw := Raw(sdk, cfg, r);
            Extract(sdk, cfg, r).Accepted? <==>
            && raw.Accepted? && IsCorrelationId(raw.ev.id) && Utf8.IsValid(raw.ev.kind)
            && (CorrelationId(raw.ev) == "" || IsCorrelationId(CorrelationId(raw.ev)))
    ensures var (raw, x) := (Raw(sdk, cfg, r), Extract(sdk, cfg, r));
            x.Accepted? ==>
              && IsCorrelationId(CorrelationId(x.ev)) && Stamped(x.ev) == x.ev
              && x.ev == if CorrelationId(raw.ev) == "" then Stamped(raw.ev) else raw.ev
  {
    CorrelationName();
    hide Raw, Utf8.IsValid, IsStoredName, IsExtensionName, LowerAscii;
  }

  /** Which check refuses with which code, and that the id or correlation id that was refused is not echoed. */
  lemma RefusedSafely(sdk: Sdk, cfg: Config, r: Request)
    requires Extract(sdk, cfg, r).Refused? && Raw(sdk, cfg, r).Accepted?
    ensures var (raw, x) := (Raw(sdk, cfg, r).ev, Extract(sdk, cfg, r));
            && x.status == 400
            && (x.code == InvalidCorrelationId <==>
                  && IsCorrelationId(raw.id) && Utf8.IsValid(raw.kind)
                  && CorrelationId(raw) != "" && !IsCorrelationId(CorrelationId(raw)))
            && (x.code == InvalidCorrelationId ==>
                  x.echo.id == raw.id && x.echo.kind == raw.kind && CorrelationId(x.echo) == "")
            && (x.code != InvalidCorrelationId ==>
                  && x.echo.id == "" && CorrelationId(x.echo) == CorrelationId(raw)
                  && x.echo.kind == if IsCorrelationId(raw.id) then "" else sdk.trim(raw.kind))
  {
    CorrelationName();
    hide Raw, Utf8.IsValid, IsStoredName, IsExtensionName, LowerAscii;
  }

  /** The SDK has the first word; only a request that claims no CloudEvent is read as plain JSON. */
  predicate IsPlain(r: Request) {
    r.sdk == NotParsed && r.specVersion == "" && MediaType(r) != STRUCTURED_JSON
  }

  /** A body over the limit is 413, a media type that is not JSON 415, every other refusal 400. */
  lemma RefusedWhy(sdk: Sdk, cfg: Config, r: Request)
    ensures var x := Extract(sdk, cfg, r);
            && (x.Refused? && x.status == 413 <==>
                  r.sdk == BodyTooLarge || (IsPlain(r) && r.mediaType == Some(APPLICATION_JSON) && r.body == TooLarge))
            && (x.Refused? && x.status == 415 <==> IsPlain(r) && r.mediaType != Some(APPLICATION_JSON))
            && (x.Refused? && x.status !in {413, 415} ==> x.status == 400)
            && (x.Refused? ==> (x.code == PayloadTooLarge <==> x.status == 413))
            && (x.Refused? ==> (x.code == UnsupportedMediaType <==> x.status == 415))
            && (r.sdk == NotParsed && !IsPlain(r) ==> x == Refused(BLANK, 400, InvalidRequest, MALFORMED))
  {
    hide Utf8.IsValid, CorrelationId, Set, PlainDraft, Validate;
  }

  /** A plain request becomes its body as JSON, of the default type, with the ids of its headers or a fresh id. */
  lemma PlainAccepted(sdk: Sdk, cfg: Config, r: Request)
    requires IsPlain(r) && r.mediaType == Some(APPLICATION_JSON) && r.body.Read? && Lawful(sdk)
    ensures var x := Raw(sdk, cfg, r);
            && x.Accepted? && x.ev.data == r.body.data && x.ev.contentType == APPLICATION_JSON
            && x.ev.id == sdk.trim(if r.messageId == "" then r.freshId else r.messageId)
            && CorrelationId(x.ev) == r.correlationId && x.ev.kind == sdk.trim(cfg.defaultType)
            && (sdk.parseUri(r.url).Some? ==> x.ev.source == sdk.parseUri(r.url).value)
            && x.ev.time == (if r.now == sdk.zeroTime then None else Some(r.now))
            && (forall k :: k in x.ev.ext ==> k == EXT_CORRELATION_ID)
  {
    CorrelationName();
    hide IsExtensionName, LowerAscii, Lawful;
    assert sdk.trim(APPLICATION_JSON) == APPLICATION_JSON && sdk.trim("") == "" by { TrimJson(sdk); }
  }

  lemma TrimJson(sdk: Sdk)
    requires Lawful(sdk)
    ensures sdk.trim(APPLICATION_JSON) == APPLICATION_JSON && sdk.trim("") == ""
  {
  }

  // ---------------------------------------------------------------- the status

  lemma {:induction false} AsciiIsValid(s: string)
    requires IsAscii(s)
    ensures Utf8.IsValid(s)
    decreases |s|
  {
    if s != [] {
      assert Utf8.Width(s) == 1;
      AsciiIsValid(s[1..]);
    }
  }

  /** The answer to a refused request. */
  function Refusal(cfg: Config, x: Extracted): Reply
    requires x.Refused?
  {
    Respond(cfg, x.echo, x.status, Some(x.code), x.detail)
  }

  lemma BodyDetailsAreAscii()
    ensures IsAscii(TOO_LARGE) && IsAscii(UNREADABLE)
  {
  }

  lemma MediaTypeDetailIsAscii()
    ensures IsAscii(NOT_JSON)
  {
  }

  lemma IdDetailsAreAscii()
    ensures IsAscii(BAD_ID) && IsAscii(BAD_TYPE) && IsAscii(BAD_CORRELATION_ID)
  {
  }

  lemma DetailsAreAscii()
    ensures IsAscii(NOT_JSON) && IsAscii(TOO_LARGE) && IsAscii(UNREADABLE) && IsAscii(MALFORMED)
    ensures IsAscii(BAD_ID) && IsAscii(BAD_TYPE) && IsAscii(BAD_CORRELATION_ID)
  {
    assert IsAscii(MALFORMED);
    BodyDetailsAreAscii();
    MediaTypeDetailIsAscii();
    IdDetailsAreAscii();
    hide IsAscii;
  }

  /** The ids a refusal echoes are valid or empty, its detail is plain text and its status a client error. */
  lemma RefusalFields(sdk: Sdk, cfg: Config, r: Request)
    requires Extract(sdk, cfg, r).Refused?
    ensures var x := Extract(sdk, cfg, r);
            && (x.echo.id == "" || IsCorrelationId(x.echo.id)) && IsAscii(x.detail)
            && x.status in {400, 413, 415} && !x.code.Custom?
  {
    hide Utf8.IsValid, Set, SetExtension, CorrelationId, IsAscii;
    DetailsAreAscii();
    PlainFields(sdk, cfg, r);
    hide PlainEvent;
  }

  lemma PlainFields(sdk: Sdk, cfg: Config, r: Request)
    ensures var x := PlainEvent(sdk, cfg, r);
            x.Refused? ==> x.echo.id == "" && IsAscii(x.detail) && x.status in {400, 413, 415} && !x.code.Custom?
  {
    hide IsAscii;
    DetailsAreAscii();
  }

  /**
   A refusal is answered with its own status exactly when what it echoes, and the pattern, is valid
   UTF-8; else with 500.
   */
  lemma RefusedExactly(sdk: Sdk, cfg: Config, r: Request)
    requires Extract(sdk, cfg, r).Refused?
    ensures var x := Extract(sdk, cfg, r);
            StatusOf(Refusal(cfg, x)) ==
            if Utf8.IsValid(x.echo.kind) && Utf8.IsValid(CorrelationId(x.echo)) && Utf8.IsValid(cfg.pattern)
            then x.status else 500
  {
    var x := Extract(sdk, cfg, r);
    RefusalFields(sdk, cfg, r);
    AsciiIsValid(x.echo.id);
    AsciiIsValid(x.detail);
    hide Extract, Utf8.IsValid, CorrelationId;
  }

  /**
   A parsed event that is refused is answered 400 exactly when the pattern, the correlation id, if
   the refusal is not about it, and the type, if the id is refused, are valid UTF-8.
   */
  lemma RefusedEventAnswered(sdk: Sdk, cfg: Config, r: Request)
    requires Extract(sdk, cfg, r).Refused? && Raw(sdk, cfg, r).Accepted?
    ensures var (raw, x) := (Raw(sdk, cfg, r).ev, Extract(sdk, cfg, r));
            StatusOf(Refusal(cfg, x)) == 400 <==>
            && Utf8.IsValid(cfg.pattern)
            && (x.code == InvalidCorrelationId || Utf8.IsValid(CorrelationId(raw)))
            && (IsCorrelationId(raw.id) || Utf8.IsValid(sdk.trim(raw.kind)))
  {
    RefusedSafely(sdk, cfg, r);
    RefusedExactly(sdk, cfg, r);
    EmptyIsValid();
    hide Extract, Raw, Utf8.IsValid, CorrelationId, Refusal;
  }

  lemma EmptyIsValid()
    ensures Utf8.IsValid("")
  {
  }

  const BAD_BYTE := [0xFF as char]

  lemma BadByteIsInvalid()
    ensures !Utf8.IsValid(BAD_BYTE)
  {
  }

  /** A request with neither id nor valid correlation id, or type: a client's mistake answered 500. */
  lemma RefusalFails(sdk: Sdk, cfg: Config, r: Request)
    requires r.sdk == Parsed(BLANK.(ext := map[EXT_CORRELATION_ID := Text(BAD_BYTE)]))
             || (r.sdk == Parsed(BLANK.(kind := BAD_BYTE)) && sdk.trim(BAD_BYTE) == BAD_BYTE)
    ensures Extract(sdk, cfg, r).Refused? && Extract(sdk, cfg, r).status == 400
    ensures StatusOf(Refusal(cfg, Extract(sdk, cfg, r))) == 500
  {
    CorrelationName();
    BadByteIsInvalid();
    RefusedExactly(sdk, cfg, r);
    hide Utf8.IsValid, IsStoredName, IsExtensionName, LowerAscii, Refusal;
  }

  /** A message that was nacked or discarded carries its error. */
  lemma FailureHasCause(sdk: Sdk, cfg: Settlement.Config, d: Delivery, e: Event, undecodable: Option<Error>, s: Script)
    ensures var r := Settlement.Deliver(sdk, cfg, d, e, undecodable, s);
            r.outcome in {Nacked, Discarded} ==> r.cause.Some?
  {
    hide Find, Stamped;
  }

  /** The rule that answers a failure. */
  function RuleFor(cfg: Config, cause: Error): Option<Rule> {
    FirstRule(AllRules(cfg), 0, cause)
  }

  /**
   The status of an accepted request is 202 exactly when the message was acked, or one of the
   caller's own rules turns the failure into a 202: its status is 202, or unset.
   */
  lemma StatusIsAccepted(cfg: Config, e: Event, outcome: Outcome, cause: Error)
    requires IsCorrelationId(e.id) && Utf8.IsValid(e.kind) && IsCorrelationId(CorrelationId(e))
    requires Utf8.IsValid(cfg.pattern)
    ensures var rule := RuleFor(cfg, cause);
            StatusOf(Judged(cfg, e, outcome, Some(cause))) == 202 <==>
            || outcome == Acked
            || (outcome in {Nacked, Discarded} && rule.Some? && rule.value.status in {0, 202}
                && Encodable(Response(e.id, e.kind, CorrelationId(e), cfg.pattern,
                                      Some(rule.value.code), rule.value.detail(cause), 202)))
  {
    AsciiIsValid(e.id);
    AsciiIsValid(CorrelationId(e));
    hide Utf8.IsValid, FirstRule, AllRules;
  }

  /** A rule of the caller's that leaves its status unset answers 202 for a failure. */
  lemma UnsetStatusAccepts(pattern: string, defaultType: string, e: Event, cause: Error)
    requires pattern != "" && Utf8.IsValid(pattern) && defaultType != ""
    requires IsCorrelationId(e.id) && Utf8.IsValid(e.kind) && IsCorrelationId(CorrelationId(e))
    ensures var rule := Rule((err: Error) => true, 0, HandlerFailed, (err: Error) => "");
            var cfg := Config.Config(pattern, defaultType, [rule], (err: Error) => "");
            StatusOf(Judged(cfg, e, Nacked, Some(cause))) == 202
  {
    var rule := Rule((err: Error) => true, 0, HandlerFailed, (err: Error) => "");
    var cfg := Config.Config(pattern, defaultType, [rule], (err: Error) => "");
    AsciiIsValid(e.id);
    AsciiIsValid(CorrelationId(e));
    EmptyIsValid();
    assert AllRules(cfg)[0] == rule && rule.matches(cause);
    hide Utf8.IsValid, AllRules, CorrelationId;
  }

  /** With the default rules alone no failure is ever answered 202. */
  lemma DefaultRulesRefuse(cfg: Config, cause: Error)
    requires cfg.rules == []
    ensures RuleFor(cfg, cause).Some? ==> RuleFor(cfg, cause).value.status == 400
  {
    var rules := AllRules(cfg);
    assert |rules| == 3 && forall i :: 0 <= i < 3 ==> rules[i].status == 400;
    FirstRuleIsOne(rules, 0, cause);
  }

  lemma {:induction false} FirstRuleIsOne(rules: seq<Rule>, i: nat, err: Error)
    ensures FirstRule(rules, i, err).Some? ==> FirstRule(rules, i, err).value in rules
    decreases |rules| - i
  {
    if i < |rules| {
      FirstRuleIsOne(rules, i + 1, err);
    }
  }

  // ---------------------------------------------------------------- which failure gets which answer

  /** By the default rules the client's own errors are 400 with their code, anything else 500 without details. */
  function DefaultAnswer(cfg: Config, marks: set<Mark>): (nat, Code) {
    if Client in marks then (400, ValidationFailed)
    else if Mark.NoRoute in marks then (400, RouteNotFound)
    else if Mark.Decode in marks then (400, InvalidPayload)
    else (500, HandlerFailed)
  }

  lemma DefaultsAnswer(cfg: Config, e: Event, outcome: Outcome, cause: Error)
    requires cfg.rules == [] && outcome in {Nacked, Discarded}
    ensures var reply := Judged(cfg, e, outcome, Some(cause));
            var (status, code) := DefaultAnswer(cfg, cause.marks);
            reply.Json? ==>
              && reply.response.status == status && reply.response.code == Some(code)
              && (code == HandlerFailed ==> reply.response.detail == GENERIC_DETAIL)
              && (code == ValidationFailed ==> reply.response.detail == cfg.clientDetail(cause))
  {
    var rules := AllRules(cfg);
    assert |rules| == 3;
    FirstOfThree(rules, cause);
    hide Encodable, CorrelationId, GENERIC_DETAIL;
  }

  lemma RuleDetailsAreAscii()
    ensures IsAscii(NO_ROUTE_DETAIL) && IsAscii(PAYLOAD_DETAIL)
  {
  }

  lemma GenericIsAscii()
    ensures IsAscii(GENERIC_DETAIL)
  {
  }

  /** Exactly: only a client error's own detail, or the pattern, can spoil the answer to an accepted event. */
  lemma DefaultStatus(cfg: Config, e: Event, outcome: Outcome, cause: Error)
    requires cfg.rules == [] && outcome in {Nacked, Discarded}
    requires IsCorrelationId(e.id) && Utf8.IsValid(e.kind) && IsCorrelationId(CorrelationId(e))
    ensures StatusOf(Judged(cfg, e, outcome, Some(cause))) ==
            if Utf8.IsValid(cfg.pattern) && (Client in cause.marks ==> Utf8.IsValid(cfg.clientDetail(cause)))
            then DefaultAnswer(cfg, cause.marks).0 else 500
  {
    var rules := AllRules(cfg);
    assert |rules| == 3;
    FirstOfThree(rules, cause);
    DetailsValid();
    hide Respond, Utf8.IsValid, CorrelationId, GENERIC_DETAIL, FirstRule;
    if Client in cause.marks {
      RespondStatus(cfg, e, 400, ValidationFailed, cfg.clientDetail(cause));
    } else if Mark.NoRoute in cause.marks {
      RespondStatus(cfg, e, 400, RouteNotFound, NO_ROUTE_DETAIL);
    } else if Mark.Decode in cause.marks {
      RespondStatus(cfg, e, 400, InvalidPayload, PAYLOAD_DETAIL);
    } else {
      RespondStatus(cfg, e, 500, HandlerFailed, GENERIC_DETAIL);
    }
  }

  lemma DetailsValid()
    ensures Utf8.IsValid(NO_ROUTE_DETAIL) && Utf8.IsValid(PAYLOAD_DETAIL) && Utf8.IsValid(GENERIC_DETAIL)
  {
    RuleDetailsAreAscii();
    GenericIsAscii();
    AsciiIsValid(NO_ROUTE_DETAIL);
    AsciiIsValid(PAYLOAD_DETAIL);
    AsciiIsValid(GENERIC_DETAIL);
    hide IsAscii, Utf8.IsValid;
  }

  lemma RespondStatus(cfg: Config, e: Event, status: nat, code: Code, detail: string)
    requires status != 0 && !code.Custom?
    requires IsCorrelationId(e.id) && Utf8.IsValid(e.kind) && IsCorrelationId(CorrelationId(e))
    ensures StatusOf(Respond(cfg, e, status, Some(code), detail)) ==
            if Utf8.IsValid(cfg.pattern) && Utf8.IsValid(detail) then status else 500
  {
    AsciiIsValid(e.id);
    AsciiIsValid(CorrelationId(e));
    hide Utf8.IsValid, CorrelationId;
  }

  lemma FirstOfThree(rules: seq<Rule>, err: Error)
    requires |rules| == 3
    ensures FirstRule(rules, 0, err) ==
            if rules[0].matches(err) then Some(rules[0]) else if rules[1].matches(err) then Some(rules[1])
            else if rules[2].matches(err) then Some(rules[2]) else None
  {
    assert FirstRule(rules, 3, err) == None;
    assert FirstRule(rules, 2, err) == if rules[2].matches(err) then Some(rules[2]) else None;
  }

  /** A message left undecided is a 500. */
  lemma UndecidedAnswer(cfg: Config, e: Event, cause: Option<Error>)
    ensures var reply := Judged(cfg, e, Pending, cause);
            StatusOf(reply) == 500 && (reply.Json? ==> reply.response.code == Some(HandlerFailed))
  {
  }

  /** An accepted request no route matches is a 400 of its own code. */
  lemma UnroutedAnswer(sdk: Sdk, cfg: Config, e: Event, router: Settlement.Config, s: Script)
    requires cfg.rules == [] && Stages.AllSkip(router, s)
    ensures var report := Settlement.Deliver(sdk, router, DELIVERY, e, None, s);
            var reply := Judged(cfg, e, report.outcome, report.cause);
            reply.Json? ==> reply.response.status == 400 && reply.response.code == Some(RouteNotFound)
  {
    Stages.UnroutedTold(sdk, router, DELIVERY, e, s);
    DefaultsAnswer(cfg, e, Discarded, ERR_NO_ROUTE);
    hide Settlement.Deliver, Judged;
  }

  /** A payload that does not decode into the route's type is a 400, of the client's error if it is one. */
  lemma UndecodedAnswer(sdk: Sdk, cfg: Config, e: Event, router: Settlement.Config, s: Script, i: nat)
    requires cfg.rules == [] && Stages.Routes(router, s, i) && s.decode.Fail?
    requires router.deadLetter ==> !s.copy(0).Panic?
    requires Mark.NoRoute !in s.decode.err.marks
    ensures var report := Settlement.Deliver(sdk, router, DELIVERY, e, None, s);
            var reply := Judged(cfg, e, report.outcome, report.cause);
            reply.Json? ==>
              && reply.response.status == 400
              && reply.response.code == Some(if Client in s.decode.err.marks then ValidationFailed else InvalidPayload)
  {
    Stages.DecodeTold(sdk, router, DELIVERY, e, s, i);
    DefaultsAnswer(cfg, e, Discarded, Wrap(ERR_DECODE, s.decode.err));
    hide Settlement.Deliver, Judged;
  }

  /** The caller is the one who retries: a handler's retryable error is nacked and never dead-lettered. */
  lemma RetryIsTheCallers(sdk: Sdk, e: Event, router: Settlement.Config, s: Script, i: nat, err: Error)
    requires Stages.Handles(router, DELIVERY, s, i, Retry.Failed(err)) && !IsNonRetryable(err)
    ensures Settlement.Deliver(sdk, router, DELIVERY, e, None, s).outcome == Nacked
  {
    Stages.HandlerErrorTold(sdk, router, DELIVERY, e, s, i, err);
    hide Settlement.Deliver;
  }

  // ---------------------------------------------------------------- end to end

  /** An accepted request handled by the router, with the default rules: 202 exactly when the message was acked. */
  lemma AcceptedIffAcked(sdk: Sdk, cfg: Config, r: Request, router: Settlement.Config, s: Script)
    requires Extract(sdk, cfg, r).Accepted? && cfg.rules == [] && Utf8.IsValid(cfg.pattern)
    ensures var e := Extract(sdk, cfg, r).ev;
            var report := Settlement.Deliver(sdk, router, DELIVERY, e, None, s);
            StatusOf(Judged(cfg, e, report.outcome, report.cause)) == 202 <==> report.outcome == Acked
  {
    var e := Extract(sdk, cfg, r).ev;
    AcceptedExactly(sdk, cfg, r);
    KindStays(sdk, cfg, r);
    FailureHasCause(sdk, router, DELIVERY, e, None, s);
    var report := Settlement.Deliver(sdk, router, DELIVERY, e, None, s);
    var cause := if report.cause.Some? then report.cause.value else ERR_NO_ROUTE;
    StatusIsAccepted(cfg, e, report.outcome, cause);
    DefaultRulesRefuse(cfg, cause);
    hide Extract, Settlement.Deliver, RuleFor, AllRules, FirstRule, Encodable;
  }

  lemma KindStays(sdk: Sdk, cfg: Config, r: Request)
    requires Extract(sdk, cfg, r).Accepted?
    ensures Utf8.IsValid(Extract(sdk, cfg, r).ev.kind) && IsCorrelationId(Extract(sdk, cfg, r).ev.id)
  {
    hide Raw, Utf8.IsValid;
  }

  lemma ReplyEchoes(cfg: Config, e: Event, outcome: Outcome, cause: Option<Error>)
    ensures var reply := Judged(cfg, e, outcome, cause);
            reply.Json? ==>
              && reply.response.correlationId == CorrelationId(e) && reply.response.id == e.id
              && reply.response.kind == e.kind && reply.response.instance == cfg.pattern
  {
    hide Encodable, FirstRule, AllRules, CorrelationId;
  }

  /**
   The correlation id of an accepted request is valid, and the same in the response, in the message
   the router handles and in every result and dead-letter copy it publishes.
   */
  lemma CorrelatedEndToEnd(sdk: Sdk, cfg: Config, r: Request, router: Settlement.Config, s: Script, ev: Ev)
    requires Extract(sdk, cfg, r).Accepted?
    requires ev in Settlement.Deliver(sdk, router, DELIVERY, Extract(sdk, cfg, r).ev, None, s).trace
    ensures var e := Extract(sdk, cfg, r).ev;
            var report := Settlement.Deliver(sdk, router, DELIVERY, e, None, s);
            var reply := Judged(cfg, e, report.outcome, report.cause);
            && IsCorrelationId(CorrelationId(e)) && Stamped(e) == e
            && (reply.Json? ==> reply.response.correlationId == CorrelationId(e) && reply.response.id == e.id)
            && (ev.Published? ==> CorrelationId(ev.result) == CorrelationId(e))
            && (ev.Copied? ==> CorrelationId(ev.copy) == CorrelationId(e))
  {
    var e := Extract(sdk, cfg, r).ev;
    AcceptedExactly(sdk, cfg, r);
    KindStays(sdk, cfg, r);
    hide Extract, Settlement.Deliver, CorrelationId, Stamped, Judged;
    var report := Settlement.Deliver(sdk, router, DELIVERY, e, None, s);
    ReplyEchoes(cfg, e, report.outcome, report.cause);
    Ordering.PublishesStayInChain(sdk, router, DELIVERY, e, None, s, ev);
  }
}
