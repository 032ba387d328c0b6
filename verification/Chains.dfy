/**
 Chains of events: handle, publish the result or a dead-letter copy, encode, decode, handle what
 arrives, and so on for any number of hops. Composes pkg/eventmux/mux.go and failure.go with the
 codec and the SNS to SQS path.
 */
module Chains {
  import opened Options
  import opened CloudEvents
  import opened Envelope
  import opened Correlation
  import opened Sns
  import Faults
  import Ordering
  import Settlement
  import Utf8

  /** What one hop sends on: the result of the event, or its dead-letter copy. trace is what the publisher injects. */
  datatype Leg =
    | ResultLeg(hop: Hop, trace: Option<string>)
    | CopyLeg(reason: string, error: string, trace: Option<string>)

  function Outgoing(sdk: Sdk, e: Event, leg: Leg): Event {
    match leg
    case ResultLeg(hop, _) => ResultEvent(sdk, Stamped(e), hop)
    case CopyLeg(reason, error, _) => DeadLetterEvent(Stamped(e), reason, error)
  }

  /** The event one hop publishes. */
  function Published(sdk: Sdk, e: Event, leg: Leg): Event {
    Traced(Outgoing(sdk, e, leg), leg.trace)
  }

  /** e2 came out of a transport in binary mode that was given t. */
  ghost predicate ViaBinary(sdk: Sdk, t: Event, e2: Event) {
    exists n, attrs, def ::
      Carries(sdk, n, t) && OnWire(sdk, attrs, n) && DecodeSpec(sdk, ContentType(t), attrs, t.data, def) == Decoded(e2)
  }

  /** e2 came out of an SQS queue behind an SNS topic that was given the result r with a trace. */
  ghost predicate ViaSns(sdk: Sdk, r: Event, trace: Option<string>, e2: Event) {
    exists n, marshaled, messageId, order ::
      && Carries(sdk, n, Traced(r, trace)) && Marshaled(sdk, Traced(r, trace), n, marshaled)
      && Enumerates(order, WithHeader(marshaled, trace).attrs)
      && Received(sdk, WithHeader(marshaled, trace), messageId, order) == Decoded(e2)
  }

  /** e2 is what a subscriber decodes of the event t, published with a trace. */
  ghost predicate Travels(sdk: Sdk, t: Event, trace: Option<string>, e2: Event) {
    ViaBinary(sdk, Traced(t, trace), e2) || ViaSns(sdk, t, trace, e2)
  }

  /** A new result has an id; a copy keeps the event's content type, which must not select the structured decoder. */
  predicate CanLeave(sdk: Sdk, e: Event, leg: Leg) {
    match leg
    case ResultLeg(hop, _) => sdk.trim(hop.id) != ""
    case CopyLeg(_, _, _) => ContentType(e) != STRUCTURED_JSON
  }

  ghost predicate OneHop(sdk: Sdk, e: Event, leg: Leg, e2: Event) {
    Travels(sdk, Outgoing(sdk, e, leg), leg.trace, e2)
  }

  /** es[i + 1] is what the subscriber of the next hop decodes from what the hop of es[i] sent on. */
  ghost predicate IsChain(sdk: Sdk, es: seq<Event>, legs: seq<Leg>) {
    && |es| == |legs| + 1 && WellFormed(sdk, es[0])
    && (legs != [] ==> CanLeave(sdk, es[0], legs[0]))
    && (forall i :: 0 <= i < |legs| && legs[i].ResultLeg? ==> sdk.trim(legs[i].hop.id) != "")
    && (forall i :: 0 <= i < |legs| ==> OneHop(sdk, es[i], legs[i], es[i + 1]))
  }

  // ---------------------------------------------------------------- events stay well-formed

  /** Whatever binary mode decodes has the form the setters leave. */
  lemma DecodedWellFormed(sdk: Sdk, contentType: string, m: Named, data: string, def: Defaults)
    requires Lawful(sdk) && Build(sdk, contentType, m, data, def).Decoded?
    requires forall a :: a in m && a.Ext? ==> LowerAscii(a.name) == a.name
    ensures WellFormed(sdk, Build(sdk, contentType, m, data, def).ev)
  {
    var e := Build(sdk, contentType, m, data, def).ev;
    assert e.ext == ExtensionsOf(m);
    DecodedNames(m);
    DecodedFields(sdk, m, def);
    hide EventOf, ExtensionsOf, StoredNames;
  }

  lemma DecodedNames(m: Named)
    requires forall a :: a in m && a.Ext? ==> LowerAscii(a.name) == a.name
    ensures StoredNames(ExtensionsOf(m)) && forall k :: k in ExtensionsOf(m) ==> ExtensionsOf(m)[k].Text?
  {
  }

  lemma DecodedFields(sdk: Sdk, m: Named, def: Defaults)
    requires Lawful(sdk) && !TimeFails(sdk, m) && BadFields(sdk, m, def) == {}
    ensures var e := EventOf(sdk, m, def);
            && sdk.trim(e.id) == e.id && sdk.trim(e.kind) == e.kind && sdk.trim(e.subject) == e.subject
            && sdk.trim(e.schema) == e.schema
            && (e.source != "" ==> sdk.parseUri(e.source) == Some(e.source))
            && (e.schema != "" ==> sdk.parseUri(e.schema) == Some(e.schema))
            && (e.time.Some? ==> e.time.value != sdk.zeroTime)
  {
    hide ExtensionsOf, BadFields;
    var v := Taken(sdk, m, DataSchema);
    if v.Some? && sdk.trim(v.value) != "" {
      assert sdk.trim(sdk.trim(v.value)) == sdk.trim(v.value);
    }
  }

  lemma StampedFacts(sdk: Sdk, e: Event)
    requires Lawful(sdk) && WellFormed(sdk, e)
    ensures WellFormed(sdk, Stamped(e)) && Stamped(e).id == e.id != ""
    ensures CorrelationId(Stamped(e)) == (if CorrelationId(e) == "" then e.id else CorrelationId(e)) != ""
  {
    CorrelationName();
    SetExtensionKeepsNames(e.ext, EXT_CORRELATION_ID, Text(e.id));
  }

  /** A result's extensions are stored names with formattable values. */
  lemma ResultNames(sdk: Sdk, e: Event, meta: Metadata)
    requires Lawful(sdk) && WellFormed(sdk, e)
    ensures var r := ResultExtensions(e, meta); StoredNames(r) && forall k :: k in r ==> sdk.format(r[k]).Some?
  {
    MetadataNames(meta);
    CausationName();
    hide IsStoredName, IsExtensionName;
  }

  lemma {:induction false} MetadataNames(meta: Metadata)
    ensures var r := FromMetadata(meta); StoredNames(r) && forall k :: k in r ==> r[k].Text?
    decreases |meta|
  {
    if meta != [] {
      var (k, v) := meta[|meta| - 1];
      MetadataNames(meta[..|meta| - 1]);
      SetExtensionKeepsNames(FromMetadata(meta[..|meta| - 1]), k, Text(v));
    }
  }

  lemma ContentTypesDiffer()
    ensures APPLICATION_JSON != STRUCTURED_JSON && APPLICATION_JSON != ""
  {
    assert APPLICATION_JSON[12] != STRUCTURED_JSON[12];
  }

  lemma ResultWellFormed(sdk: Sdk, e: Event, hop: Hop)
    requires Lawful(sdk) && WellFormed(sdk, e) && sdk.trim(hop.id) != ""
    ensures WellFormed(sdk, ResultEvent(sdk, e, hop)) && ContentType(ResultEvent(sdk, e, hop)) != STRUCTURED_JSON
  {
    hide ResultExtensions, StoredNames;
    ResultNames(sdk, e, hop.meta);
    ContentTypesDiffer();
    assert |e.kind + ".result"| > 0;
    hide APPLICATION_JSON, STRUCTURED_JSON;
  }

  lemma ExtendedWellFormed(sdk: Sdk, e: Event, name: string, text: string)
    requires Lawful(sdk) && WellFormed(sdk, e)
    ensures WellFormed(sdk, e.(ext := SetExtension(e.ext, name, Text(text))))
  {
    SetExtensionKeepsNames(e.ext, name, Text(text));
    hide StoredNames, IsExtensionName;
  }

  /** The copy is the event itself with two more extensions. */
  lemma CopyWellFormed(sdk: Sdk, e: Event, reason: string, error: string)
    requires Lawful(sdk) && WellFormed(sdk, e)
    ensures WellFormed(sdk, DeadLetterEvent(e, reason, error))
  {
    hide WellFormed, Lawful, SetExtension, Utf8.Sanitize, Utf8.Truncated;
    var once := e.(ext := SetExtension(e.ext, EXT_DEAD_LETTER_REASON, Text(reason)));
    ExtendedWellFormed(sdk, e, EXT_DEAD_LETTER_REASON, reason);
    ExtendedWellFormed(sdk, once, EXT_DEAD_LETTER_ERROR,
        Utf8.Truncated(Utf8.Sanitize(error), MAX_DEAD_LETTER_ERROR_LEN));
  }

  lemma OutgoingWellFormed(sdk: Sdk, e: Event, leg: Leg)
    requires Lawful(sdk) && WellFormed(sdk, e) && CanLeave(sdk, e, leg)
    ensures WellFormed(sdk, Outgoing(sdk, e, leg)) && ContentType(Outgoing(sdk, e, leg)) != STRUCTURED_JSON
  {
    StampedFacts(sdk, e);
    assert ContentType(Stamped(e)) == ContentType(e);
    hide WellFormed, Lawful, ResultEvent, Stamped;
    match leg
    case ResultLeg(hop, _) => ResultWellFormed(sdk, Stamped(e), hop);
    case CopyLeg(reason, error, _) => CopyWellFormed(sdk, Stamped(e), reason, error);
  }

  lemma RestoredWellFormed(sdk: Sdk, e2: Event, e: Event)
    requires Lawful(sdk) && WellFormed(sdk, e) && Restores(sdk, e2, e)
    ensures WellFormed(sdk, e2) && ContentType(e2) == ContentType(e)
    ensures e2.id == e.id && e2.source == e.source && e2.kind == e.kind && e2.subject == e.subject
    ensures e2.schema == e.schema && e2.time == e.time && SameData(sdk, e2.data, e.data)
  {
    var c2, c := Canonical(sdk, e2.(data := e.data)), Canonical(sdk, e);
    assert c2.ext.Keys == e2.ext.Keys && c.ext.Keys == e.ext.Keys;
    assert e2.contentType == "" || e2.contentType == ContentType(e);
    hide IsStoredName;
  }

  lemma RestoredExtensions(sdk: Sdk, e2: Event, e: Event)
    requires Restores(sdk, e2, e)
    ensures e2.ext.Keys == e.ext.Keys
    ensures forall k :: k in e.ext && e.ext[k].Text? ==> e2.ext[k] == e.ext[k]
  {
    assert Canonical(sdk, e2.(data := e.data)).ext.Keys == e2.ext.Keys && Canonical(sdk, e).ext.Keys == e.ext.Keys;
  }

  // ---------------------------------------------------------------- one hop

  lemma HopRestores(sdk: Sdk, e: Event, leg: Leg, e2: Event)
    requires Lawful(sdk) && StructuredInverse(sdk) && WellFormed(sdk, e) && CanLeave(sdk, e, leg)
    requires OneHop(sdk, e, leg, e2)
    ensures WellFormed(sdk, Published(sdk, e, leg)) && Restores(sdk, e2, Published(sdk, e, leg))
    ensures ContentType(Published(sdk, e, leg)) != STRUCTURED_JSON
  {
    var r, t := Outgoing(sdk, e, leg), Published(sdk, e, leg);
    OutgoingWellFormed(sdk, e, leg);
    TracedWellFormed(sdk, r, leg.trace);
    assert ContentType(t) == ContentType(r);
    hide WellFormed, Lawful, StructuredInverse, Restores, Outgoing, Traced, Carries, OnWire, DecodeSpec, Received,
         Enumerates, Marshaled, WithHeader;
    if ViaBinary(sdk, t, e2) {
      var n, attrs, def :| Carries(sdk, n, t) && OnWire(sdk, attrs, n)
                           && DecodeSpec(sdk, ContentType(t), attrs, t.data, def) == Decoded(e2);
      RoundTrip(sdk, t, n, attrs, def);
      CanonicalRestores(sdk, t);
    } else {
      var n, marshaled, messageId, order :|
        && Carries(sdk, n, Traced(r, leg.trace)) && Marshaled(sdk, Traced(r, leg.trace), n, marshaled)
        && Enumerates(order, WithHeader(marshaled, leg.trace).attrs)
        && Received(sdk, WithHeader(marshaled, leg.trace), messageId, order) == Decoded(e2);
      PublishRoundTrip(sdk, r, leg.trace, n, marshaled, messageId, order);
    }
  }

  predicate Carrying(ext: map<string, Value>, k: string, text: string) {
    k in ext && ext[k] == Text(text)
  }

  predicate Marked(ext: map<string, Value>) {
    EXT_DEAD_LETTER_REASON in ext || EXT_DEAD_LETTER_ERROR in ext
  }

  /** The result a hop publishes: the chain's id and the parent's id. */
  lemma ResultCarries(sdk: Sdk, e: Event, hop: Hop, trace: Option<string>)
    requires e.id != "" && CorrelationId(Stamped(e)) != ""
    ensures var ext := Published(sdk, e, ResultLeg(hop, trace)).ext;
            Carrying(ext, EXT_CORRELATION_ID, CorrelationId(Stamped(e))) && Carrying(ext, EXT_CAUSATION_ID, e.id)
  {
    ReservedHold(Stamped(e), hop.meta);
    NamesDiffer();
    TraceparentName();
    hide IsStoredName, IsExtensionName, ResultExtensions;
  }

  /** With metadata in lower case it has no dead-letter mark of its own. */
  lemma ResultClean(sdk: Sdk, e: Event, hop: Hop, trace: Option<string>)
    requires AllLowerCase(hop.meta)
    ensures !Marked(Published(sdk, e, ResultLeg(hop, trace)).ext)
  {
    LowerCaseKeepsClean(Stamped(e), hop.meta);
    NamesDiffer();
    TraceparentName();
    hide IsStoredName, IsExtensionName, ResultExtensions, Stamped, AllLowerCase;
  }

  /** The extension names a copy's hop may set; every other one of the event travels with the copy. */
  const SET_BY_COPY := {EXT_CORRELATION_ID, EXT_DEAD_LETTER_REASON, EXT_DEAD_LETTER_ERROR, EXT_TRACEPARENT}

  /** ext is what a copy of e carries: the chain's id, the reason, the error and e's own extensions. */
  predicate CopyExtensions(ext: map<string, Value>, e: Event, reason: string, error: string) {
    && Carrying(ext, EXT_CORRELATION_ID, CorrelationId(Stamped(e)))
    && Carrying(ext, EXT_DEAD_LETTER_REASON, reason)
    && Carrying(ext, EXT_DEAD_LETTER_ERROR, Utf8.Truncated(Utf8.Sanitize(error), MAX_DEAD_LETTER_ERROR_LEN))
    && (forall k :: k in e.ext && k !in SET_BY_COPY && e.ext[k].Text? ==> k in ext && ext[k] == e.ext[k])
    && (forall k :: k in ext && k !in SET_BY_COPY ==> k in e.ext)
  }

  lemma CopyCarries(sdk: Sdk, e: Event, reason: string, error: string, trace: Option<string>)
    requires CorrelationId(Stamped(e)) != ""
    ensures CopyExtensions(Published(sdk, e, CopyLeg(reason, error, trace)).ext, e, reason, error)
  {
    OwnNames();
    NamesDiffer();
    hide IsExtensionName, LowerAscii, Utf8.Sanitize, Utf8.Truncated;
  }

  lemma RestoredCopy(sdk: Sdk, e2: Event, t: Event, e: Event, reason: string, error: string)
    requires Restores(sdk, e2, t) && CopyExtensions(t.ext, e, reason, error)
    ensures CopyExtensions(e2.ext, e, reason, error)
  {
    RestoredExtensions(sdk, e2, t);
    hide Restores, Utf8.Sanitize, Utf8.Truncated, Stamped, CorrelationId;
  }

  /** A new event with its own id and time, e's source, e's type marked as a result and the handler's data as JSON. */
  predicate IsResultOf(sdk: Sdk, e2: Event, e: Event, hop: Hop) {
    && e2.id == sdk.trim(hop.id) && e2.source == e.source && e2.kind == e.kind + ".result"
    && e2.subject == "" && e2.schema == "" && ContentType(e2) == APPLICATION_JSON
    && e2.time == (if hop.now == sdk.zeroTime then None else Some(hop.now))
    && SameData(sdk, e2.data, hop.data)
  }

  lemma ResultIsResult(sdk: Sdk, e: Event, hop: Hop, trace: Option<string>)
    requires Lawful(sdk) && WellFormed(sdk, e)
    ensures IsResultOf(sdk, Published(sdk, e, ResultLeg(hop, trace)), e, hop)
  {
    hide ResultExtensions, SetExtension;
  }

  /** What arrives after a hop: a result of e that names e as its cause, or e itself as a dead-letter copy. */
  ghost predicate Arrives(sdk: Sdk, e: Event, leg: Leg, e2: Event) {
    match leg
    case ResultLeg(hop, _) =>
      && IsResultOf(sdk, e2, e, hop)
      && Carrying(e2.ext, EXT_CAUSATION_ID, e.id) && (AllLowerCase(hop.meta) ==> !Marked(e2.ext))
    case CopyLeg(reason, error, _) =>
      && e2.id == e.id && e2.source == e.source && e2.kind == e.kind && e2.subject == e.subject
      && e2.schema == e.schema && e2.time == e.time && ContentType(e2) == ContentType(e)
      && SameData(sdk, e2.data, e.data) && CopyExtensions(e2.ext, e, reason, error)
  }

  lemma SameTransitive(sdk: Sdk, a: string, b: string, c: string)
    requires SameData(sdk, a, b) && SameData(sdk, b, c)
    ensures SameData(sdk, a, c)
  {
  }

  lemma ResultArrives(sdk: Sdk, e: Event, hop: Hop, trace: Option<string>, e2: Event)
    requires Lawful(sdk) && WellFormed(sdk, e) && WellFormed(sdk, Published(sdk, e, ResultLeg(hop, trace)))
    requires e.id != "" && CorrelationId(Stamped(e)) != ""
    requires Restores(sdk, e2, Published(sdk, e, ResultLeg(hop, trace)))
    ensures CorrelationId(e2) == CorrelationId(Stamped(e)) && Arrives(sdk, e, ResultLeg(hop, trace), e2)
  {
    ResultCarries(sdk, e, hop, trace);
    RestoredExtensions(sdk, e2, Published(sdk, e, ResultLeg(hop, trace)));
    RestoredWellFormed(sdk, e2, Published(sdk, e, ResultLeg(hop, trace)));
    ResultIsResult(sdk, e, hop, trace);
    if AllLowerCase(hop.meta) {
      ResultClean(sdk, e, hop, trace);
    }
    hide Stamped, Published, Restores, AllLowerCase, WellFormed, Lawful, SameData;
    SameTransitive(sdk, e2.data, Published(sdk, e, ResultLeg(hop, trace)).data, hop.data);
  }

  lemma CopyArrives(sdk: Sdk, e: Event, reason: string, error: string, trace: Option<string>, e2: Event)
    requires var t := Published(sdk, e, CopyLeg(reason, error, trace));
             && Lawful(sdk) && WellFormed(sdk, t) && CorrelationId(Stamped(e)) != "" && Restores(sdk, e2, t)
    ensures CorrelationId(e2) == CorrelationId(Stamped(e)) && Arrives(sdk, e, CopyLeg(reason, error, trace), e2)
  {
    var t := Published(sdk, e, CopyLeg(reason, error, trace));
    CopyCarries(sdk, e, reason, error, trace);
    RestoredCopy(sdk, e2, t, e, reason, error);
    RestoredWellFormed(sdk, e2, t);
    assert t == e.(ext := t.ext);
    hide WellFormed, Lawful, Stamped, Published, Restores, SameData, Utf8.Sanitize, Utf8.Truncated;
  }

  /** One hop of either kind: the next event carries the chain's id, and what its kind of hop promises. */
  lemma HopCarries(sdk: Sdk, e: Event, leg: Leg, e2: Event)
    requires Lawful(sdk) && StructuredInverse(sdk) && WellFormed(sdk, e) && CanLeave(sdk, e, leg)
    requires OneHop(sdk, e, leg, e2)
    ensures WellFormed(sdk, e2) && ContentType(e2) != STRUCTURED_JSON
    ensures CorrelationId(e2) == CorrelationId(Stamped(e)) != ""
    ensures Arrives(sdk, e, leg, e2)
  {
    StampedFacts(sdk, e);
    hide WellFormed, Stamped, Published, OneHop, Lawful, StructuredInverse, Restores, CanLeave, CorrelationId, Arrives;
    HopRestores(sdk, e, leg, e2);
    RestoredWellFormed(sdk, e2, Published(sdk, e, leg));
    match leg
    case ResultLeg(hop, trace) => ResultArrives(sdk, e, hop, trace, e2);
    case CopyLeg(reason, error, trace) => CopyArrives(sdk, e, reason, error, trace, e2);
  }

  // ---------------------------------------------------------------- chains of any length

  /**
   A chain of any length, of results and dead-letter copies in any order: every event carries the
   root's correlation id, which is the root's own id if it had none, and is what its hop promises.
   */
  lemma {:induction false} ChainCarries(sdk: Sdk, es: seq<Event>, legs: seq<Leg>, i: nat)
    requires Lawful(sdk) && StructuredInverse(sdk) && IsChain(sdk, es, legs) && i < |es|
    ensures WellFormed(sdk, es[i]) && (i < |legs| ==> CanLeave(sdk, es[i], legs[i]))
    ensures var root := if CorrelationId(es[0]) == "" then es[0].id else CorrelationId(es[0]);
            CorrelationId(Stamped(es[i])) == root != "" && (i > 0 ==> CorrelationId(es[i]) == root)
    ensures i > 0 ==> Arrives(sdk, es[i - 1], legs[i - 1], es[i])
    decreases i
  {
    StampedFacts(sdk, es[0]);
    hide WellFormed, Stamped, Lawful, StructuredInverse, OneHop, Arrives, CorrelationId;
    if i > 0 {
      assert OneHop(sdk, es[i - 1], legs[i - 1], es[i]);
      assert i < |legs| && legs[i].ResultLeg? ==> sdk.trim(legs[i].hop.id) != "";
      ChainCarries(sdk, es, legs, i - 1);
      hide IsChain;
      HopCarries(sdk, es[i - 1], legs[i - 1], es[i]);
      StampedFacts(sdk, es[i]);
    }
  }

  /** A dead-letter copy sent back in: it arrives marked, and the result of handling it does not. */
  lemma ChainLeavesDeadLetters(sdk: Sdk, es: seq<Event>, legs: seq<Leg>, i: nat)
    requires Lawful(sdk) && StructuredInverse(sdk) && IsChain(sdk, es, legs) && 0 < i < |legs|
    requires legs[i - 1].CopyLeg? && legs[i].ResultLeg? && AllLowerCase(legs[i].hop.meta)
    ensures Marked(es[i].ext) && es[i].id == es[i - 1].id
    ensures !Marked(es[i + 1].ext) && Carrying(es[i + 1].ext, EXT_CAUSATION_ID, es[i - 1].id)
    ensures CorrelationId(es[i + 1]) == CorrelationId(es[i]) == CorrelationId(Stamped(es[i - 1]))
  {
    assert |es| == |legs| + 1;
    hide WellFormed, Stamped, Lawful, StructuredInverse, IsChain, CanLeave, CorrelationId;
    ChainCarries(sdk, es, legs, i - 1);
    ChainCarries(sdk, es, legs, i);
    ChainCarries(sdk, es, legs, i + 1);
  }

  /** Whatever came before it, no result in a chain is marked as a dead letter. */
  lemma ResultsAreClean(sdk: Sdk, es: seq<Event>, legs: seq<Leg>, i: nat)
    requires Lawful(sdk) && StructuredInverse(sdk) && IsChain(sdk, es, legs) && 0 < i < |es|
    requires legs[i - 1].ResultLeg? && AllLowerCase(legs[i - 1].hop.meta)
    ensures !Marked(es[i].ext)
  {
    hide WellFormed, Stamped, Lawful, StructuredInverse, CanLeave, CorrelationId, AllLowerCase;
    ChainCarries(sdk, es, legs, i);
    hide IsChain;
  }

  // ---------------------------------------------------------------- chains of deliveries

  /** One delivery of a message by some router, and the trace its publishers inject. */
  datatype Handled = Handled(
    cfg: Settlement.Config, delivery: Settlement.Delivery, undecodable: Option<Faults.Error>,
    script: Settlement.Script, trace: Option<string>)

  /** e2 is what some publish of a delivery of e, of a result or of a dead-letter copy, brought about. */
  ghost predicate Leads(sdk: Sdk, e: Event, h: Handled, e2: Event) {
    exists ev ::
      && ev in Settlement.Deliver(sdk, h.cfg, h.delivery, e, h.undecodable, h.script).trace
      && ((ev.Published? && Travels(sdk, ev.result, h.trace, e2)) || (ev.Copied? && Travels(sdk, ev.copy, h.trace, e2)))
  }

  /** Every publish of a delivery is a hop. */
  lemma DeliveryIsHop(sdk: Sdk, e: Event, h: Handled, e2: Event) returns (leg: Leg)
    requires Leads(sdk, e, h, e2) && sdk.trim(h.script.resultId) != "" && ContentType(e) != STRUCTURED_JSON
    ensures CanLeave(sdk, e, leg) && OneHop(sdk, e, leg, e2)
  {
    hide Travels, Settlement.Deliver, Stamped, ContentType, ResultEvent, DeadLetterEvent;
    var ev :| && ev in Settlement.Deliver(sdk, h.cfg, h.delivery, e, h.undecodable, h.script).trace
              && ((ev.Published? && Travels(sdk, ev.result, h.trace, e2)) ||
                  (ev.Copied? && Travels(sdk, ev.copy, h.trace, e2)));
    Ordering.PublishesAreSentOn(sdk, h.cfg, h.delivery, e, h.undecodable, h.script, ev);
    if ev.Published? {
      var data :| && Ordering.Returns(h.cfg, h.delivery, h.script, data)
                  && ev.result == Settlement.ResultOf(sdk, Stamped(e), h.script, data);
      leg := ResultLeg(Hop(h.script.meta, h.script.resultId, h.script.now, data), h.trace);
    } else {
      var reason, cause :| ev.copy == Settlement.CopyOf(Stamped(e), reason, cause);
      leg := CopyLeg(Settlement.ReasonText(reason), cause.text, h.trace);
    }
  }

  /** es[i + 1] comes from a delivery of es[i]; new results have an id. */
  ghost predicate IsDeliveryChain(sdk: Sdk, es: seq<Event>, hs: seq<Handled>) {
    && |es| == |hs| + 1 && WellFormed(sdk, es[0]) && ContentType(es[0]) != STRUCTURED_JSON
    && (forall i :: 0 <= i < |hs| ==> sdk.trim(hs[i].script.resultId) != "")
    && (forall i :: 0 <= i < |hs| ==> Leads(sdk, es[i], hs[i], es[i + 1]))
  }

  /** e2 is a result that names e as its cause, or a dead-letter copy of e. */
  ghost predicate Descends(sdk: Sdk, e: Event, e2: Event) {
    exists leg: Leg :: Arrives(sdk, e, leg, e2)
  }

  /** e can go on in the chain that root names. */
  ghost predicate InChain(sdk: Sdk, root: string, e: Event) {
    WellFormed(sdk, e) && ContentType(e) != STRUCTURED_JSON && CorrelationId(Stamped(e)) == root != ""
  }

  lemma DeliveryCarries(sdk: Sdk, root: string, e: Event, h: Handled, e2: Event)
    requires Lawful(sdk) && StructuredInverse(sdk) && InChain(sdk, root, e)
    requires Leads(sdk, e, h, e2) && sdk.trim(h.script.resultId) != ""
    ensures InChain(sdk, root, e2) && CorrelationId(e2) == root && Descends(sdk, e, e2)
  {
    hide WellFormed, Stamped, Lawful, StructuredInverse, OneHop, Arrives, CorrelationId, ContentType, Leads, CanLeave;
    var leg := DeliveryIsHop(sdk, e, h, e2);
    HopCarries(sdk, e, leg, e2);
    StampedFacts(sdk, e2);
  }

  /**
   Deliveries of any routers, with any scripts, as long as each handles what a publish of the one
   before brought about: every event carries the root's correlation id, and is a result that names
   its parent or a dead-letter copy of it.
   */
  lemma {:induction false} DeliveryChainCarries(sdk: Sdk, es: seq<Event>, hs: seq<Handled>, i: nat)
    requires Lawful(sdk) && StructuredInverse(sdk) && IsDeliveryChain(sdk, es, hs) && i < |es|
    ensures var root := if CorrelationId(es[0]) == "" then es[0].id else CorrelationId(es[0]);
            InChain(sdk, root, es[i]) && (i > 0 ==> CorrelationId(es[i]) == root && Descends(sdk, es[i - 1], es[i]))
    decreases i
  {
    hide WellFormed, Stamped, Lawful, StructuredInverse, CorrelationId, ContentType, Leads, Descends;
    if i == 0 {
      StampedFacts(sdk, es[0]);
    } else {
      assert Leads(sdk, es[i - 1], hs[i - 1], es[i]) && sdk.trim(hs[i - 1].script.resultId) != "";
      var root := if CorrelationId(es[0]) == "" then es[0].id else CorrelationId(es[0]);
      DeliveryChainCarries(sdk, es, hs, i - 1);
      hide IsDeliveryChain, InChain;
      DeliveryCarries(sdk, root, es[i - 1], hs[i - 1], es[i]);
    }
  }
}
