/**
 The SNS publisher's default marshaler and the SQS unmarshaler at the other end:
 pkg/transport/aws/sns/marshaler.go, pkg/transport/aws/sns/publisher.go and
 pkg/transport/aws/sqs/unmarshaler.go.
 */
module Sns {
  import opened Options
  import opened CloudEvents
  import opened Envelope
  import Decoding

  const MAX_MESSAGE_ATTRIBUTES := 10
  const BINARY_ATTRIBUTE_BUDGET := MAX_MESSAGE_ATTRIBUTES - 1

  /** A message attribute's key: a CloudEvents attribute, the Content-Type, or the native trace header. */
  datatype Key = Ce(attr: Attr) | ContentTypeKey | TraceKey

  function KeyText(key: Key): string {
    match key
    case Ce(attr) => KeyOf(attr)
    case ContentTypeKey => "Content-Type"
    case TraceKey => "traceparent"
  }

  /** A String message attribute carries a value; a Binary or Number one carries none. */
  datatype AttributeValue = AttributeValue(stringValue: Option<string>)

  datatype Message = Message(body: string, attrs: map<Key, AttributeValue>)

  datatype Sent = MarshalFailed | TooManyAttributes | Sent(message: Message)

  /** The attribute map Encode fills, under its keys. */
  function Keyed(n: Named): (m: map<Key, string>)
    ensures m.Keys == set a | a in n :: Ce(a)
    ensures |m| == |n|
  {
    KeyedSize(n.Keys);
    map k | k in (set a | a in n :: Ce(a)) :: n[k.attr]
  }

  lemma {:induction false} KeyedSize(s: set<Attr>)
    ensures |set a | a in s :: Ce(a)| == |s|
    decreases s
  {
    if s != {} {
      var x :| x in s;
      KeyedSize(s - {x});
      assert (set a | a in s :: Ce(a)) == (set a | a in s - {x} :: Ce(a)) + {Ce(x)};
    }
  }

  /** What Marshal must produce from the encoded attributes n of e. */
  ghost predicate Marshaled(sdk: Sdk, e: Event, n: Named, message: Message) {
    if |n| + 1 <= BINARY_ATTRIBUTE_BUDGET then
      && message.body == e.data
      && message.attrs.Keys == (set a | a in n :: Ce(a)) + {ContentTypeKey}
      && (forall a :: a in n ==> message.attrs[Ce(a)] == AttributeValue(Some(n[a])))
      && message.attrs[ContentTypeKey] == AttributeValue(Some(ContentType(e)))
    else
      && EncodeStructured(sdk, e) == Some(message.body)
      && message.attrs.Keys == {ContentTypeKey, Ce(Id), Ce(Kind), Ce(Source)}
      && message.attrs[ContentTypeKey] == AttributeValue(Some(STRUCTURED_JSON))
      && message.attrs[Ce(Id)] == AttributeValue(Some(e.id))
      && message.attrs[Ce(Kind)] == AttributeValue(Some(e.kind))
      && message.attrs[Ce(Source)] == AttributeValue(Some(e.source))
  }

  /** DefaultMarshaler.Marshal. */
  method Marshal(sdk: Sdk, e: Event) returns (r: Option<Message>, ghost n: Named)
    ensures r.Some? ==> Marshaled(sdk, e, n, r.value)
    ensures r.Some? ==> |r.value.attrs| <= BINARY_ATTRIBUTE_BUDGET
    ensures r.None? <==> !Formattable(sdk, e) || (|n| + 1 > BINARY_ATTRIBUTE_BUDGET && EncodeStructured(sdk, e).None?)
    ensures Formattable(sdk, e) ==> Carries(sdk, n, e)
  {
    n := map[];
    var encoded := Encode(sdk, e);
    if encoded.None? {
      return None, n;
    }
    n := encoded.value;
    var pairs := Keyed(encoded.value)[ContentTypeKey := ContentType(e)];
    var body := e.data;
    if |pairs| > BINARY_ATTRIBUTE_BUDGET {
      var structured := EncodeStructured(sdk, e);
      if structured.None? {
        return None, n;
      }
      body := structured.value;
      pairs := map[ContentTypeKey := STRUCTURED_JSON, Ce(Id) := e.id, Ce(Kind) := e.kind, Ce(Source) := e.source];
    }
    var attrs := StringValues(pairs);
    r := Some(Message(body, attrs));
    if |n| + 1 <= BINARY_ATTRIBUTE_BUDGET {
      BinaryMarshaled(sdk, e, n, r.value);
    } else {
      StructuredMarshaled(sdk, e, n, r.value);
    }
    hide Marshaled, Carries, EncodeStructured, Formattable;
  }

  lemma BinaryMarshaled(sdk: Sdk, e: Event, n: Named, message: Message)
    requires |n| + 1 <= BINARY_ATTRIBUTE_BUDGET && message.body == e.data
    requires var pairs := Keyed(n)[ContentTypeKey := ContentType(e)];
             && message.attrs.Keys == pairs.Keys
             && forall k :: k in message.attrs ==> message.attrs[k] == AttributeValue(Some(pairs[k]))
    ensures Marshaled(sdk, e, n, message)
  {
    var pairs := Keyed(n)[ContentTypeKey := ContentType(e)];
    assert forall a :: a in n ==> Ce(a) in pairs && pairs[Ce(a)] == n[a];
  }

  lemma StructuredMarshaled(sdk: Sdk, e: Event, n: Named, message: Message)
    requires |n| + 1 > BINARY_ATTRIBUTE_BUDGET && EncodeStructured(sdk, e) == Some(message.body)
    requires var pairs := map[
               ContentTypeKey := STRUCTURED_JSON, Ce(Id) := e.id, Ce(Kind) := e.kind, Ce(Source) := e.source];
             && message.attrs.Keys == pairs.Keys
             && forall k :: k in message.attrs ==> message.attrs[k] == AttributeValue(Some(pairs[k]))
    ensures Marshaled(sdk, e, n, message)
  {
  }

  /** Marshal's last loop: every pair becomes a String attribute. */
  method StringValues(pairs: map<Key, string>) returns (attrs: map<Key, AttributeValue>)
    ensures attrs.Keys == pairs.Keys && |attrs| == |pairs|
    ensures forall k :: k in attrs ==> attrs[k] == AttributeValue(Some(pairs[k]))
  {
    attrs := map[];
    var left := pairs.Keys;
    while left != {}
      invariant left <= pairs.Keys && Stringed(pairs, left, attrs)
      decreases left
    {
      var k :| k in left;
      OneMoreString(pairs, left, attrs, k);
      attrs := attrs[k := AttributeValue(Some(pairs[k]))];
      left := left - {k};
      hide Stringed;
    }
    assert |attrs| == |attrs.Keys| && |pairs| == |pairs.Keys|;
  }

  /** The pairs not in left are String attributes. */
  predicate Stringed(pairs: map<Key, string>, left: set<Key>, attrs: map<Key, AttributeValue>) {
    && attrs.Keys == pairs.Keys - left
    && forall k :: k in attrs ==> attrs[k] == AttributeValue(Some(pairs[k]))
  }

  lemma OneMoreString(pairs: map<Key, string>, left: set<Key>, attrs: map<Key, AttributeValue>, k: Key)
    requires left <= pairs.Keys && k in left && Stringed(pairs, left, attrs)
    ensures Stringed(pairs, left - {k}, attrs[k := AttributeValue(Some(pairs[k]))])
  {
  }

  /** event.InjectTraceFromContext. */
  function Traced(e: Event, trace: Option<string>): Event {
    if trace.None? then e else e.(ext := SetExtension(e.ext, EXT_TRACEPARENT, Text(trace.value)))
  }

  /** The native trace header. */
  function WithHeader(message: Message, trace: Option<string>): Message {
    if trace.None? then message
    else message.(attrs := message.attrs[TraceKey := AttributeValue(Some(trace.value))])
  }

  /** Publish's last check: it fires exactly on more than MAX_MESSAGE_ATTRIBUTES attributes, whatever marshaler ran. */
  function Checked(message: Message, trace: Option<string>): Sent {
    var full := WithHeader(message, trace);
    if |full.attrs| > MAX_MESSAGE_ATTRIBUTES then TooManyAttributes else Sent(full)
  }

  /** Publish with the default marshaler: the attribute limit is unreachable. */
  method Publish(sdk: Sdk, e: Event, trace: Option<string>) returns (r: Sent, ghost n: Named, ghost marshaled: Message)
    ensures r != TooManyAttributes
    ensures r.Sent? ==>
              && Formattable(sdk, Traced(e, trace)) && Carries(sdk, n, Traced(e, trace))
              && Marshaled(sdk, Traced(e, trace), n, marshaled)
              && r.message == WithHeader(marshaled, trace) && |r.message.attrs| <= MAX_MESSAGE_ATTRIBUTES
    ensures r == MarshalFailed <==>
              !Formattable(sdk, Traced(e, trace)) ||
              (|n| + 1 > BINARY_ATTRIBUTE_BUDGET && EncodeStructured(sdk, Traced(e, trace)).None?)
  {
    var input;
    input, n := Marshal(sdk, Traced(e, trace));
    if input.None? {
      marshaled := Message("", map[]);
      return MarshalFailed, n, marshaled;
    }
    marshaled := input.value;
    assert |WithHeader(input.value, trace).attrs| <= |input.value.attrs| + 1;
    r := Checked(input.value, trace);
  }

  // ---------------------------------------------------------------- the SQS end

  const SQS_KIND := "com.aws.sqs.message"
  const SQS_SOURCE := "//sqs.amazonaws.com"

  /** order is an iteration order of the map's keys. */
  ghost predicate Enumerates(order: seq<Key>, attrs: map<Key, AttributeValue>) {
    && (forall k :: k in attrs <==> k in order)
    && (forall i, j :: 0 <= i < j < |order| ==> order[i] != order[j])
  }

  /** stringAttributes: the String-typed pairs, in iteration order. */
  function StringAttributes(order: seq<Key>, attrs: map<Key, AttributeValue>): Pairs
    requires forall i :: 0 <= i < |order| ==> order[i] in attrs
  {
    if order == [] then []
    else
      var init, k := order[..|order| - 1], order[|order| - 1];
      var before := StringAttributes(init, attrs);
      if attrs[k].stringValue.None? then before else before + [(KeyText(k), attrs[k].stringValue.value)]
  }

  function ContentTypeOf(attrs: map<Key, AttributeValue>): string {
    if ContentTypeKey in attrs && attrs[ContentTypeKey].stringValue.Some?
    then attrs[ContentTypeKey].stringValue.value
    else ""
  }

  /** What the SQS subscriber makes of a message whose attributes iterate in the given order. */
  ghost function Received(sdk: Sdk, message: Message, messageId: string, order: seq<Key>): Decoded
    requires Enumerates(order, message.attrs)
  {
    DecodeSpec(sdk, ContentTypeOf(message.attrs), StringAttributes(order, message.attrs), message.body,
               Defaults(messageId, SQS_KIND, SQS_SOURCE))
  }

  /** unmarshal, reading the attributes in the given order. */
  method Unmarshal(sdk: Sdk, message: Message, messageId: string, order: seq<Key>) returns (r: Decoded)
    requires Lawful(sdk) && Enumerates(order, message.attrs) && Version10(sdk, StringAttributes(order, message.attrs))
    ensures r == Received(sdk, message, messageId, order)
  {
    var pairs: Pairs := [];
    for i := 0 to |order|
      invariant pairs == StringAttributes(order[..i], message.attrs)
    {
      assert order[..i + 1][..i] == order[..i];
      var value := message.attrs[order[i]].stringValue;
      if value.Some? {
        pairs := pairs + [(KeyText(order[i]), value.value)];
      }
    }
    assert order[..|order|] == order;
    r := Decode(sdk, ContentTypeOf(message.attrs), pairs, message.body, Defaults(messageId, SQS_KIND, SQS_SOURCE));
  }

  /** With String attributes only, the pairs are the attributes one by one. */
  lemma {:induction false} PairAt(order: seq<Key>, attrs: map<Key, AttributeValue>)
    requires forall i :: 0 <= i < |order| ==> order[i] in attrs
    requires forall k :: k in attrs ==> attrs[k].stringValue.Some?
    ensures var pairs := StringAttributes(order, attrs);
            && |pairs| == |order|
            && forall i :: 0 <= i < |order| ==> pairs[i] == (KeyText(order[i]), attrs[order[i]].stringValue.value)
    decreases |order|
  {
    if order != [] {
      PairAt(order[..|order| - 1], attrs);
    }
  }

  /** The keys beside the CloudEvents ones have no prefix. */
  lemma UnprefixedKeys(sdk: Sdk)
    requires Lawful(sdk)
    ensures NameOf(sdk, KeyText(ContentTypeKey)) == None && NameOf(sdk, KeyText(TraceKey)) == None
  {
    assert IsAscii("Content-Type") && LowerAscii("Content-Type")[1] == 'o';
    assert IsAscii("traceparent") && LowerAscii("traceparent")[0] == 't';
  }

  /** attrs are the attributes n beside, at most, the Content-Type and the trace header, all String-typed. */
  ghost predicate BinaryAttrs(attrs: map<Key, AttributeValue>, n: Named) {
    && (forall a :: a in n ==> Ce(a) in attrs && attrs[Ce(a)] == AttributeValue(Some(n[a])))
    && (forall k :: k in attrs ==> attrs[k].stringValue.Some? && (k.Ce? ==> k.attr in n))
  }

  /** Each pair with the prefix is one of the attributes n. */
  lemma PairIsAttr(sdk: Sdk, attrs: map<Key, AttributeValue>, n: Named, order: seq<Key>, i: nat)
    requires Lawful(sdk) && BinaryAttrs(attrs, n) && Enumerates(order, attrs) && StoredAttrs(n) && i < |order|
    ensures |StringAttributes(order, attrs)| == |order|
    ensures var (key, v) := StringAttributes(order, attrs)[i];
            if order[i].Ce?
            then (key, v) == (KeyOf(order[i].attr), n[order[i].attr]) && NameOf(sdk, key) == Some(order[i].attr)
            else NameOf(sdk, key) == None
  {
    PairAt(order, attrs);
    if order[i].Ce? {
      KeyRoundTrip(sdk, order[i].attr);
    } else {
      UnprefixedKeys(sdk);
    }
  }

  /** Each of the attributes n has its pair. */
  lemma AttrHasPair(sdk: Sdk, attrs: map<Key, AttributeValue>, n: Named, order: seq<Key>, a: Attr)
    requires BinaryAttrs(attrs, n) && Enumerates(order, attrs) && a in n
    ensures (KeyOf(a), n[a]) in StringAttributes(order, attrs)
  {
    PairAt(order, attrs);
    var i :| 0 <= i < |order| && order[i] == Ce(a);
    assert StringAttributes(order, attrs)[i] == (KeyOf(a), n[a]);
  }

  /** Pairs with the prefix have different keys. */
  lemma PairsDiffer(sdk: Sdk, attrs: map<Key, AttributeValue>, n: Named, order: seq<Key>, i: nat, j: nat)
    requires Lawful(sdk) && BinaryAttrs(attrs, n) && Enumerates(order, attrs) && StoredAttrs(n) && i < j < |order|
    ensures |StringAttributes(order, attrs)| == |order|
    ensures var pairs := StringAttributes(order, attrs); NameOf(sdk, pairs[i].0).Some? ==> pairs[i].0 != pairs[j].0
  {
    PairIsAttr(sdk, attrs, n, order, i);
    PairIsAttr(sdk, attrs, n, order, j);
    hide NameOf, KeyOf, Lawful, StoredAttrs, StringAttributes, BinaryAttrs;
  }

  lemma EveryPairHasAttr(sdk: Sdk, attrs: map<Key, AttributeValue>, n: Named, order: seq<Key>)
    requires Lawful(sdk) && BinaryAttrs(attrs, n) && Enumerates(order, attrs) && StoredAttrs(n)
    requires |order| == |StringAttributes(order, attrs)|
    ensures var pairs := StringAttributes(order, attrs);
            forall i :: 0 <= i < |pairs| && NameOf(sdk, pairs[i].0).Some? ==>
              exists a :: a in n && pairs[i] == (KeyOf(a), n[a])
  {
    var pairs := StringAttributes(order, attrs);
    assert forall i :: 0 <= i < |order| ==> order[i] in attrs;
    hide NameOf, KeyOf, Lawful, StoredAttrs, StringAttributes, BinaryAttrs, Enumerates;
    forall i | 0 <= i < |pairs| && NameOf(sdk, pairs[i].0).Some?
      ensures exists a :: a in n && pairs[i] == (KeyOf(a), n[a])
    {
      PairHasAttr(sdk, attrs, n, order, i);
    }
  }

  /** A binary message puts exactly the encoded attributes on the wire. */
  lemma BinaryOnWire(sdk: Sdk, attrs: map<Key, AttributeValue>, n: Named, order: seq<Key>)
    requires Lawful(sdk) && BinaryAttrs(attrs, n) && Enumerates(order, attrs) && StoredAttrs(n)
    ensures OnWire(sdk, StringAttributes(order, attrs), n)
  {
    assert forall i :: 0 <= i < |order| ==> order[i] in attrs;
    hide NameOf, KeyOf, Lawful, StoredAttrs, StringAttributes, BinaryAttrs, Enumerates;
    EveryPairDiffers(sdk, attrs, n, order);
    EveryPairHasAttr(sdk, attrs, n, order);
    EveryAttrHasPair(sdk, attrs, n, order);
  }

  lemma EveryAttrHasPair(sdk: Sdk, attrs: map<Key, AttributeValue>, n: Named, order: seq<Key>)
    requires BinaryAttrs(attrs, n) && Enumerates(order, attrs)
    ensures forall a :: a in n ==> (KeyOf(a), n[a]) in StringAttributes(order, attrs)
  {
    assert forall i :: 0 <= i < |order| ==> order[i] in attrs;
    hide KeyOf, StringAttributes, BinaryAttrs, Enumerates;
    forall a | a in n ensures (KeyOf(a), n[a]) in StringAttributes(order, attrs) {
      AttrHasPair(sdk, attrs, n, order, a);
    }
  }

  lemma EveryPairDiffers(sdk: Sdk, attrs: map<Key, AttributeValue>, n: Named, order: seq<Key>)
    requires Lawful(sdk) && BinaryAttrs(attrs, n) && Enumerates(order, attrs) && StoredAttrs(n)
    ensures var pairs := StringAttributes(order, attrs);
            && |pairs| == |order|
            && forall i, j :: 0 <= i < j < |pairs| && NameOf(sdk, pairs[i].0).Some? ==> pairs[i].0 != pairs[j].0
  {
    var pairs := StringAttributes(order, attrs);
    assert |pairs| == |order| by { PairAt(order, attrs); }
    assert forall i :: 0 <= i < |order| ==> order[i] in attrs;
    hide NameOf, KeyOf, Lawful, StoredAttrs, StringAttributes, BinaryAttrs, Enumerates;
    forall i, j | 0 <= i < j < |pairs| && NameOf(sdk, pairs[i].0).Some? ensures pairs[i].0 != pairs[j].0 {
      PairsDiffer(sdk, attrs, n, order, i, j);
    }
  }

  lemma PairHasAttr(sdk: Sdk, attrs: map<Key, AttributeValue>, n: Named, order: seq<Key>, i: nat)
    requires Lawful(sdk) && BinaryAttrs(attrs, n) && Enumerates(order, attrs) && StoredAttrs(n)
    requires i < |order| == |StringAttributes(order, attrs)| && NameOf(sdk, StringAttributes(order, attrs)[i].0).Some?
    ensures exists a :: a in n && StringAttributes(order, attrs)[i] == (KeyOf(a), n[a])
  {
    PairIsAttr(sdk, attrs, n, order, i);
    assert order[i].attr in n;
  }

  lemma TracedWellFormed(sdk: Sdk, e: Event, trace: Option<string>)
    requires Lawful(sdk) && WellFormed(sdk, e)
    ensures WellFormed(sdk, Traced(e, trace))
  {
    if trace.Some? {
      SetExtensionKeepsNames(e.ext, EXT_TRACEPARENT, Text(trace.value));
    }
  }

  lemma BinaryReceived(sdk: Sdk, t: Event, n: Named, message: Message, messageId: string, order: seq<Key>)
    requires Lawful(sdk) && WellFormed(sdk, t) && ContentType(t) != STRUCTURED_JSON && Carries(sdk, n, t)
    requires BinaryAttrs(message.attrs, n) && Enumerates(order, message.attrs)
    requires ContentTypeOf(message.attrs) == ContentType(t) && message.body == t.data
    ensures Received(sdk, message, messageId, order) == Decoded(Canonical(sdk, t))
  {
    CarriesStored(sdk, n, t);
    BinaryOnWire(sdk, message.attrs, n, order);
    RoundTrip(sdk, t, n, StringAttributes(order, message.attrs), Defaults(messageId, SQS_KIND, SQS_SOURCE));
    hide WellFormed, Lawful, Carries, OnWire, DecodeSpec;
  }

  lemma MarshaledBinary(sdk: Sdk, t: Event, n: Named, marshaled: Message, trace: Option<string>)
    requires Marshaled(sdk, t, n, marshaled) && |n| + 1 <= BINARY_ATTRIBUTE_BUDGET
    ensures var message := WithHeader(marshaled, trace);
            BinaryAttrs(message.attrs, n) && ContentTypeOf(message.attrs) == ContentType(t) && message.body == t.data
  {
  }

  lemma MarshaledStructured(sdk: Sdk, t: Event, n: Named, marshaled: Message, trace: Option<string>)
    requires Marshaled(sdk, t, n, marshaled) && |n| + 1 > BINARY_ATTRIBUTE_BUDGET
    ensures var message := WithHeader(marshaled, trace);
            ContentTypeOf(message.attrs) == STRUCTURED_JSON && EncodeStructured(sdk, t) == Some(message.body)
  {
  }

  /**
   From Publish to the SQS subscriber: in whichever mode the budget chose, in every iteration
   order, the event comes back with the trace it was published with.
   */
  lemma PublishRoundTrip(
      sdk: Sdk, e: Event, trace: Option<string>, n: Named, marshaled: Message, messageId: string, order: seq<Key>)
    requires Lawful(sdk) && StructuredInverse(sdk) && WellFormed(sdk, e) && ContentType(e) != STRUCTURED_JSON
    requires Carries(sdk, n, Traced(e, trace)) && Marshaled(sdk, Traced(e, trace), n, marshaled)
    requires Enumerates(order, WithHeader(marshaled, trace).attrs)
    ensures var r := Received(sdk, WithHeader(marshaled, trace), messageId, order);
            && r.Decoded? && Restores(sdk, r.ev, Traced(e, trace))
            && (|n| + 1 <= BINARY_ATTRIBUTE_BUDGET ==> r.ev == Canonical(sdk, Traced(e, trace)))
  {
    var t, message := Traced(e, trace), WithHeader(marshaled, trace);
    TracedWellFormed(sdk, e, trace);
    assert ContentType(t) == ContentType(e);
    hide Marshaled, Traced, WithHeader, Lawful, WellFormed, Carries, ContentTypeOf, Enumerates, Restores, BinaryAttrs;
    if |n| + 1 <= BINARY_ATTRIBUTE_BUDGET {
      MarshaledBinary(sdk, t, n, marshaled, trace);
      BinaryReceived(sdk, t, n, message, messageId, order);
      CanonicalRestores(sdk, t);
    } else {
      MarshaledStructured(sdk, t, n, marshaled, trace);
      StructuredRoundTrip(sdk, t);
      hide Build, HasDuplicate, StringAttributes;
    }
  }

  // ---------------------------------------------------------------- the mode, and what a subscriber can filter on

  /** Binary mode is used exactly when its attributes, the Content-Type and a trace header fit the limit of 10. */
  lemma ModeByBudget(sdk: Sdk, t: Event, n: Named, marshaled: Message)
    requires Marshaled(sdk, t, n, marshaled) && ContentType(t) != STRUCTURED_JSON
    ensures ContentTypeOf(marshaled.attrs) != STRUCTURED_JSON <==> |n| + 2 <= 10
    ensures |n| + 2 <= 10 ==> marshaled.body == t.data && ContentTypeOf(marshaled.attrs) == ContentType(t)
  {
  }

  /** Whatever marshaler ran, more than 10 attributes are refused, and only they. */
  lemma RefusedExactly(message: Message, trace: Option<string>)
    ensures Checked(message, trace) == TooManyAttributes <==>
            |message.attrs| + (if trace.Some? && TraceKey !in message.attrs then 1 else 0) > 10
  {
    var full := WithHeader(message, trace);
    assert full.attrs.Keys == message.attrs.Keys + if trace.Some? then {TraceKey} else {};
    assert |full.attrs| == |full.attrs.Keys| && |message.attrs| == |message.attrs.Keys|;
    if trace.Some? && TraceKey in message.attrs {
      assert full.attrs.Keys == message.attrs.Keys;
    }
  }

  /** In either mode the id, the type and the source are attributes, so a subscription can filter on them. */
  lemma Filterable(sdk: Sdk, t: Event, n: Named, marshaled: Message)
    requires Marshaled(sdk, t, n, marshaled) && Carries(sdk, n, t)
    ensures {Ce(Id), Ce(Kind), Ce(Source)} <= marshaled.attrs.Keys
    ensures marshaled.attrs[Ce(Id)] == AttributeValue(Some(t.id))
    ensures marshaled.attrs[Ce(Kind)] == AttributeValue(Some(t.kind))
    ensures marshaled.attrs[Ce(Source)] == AttributeValue(Some(t.source))
  {
    assert Wanted(sdk, t, Id) == Some(t.id) && Wanted(sdk, t, Kind) == Some(t.kind);
    assert Wanted(sdk, t, Source) == Some(t.source);
  }

  /** The trace goes out twice: as the native header and, restored at the other end, as the extension. */
  lemma TraceTravels(
      sdk: Sdk, e: Event, trace: string, n: Named, marshaled: Message, messageId: string, order: seq<Key>)
    requires Lawful(sdk) && StructuredInverse(sdk) && WellFormed(sdk, e) && ContentType(e) != STRUCTURED_JSON
    requires Carries(sdk, n, Traced(e, Some(trace))) && Marshaled(sdk, Traced(e, Some(trace)), n, marshaled)
    requires Enumerates(order, WithHeader(marshaled, Some(trace)).attrs)
    ensures var message := WithHeader(marshaled, Some(trace));
            var r := Received(sdk, message, messageId, order);
            && TraceKey in message.attrs && message.attrs[TraceKey] == AttributeValue(Some(trace))
            && r.Decoded? && EXT_TRACEPARENT in r.ev.ext && r.ev.ext[EXT_TRACEPARENT] == Text(trace)
            && (forall k :: k in e.ext && k != EXT_TRACEPARENT && e.ext[k].Text? ==>
                  k in r.ev.ext && r.ev.ext[k] == e.ext[k])
  {
    hide WellFormed, Lawful, StructuredInverse, Marshaled, Received, Enumerates, Canonical, SameData, Formattable;
    TraceparentName();
    PublishRoundTrip(sdk, e, Some(trace), n, marshaled, messageId, order);
    var t := Traced(e, Some(trace));
    assert EXT_TRACEPARENT in t.ext && t.ext[EXT_TRACEPARENT] == Text(trace);
    hide IsExtensionName, IsStoredName;
  }

  /** A message from elsewhere, without CloudEvents attributes, takes its id from SQS. */
  lemma ForeignMessage(sdk: Sdk, message: Message, messageId: string, order: seq<Key>)
    requires Lawful(sdk) && Enumerates(order, message.attrs) && ContentTypeOf(message.attrs) != STRUCTURED_JSON
    requires forall k :: k in message.attrs && k.Ce? ==> message.attrs[k].stringValue == None
    requires sdk.trim(messageId) != "" && sdk.parseUri(SQS_SOURCE).Some?
    ensures var r := Received(sdk, message, messageId, order);
            r.Decoded? ==>
              && r.ev.id == sdk.trim(messageId) && r.ev.kind == sdk.trim(SQS_KIND)
              && Some(r.ev.source) == sdk.parseUri(SQS_SOURCE) && r.ev.data == message.body && r.ev.ext == map[]
  {
    var pairs, def := StringAttributes(order, message.attrs), Defaults(messageId, SQS_KIND, SQS_SOURCE);
    assert forall i :: 0 <= i < |order| ==> order[i] in message.attrs;
    ForeignPairs(sdk, order, message.attrs);
    hide StringAttributes, NameOf, DecodeSpec, ContentTypeOf, Lawful, Enumerates;
    Decoding.BareDecoded(sdk, ContentTypeOf(message.attrs), pairs, message.body, def);
  }

  lemma {:induction false} ForeignPairs(sdk: Sdk, order: seq<Key>, attrs: map<Key, AttributeValue>)
    requires Lawful(sdk) && forall i :: 0 <= i < |order| ==> order[i] in attrs
    requires forall k :: k in attrs && k.Ce? ==> attrs[k].stringValue == None
    ensures Decoding.Bare(sdk, StringAttributes(order, attrs))
    decreases |order|
  {
    if order != [] {
      var init, k := order[..|order| - 1], order[|order| - 1];
      ForeignPairs(sdk, init, attrs);
      if !k.Ce? {
        UnprefixedKey(sdk, k);
      }
      hide NameOf, KeyText, Lawful;
    }
  }

  lemma UnprefixedKey(sdk: Sdk, k: Key)
    requires Lawful(sdk) && !k.Ce?
    ensures NameOf(sdk, KeyText(k)) == None
  {
    UnprefixedKeys(sdk);
    hide NameOf, Lawful;
    match k
    case ContentTypeKey =>
    case TraceKey =>
  }
}
