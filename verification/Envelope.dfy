/**
 The CloudEvents codec every transport shares: pkg/transport/internal/envelope/envelope.go.
 The binary and structured content modes are sections 3.1 and 3.2 of the CloudEvents HTTP
 Protocol Binding 1.0.2.
 */
module Envelope {
  import opened Options
  import opened CloudEvents

  const PREFIX := "ce-"

  /** What a transport fills in when the producer did not send it. */
  datatype Defaults = Defaults(id: string, kind: string, source: string)

  /** Every failure of Decode wraps event.ErrDecode. */
  datatype Decoded = Decoded(ev: Event) | ErrDecode

  /** An event being built, and the fields whose last setter call failed: Event.FieldErrors. */
  datatype Draft = Draft(ev: Event, bad: set<Attr>)

  const BLANK := Event("", "", "", "", "", "", None, map[], "", false)

  // ---------------------------------------------------------------- the SDK's setters

  /** The setter of attr refuses v: it records a field error and stores nothing. */
  predicate Rejects(sdk: Sdk, attr: Attr, v: string) {
    match attr
    case Id => sdk.trim(v) == ""
    case SpecVersion => v != "1.0"
    case Source => sdk.parseUri(v).None?
    case DataSchema => sdk.trim(v) != "" && sdk.parseUri(sdk.trim(v)).None?
    case Ext(name) => !IsExtensionName(name)
    case _ => false
  }

  /** What the setter of attr stores. A datacontenttype attribute is ignored. */
  function Store(sdk: Sdk, e: Event, attr: Attr, v: string): Event
    requires !Rejects(sdk, attr, v) && (attr == When ==> sdk.parseTime(v).Some?)
  {
    match attr
    case Id => e.(id := sdk.trim(v))
    case Kind => e.(kind := sdk.trim(v))
    case Source => e.(source := sdk.parseUri(v).value)
    case Subject => e.(subject := sdk.trim(v))
    case DataSchema => e.(schema := if sdk.trim(v) == "" then "" else sdk.parseUri(sdk.trim(v)).value)
    case When => e.(time := if sdk.parseTime(v).value == sdk.zeroTime then None else sdk.parseTime(v))
    case Ext(name) => e.(ext := SetExtension(e.ext, name, Text(v)))
    case SpecVersion => e
    case DataContentType => e
  }

  function Set(sdk: Sdk, d: Draft, attr: Attr, v: string): Draft
    requires attr == When ==> sdk.parseTime(v).Some?
  {
    if Rejects(sdk, attr, v) then d.(bad := d.bad + {attr}) else Draft(Store(sdk, d.ev, attr, v), d.bad - {attr})
  }

  /** SetData with bytes: it cannot fail on a 1.0 event. */
  function SetData(sdk: Sdk, d: Draft, contentType: string, data: string): Draft {
    d.(ev := d.ev.(contentType := sdk.trim(contentType), data := data, base64 := true))
  }

  predicate Validates(sdk: Sdk, d: Draft) {
    d.bad == {} && ContextValid(sdk, d.ev)
  }

  // ---------------------------------------------------------------- decoding

  /** setAttribute: None when the time does not parse. */
  function SetAttribute(sdk: Sdk, d: Draft, attr: Attr, v: string): Option<Draft> {
    if attr == When && sdk.parseTime(v).None? then None else Some(Set(sdk, d, attr, v))
  }

  /** The attribute a transport key carries, from its lower-case form; None without the prefix. */
  function NameOf(sdk: Sdk, key: string): Option<Attr> {
    var low := sdk.lower(key);
    if PREFIX <= low then Some(AttrOf(low[|PREFIX|..])) else None
  }

  type Named = map<Attr, string>

  type Pairs = seq<(string, string)>

  /** The attributes by name. */
  function Attributes(sdk: Sdk, attrs: Pairs): Named {
    if attrs == [] then map[]
    else
      var (key, value) := attrs[|attrs| - 1];
      var rest := Attributes(sdk, attrs[..|attrs| - 1]);
      match NameOf(sdk, key)
      case None => rest
      case Some(name) => rest[name := value]
  }

  /** Some pair carries an attribute an earlier pair carried. */
  predicate HasDuplicate(sdk: Sdk, attrs: Pairs) {
    attrs != [] &&
    var init, name := attrs[..|attrs| - 1], NameOf(sdk, attrs[|attrs| - 1].0);
    HasDuplicate(sdk, init) || (name.Some? && name.value in Attributes(sdk, init))
  }

  /** No attribute asks for the 0.3 event model. */
  ghost predicate Version10(sdk: Sdk, attrs: Pairs) {
    forall i :: 0 <= i < |attrs| && NameOf(sdk, attrs[i].0) == Some(SpecVersion) ==> attrs[i].1 != "0.3"
  }

  predicate TimeFails(sdk: Sdk, m: Named) {
    When in m && sdk.parseTime(m[When]).None?
  }

  /** The attribute's value, when there is one and its setter takes it. */
  function Taken(sdk: Sdk, m: Named, attr: Attr): Option<string> {
    if attr in m && !Rejects(sdk, attr, m[attr]) then Some(m[attr]) else None
  }

  function ExtensionsOf(m: Named): map<string, Value> {
    map a | a in m && a.Ext? && IsExtensionName(a.name) :: a.name := Text(m[a])
  }

  function TrimmedOr(sdk: Sdk, v: Option<string>, default: string): string {
    match v
    case Some(s) => sdk.trim(s)
    case None => sdk.trim(default)
  }

  function UriOr(sdk: Sdk, v: Option<string>, default: string): string {
    match sdk.parseUri(match v case Some(s) => s case None => default)
    case Some(uri) => uri
    case None => ""
  }

  function SchemaOr(sdk: Sdk, v: Option<string>): string {
    if v == None || sdk.trim(v.value) == "" then "" else UriOr(sdk, Some(sdk.trim(v.value)), "")
  }

  function Instant(sdk: Sdk, v: Option<string>): Option<Time> {
    if v == None || sdk.parseTime(v.value) == Some(sdk.zeroTime) then None else sdk.parseTime(v.value)
  }

  /** The event without its payload, from the attributes by name: no order is left in it. */
  function EventOf(sdk: Sdk, m: Named, def: Defaults): Event {
    Event(
      TrimmedOr(sdk, Taken(sdk, m, Id), def.id),
      UriOr(sdk, Taken(sdk, m, Source), def.source),
      TrimmedOr(sdk, Taken(sdk, m, Kind), def.kind),
      TrimmedOr(sdk, Taken(sdk, m, Subject), ""),
      SchemaOr(sdk, Taken(sdk, m, DataSchema)),
      "",
      Instant(sdk, Taken(sdk, m, When)),
      ExtensionsOf(m),
      "",
      false)
  }

  /** The fields Validate reports: attributes that were refused, and defaults that were and had no successor. */
  function BadFields(sdk: Sdk, m: Named, def: Defaults): set<Attr> {
    (set a | a in m && Rejects(sdk, a, m[a])) +
    (if Id !in m && Rejects(sdk, Id, def.id) then {Id} else {}) +
    (if Source !in m && Rejects(sdk, Source, def.source) then {Source} else {})
  }

  function Assemble(sdk: Sdk, m: Named, def: Defaults): Draft {
    Draft(EventOf(sdk, m, def), BadFields(sdk, m, def))
  }

  /** What binary decoding of the attributes by name yields. */
  function Build(sdk: Sdk, contentType: string, m: Named, data: string, def: Defaults): Decoded {
    if TimeFails(sdk, m) then ErrDecode
    else
      var d := SetData(sdk, Assemble(sdk, m, def), if contentType == "" then APPLICATION_JSON else contentType, data);
      if Validates(sdk, d) then Decoded(d.ev) else ErrDecode
  }

  function DecodeStructured(sdk: Sdk, body: string): Decoded {
    match sdk.unmarshal(body)
    case None => ErrDecode
    case Some(e) => if ContextValid(sdk, e) then Decoded(e) else ErrDecode
  }

  ghost function DecodeSpec(sdk: Sdk, contentType: string, attrs: Pairs, data: string, def: Defaults): Decoded {
    if contentType == STRUCTURED_JSON then DecodeStructured(sdk, data)
    else if HasDuplicate(sdk, attrs) then ErrDecode
    else Build(sdk, contentType, Attributes(sdk, attrs), data, def)
  }

  /** The draft before any attribute is read. */
  function Initial(sdk: Sdk, def: Defaults): Draft {
    var d := Set(sdk, Draft(BLANK, {}), SpecVersion, "1.0");
    Set(sdk, Set(sdk, Set(sdk, d, Id, def.id), Kind, def.kind), Source, def.source)
  }

  lemma InitialAssembles(sdk: Sdk, def: Defaults)
    requires Lawful(sdk)
    ensures Initial(sdk, def) == Assemble(sdk, map[], def)
  {
    assert Initial(sdk, def).ev == EventOf(sdk, map[], def);
    assert Initial(sdk, def).bad == BadFields(sdk, map[], def);
  }

  /** The attribute loop, pair by pair: None once a pair is refused. */
  function Folded(sdk: Sdk, attrs: Pairs, def: Defaults): Option<Draft> {
    if attrs == [] then Some(Initial(sdk, def))
    else
      var init, key, v := attrs[..|attrs| - 1], attrs[|attrs| - 1].0, attrs[|attrs| - 1].1;
      match (Folded(sdk, init, def), NameOf(sdk, key))
      case (None, _) => None
      case (before, None) => before
      case (Some(d), Some(name)) => if name in Attributes(sdk, init) then None else SetAttribute(sdk, d, name, v)
  }

  /** The attribute loop: it gives up at the first pair it cannot take. */
  method ReadAttributes(sdk: Sdk, attrs: Pairs, def: Defaults) returns (r: Option<Draft>)
    ensures r == Folded(sdk, attrs, def)
  {
    var ce := Initial(sdk, def);
    var seen: set<Attr> := {};
    for i := 0 to |attrs|
      invariant seen == Attributes(sdk, attrs[..i]).Keys
      invariant Folded(sdk, attrs[..i], def) == Some(ce)
    {
      assert attrs[..i + 1][..i] == attrs[..i];
      var name := NameOf(sdk, attrs[i].0);
      if name.Some? {
        if name.value in seen {
          StaysRefused(sdk, attrs, def, i + 1);
          return None;
        }
        seen := seen + {name.value};
        var next := SetAttribute(sdk, ce, name.value, attrs[i].1);
        if next.None? {
          StaysRefused(sdk, attrs, def, i + 1);
          return None;
        }
        ce := next.value;
      }
    }
    assert attrs[..|attrs|] == attrs;
    return Some(ce);
  }

  /** Decode, reading the pairs in the order the transport yields them. */
  method Decode(sdk: Sdk, contentType: string, attrs: Pairs, data: string, def: Defaults) returns (r: Decoded)
    requires Lawful(sdk) && Version10(sdk, attrs)
    ensures r == DecodeSpec(sdk, contentType, attrs, data, def)
  {
    if contentType == STRUCTURED_JSON {
      return DecodeStructured(sdk, data);
    }
    var read := ReadAttributes(sdk, attrs, def);
    FoldedIsAssembled(sdk, attrs, def);
    if read.None? {
      return ErrDecode;
    }
    var ce := SetData(sdk, read.value, if contentType == "" then APPLICATION_JSON else contentType, data);
    if !Validates(sdk, ce) {
      return ErrDecode;
    }
    return Decoded(ce.ev);
  }

  lemma LowerCaseName(sdk: Sdk, key: string)
    requires Lawful(sdk)
    ensures var name := NameOf(sdk, key);
            name.Some? && name.value.Ext? ==> LowerAscii(name.value.name) == name.value.name
  {
    var low := sdk.lower(key);
    var name := if PREFIX <= low then low[|PREFIX|..] else "";
    forall i | 0 <= i < |name| ensures !('A' <= name[i] <= 'Z') {
      assert name[i] == low[i + 3];
    }
    LowerName(name);
  }

  /** What refuses a prefix of the pairs refuses them all, whatever follows. */
  lemma {:induction false} StaysRefused(sdk: Sdk, attrs: Pairs, def: Defaults, i: nat)
    requires i <= |attrs| && Folded(sdk, attrs[..i], def) == None
    ensures Folded(sdk, attrs, def) == None
    decreases |attrs|
  {
    if i == |attrs| {
      assert attrs[..i] == attrs;
    } else {
      var init := attrs[..|attrs| - 1];
      assert init[..i] == attrs[..i];
      StaysRefused(sdk, init, def, i);
    }
  }

  lemma OneMoreExtension(m: Named, attr: Attr, v: string)
    requires attr !in m
    ensures ExtensionsOf(m[attr := v]) ==
            if attr.Ext? && IsExtensionName(attr.name) then ExtensionsOf(m)[attr.name := Text(v)] else ExtensionsOf(m)
  {
  }

  lemma OneMoreRefused(sdk: Sdk, m: Named, def: Defaults, attr: Attr, v: string)
    requires attr !in m && Rejects(sdk, attr, v) && ExtensionsOf(m[attr := v]) == ExtensionsOf(m)
    ensures EventOf(sdk, m[attr := v], def) == EventOf(sdk, m, def)
  {
    OneMoreTaken(sdk, m, attr, v);
  }

  lemma OneMoreField(sdk: Sdk, m: Named, def: Defaults, attr: Attr, v: string)
    requires attr !in m && !attr.Ext? && !Rejects(sdk, attr, v) && ExtensionsOf(m[attr := v]) == ExtensionsOf(m)
    requires attr == When ==> sdk.parseTime(v).Some?
    ensures EventOf(sdk, m[attr := v], def) == Store(sdk, EventOf(sdk, m, def), attr, v)
  {
    OneMoreTaken(sdk, m, attr, v);
    hide Taken, ExtensionsOf, IsExtensionName;
    match attr
    case Source => assert UriOr(sdk, Some(v), def.source) == sdk.parseUri(v).value;
    case DataSchema =>
      assert SchemaOr(sdk, Some(v)) == if sdk.trim(v) == "" then "" else sdk.parseUri(sdk.trim(v)).value;
    case When =>
      assert Instant(sdk, Some(v)) == if sdk.parseTime(v).value == sdk.zeroTime then None else sdk.parseTime(v);
    case _ =>
  }

  lemma OneMoreExt(sdk: Sdk, m: Named, def: Defaults, name: string, v: string)
    requires Ext(name) !in m && IsExtensionName(name) && LowerAscii(name) == name
    requires ExtensionsOf(m[Ext(name) := v]) == ExtensionsOf(m)[name := Text(v)]
    ensures EventOf(sdk, m[Ext(name) := v], def) == Store(sdk, EventOf(sdk, m, def), Ext(name), v)
  {
    OneMoreTaken(sdk, m, Ext(name), v);
  }

  lemma OneMoreTaken(sdk: Sdk, m: Named, attr: Attr, v: string)
    requires attr !in m
    ensures Taken(sdk, m[attr := v], attr) == if Rejects(sdk, attr, v) then None else Some(v)
    ensures forall a :: a != attr ==> Taken(sdk, m[attr := v], a) == Taken(sdk, m, a)
    ensures Taken(sdk, m, attr) == None
  {
  }

  lemma OneMoreBad(sdk: Sdk, m: Named, def: Defaults, attr: Attr, v: string)
    requires attr !in m
    ensures BadFields(sdk, m[attr := v], def) ==
            if Rejects(sdk, attr, v) then BadFields(sdk, m, def) + {attr} else BadFields(sdk, m, def) - {attr}
  {
  }

  /** One more attribute, not seen before, is one setter call. */
  lemma OneMore(sdk: Sdk, m: Named, def: Defaults, attr: Attr, v: string)
    requires attr !in m && (attr.Ext? ==> LowerAscii(attr.name) == attr.name)
    requires attr == When ==> sdk.parseTime(v).Some?
    ensures Set(sdk, Assemble(sdk, m, def), attr, v) == Assemble(sdk, m[attr := v], def)
  {
    OneMoreExtension(m, attr, v);
    OneMoreBad(sdk, m, def, attr, v);
    if Rejects(sdk, attr, v) {
      OneMoreRefused(sdk, m, def, attr, v);
    } else if attr.Ext? {
      OneMoreExt(sdk, m, def, attr.name, v);
    } else {
      OneMoreField(sdk, m, def, attr, v);
    }
  }

  /** One more pair with a new attribute: refused for its time, or one setter call. */
  lemma TakeOne(sdk: Sdk, m: Named, def: Defaults, key: string, attr: Attr, v: string)
    requires Lawful(sdk) && !TimeFails(sdk, m) && attr !in m && NameOf(sdk, key) == Some(attr)
    ensures SetAttribute(sdk, Assemble(sdk, m, def), attr, v) ==
            if TimeFails(sdk, m[attr := v]) then None else Some(Assemble(sdk, m[attr := v], def))
  {
    if attr != When || sdk.parseTime(v).Some? {
      LowerCaseName(sdk, key);
      OneMore(sdk, m, def, attr, v);
    }
  }

  /** The loop, in closed form over the attributes by name. */
  lemma {:induction false} FoldedIsAssembled(sdk: Sdk, attrs: Pairs, def: Defaults)
    requires Lawful(sdk)
    ensures Folded(sdk, attrs, def) ==
            if HasDuplicate(sdk, attrs) || TimeFails(sdk, Attributes(sdk, attrs)) then None
            else Some(Assemble(sdk, Attributes(sdk, attrs), def))
    decreases |attrs|
  {
    if attrs == [] {
      InitialAssembles(sdk, def);
    } else {
      var init, key, v := attrs[..|attrs| - 1], attrs[|attrs| - 1].0, attrs[|attrs| - 1].1;
      FoldedIsAssembled(sdk, init, def);
      var m, name := Attributes(sdk, init), NameOf(sdk, key);
      if name.None? || name.value in m || HasDuplicate(sdk, init) || TimeFails(sdk, m) {
      } else {
        TakeOne(sdk, m, def, key, name.value, v);
      }
    }
  }

  // ---------------------------------------------------------------- the order of the pairs

  /** How often each attribute is carried. */
  function Carried(sdk: Sdk, attrs: Pairs): multiset<Attr> {
    if attrs == [] then multiset{}
    else
      var name := NameOf(sdk, attrs[|attrs| - 1].0);
      Carried(sdk, attrs[..|attrs| - 1]) + if name.Some? then multiset{name.value} else multiset{}
  }

  lemma {:induction false} CarriedAppend(sdk: Sdk, a: Pairs, b: Pairs)
    ensures Carried(sdk, a + b) == Carried(sdk, a) + Carried(sdk, b)
    decreases |b|
  {
    if b == [] {
      assert a + b == a;
    } else {
      assert (a + b)[..|a + b| - 1] == a + b[..|b| - 1];
      CarriedAppend(sdk, a, b[..|b| - 1]);
    }
  }

  lemma CarriedWithout(sdk: Sdk, attrs: Pairs, j: nat)
    requires j < |attrs|
    ensures Carried(sdk, attrs) == Carried(sdk, attrs[..j] + attrs[j + 1..]) + Carried(sdk, [attrs[j]])
  {
    var left, right := attrs[..j], attrs[j + 1..];
    assert attrs == left + [attrs[j]] + right;
    CarriedAppend(sdk, left + [attrs[j]], right);
    CarriedAppend(sdk, left, [attrs[j]]);
    CarriedAppend(sdk, left, right);
  }

  lemma BagWithout<T>(s: seq<T>, j: nat)
    requires j < |s|
    ensures multiset(s) == multiset(s[..j] + s[j + 1..]) + multiset{s[j]}
  {
    assert s == s[..j] + [s[j]] + s[j + 1..];
  }

  /** It depends on the pairs alone, not on their order. */
  lemma {:induction false} CarriedUnordered(sdk: Sdk, a: Pairs, b: Pairs)
    requires multiset(a) == multiset(b)
    ensures Carried(sdk, a) == Carried(sdk, b)
    decreases |a|
  {
    if a == [] {
      assert |multiset(b)| == 0;
    } else {
      var i := |a| - 1;
      assert a[i] in multiset(a);
      var j :| 0 <= j < |b| && b[j] == a[i];
      BagWithout(a, i);
      BagWithout(b, j);
      CarriedWithout(sdk, a, i);
      CarriedWithout(sdk, b, j);
      var a', b' := a[..i] + a[i + 1..], b[..j] + b[j + 1..];
      assert multiset(a') == multiset(a) - multiset{a[i]} == multiset(b) - multiset{b[j]} == multiset(b');
      CarriedUnordered(sdk, a', b');
    }
  }

  /** The attributes by name are those carried; one carried twice is a duplicate. */
  lemma {:induction false} CarriedNames(sdk: Sdk, attrs: Pairs)
    ensures forall n :: n in Carried(sdk, attrs) <==> n in Attributes(sdk, attrs)
    ensures HasDuplicate(sdk, attrs) <==> exists n :: Carried(sdk, attrs)[n] >= 2
    decreases |attrs|
  {
    if attrs != [] {
      var init, name := attrs[..|attrs| - 1], NameOf(sdk, attrs[|attrs| - 1].0);
      CarriedNames(sdk, init);
      if name.Some? {
        assert name.value in Attributes(sdk, init) ==> Carried(sdk, attrs)[name.value] >= 2;
      }
      forall n ensures Carried(sdk, attrs)[n] >= 2 <==>
                       Carried(sdk, init)[n] >= 2 || (name == Some(n) && n in Attributes(sdk, init)) {
      }
    }
  }

  /** The value by name is the value of some pair with that name. */
  lemma {:induction false} SomePair(sdk: Sdk, attrs: Pairs, n: Attr) returns (i: nat)
    requires n in Attributes(sdk, attrs)
    ensures i < |attrs| && NameOf(sdk, attrs[i].0) == Some(n) && attrs[i].1 == Attributes(sdk, attrs)[n]
    decreases |attrs|
  {
    var last := |attrs| - 1;
    if NameOf(sdk, attrs[last].0) == Some(n) {
      i := last;
    } else {
      i := SomePair(sdk, attrs[..last], n);
    }
  }

  /** Without duplicates it is the value of every pair with that name. */
  lemma {:induction false} EveryPair(sdk: Sdk, attrs: Pairs, i: nat)
    requires !HasDuplicate(sdk, attrs) && i < |attrs| && NameOf(sdk, attrs[i].0).Some?
    ensures var n := NameOf(sdk, attrs[i].0).value;
            n in Attributes(sdk, attrs) && Attributes(sdk, attrs)[n] == attrs[i].1
    decreases |attrs|
  {
    if i < |attrs| - 1 {
      EveryPair(sdk, attrs[..|attrs| - 1], i);
    }
  }

  lemma AttributesUnordered(sdk: Sdk, a: Pairs, b: Pairs)
    requires multiset(a) == multiset(b) && !HasDuplicate(sdk, a)
    ensures !HasDuplicate(sdk, b) && Attributes(sdk, a) == Attributes(sdk, b)
  {
    CarriedUnordered(sdk, a, b);
    CarriedNames(sdk, a);
    CarriedNames(sdk, b);
    forall n | n in Attributes(sdk, a) ensures Attributes(sdk, a)[n] == Attributes(sdk, b)[n] {
      var i := SomePair(sdk, a, n);
      assert a[i] in multiset(b);
      var j :| 0 <= j < |b| && b[j] == a[i];
      EveryPair(sdk, b, j);
    }
  }

  /** Decoding does not depend on the order in which the transport yields the pairs, errors included. */
  lemma DecodeUnordered(sdk: Sdk, contentType: string, a: Pairs, b: Pairs, data: string, def: Defaults)
    requires multiset(a) == multiset(b) && Version10(sdk, a)
    ensures DecodeSpec(sdk, contentType, a, data, def) == DecodeSpec(sdk, contentType, b, data, def)
  {
    if !HasDuplicate(sdk, a) {
      AttributesUnordered(sdk, a, b);
    } else if !HasDuplicate(sdk, b) {
      AttributesUnordered(sdk, b, a);
    }
  }

  lemma CarriedFirst(sdk: Sdk, attrs: Pairs)
    requires attrs != [] && NameOf(sdk, attrs[0].0).Some?
    ensures NameOf(sdk, attrs[0].0).value in Carried(sdk, attrs)
  {
    assert attrs == attrs[..1] + attrs[1..];
    CarriedAppend(sdk, attrs[..1], attrs[1..]);
    assert Carried(sdk, attrs[..1]) == multiset{NameOf(sdk, attrs[0].0).value};
  }

  // ---------------------------------------------------------------- encoding

  /** The name an attribute has on the wire. */
  function NameText(attr: Attr): string {
    match attr
    case Id => "id"
    case SpecVersion => "specversion"
    case Kind => "type"
    case Source => "source"
    case Subject => "subject"
    case DataSchema => "dataschema"
    case DataContentType => "datacontenttype"
    case When => "time"
    case Ext(name) => name
  }

  function KeyOf(attr: Attr): string {
    PREFIX + NameText(attr)
  }

  /** What binary mode carries of e under the key of attr. */
  function Wanted(sdk: Sdk, e: Event, attr: Attr): Option<string> {
    match attr
    case Id => Some(e.id)
    case SpecVersion => Some("1.0")
    case Kind => Some(e.kind)
    case Source => Some(e.source)
    case Subject => if e.subject != "" then Some(e.subject) else None
    case When => if e.time.Some? then Some(sdk.formatTime(e.time.value)) else None
    case DataSchema => if e.schema != "" then Some(e.schema) else None
    case DataContentType => None
    case Ext(name) => if name in e.ext then sdk.format(e.ext[name]) else None
  }

  /** n carries exactly what it should. */
  ghost predicate Carries(sdk: Sdk, n: Named, e: Event) {
    forall a :: (a in n <==> Wanted(sdk, e, a).Some?) && (a in n ==> Some(n[a]) == Wanted(sdk, e, a))
  }

  predicate Formattable(sdk: Sdk, e: Event) {
    forall k :: k in e.ext ==> sdk.format(e.ext[k]).Some?
  }

  /** Encode: None when an extension's value has no string form. The loop takes the extensions in any order. */
  method Encode(sdk: Sdk, e: Event) returns (r: Option<Named>)
    ensures r.Some? <==> Formattable(sdk, e)
    ensures r.Some? ==> Carries(sdk, r.value, e)
  {
    var attrs := EncodeContext(sdk, e);
    var left := e.ext.Keys;
    ghost var done := e.(ext := map[]);
    while left != {}
      invariant left <= e.ext.Keys && done == e.(ext := e.ext - left)
      invariant Formattable(sdk, done) && Carries(sdk, attrs, done)
      decreases left
    {
      var name :| name in left;
      var v := sdk.format(e.ext[name]);
      if v.None? {
        return None;
      }
      OneMoreCarried(sdk, attrs, done, name, e.ext[name]);
      attrs := attrs[Ext(name) := v.value];
      left := left - {name};
      done := done.(ext := done.ext[name := e.ext[name]]);
      assert done.ext == e.ext - left;
    }
    assert done.ext == e.ext;
    return Some(attrs);
  }

  method EncodeContext(sdk: Sdk, e: Event) returns (attrs: Named)
    ensures Carries(sdk, attrs, e.(ext := map[]))
  {
    attrs := map[Id := e.id, SpecVersion := "1.0", Kind := e.kind, Source := e.source];
    if e.subject != "" {
      attrs := attrs[Subject := e.subject];
    }
    if e.time.Some? {
      attrs := attrs[When := sdk.formatTime(e.time.value)];
    }
    if e.schema != "" {
      attrs := attrs[DataSchema := e.schema];
    }
  }

  lemma OneMoreCarried(sdk: Sdk, attrs: Named, e: Event, name: string, v: Value)
    requires Carries(sdk, attrs, e) && Formattable(sdk, e) && sdk.format(v).Some?
    ensures var e' := e.(ext := e.ext[name := v]);
            Carries(sdk, attrs[Ext(name) := sdk.format(v).value], e') && Formattable(sdk, e')
  {
  }

  /** Every attribute has a key of its own, and the decoder reads it back. */
  lemma KeyRoundTrip(sdk: Sdk, attr: Attr)
    requires Lawful(sdk) && (attr.Ext? ==> IsStoredName(attr.name))
    ensures NameOf(sdk, KeyOf(attr)) == Some(attr)
  {
    hide IsStoredName, LowerAscii, Lawful, NameOf;
    match attr
    case Id => LowerKey(sdk, "id");
    case SpecVersion => LowerKey(sdk, "specversion");
    case Kind => LowerKey(sdk, "type");
    case Source => LowerKey(sdk, "source");
    case Subject => LowerKey(sdk, "subject");
    case DataSchema => LowerKey(sdk, "dataschema");
    case DataContentType => LowerKey(sdk, "datacontenttype");
    case When => LowerKey(sdk, "time");
    case Ext(name) => StoredKey(sdk, name);
  }

  lemma StoredKey(sdk: Sdk, name: string)
    requires Lawful(sdk) && IsStoredName(name)
    ensures NameOf(sdk, PREFIX + name) == Some(Ext(name))
  {
    forall i | 0 <= i < |name| ensures 'a' <= name[i] <= 'z' || '0' <= name[i] <= '9' {
      assert IsAlphanumeric(name[i]) && LowerAscii(name)[i] == LowerChar(name[i]);
    }
    LowerKey(sdk, name);
  }

  lemma LowerKey(sdk: Sdk, text: string)
    requires Lawful(sdk) && forall i :: 0 <= i < |text| ==> 'a' <= text[i] <= 'z' || '0' <= text[i] <= '9'
    ensures NameOf(sdk, PREFIX + text) == Some(AttrOf(text))
  {
    var key := PREFIX + text;
    LowerName(key);
    assert IsAscii(key);
    assert key[|PREFIX|..] == text;
  }

  // ---------------------------------------------------------------- the round trip

  /** The transport Content-Type of e's payload. */
  function ContentType(e: Event): string {
    if e.contentType != "" then e.contentType else APPLICATION_JSON
  }

  /** e with the extensions in string form, the payload type explicit and the payload as bytes. */
  function Canonical(sdk: Sdk, e: Event): Event
    requires Formattable(sdk, e)
  {
    e.(contentType := ContentType(e), ext := map k | k in e.ext :: Text(sdk.format(e.ext[k]).value), base64 := true)
  }

  /** attrs yields the attributes n once each, in some order, among any pairs without the prefix. */
  ghost predicate OnWire(sdk: Sdk, attrs: Pairs, n: Named) {
    && (forall i :: 0 <= i < |attrs| && NameOf(sdk, attrs[i].0).Some? ==>
          exists a :: a in n && attrs[i] == (KeyOf(a), n[a]))
    && (forall a :: a in n ==> (KeyOf(a), n[a]) in attrs)
    && (forall i, j :: 0 <= i < j < |attrs| && NameOf(sdk, attrs[i].0).Some? ==> attrs[i].0 != attrs[j].0)
  }

  ghost predicate StoredAttrs(n: Named) {
    forall a :: a in n && a.Ext? ==> IsStoredName(a.name)
  }

  lemma {:induction false} DistinctNoDuplicate(sdk: Sdk, attrs: Pairs)
    requires forall i, j :: 0 <= i < j < |attrs| && NameOf(sdk, attrs[i].0).Some? ==>
                              NameOf(sdk, attrs[i].0) != NameOf(sdk, attrs[j].0)
    ensures !HasDuplicate(sdk, attrs)
    decreases |attrs|
  {
    if attrs != [] {
      var init, name := attrs[..|attrs| - 1], NameOf(sdk, attrs[|attrs| - 1].0);
      DistinctNoDuplicate(sdk, init);
      if name.Some? && name.value in Attributes(sdk, init) {
        var i := SomePair(sdk, init, name.value);
        assert false;
      }
    }
  }

  /** Whatever the order and the pairs around them, the attributes on the wire are read back. */
  lemma WireReads(sdk: Sdk, attrs: Pairs, n: Named)
    requires Lawful(sdk) && OnWire(sdk, attrs, n) && StoredAttrs(n)
    ensures !HasDuplicate(sdk, attrs) && Attributes(sdk, attrs) == n
  {
    forall i | 0 <= i < |attrs| && NameOf(sdk, attrs[i].0).Some?
      ensures var a := NameOf(sdk, attrs[i].0).value; a in n && attrs[i] == (KeyOf(a), n[a]) {
      WirePair(sdk, attrs, n, i);
    }
    DistinctNoDuplicate(sdk, attrs);
    forall a ensures a in Attributes(sdk, attrs) <==> a in n
             ensures a in n ==> a in Attributes(sdk, attrs) && Attributes(sdk, attrs)[a] == n[a] {
      if a in Attributes(sdk, attrs) {
        var i := SomePair(sdk, attrs, a);
      }
      if a in n {
        KeyRoundTrip(sdk, a);
        var i :| 0 <= i < |attrs| && attrs[i] == (KeyOf(a), n[a]);
        EveryPair(sdk, attrs, i);
      }
    }
  }

  lemma WirePair(sdk: Sdk, attrs: Pairs, n: Named, i: nat)
    requires Lawful(sdk) && OnWire(sdk, attrs, n) && StoredAttrs(n)
    requires i < |attrs| && NameOf(sdk, attrs[i].0).Some?
    ensures var a := NameOf(sdk, attrs[i].0).value; a in n && attrs[i] == (KeyOf(a), n[a])
  {
    var a :| a in n && attrs[i] == (KeyOf(a), n[a]);
    KeyRoundTrip(sdk, a);
  }

  lemma CarriesStored(sdk: Sdk, n: Named, e: Event)
    requires Carries(sdk, n, e) && StoredNames(e.ext)
    ensures StoredAttrs(n)
  {
  }

  /** Nothing encoding emits is refused by the decoder. */
  lemma CarriedAccepted(sdk: Sdk, n: Named, e: Event, def: Defaults)
    requires Lawful(sdk) && WellFormed(sdk, e) && Carries(sdk, n, e)
    ensures !TimeFails(sdk, n) && BadFields(sdk, n, def) == {}
  {
    forall a | a in n ensures !Rejects(sdk, a, n[a]) {
      if a.Ext? {
        assert IsStoredName(a.name);
      }
    }
    assert Id in n && Source in n;
  }

  lemma CarriedTaken(sdk: Sdk, n: Named, e: Event)
    requires Lawful(sdk) && WellFormed(sdk, e) && Carries(sdk, n, e)
    ensures forall a :: Taken(sdk, n, a) == Wanted(sdk, e, a)
  {
    CarriedAccepted(sdk, n, e, Defaults("", "", ""));
    forall a ensures Taken(sdk, n, a) == Wanted(sdk, e, a) {
      assert a in n && Rejects(sdk, a, n[a]) ==> a in BadFields(sdk, n, Defaults("", "", ""));
    }
  }

  lemma ExtensionsFrom(n: Named, want: map<string, Value>)
    requires forall a :: a in n && a.Ext? ==> a.name in want
    requires forall k :: k in want ==> IsExtensionName(k) && Ext(k) in n && want[k] == Text(n[Ext(k)])
    ensures ExtensionsOf(n) == want
  {
    assert forall a :: a in n && a.Ext? ==> a == Ext(a.name);
  }

  lemma CarriedExtensions(sdk: Sdk, n: Named, e: Event)
    requires Lawful(sdk) && WellFormed(sdk, e) && Carries(sdk, n, e)
    ensures ExtensionsOf(n) == Canonical(sdk, e).ext
  {
    var want := Canonical(sdk, e).ext;
    forall k | k in want ensures IsExtensionName(k) && Ext(k) in n && want[k] == Text(n[Ext(k)]) {
      assert IsStoredName(k) && Wanted(sdk, e, Ext(k)) == sdk.format(e.ext[k]);
    }
    ExtensionsFrom(n, want);
  }

  lemma CarriedRestored(sdk: Sdk, n: Named, e: Event, def: Defaults)
    requires Lawful(sdk) && WellFormed(sdk, e) && Carries(sdk, n, e)
    ensures EventOf(sdk, n, def) == Canonical(sdk, e).(contentType := "", data := "", base64 := false)
  {
    CarriedExtensions(sdk, n, e);
    CarriedTaken(sdk, n, e);
    hide Taken, ExtensionsOf, StoredNames, IsStoredName, Carries;
  }

  /** The binary round trip: every order of the pairs, any unprefixed pairs beside them, any defaults. */
  lemma RoundTrip(sdk: Sdk, e: Event, n: Named, attrs: Pairs, def: Defaults)
    requires Lawful(sdk) && WellFormed(sdk, e) && ContentType(e) != STRUCTURED_JSON
    requires Carries(sdk, n, e) && OnWire(sdk, attrs, n)
    ensures DecodeSpec(sdk, ContentType(e), attrs, e.data, def) == Decoded(Canonical(sdk, e))
  {
    CarriesStored(sdk, n, e);
    WireReads(sdk, attrs, n);
    CarriedAccepted(sdk, n, e, def);
    CarriedRestored(sdk, n, e, def);
    hide EventOf, BadFields, TimeFails, OnWire, StoredNames, Carries;
  }

  /** What the round trip yields is well-formed and its own canonical form: a second round trip is the identity. */
  lemma CanonicalIsFinal(sdk: Sdk, e: Event)
    requires Lawful(sdk) && WellFormed(sdk, e)
    ensures var c := Canonical(sdk, e);
            WellFormed(sdk, c) && Formattable(sdk, c) && Canonical(sdk, c) == c && ContentType(c) == ContentType(e)
  {
    var c := Canonical(sdk, e);
    assert forall k :: k in c.ext ==> sdk.format(c.ext[k]) == sdk.format(e.ext[k]);
    assert Canonical(sdk, c).ext == c.ext;
  }

  // ---------------------------------------------------------------- structured mode and rescue

  /** The same payload; JSON written inline may lose insignificant whitespace. */
  predicate SameData(sdk: Sdk, a: string, b: string) {
    a == b || (sdk.validJson(a) && sdk.validJson(b) && sdk.normalJson(a) == sdk.normalJson(b))
  }

  /** e2 is e again: the same event up to extension formatting and inline JSON, and string extensions unchanged. */
  ghost predicate Restores(sdk: Sdk, e2: Event, e: Event) {
    && Formattable(sdk, e) && Formattable(sdk, e2) && SameData(sdk, e2.data, e.data)
    && Canonical(sdk, e2.(data := e.data)) == Canonical(sdk, e)
    && forall k :: k in e.ext && e.ext[k].Text? ==> k in e2.ext && e2.ext[k] == e.ext[k]
  }

  lemma CanonicalRestores(sdk: Sdk, e: Event)
    requires Lawful(sdk) && WellFormed(sdk, e)
    ensures Restores(sdk, Canonical(sdk, e), e)
  {
    CanonicalIsFinal(sdk, e);
  }

  /** The structured codec inverts itself on well-formed events; base64 data, and only that, goes to data_base64. */
  ghost predicate StructuredInverse(sdk: Sdk) {
    forall e :: WellFormed(sdk, e) && sdk.marshal(e).Some? ==>
                  var back := sdk.unmarshal(sdk.marshal(e).value);
                  && back.Some? && Restores(sdk, back.value, e) && ContextValid(sdk, back.value)
                  && (e.base64 ==> back.value.data == e.data)
                  && (sdk.dataInline(sdk.marshal(e).value) <==> !e.base64)
  }

  /** isJSONMediaType: the types the SDK itself writes inline; a +json suffix is not enough. */
  predicate IsJsonMediaType(mt: string) {
    mt == "" || mt == APPLICATION_JSON || mt == "text/json"
  }

  /** EncodeStructured writes the data inline: it is valid JSON of a JSON media type. */
  predicate WrittenInline(sdk: Sdk, e: Event) {
    IsJsonMediaType(sdk.dataMediaType(e.contentType)) && sdk.validJson(e.data)
  }

  /** EncodeStructured: valid JSON data goes inline, anything else stays base64. */
  function EncodeStructured(sdk: Sdk, e: Event): Option<string> {
    sdk.marshal(if e.base64 && WrittenInline(sdk, e) then e.(base64 := false) else e)
  }

  /** Structured mode restores the event, and shows its payload inline exactly when it is, or was set as, valid JSON. */
  lemma StructuredRoundTrip(sdk: Sdk, e: Event)
    requires StructuredInverse(sdk) && WellFormed(sdk, e) && EncodeStructured(sdk, e).Some?
    ensures var r := DecodeStructured(sdk, EncodeStructured(sdk, e).value);
            && r.Decoded? && Restores(sdk, r.ev, e)
            && (e.base64 && !WrittenInline(sdk, e) ==> r.ev.data == e.data)
    ensures var mt := sdk.dataMediaType(e.contentType);
            sdk.dataInline(EncodeStructured(sdk, e).value) <==>
            !e.base64 || (mt in {"", "application/json", "text/json"} && sdk.validJson(e.data))
  {
    var flipped := e.(base64 := false);
    assert WellFormed(sdk, flipped) && Canonical(sdk, flipped) == Canonical(sdk, e);
  }

  /** Rescue: the event handed to the router when decoding failed. */
  function Rescue(sdk: Sdk, def: Defaults, contentType: string, data: string): Event {
    SetData(sdk, Initial(sdk, def), if contentType == "" then APPLICATION_JSON else contentType, data).ev
  }

  /**
   With acceptable defaults for type and source, the rescue event passes Validate exactly when
   an id is set and the transport's Content-Type parses as a media type.
   */
  lemma RescueValidates(sdk: Sdk, def: Defaults, contentType: string, data: string)
    requires Lawful(sdk) && sdk.trim(def.kind) != ""
    requires sdk.parseUri(def.source).Some? && sdk.parseUri(def.source).value != ""
    ensures ContextValid(sdk, Rescue(sdk, def, contentType, data)) <==>
            sdk.trim(def.id) != "" && (sdk.trim(contentType) == "" || sdk.mediaType(sdk.trim(contentType)))
    ensures Rescue(sdk, def, contentType, data).data == data && Rescue(sdk, def, contentType, data).ext == map[]
  {
  }

  /** An id is not enough: a Content-Type that is no media type goes into the rescue event as it is. */
  lemma RescueFails(sdk: Sdk, data: string)
    requires Lawful(sdk) && sdk.trim(";") == ";" && !sdk.mediaType(";")
    ensures !ContextValid(sdk, Rescue(sdk, Defaults("id", "kind", "source"), ";", data))
  {
  }
}
