/**
 What decoding accepts and what it makes of each attribute, pair by pair:
 pkg/transport/internal/envelope/envelope.go, Decode, setAttribute and Rescue.
 */
module Decoding {
  import opened Options
  import opened CloudEvents
  import opened Envelope

  /** In either mode only valid events are decoded. */
  lemma DecodedIsValid(sdk: Sdk, contentType: string, attrs: Pairs, data: string, def: Defaults)
    ensures var r := DecodeSpec(sdk, contentType, attrs, data, def);
            r.Decoded? ==> ContextValid(sdk, r.ev)
  {
    hide HasDuplicate, Attributes, Assemble, TimeFails;
  }

  /** In structured mode the body is decoded exactly when it parses to a valid event, whatever the attributes say. */
  lemma StructuredExactly(sdk: Sdk, attrs: Pairs, data: string, def: Defaults, e: Event)
    ensures DecodeSpec(sdk, STRUCTURED_JSON, attrs, data, def) == Decoded(e) <==>
            sdk.unmarshal(data) == Some(e) && ContextValid(sdk, e)
  {
  }

  // ---------------------------------------------------------------- binary mode

  /** The pair is one that binary mode cannot take. */
  predicate Refused(sdk: Sdk, a: Attr, v: string) {
    match a
    case Id => sdk.trim(v) == ""
    case SpecVersion => v != "1.0"
    case Source => sdk.parseUri(v) == None
    case DataSchema => sdk.trim(v) != "" && sdk.parseUri(sdk.trim(v)) == None
    case When => sdk.parseTime(v) == None
    case Ext(name) => !IsExtensionName(name)
    case _ => false
  }

  /** e holds the value v of attribute a. */
  predicate Holds(sdk: Sdk, e: Event, a: Attr, v: string) {
    match a
    case Id => e.id == sdk.trim(v)
    case Kind => e.kind == sdk.trim(v)
    case Subject => e.subject == sdk.trim(v)
    case Source => Some(e.source) == sdk.parseUri(v)
    case DataSchema => if sdk.trim(v) == "" then e.schema == "" else Some(e.schema) == sdk.parseUri(sdk.trim(v))
    case When => if sdk.parseTime(v) == Some(sdk.zeroTime) then e.time == None else e.time == sdk.parseTime(v)
    case Ext(name) => name in e.ext && e.ext[name] == Text(v)
    case SpecVersion => true
    case DataContentType => true
  }

  /** e has what is left of attribute a when no pair carries it: the transport's default or nothing. */
  predicate Lacks(sdk: Sdk, e: Event, a: Attr, def: Defaults) {
    match a
    case Id => e.id == sdk.trim(def.id)
    case Kind => e.kind == sdk.trim(def.kind)
    case Source => Some(e.source) == sdk.parseUri(def.source)
    case Subject => e.subject == ""
    case DataSchema => e.schema == ""
    case When => e.time == None
    case Ext(name) => name !in e.ext
    case SpecVersion => true
    case DataContentType => true
  }

  ghost predicate Carries(sdk: Sdk, attrs: Pairs, a: Attr) {
    exists i :: 0 <= i < |attrs| && NameOf(sdk, attrs[i].0) == Some(a)
  }

  lemma CarriesAttribute(sdk: Sdk, attrs: Pairs, a: Attr)
    ensures a in Attributes(sdk, attrs) <==> Carries(sdk, attrs, a)
  {
    CarriedNames(sdk, attrs);
    if a in Attributes(sdk, attrs) {
      var i := SomePair(sdk, attrs, a);
    }
    if Carries(sdk, attrs, a) {
      var i :| 0 <= i < |attrs| && NameOf(sdk, attrs[i].0) == Some(a);
      PairCarried(sdk, attrs, i);
    }
  }

  lemma PairCarried(sdk: Sdk, attrs: Pairs, i: nat)
    requires i < |attrs| && NameOf(sdk, attrs[i].0).Some?
    ensures NameOf(sdk, attrs[i].0).value in Carried(sdk, attrs)
  {
    assert attrs == attrs[..i] + attrs[i..];
    CarriedAppend(sdk, attrs[..i], attrs[i..]);
    CarriedFirst(sdk, attrs[i..]);
  }

  /** Two pairs for one attribute always fail. */
  lemma SameNameFails(sdk: Sdk, contentType: string, attrs: Pairs, data: string, def: Defaults, i: nat, j: nat)
    requires i < j < |attrs| && NameOf(sdk, attrs[i].0) == NameOf(sdk, attrs[j].0) != None
    requires contentType != STRUCTURED_JSON
    ensures DecodeSpec(sdk, contentType, attrs, data, def) == ErrDecode
  {
    var n := NameOf(sdk, attrs[i].0).value;
    var x, y, z := attrs[..i], attrs[i..j], attrs[j..];
    assert attrs == x + y + z;
    CarriedAppend(sdk, x + y, z);
    CarriedAppend(sdk, x, y);
    CarriedFirst(sdk, y);
    CarriedFirst(sdk, z);
    assert Carried(sdk, attrs)[n] >= 2;
    CarriedNames(sdk, attrs);
  }

  /** Two keys with the prefix that are equal up to letter case name one attribute, and always fail. */
  lemma CaseVariantsFail(sdk: Sdk, contentType: string, attrs: Pairs, data: string, def: Defaults, i: nat, j: nat)
    requires i < j < |attrs| && sdk.lower(attrs[i].0) == sdk.lower(attrs[j].0) && PREFIX <= sdk.lower(attrs[i].0)
    requires contentType != STRUCTURED_JSON
    ensures DecodeSpec(sdk, contentType, attrs, data, def) == ErrDecode
  {
    SameNameFails(sdk, contentType, attrs, data, def, i, j);
  }

  /** What a decoded event has of a pair: its value, which was not refused. */
  lemma PairDecoded(sdk: Sdk, contentType: string, attrs: Pairs, data: string, def: Defaults, i: nat)
    requires Lawful(sdk)
    requires contentType != STRUCTURED_JSON && DecodeSpec(sdk, contentType, attrs, data, def).Decoded?
    requires i < |attrs| && NameOf(sdk, attrs[i].0).Some?
    ensures var (a, v) := (NameOf(sdk, attrs[i].0).value, attrs[i].1);
            !Refused(sdk, a, v) && Holds(sdk, DecodeSpec(sdk, contentType, attrs, data, def).ev, a, v)
  {
    EveryPair(sdk, attrs, i);
    AttributeBuilt(sdk, contentType, Attributes(sdk, attrs), data, def, NameOf(sdk, attrs[i].0).value);
    hide NameOf, Attributes, HasDuplicate, Build;
  }

  lemma AttributeBuilt(sdk: Sdk, contentType: string, m: Named, data: string, def: Defaults, a: Attr)
    requires Lawful(sdk) && Build(sdk, contentType, m, data, def).Decoded?
    ensures var e := Build(sdk, contentType, m, data, def).ev;
            if a in m then !Refused(sdk, a, m[a]) && Holds(sdk, e, a, m[a]) else Lacks(sdk, e, a, def)
  {
    assert a in m && Rejects(sdk, a, m[a]) ==> a in BadFields(sdk, m, def);
    assert Source !in m && Rejects(sdk, Source, def.source) ==> Source in BadFields(sdk, m, def);
    var e := Build(sdk, contentType, m, data, def).ev;
    assert e.ext == ExtensionsOf(m);
    if a.Ext? {
      ExtensionBuilt(m, a);
    }
    hide ExtensionsOf, IsExtensionName;
  }

  lemma ExtensionBuilt(m: Named, a: Attr)
    requires a.Ext?
    ensures a.name in ExtensionsOf(m) <==> a in m && IsExtensionName(a.name)
    ensures a.name in ExtensionsOf(m) ==> ExtensionsOf(m)[a.name] == Text(m[a])
  {
    assert forall b :: b in m && b.Ext? && b.name == a.name ==> b == a;
    hide IsExtensionName;
  }

  /** What a decoded event has of an attribute no pair carries. */
  lemma AbsentDecoded(sdk: Sdk, contentType: string, attrs: Pairs, data: string, def: Defaults, a: Attr)
    requires Lawful(sdk)
    requires contentType != STRUCTURED_JSON && DecodeSpec(sdk, contentType, attrs, data, def).Decoded?
    requires !Carries(sdk, attrs, a)
    ensures Lacks(sdk, DecodeSpec(sdk, contentType, attrs, data, def).ev, a, def)
  {
    CarriesAttribute(sdk, attrs, a);
    AttributeBuilt(sdk, contentType, Attributes(sdk, attrs), data, def, a);
    hide NameOf, Attributes, HasDuplicate, Build;
  }

  /** The payload is kept as it is, under the transport's content type, or as JSON without one. */
  lemma PayloadDecoded(sdk: Sdk, contentType: string, attrs: Pairs, data: string, def: Defaults)
    requires contentType != STRUCTURED_JSON && DecodeSpec(sdk, contentType, attrs, data, def).Decoded?
    ensures var e := DecodeSpec(sdk, contentType, attrs, data, def).ev;
            && e.data == data && e.base64
            && e.contentType == sdk.trim(if contentType == "" then APPLICATION_JSON else contentType)
  {
    hide HasDuplicate, Attributes, Assemble;
  }

  /** One refused pair is enough to fail, wherever it is. */
  lemma RefusedPairFails(sdk: Sdk, contentType: string, attrs: Pairs, data: string, def: Defaults, i: nat)
    requires Lawful(sdk) && contentType != STRUCTURED_JSON && i < |attrs| && NameOf(sdk, attrs[i].0).Some?
    requires Refused(sdk, NameOf(sdk, attrs[i].0).value, attrs[i].1)
    ensures DecodeSpec(sdk, contentType, attrs, data, def) == ErrDecode
  {
    if DecodeSpec(sdk, contentType, attrs, data, def).Decoded? {
      PairDecoded(sdk, contentType, attrs, data, def, i);
    }
    hide DecodeSpec;
  }

  /**
   Binary mode fails for no other reason: with every attribute carried once and taken, and defaults
   where they are needed, it fails only when the event is not valid.
   */
  lemma DecodesOtherwise(sdk: Sdk, contentType: string, attrs: Pairs, data: string, def: Defaults)
    requires contentType != STRUCTURED_JSON && DecodeSpec(sdk, contentType, attrs, data, def) == ErrDecode
    requires sdk.trim(def.id) != "" && sdk.parseUri(def.source).Some?
    ensures || (exists i, j :: 0 <= i < j < |attrs| && NameOf(sdk, attrs[i].0) == NameOf(sdk, attrs[j].0) != None)
            || (exists i :: 0 <= i < |attrs| && NameOf(sdk, attrs[i].0).Some?
                            && Refused(sdk, NameOf(sdk, attrs[i].0).value, attrs[i].1))
            || !ContextValid(sdk, Built(sdk, contentType, attrs, data, def))
  {
    if HasDuplicate(sdk, attrs) {
      var i, j := Duplicates(sdk, attrs);
    } else {
      var m := Attributes(sdk, attrs);
      if a :| a in m && (Rejects(sdk, a, m[a]) || (a == When && TimeFails(sdk, m))) {
        var i := SomePair(sdk, attrs, a);
        assert Refused(sdk, NameOf(sdk, attrs[i].0).value, attrs[i].1);
      } else {
        assert BadFields(sdk, m, def) == {};
      }
    }
  }

  /** The event binary mode puts together. */
  function Built(sdk: Sdk, contentType: string, attrs: Pairs, data: string, def: Defaults): Event {
    var payload := if contentType == "" then APPLICATION_JSON else contentType;
    SetData(sdk, Assemble(sdk, Attributes(sdk, attrs), def), payload, data).ev
  }

  lemma {:induction false} Duplicates(sdk: Sdk, attrs: Pairs) returns (i: nat, j: nat)
    requires HasDuplicate(sdk, attrs)
    ensures i < j < |attrs| && NameOf(sdk, attrs[i].0) == NameOf(sdk, attrs[j].0) != None
    decreases |attrs|
  {
    j := |attrs| - 1;
    if HasDuplicate(sdk, attrs[..j]) {
      i, j := Duplicates(sdk, attrs[..j]);
    } else {
      i := SomePair(sdk, attrs[..j], NameOf(sdk, attrs[j].0).value);
    }
  }

  /** No pair carries an attribute. */
  predicate Bare(sdk: Sdk, attrs: Pairs) {
    forall i :: 0 <= i < |attrs| ==> NameOf(sdk, attrs[i].0) == None
  }

  /** Without attributes the event is the one Rescue builds, and is accepted exactly when that validates. */
  lemma BareIsRescue(sdk: Sdk, contentType: string, attrs: Pairs, data: string, def: Defaults)
    requires Lawful(sdk) && contentType != STRUCTURED_JSON
    requires Bare(sdk, attrs)
    requires sdk.trim(def.id) != "" && sdk.parseUri(def.source).Some?
    ensures var rescue := Rescue(sdk, def, contentType, data);
            DecodeSpec(sdk, contentType, attrs, data, def) ==
            if ContextValid(sdk, rescue) then Decoded(rescue) else ErrDecode
  {
    NoAttributes(sdk, attrs);
    InitialAssembles(sdk, def);
    hide NameOf, EventOf;
  }

  /** What such an event holds. */
  lemma BareDecoded(sdk: Sdk, contentType: string, attrs: Pairs, data: string, def: Defaults)
    requires Lawful(sdk) && contentType != STRUCTURED_JSON
    requires Bare(sdk, attrs)
    requires sdk.trim(def.id) != "" && sdk.parseUri(def.source).Some?
    ensures var r := DecodeSpec(sdk, contentType, attrs, data, def);
            r.Decoded? ==>
              && r.ev.id == sdk.trim(def.id) && r.ev.kind == sdk.trim(def.kind)
              && Some(r.ev.source) == sdk.parseUri(def.source) && r.ev.data == data && r.ev.ext == map[]
  {
    BareIsRescue(sdk, contentType, attrs, data, def);
    hide DecodeSpec, NameOf;
  }

  lemma {:induction false} NoAttributes(sdk: Sdk, attrs: Pairs)
    requires Bare(sdk, attrs)
    ensures Attributes(sdk, attrs) == map[] && !HasDuplicate(sdk, attrs)
    decreases |attrs|
  {
    if attrs != [] {
      NoAttributes(sdk, attrs[..|attrs| - 1]);
    }
  }
}
