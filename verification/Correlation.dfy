/**
 Correlation and causation: pkg/event/correlation.go, the extensions handle and publishResult
 compute in pkg/eventmux/mux.go, and the dead-letter copy of pkg/eventmux/failure.go.
 */
module Correlation {
  import opened Options
  import opened CloudEvents
  import Utf8

  // ---------------------------------------------------------------- ValidateCorrelationID

  const MAX_CORRELATION_ID_LEN := 128
  const MAX_DEAD_LETTER_ERROR_LEN := 256

  datatype Validity = Valid | Empty | TooLong | BadByte(offset: nat)

  predicate IsVisible(c: char) {
    0x21 <= c as int <= 0x7E
  }

  predicate IsCorrelationId(s: string) {
    1 <= |s| <= MAX_CORRELATION_ID_LEN && forall i :: 0 <= i < |s| ==> IsVisible(s[i])
  }

  /** The offset of the first byte outside 0x21..0x7E at or after i. */
  function FirstBad(s: string, i: nat): (r: Option<nat>)
    requires i <= |s|
    ensures r.Some? ==> i <= r.value < |s| && !IsVisible(s[r.value]) && forall k :: i <= k < r.value ==> IsVisible(s[k])
    ensures r.None? ==> forall k :: i <= k < |s| ==> IsVisible(s[k])
    decreases |s| - i
  {
    if i == |s| then None else if !IsVisible(s[i]) then Some(i) else FirstBad(s, i + 1)
  }

  function Validate(s: string): (r: Validity)
    ensures r == Valid <==> IsCorrelationId(s)
    ensures r == Valid <==> 1 <= |s| <= 128 && forall i :: 0 <= i < |s| ==> 0x21 <= s[i] as int <= 0x7E
    ensures r == TooLong <==> |s| > 128
    ensures r.BadByte? ==>
              r.offset < |s| && !IsVisible(s[r.offset]) && forall k :: 0 <= k < r.offset ==> IsVisible(s[k])
  {
    if s == "" then Empty
    else if |s| > MAX_CORRELATION_ID_LEN then TooLong
    else
      match FirstBad(s, 0)
      case Some(i) => BadByte(i)
      case None => Valid
  }

  // ---------------------------------------------------------------- what handle and publishResult set

  const RESERVED: set<string> := {EXT_CORRELATION_ID, EXT_CAUSATION_ID, EXT_DEAD_LETTER_REASON, EXT_DEAD_LETTER_ERROR}

  /** Incoming extensions a result event never inherits. */
  const DROPPED: set<string> := {EXT_CAUSATION_ID, EXT_DEAD_LETTER_REASON, EXT_DEAD_LETTER_ERROR}

  /** Handler metadata in the order a map iteration yields it. */
  type Metadata = seq<(string, string)>

  /** handle: the first event of a chain identifies the chain. */
  function Stamped(e: Event): Event {
    if CorrelationId(e) == "" && e.id != "" then e.(ext := SetExtension(e.ext, EXT_CORRELATION_ID, Text(e.id))) else e
  }

  /** The stamp adds a correlation id where there is none and an id to give, changes nothing else, and is given once. */
  lemma StampedExactly(e: Event)
    ensures var t := Stamped(e);
            && t == e.(ext := t.ext) && Stamped(t) == t
            && CorrelationId(t) == (if CorrelationId(e) == "" then e.id else CorrelationId(e))
            && (forall k :: k != EXT_CORRELATION_ID ==>
                  (k in t.ext <==> k in e.ext) && (k in t.ext ==> t.ext[k] == e.ext[k]))
            && (CorrelationId(e) != "" || e.id == "" ==> t == e)
  {
    CorrelationName();
    hide IsStoredName, IsExtensionName;
  }

  /** The keys left in the metadata once the reserved ones are deleted. */
  function UnreservedKeys(meta: Metadata): set<string> {
    set i | 0 <= i < |meta| && meta[i].0 !in RESERVED :: meta[i].0
  }

  /** The first loop: SetExtension for every pair left, in order. */
  function FromMetadata(meta: Metadata): map<string, Value> {
    if meta == [] then map[]
    else
      var (k, v) := meta[|meta| - 1];
      var before := FromMetadata(meta[..|meta| - 1]);
      if k in RESERVED then before else SetExtension(before, k, Text(v))
  }

  /** The second loop: the incoming extensions the metadata has no exact key for. */
  function Inherited(e: Event, keys: set<string>): map<string, Value> {
    map k | k in e.ext && k !in keys && k !in DROPPED :: e.ext[k]
  }

  /** The extensions of the result event of e. */
  function ResultExtensions(e: Event, meta: Metadata): map<string, Value> {
    var both := FromMetadata(meta) + Inherited(e, UnreservedKeys(meta));
    if e.id != "" then SetExtension(both, EXT_CAUSATION_ID, Text(e.id)) else both
  }

  /** What the result event takes from outside: metadata, a fresh id, the clock and the handler's data. */
  datatype Hop = Hop(meta: Metadata, id: string, now: Time, data: string)

  /** publishResult's event. */
  function ResultEvent(sdk: Sdk, e: Event, hop: Hop): Event {
    Event(sdk.trim(hop.id),
          match sdk.parseUri(e.source) { case Some(uri) => uri case None => "" },
          sdk.trim(e.kind + ".result"), "", "", APPLICATION_JSON,
          if hop.now == sdk.zeroTime then None else Some(hop.now),
          ResultExtensions(e, hop.meta), hop.data, false)
  }

  /** deadLetterEvent: the event itself, with the reason and the truncated error. */
  function DeadLetterEvent(e: Event, reason: string, error: string): Event {
    var ext := SetExtension(e.ext, EXT_DEAD_LETTER_REASON, Text(reason));
    var text := Utf8.Truncated(Utf8.Sanitize(error), MAX_DEAD_LETTER_ERROR_LEN);
    e.(ext := SetExtension(ext, EXT_DEAD_LETTER_ERROR, Text(text)))
  }

  /** The copy's error is clean text of at most 256 bytes, and all of the cause's clean text up to a rune boundary. */
  lemma DeadLetterError(e: Event, reason: string, error: string)
    ensures var (c, clean) := (DeadLetterEvent(e, reason, error), Utf8.Sanitize(error));
            && EXT_DEAD_LETTER_ERROR in c.ext && c.ext[EXT_DEAD_LETTER_ERROR].Text?
            && var t := c.ext[EXT_DEAD_LETTER_ERROR].text;
               && Utf8.IsValid(t) && (forall i :: 0 <= i < |t| ==> Utf8.Printable(t[i]))
               && t <= clean && |t| <= 256 && (t == clean || |t| >= 253)
  {
    ReasonName();
    ErrorName();
    Utf8.DeadLetterText(error, 256);
    hide IsExtensionName, LowerAscii, Utf8.Sanitize, Utf8.Truncated, Utf8.IsValid;
  }

  /** publishResult's two loops, the second in any order. */
  method BuildExtensions(e: Event, meta: Metadata) returns (ext: map<string, Value>)
    requires StoredNames(e.ext)
    ensures ext == ResultExtensions(e, meta)
  {
    ext := map[];
    var keys: set<string> := {};
    for i := 0 to |meta|
      invariant keys == UnreservedKeys(meta[..i])
      invariant ext == FromMetadata(meta[..i])
    {
      assert meta[..i + 1][..i] == meta[..i];
      OneMoreKey(meta, i);
      var (k, v) := meta[i];
      if k !in RESERVED {
        keys := keys + {k};
        ext := SetExtension(ext, k, Text(v));
      }
    }
    assert meta[..|meta|] == meta;
    ghost var before := ext;
    var left := e.ext.Keys;
    while left != {}
      invariant left <= e.ext.Keys
      invariant ext == before + Inherited(e.(ext := e.ext - left), keys)
      decreases left
    {
      var k :| k in left;
      InheritOne(e, keys, before, left, k);
      if k !in keys && k != EXT_CAUSATION_ID && k != EXT_DEAD_LETTER_REASON && k != EXT_DEAD_LETTER_ERROR {
        ext := SetExtension(ext, k, e.ext[k]);
      }
      left := left - {k};
    }
    assert e.(ext := e.ext - {}) == e;
    if e.id != "" {
      ext := SetExtension(ext, EXT_CAUSATION_ID, Text(e.id));
    }
  }

  lemma OneMoreKey(meta: Metadata, i: nat)
    requires i < |meta|
    ensures UnreservedKeys(meta[..i + 1]) ==
            UnreservedKeys(meta[..i]) + if meta[i].0 in RESERVED then {} else {meta[i].0}
  {
    var was, now := meta[..i], meta[..i + 1];
    forall k ensures k in UnreservedKeys(now) <==> k in UnreservedKeys(was) || (k == meta[i].0 && k !in RESERVED) {
      if k in UnreservedKeys(was) {
        var j :| 0 <= j < i && was[j].0 == k && k !in RESERVED;
        assert now[j].0 == k;
      }
      if k == meta[i].0 && k !in RESERVED {
        assert now[i].0 == k;
      }
    }
  }

  lemma InheritOne(e: Event, keys: set<string>, before: map<string, Value>, left: set<string>, k: string)
    requires StoredNames(e.ext) && left <= e.ext.Keys && k in left
    ensures var was := before + Inherited(e.(ext := e.ext - left), keys);
            before + Inherited(e.(ext := e.ext - (left - {k})), keys) ==
            if k !in keys && k !in DROPPED then SetExtension(was, k, e.ext[k]) else was
  {
    assert IsStoredName(k);
    assert e.ext - (left - {k}) == (e.ext - left)[k := e.ext[k]];
    hide IsStoredName, StoredNames;
  }

  // ---------------------------------------------------------------- what the result carries

  /** A metadata key that sets the extension named k: letter case does not matter to the SDK. */
  predicate Sets(key: string, k: string) {
    key !in RESERVED && IsExtensionName(key) && LowerAscii(key) == k
  }

  ghost predicate SetByMetadata(meta: Metadata, k: string) {
    exists i :: 0 <= i < |meta| && Sets(meta[i].0, k)
  }

  lemma {:induction false} MetadataKeys(meta: Metadata, k: string)
    ensures k in FromMetadata(meta) <==> SetByMetadata(meta, k)
    decreases |meta|
  {
    if meta != [] {
      var init := meta[..|meta| - 1];
      MetadataKeys(init, k);
      if SetByMetadata(init, k) {
        var i :| 0 <= i < |init| && Sets(init[i].0, k);
        assert Sets(meta[i].0, k);
      }
      if SetByMetadata(meta, k) && !Sets(meta[|meta| - 1].0, k) {
        var i :| 0 <= i < |meta| && Sets(meta[i].0, k);
        assert Sets(init[i].0, k);
      }
    }
  }

  /** The parent's id and the chain's id, where the event has them, hold against metadata in any letter case. */
  lemma ReservedHold(e: Event, meta: Metadata)
    ensures var r := ResultExtensions(e, meta);
            && (e.id != "" ==> EXT_CAUSATION_ID in r && r[EXT_CAUSATION_ID] == Text(e.id))
            && (EXT_CORRELATION_ID in e.ext ==>
                  EXT_CORRELATION_ID in r && r[EXT_CORRELATION_ID] == e.ext[EXT_CORRELATION_ID])
  {
    OwnNames();
    assert EXT_CORRELATION_ID !in DROPPED && EXT_CORRELATION_ID !in UnreservedKeys(meta);
    assert EXT_CORRELATION_ID != EXT_CAUSATION_ID;
    hide IsStoredName, IsExtensionName;
  }

  /** Exactly when a result has them: an event without an id, or without a chain, leaves the name to the metadata. */
  lemma ReservedExactly(e: Event, meta: Metadata)
    ensures var r := ResultExtensions(e, meta);
            && (EXT_CAUSATION_ID in r <==> e.id != "" || SetByMetadata(meta, EXT_CAUSATION_ID))
            && (EXT_CORRELATION_ID in r <==> EXT_CORRELATION_ID in e.ext || SetByMetadata(meta, EXT_CORRELATION_ID))
  {
    MetadataKeys(meta, EXT_CAUSATION_ID);
    MetadataKeys(meta, EXT_CORRELATION_ID);
    CausationName();
    NamesDiffer();
    hide IsStoredName, IsExtensionName, SetByMetadata;
  }

  /** Without an id a case variant forges the parent. */
  lemma CausationForged(e: Event)
    requires e.id == ""
    ensures var r := ResultExtensions(e, [("CausationID", "forged")]);
            EXT_CAUSATION_ID in r && r[EXT_CAUSATION_ID] == Text("forged")
  {
    var key := "CausationID";
    assert LowerAscii(key) == EXT_CAUSATION_ID;
    assert key[0] == 'C' && EXT_CORRELATION_ID[0] == 'c' && EXT_CAUSATION_ID[0] == 'c';
    assert EXT_DEAD_LETTER_REASON[0] == 'd' && EXT_DEAD_LETTER_ERROR[0] == 'd';
    LastKeyWins([(key, "forged")], EXT_CAUSATION_ID);
    NamesDiffer();
    hide IsExtensionName, LowerAscii;
  }

  /**
   A result carries a dead-letter extension exactly when the metadata has a case variant of its
   name: the reserved names are matched exactly, and incoming ones are never inherited.
   */
  lemma DeadLetterOnResult(e: Event, meta: Metadata, k: string)
    requires k == EXT_DEAD_LETTER_REASON || k == EXT_DEAD_LETTER_ERROR
    ensures k in ResultExtensions(e, meta) <==> SetByMetadata(meta, k)
  {
    MetadataKeys(meta, k);
    CausationName();
    assert k in DROPPED && k != EXT_CAUSATION_ID;
    hide IsStoredName, IsExtensionName;
  }

  ghost predicate AllLowerCase(meta: Metadata) {
    forall i :: 0 <= i < |meta| ==> LowerAscii(meta[i].0) == meta[i].0
  }

  /** Metadata in lower case never marks a result as a dead letter. */
  lemma LowerCaseKeepsClean(e: Event, meta: Metadata)
    requires AllLowerCase(meta)
    ensures EXT_DEAD_LETTER_REASON !in ResultExtensions(e, meta) && EXT_DEAD_LETTER_ERROR !in ResultExtensions(e, meta)
  {
    DeadLetterOnResult(e, meta, EXT_DEAD_LETTER_REASON);
    DeadLetterOnResult(e, meta, EXT_DEAD_LETTER_ERROR);
  }

  /** A case variant of a reserved name gets through. */
  lemma CaseVariantMarks(e: Event)
    ensures EXT_DEAD_LETTER_REASON in ResultExtensions(e, [("DeadLetterReason", "forged")])
  {
    var key := "DeadLetterReason";
    assert LowerAscii(key) == EXT_DEAD_LETTER_REASON;
    assert key[0] == 'D';
    assert EXT_CORRELATION_ID[0] == 'c' && EXT_CAUSATION_ID[0] == 'c';
    assert EXT_DEAD_LETTER_REASON[0] == 'd' && EXT_DEAD_LETTER_ERROR[0] == 'd';
    var meta: Metadata := [(key, "forged")];
    assert Sets(meta[0].0, EXT_DEAD_LETTER_REASON);
    DeadLetterOnResult(e, meta, EXT_DEAD_LETTER_REASON);
  }

  // ---------------------------------------------------------------- the closed form

  /** meta is an iteration order of the map m. */
  ghost predicate Iterates(meta: Metadata, m: map<string, string>) {
    && (forall i :: 0 <= i < |meta| ==> meta[i].0 in m && m[meta[i].0] == meta[i].1)
    && (forall k :: k in m ==> exists i :: 0 <= i < |meta| && meta[i].0 == k)
    && (forall i, j :: 0 <= i < j < |meta| ==> meta[i].0 != meta[j].0)
  }

  /** The result has its value for k from the parent's id, or from an incoming extension no exact key replaces. */
  predicate Overwritten(e: Event, m: map<string, string>, k: string) {
    (k == EXT_CAUSATION_ID && e.id != "") || (k in e.ext && k !in m.Keys - RESERVED && k !in DROPPED)
  }

  function Overwriting(e: Event, k: string): Value
    requires (k == EXT_CAUSATION_ID && e.id != "") || k in e.ext
  {
    if k == EXT_CAUSATION_ID && e.id != "" then Text(e.id) else e.ext[k]
  }

  /** Both keys name the same extension, and the metadata decides its value. */
  predicate Collide(e: Event, m: map<string, string>, a: string, b: string) {
    Sets(a, LowerAscii(b)) && Sets(b, LowerAscii(b)) && !Overwritten(e, m, LowerAscii(b))
  }

  /** Metadata keys that name the same extension agree on its value, where the metadata decides it. */
  ghost predicate KeysAgree(e: Event, m: map<string, string>) {
    forall a, b :: a in m && b in m && Collide(e, m, a, b) ==> m[a] == m[b]
  }

  /** What the metadata decides. */
  function MetadataPart(m: map<string, string>, e: Event): map<string, Value>
    requires KeysAgree(e, m)
  {
    map k | k in m && Sets(k, LowerAscii(k)) && !Overwritten(e, m, LowerAscii(k)) :: LowerAscii(k) := Text(m[k])
  }

  /** Parent's id first, then metadata without the reserved names, then what is inherited. */
  function ClosedForm(m: map<string, string>, e: Event): map<string, Value>
    requires KeysAgree(e, m)
  {
    var both := MetadataPart(m, e) + Inherited(e, m.Keys - RESERVED);
    if e.id != "" then both[EXT_CAUSATION_ID := Text(e.id)] else both
  }

  lemma KeysLeft(meta: Metadata, m: map<string, string>)
    requires Iterates(meta, m)
    ensures UnreservedKeys(meta) == m.Keys - RESERVED
  {
    forall k ensures k in UnreservedKeys(meta) <==> k in m.Keys - RESERVED {
      if k in m {
        var i :| 0 <= i < |meta| && meta[i].0 == k;
      }
    }
  }

  /** A stored value is that of some key that sets it. */
  lemma {:induction false} MetadataSource(meta: Metadata, k: string) returns (i: nat)
    requires k in FromMetadata(meta)
    ensures i < |meta| && Sets(meta[i].0, k) && FromMetadata(meta)[k] == Text(meta[i].1)
    decreases |meta|
  {
    i := |meta| - 1;
    if !Sets(meta[i].0, k) {
      i := MetadataSource(meta[..i], k);
    }
  }

  lemma LastKeyWins(meta: Metadata, k: string)
    requires meta != [] && Sets(meta[|meta| - 1].0, k)
    ensures k in FromMetadata(meta) && FromMetadata(meta)[k] == Text(meta[|meta| - 1].1)
  {
  }

  /** Where the result has its value for k from. */
  lemma ResultValue(e: Event, meta: Metadata, m: map<string, string>, k: string)
    requires Iterates(meta, m)
    ensures var r := ResultExtensions(e, meta);
            if Overwritten(e, m, k) then k in r && r[k] == Overwriting(e, k)
            else (k in r <==> k in FromMetadata(meta)) && (k in r ==> r[k] == FromMetadata(meta)[k])
  {
    KeysLeft(meta, m);
    CausationName();
    assert EXT_CAUSATION_ID in DROPPED;
    hide IsStoredName, IsExtensionName, FromMetadata, UnreservedKeys;
  }

  lemma FormValue(e: Event, m: map<string, string>, k: string)
    requires KeysAgree(e, m)
    ensures var r := ClosedForm(m, e);
            if Overwritten(e, m, k) then k in r && r[k] == Overwriting(e, k)
            else (k in r <==> k in MetadataPart(m, e)) && (k in r ==> r[k] == MetadataPart(m, e)[k])
  {
    hide MetadataPart;
  }

  lemma PartValue(e: Event, m: map<string, string>, key: string, k: string)
    requires KeysAgree(e, m) && key in m && Sets(key, k) && !Overwritten(e, m, k)
    ensures k in MetadataPart(m, e) && MetadataPart(m, e)[k] == Text(m[key])
  {
    hide IsExtensionName, LowerAscii, Overwritten;
    assert LowerAscii(key) in MetadataPart(m, e);
    var other :| other in m && Sets(other, LowerAscii(other)) && LowerAscii(other) == k &&
                 MetadataPart(m, e)[k] == Text(m[other]);
    assert Collide(e, m, other, key);
  }

  lemma PartKey(e: Event, m: map<string, string>, k: string) returns (key: string)
    requires KeysAgree(e, m) && k in MetadataPart(m, e)
    ensures key in m && Sets(key, k) && !Overwritten(e, m, k)
  {
    hide IsExtensionName, LowerAscii, Overwritten, KeysAgree;
    key :| key in m && Sets(key, LowerAscii(key)) && LowerAscii(key) == k;
  }

  /** For what the metadata decides, its order does not matter when its keys agree. */
  lemma MetadataIsPart(e: Event, meta: Metadata, m: map<string, string>, k: string)
    requires Iterates(meta, m) && KeysAgree(e, m) && !Overwritten(e, m, k)
    ensures k in FromMetadata(meta) <==> k in MetadataPart(m, e)
    ensures k in FromMetadata(meta) ==> FromMetadata(meta)[k] == MetadataPart(m, e)[k]
  {
    MetadataKeys(meta, k);
    hide Sets, FromMetadata, Overwritten, KeysAgree, MetadataPart;
    if k in MetadataPart(m, e) {
      var key := PartKey(e, m, k);
      var i :| 0 <= i < |meta| && meta[i].0 == key;
      assert Sets(meta[i].0, k);
    }
    if k in FromMetadata(meta) {
      var i := MetadataSource(meta, k);
      PartValue(e, m, meta[i].0, k);
    }
  }

  /** For every iteration order of metadata whose keys agree, the result's extensions are the closed form. */
  lemma ResultIsClosedForm(e: Event, meta: Metadata, m: map<string, string>)
    requires Iterates(meta, m) && KeysAgree(e, m)
    ensures ResultExtensions(e, meta) == ClosedForm(m, e)
  {
    hide ResultExtensions, ClosedForm, Overwritten, KeysAgree, Iterates, FromMetadata, MetadataPart;
    var r, c := ResultExtensions(e, meta), ClosedForm(m, e);
    forall k ensures (k in r <==> k in c) && (k in r ==> r[k] == c[k]) {
      ResultValue(e, meta, m, k);
      FormValue(e, m, k);
      if !Overwritten(e, m, k) {
        MetadataIsPart(e, meta, m, k);
      }
    }
  }

  // ---------------------------------------------------------------- exactly when the order does not matter

  ghost predicate OrderIrrelevant(e: Event, m: map<string, string>) {
    forall x, y :: Iterates(x, m) && Iterates(y, m) ==> ResultExtensions(e, x) == ResultExtensions(e, y)
  }

  lemma {:induction false} SomeOrder(m: map<string, string>) returns (x: Metadata)
    ensures Iterates(x, m)
    decreases |m|
  {
    if m == map[] {
      x := [];
    } else {
      var k :| k in m;
      x := OrderEndingIn(m, k);
    }
  }

  lemma {:induction false} OrderEndingIn(m: map<string, string>, last: string) returns (x: Metadata)
    requires last in m
    ensures Iterates(x, m) && x != [] && x[|x| - 1] == (last, m[last])
    decreases |m|, 0
  {
    var rest := m - {last};
    assert |rest| < |m| by {
      assert m.Keys == rest.Keys + {last};
      assert |m.Keys| == |rest.Keys| + 1;
    }
    var init := SomeOrder(rest);
    x := init + [(last, m[last])];
    OneMorePair(init, m, last);
  }

  lemma OneMorePair(init: Metadata, m: map<string, string>, last: string)
    requires last in m && Iterates(init, m - {last})
    ensures Iterates(init + [(last, m[last])], m)
  {
    var x := init + [(last, m[last])];
    forall k | k in m ensures exists i :: 0 <= i < |x| && x[i].0 == k {
      if k == last {
        assert x[|init|].0 == k;
      } else {
        assert k in m - {last};
        var i :| 0 <= i < |init| && init[i].0 == k;
        assert x[i].0 == k;
      }
    }
  }

  /**
   The result is the same for every iteration order exactly when metadata keys that name the same
   extension agree on its value, or their value is overwritten.
   */
  lemma OrderIrrelevantExactly(e: Event, m: map<string, string>)
    ensures OrderIrrelevant(e, m) <==> KeysAgree(e, m)
  {
    if KeysAgree(e, m) {
      forall x, y | Iterates(x, m) && Iterates(y, m) ensures ResultExtensions(e, x) == ResultExtensions(e, y) {
        ResultIsClosedForm(e, x, m);
        ResultIsClosedForm(e, y, m);
      }
    }
    if OrderIrrelevant(e, m) {
      forall a, b | a in m && b in m && Collide(e, m, a, b) ensures m[a] == m[b] {
        Decides(e, m, a, b);
      }
    }
  }

  /** Two keys for the same extension: whichever comes last decides it. */
  lemma Decides(e: Event, m: map<string, string>, a: string, b: string)
    requires OrderIrrelevant(e, m) && a in m && b in m && Collide(e, m, a, b)
    ensures m[a] == m[b]
  {
    hide Overwritten, Sets, Iterates, FromMetadata, ResultExtensions;
    var x := OrderEndingIn(m, a);
    var y := OrderEndingIn(m, b);
    LastKeyWins(x, LowerAscii(b));
    LastKeyWins(y, LowerAscii(b));
    ResultValue(e, x, m, LowerAscii(b));
    ResultValue(e, y, m, LowerAscii(b));
  }

  /** Keys in lower case always agree, and then an exact metadata key wins over an inherited one. */
  lemma LowerCaseClosedForm(m: map<string, string>, e: Event, k: string)
    requires forall key :: key in m ==> LowerAscii(key) == key
    ensures KeysAgree(e, m)
    ensures var r := ClosedForm(m, e);
            if k == EXT_CAUSATION_ID && e.id != "" then k in r && r[k] == Text(e.id)
            else if k in m && k !in RESERVED then
              if IsExtensionName(k) then k in r && r[k] == Text(m[k]) else k !in r
            else if k in e.ext && k !in DROPPED then k in r && r[k] == e.ext[k]
            else k !in r
  {
  }

  /** For every event: two keys that differ in letter case and in value make the result depend on the order. */
  lemma CollisionsDependOnOrder(e: Event)
    ensures ResultExtensions(e, [("a", "1"), ("A", "2")]) != ResultExtensions(e, [("A", "2"), ("a", "1")])
    ensures Iterates([("a", "1"), ("A", "2")], map["a" := "1", "A" := "2"])
    ensures Iterates([("A", "2"), ("a", "1")], map["a" := "1", "A" := "2"])
  {
    var m := map["a" := "1", "A" := "2"];
    assert LowerAscii("a") == "a" && LowerAscii("A") == "a";
    assert Sets("a", "a") && Sets("A", "a");
    var x: Metadata, y: Metadata := [("a", "1"), ("A", "2")], [("A", "2"), ("a", "1")];
    assert x[0].0 == "a" && x[1].0 == "A" && y[0].0 == "A" && y[1].0 == "a";
    assert Iterates(x, m) && Iterates(y, m);
    assert !Overwritten(e, m, "a");
    LastKeyWins(x, "a");
    LastKeyWins(y, "a");
    ResultValue(e, x, m, "a");
    ResultValue(e, y, m, "a");
    hide Iterates, ResultExtensions, FromMetadata, Sets;
  }
}
