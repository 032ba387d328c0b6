/**
 The text of the deadlettererror extension: pkg/eventmux/failure.go, sanitize and truncate.

 A Go string is a sequence of bytes. Here it is a `string` whose characters stand for bytes;
 a character above 0xFF neither starts nor continues a rune, so it is treated as an invalid byte.
 Well-formed UTF-8 is the table in section 4 of RFC 3629.
 */
module Utf8 {

  // strings.ToValidUTF8's replacement: U+FFFD as three bytes.
  const REPLACEMENT: string := [0xEF as char, 0xBF as char, 0xBD as char]

  predicate IsByteIn(s: string, i: nat, lo: int, hi: int) {
    i < |s| && lo <= s[i] as int <= hi
  }

  predicate IsTail(s: string, i: nat) {
    IsByteIn(s, i, 0x80, 0xBF)
  }

  /** The number of bytes of the rune that starts s; 0 when s does not start with a well-formed rune. */
  function Width(s: string): (w: nat)
    ensures w <= |s| && w <= 4
    ensures w > 0 ==> RuneStart(s[0])
    ensures forall k :: 1 <= k < w ==> IsTail(s, k)
  {
    if s == [] then 0
    else if IsByteIn(s, 0, 0x00, 0x7F) then 1
    else if IsByteIn(s, 0, 0xC2, 0xDF) && IsTail(s, 1) then 2
    else if IsByteIn(s, 0, 0xE0, 0xE0) && IsByteIn(s, 1, 0xA0, 0xBF) && IsTail(s, 2) then 3
    else if IsByteIn(s, 0, 0xE1, 0xEC) && IsTail(s, 1) && IsTail(s, 2) then 3
    else if IsByteIn(s, 0, 0xED, 0xED) && IsByteIn(s, 1, 0x80, 0x9F) && IsTail(s, 2) then 3
    else if IsByteIn(s, 0, 0xEE, 0xEF) && IsTail(s, 1) && IsTail(s, 2) then 3
    else if IsByteIn(s, 0, 0xF0, 0xF0) && IsByteIn(s, 1, 0x90, 0xBF) && IsTail(s, 2) && IsTail(s, 3) then 4
    else if IsByteIn(s, 0, 0xF1, 0xF3) && IsTail(s, 1) && IsTail(s, 2) && IsTail(s, 3) then 4
    else if IsByteIn(s, 0, 0xF4, 0xF4) && IsByteIn(s, 1, 0x80, 0x8F) && IsTail(s, 2) && IsTail(s, 3) then 4
    else 0
  }

  /** utf8.RuneStart: every byte that is not a continuation byte. */
  predicate RuneStart(b: char) {
    b as int < 0x80 || 0xC0 <= b as int
  }

  predicate IsValid(s: string) {
    s == [] || (Width(s) > 0 && IsValid(s[Width(s)..]))
  }

  /** A control character the brokers refuse: below 0x20 and neither tab, newline nor carriage return. */
  predicate Refused(b: char) {
    b as int < 0x20 && b != '\t' && b != '\n' && b != '\r'
  }

  /** Space and above, or a tab, a newline or a carriage return. */
  predicate Printable(b: char) {
    b as int >= 0x20 || b in {'\t', '\n', '\r'}
  }

  /** strings.ToValidUTF8: one replacement per run of invalid bytes. */
  function ToValid(s: string, inRun: bool): (r: string)
    decreases |s|
  {
    if s == [] then []
    else if Width(s) > 0 then s[..Width(s)] + ToValid(s[Width(s)..], false)
    else (if inRun then [] else REPLACEMENT) + ToValid(s[1..], true)
  }

  /** strings.Map with sanitize's mapping, which only ever sees valid text. */
  function Strip(s: string): (r: string)
    requires IsValid(s)
    decreases |s|
  {
    if s == [] then []
    else if Refused(s[0]) then Strip(s[Width(s)..])
    else s[..Width(s)] + Strip(s[Width(s)..])
  }

  function Sanitize(s: string): string {
    ToValidIsValid(s, false);
    Strip(ToValid(s, false))
  }

  /** The greatest rune start at or below cut, 0 when there is none. */
  function RuneFloor(s: string, cut: nat): (r: nat)
    requires cut < |s|
    ensures r <= cut
  {
    if cut == 0 || RuneStart(s[cut]) then cut else RuneFloor(s, cut - 1)
  }

  function Truncated(s: string, maxBytes: nat): string {
    if |s| <= maxBytes then s else s[..RuneFloor(s, maxBytes)]
  }

  method Truncate(s: string, maxBytes: nat) returns (r: string)
    ensures r == Truncated(s, maxBytes)
  {
    if |s| <= maxBytes {
      return s;
    }
    var cut := maxBytes;
    while cut > 0 && !RuneStart(s[cut])
      invariant 0 <= cut <= maxBytes
      invariant RuneFloor(s, cut) == RuneFloor(s, maxBytes)
    {
      cut := cut - 1;
    }
    return s[..cut];
  }

  /** A rune's width depends on its own bytes only. */
  lemma WidthOfPrefix(a: string, b: string)
    requires Width(a) > 0
    ensures Width(a + b) == Width(a)
    ensures (a + b)[..Width(a)] == a[..Width(a)] && (a + b)[Width(a)..] == a[Width(a)..] + b
  {
    assert forall i :: 0 <= i < |a| ==> (a + b)[i] == a[i];
  }

  lemma {:induction false} ValidAppend(a: string, b: string)
    requires IsValid(a) && IsValid(b)
    ensures IsValid(a + b)
    decreases |a|
  {
    if a == [] {
      assert a + b == b;
    } else {
      WidthOfPrefix(a, b);
      ValidAppend(a[Width(a)..], b);
    }
  }

  /** One rune on its own. */
  lemma RuneIsValid(s: string)
    requires Width(s) > 0
    ensures Width(s[..Width(s)]) == Width(s) && IsValid(s[..Width(s)])
  {
    var r := s[..Width(s)];
    assert forall i :: 0 <= i < |r| ==> r[i] == s[i];
    assert Width(r) == Width(s);
    assert r[Width(r)..] == [];
  }

  lemma {:induction false} ToValidIsValid(s: string, inRun: bool)
    ensures IsValid(ToValid(s, inRun))
    decreases |s|
  {
    if s == [] {
    } else if Width(s) > 0 {
      RuneIsValid(s);
      ToValidIsValid(s[Width(s)..], false);
      ValidAppend(s[..Width(s)], ToValid(s[Width(s)..], false));
    } else {
      ToValidIsValid(s[1..], true);
      RuneIsValid(REPLACEMENT);
      if !inRun {
        assert REPLACEMENT[..3] == REPLACEMENT;
        ValidAppend(REPLACEMENT, ToValid(s[1..], true));
      } else {
        assert [] + ToValid(s[1..], true) == ToValid(s[1..], true);
      }
    }
  }

  /** What Strip leaves of valid text is valid text without a refused byte. */
  lemma {:induction false} StripCleans(s: string)
    requires IsValid(s)
    ensures IsValid(Strip(s))
    ensures forall i :: 0 <= i < |Strip(s)| ==> !Refused(Strip(s)[i])
    decreases |s|
  {
    if s != [] {
      var w := Width(s);
      StripCleans(s[w..]);
      if !Refused(s[0]) {
        RuneIsValid(s);
        ValidAppend(s[..w], Strip(s[w..]));
        assert forall k :: 1 <= k < w ==> IsTail(s, k);
      }
    }
  }

  lemma {:induction false} StripKeepsClean(s: string)
    requires IsValid(s) && forall i :: 0 <= i < |s| ==> !Refused(s[i])
    ensures Strip(s) == s
    decreases |s|
  {
    if s != [] {
      StripKeepsClean(s[Width(s)..]);
    }
  }

  lemma {:induction false} ToValidKeepsValid(s: string, inRun: bool)
    requires IsValid(s)
    ensures ToValid(s, inRun) == s
    decreases |s|
  {
    if s != [] {
      ToValidKeepsValid(s[Width(s)..], false);
    }
  }

  /** sanitize yields valid UTF-8 without refused bytes, and changes nothing the second time. */
  lemma SanitizeCleans(s: string)
    ensures IsValid(Sanitize(s))
    ensures forall i :: 0 <= i < |Sanitize(s)| ==> Printable(Sanitize(s)[i])
    ensures Sanitize(Sanitize(s)) == Sanitize(s)
  {
    ToValidIsValid(s, false);
    StripCleans(ToValid(s, false));
    ToValidKeepsValid(Sanitize(s), false);
    StripKeepsClean(Sanitize(s));
  }

  /** sanitize leaves exactly the acceptable texts alone. */
  lemma SanitizeKeepsExactly(s: string)
    ensures Sanitize(s) == s <==> IsValid(s) && forall i :: 0 <= i < |s| ==> Printable(s[i])
  {
    SanitizeCleans(s);
    if IsValid(s) && forall i :: 0 <= i < |s| ==> Printable(s[i]) {
      ToValidKeepsValid(s, false);
      StripKeepsClean(s);
    }
  }

  // ---------------------------------------------------------------- what sanitize keeps

  /** s without the bytes that are not printable. */
  function Filtered(s: string): string {
    if s == [] then [] else (if Printable(s[0]) then [s[0]] else []) + Filtered(s[1..])
  }

  lemma {:induction false} FilteredAppend(a: string, b: string)
    ensures Filtered(a + b) == Filtered(a) + Filtered(b)
    decreases |a|
  {
    if a == [] {
      assert a + b == b;
    } else {
      assert (a + b)[1..] == a[1..] + b;
      FilteredAppend(a[1..], b);
    }
  }

  lemma {:induction false} FilteredKeeps(s: string)
    requires forall i :: 0 <= i < |s| ==> Printable(s[i])
    ensures Filtered(s) == s
    decreases |s|
  {
    if s != [] {
      FilteredKeeps(s[1..]);
    }
  }

  /** A refused rune is one byte, and every byte of another rune is printable. */
  lemma RunePrintable(s: string)
    requires Width(s) > 0
    ensures if Refused(s[0]) then Width(s) == 1 && !Printable(s[0])
            else forall k :: 0 <= k < Width(s) ==> Printable(s[k])
  {
    assert forall k :: 1 <= k < Width(s) ==> IsTail(s, k);
  }

  /** Of valid text exactly the unprintable bytes are dropped. */
  lemma {:induction false} StripFilters(s: string)
    requires IsValid(s)
    ensures Strip(s) == Filtered(s)
    decreases |s|
  {
    if s != [] {
      FirstRune(s);
      RunePrintable(s);
      hide Width, IsValid, Printable, Refused;
      var head, rest := s[..Width(s)], s[Width(s)..];
      StripFilters(rest);
      assert s == head + rest;
      FilteredAppend(head, rest);
      if Refused(s[0]) {
        assert head == [s[0]] && head[1..] == [];
      } else {
        FilteredKeeps(head);
      }
    }
  }

  /** sanitize drops the unprintable bytes of what ToValid makes of a text, and nothing else. */
  lemma SanitizeFilters(s: string)
    ensures Sanitize(s) == Filtered(ToValid(s, false))
  {
    ToValidIsValid(s, false);
    StripFilters(ToValid(s, false));
  }

  /** ToValid keeps valid text in front of anything. */
  lemma {:induction false} ValidIsKept(a: string, s: string, inRun: bool)
    requires IsValid(a) && a != []
    ensures ToValid(a + s, inRun) == a + ToValid(s, false)
    decreases |a|
  {
    var w := Width(a);
    WidthOfPrefix(a, s);
    var rest := a[w..];
    if rest == [] {
      assert a == a[..w] && rest + s == s;
    } else {
      ValidIsKept(rest, s, false);
      assert a == a[..w] + rest;
      assert a[..w] + (rest + ToValid(s, false)) == a + ToValid(s, false);
    }
    hide Width, IsValid;
  }

  /** No rune starts at any byte of x, in front of s. */
  predicate NoRuneIn(x: string, s: string) {
    forall i :: 0 <= i < |x| ==> Width((x + s)[i..]) == 0
  }

  /** A run of bytes that belong to no rune becomes one replacement, whatever its length. */
  lemma {:induction false} RunIsReplaced(x: string, s: string, inRun: bool)
    requires x != [] && NoRuneIn(x, s) && (s == [] || Width(s) > 0)
    ensures ToValid(x + s, inRun) == (if inRun then [] else REPLACEMENT) + ToValid(s, false)
    decreases |x|
  {
    hide Width, REPLACEMENT;
    var rest := x[1..];
    assert (x + s)[0..] == x + s && (x + s)[1..] == rest + s;
    assert Width(x + s) == 0;
    if rest == [] {
      assert rest + s == s;
      assert ToValid(s, true) == ToValid(s, false);
    } else {
      forall i | 0 <= i < |rest| ensures Width((rest + s)[i..]) == 0 {
        assert (rest + s)[i..] == (x + s)[i + 1..];
      }
      RunIsReplaced(rest, s, true);
    }
  }

  // ---------------------------------------------------------------- runes are Unicode scalar values

  predicate IsScalar(c: nat) {
    c <= 0x10FFFF && !(0xD800 <= c <= 0xDFFF)
  }

  /** The octets of a scalar value, by the table in section 3 of RFC 3629. */
  function Encoded(c: nat): string
    requires IsScalar(c)
  {
    if c < 0x80 then [c as char]
    else if c < 0x800 then [(0xC0 + c / 64) as char, Tail(c)]
    else if c < 0x1_0000 then [(0xE0 + c / 4096) as char, Tail(c / 64), Tail(c)]
    else [(0xF0 + c / 262144) as char, Tail(c / 4096), Tail(c / 64), Tail(c)]
  }

  function Tail(c: nat): char {
    (0x80 + c % 64) as char
  }

  /** The encoding of every scalar value is one rune. */
  lemma EncodedIsRune(c: nat)
    requires IsScalar(c)
    ensures Width(Encoded(c)) == |Encoded(c)|
  {
    var s := Encoded(c);
    if c < 0x80 {
    } else if c < 0x800 {
      TwoWide(s);
    } else if c < 0x1_0000 {
      ThreeWide(s);
    } else {
      FourWide(s);
    }
    hide Width;
  }

  lemma TwoWide(s: string)
    requires |s| == 2 && IsByteIn(s, 0, 0xC2, 0xDF) && IsTail(s, 1)
    ensures Width(s) == 2
  {
  }

  lemma ThreeWide(s: string)
    requires |s| == 3 && IsByteIn(s, 0, 0xE0, 0xEF) && IsTail(s, 1) && IsTail(s, 2)
    requires s[0] as int == 0xE0 ==> s[1] as int >= 0xA0
    requires s[0] as int == 0xED ==> s[1] as int <= 0x9F
    ensures Width(s) == 3
  {
  }

  lemma FourWide(s: string)
    requires |s| == 4 && IsByteIn(s, 0, 0xF0, 0xF4) && IsTail(s, 1) && IsTail(s, 2) && IsTail(s, 3)
    requires s[0] as int == 0xF0 ==> s[1] as int >= 0x90
    requires s[0] as int == 0xF4 ==> s[1] as int <= 0x8F
    ensures Width(s) == 4
  {
  }

  /** The base-64 digits of a number. */
  lemma Digits(a: nat, b: nat)
    requires b < 64
    ensures (a * 64 + b) / 64 == a && (a * 64 + b) % 64 == b
  {
  }

  /** The value of a rune: its lead byte's bits in front of its tails'. */
  function Value(s: string): nat
    requires Width(s) > 0
  {
    match Width(s)
    case 1 => s[0] as nat
    case 2 => (s[0] as nat - 0xC0) * 64 + (s[1] as nat - 0x80)
    case 3 => ((s[0] as nat - 0xE0) * 64 + (s[1] as nat - 0x80)) * 64 + (s[2] as nat - 0x80)
    case _ =>
      (((s[0] as nat - 0xF0) * 64 + (s[1] as nat - 0x80)) * 64 + (s[2] as nat - 0x80)) * 64 + (s[3] as nat - 0x80)
  }

  /** Every rune is the encoding of a scalar value. */
  lemma RuneIsEncoded(s: string)
    requires Width(s) > 0
    ensures IsScalar(Value(s)) && s[..Width(s)] == Encoded(Value(s))
  {
    match Width(s)
    case 1 =>
    case 2 => Digits(s[0] as nat - 0xC0, s[1] as nat - 0x80);
    case 3 => ThreeBytes(s);
    case _ => FourBytes(s);
  }

  lemma ThreeBytes(s: string)
    requires Width(s) == 3
    ensures IsScalar(Value(s)) && s[..3] == Encoded(Value(s))
  {
    var (a, b, c) := (s[0] as nat - 0xE0, s[1] as nat - 0x80, s[2] as nat - 0x80);
    Digits(a, b);
    Digits(a * 64 + b, c);
    assert Value(s) / 4096 == Value(s) / 64 / 64;
  }

  lemma FourBytes(s: string)
    requires Width(s) == 4
    ensures IsScalar(Value(s)) && s[..4] == Encoded(Value(s))
  {
    var (a, b, c, d) := (s[0] as nat - 0xF0, s[1] as nat - 0x80, s[2] as nat - 0x80, s[3] as nat - 0x80);
    Digits(a, b);
    Digits(a * 64 + b, c);
    Digits((a * 64 + b) * 64 + c, d);
    assert Value(s) / 4096 == Value(s) / 64 / 64 && Value(s) / 262144 == Value(s) / 64 / 64 / 64;
  }

  /** The replacement is U+FFFD. */
  lemma ReplacementIsFffd()
    ensures REPLACEMENT == Encoded(0xFFFD)
  {
  }

  // ---------------------------------------------------------------- where truncate cuts

  lemma FirstRune(s: string)
    requires IsValid(s) && s != []
    ensures 0 < Width(s) <= 4 && IsValid(s[Width(s)..])
  {
  }

  lemma NextRune(s: string)
    requires IsValid(s) && Width(s) < |s|
    ensures RuneStart(s[Width(s)])
  {
    var rest := s[Width(s)..];
    assert IsValid(rest) && Width(rest) > 0 && rest[0] == s[Width(s)];
    hide Width;
  }

  lemma EmptyIsValid(s: string)
    ensures IsValid(s[..0])
  {
  }

  /** In valid text, cutting at a rune start leaves valid text, and a rune start is never more than 3 bytes below. */
  lemma {:induction false} CutAtRuneStart(s: string, cut: nat)
    requires IsValid(s) && cut < |s|
    ensures IsValid(s[..RuneFloor(s, cut)])
    ensures cut - RuneFloor(s, cut) <= 3
    decreases |s|
  {
    hide Width, IsValid, RuneFloor, RuneStart;
    var w := Width(s);
    FirstRune(s);
    if cut < w {
      FloorInRune(s, cut);
      EmptyIsValid(s);
    } else {
      var head, rest := s[..w], s[w..];
      NextRune(s);
      RuneIsValid(s);
      CutAtRuneStart(rest, cut - w);
      FloorShifts(s, w, cut);
      ValidAppend(head, rest[..RuneFloor(rest, cut - w)]);
      assert s[..RuneFloor(s, cut)] == head + rest[..RuneFloor(rest, cut - w)];
    }
  }

  lemma {:induction false} FloorInRune(s: string, cut: nat)
    requires cut < Width(s)
    ensures RuneFloor(s, cut) == 0
  {
    if cut > 0 {
      assert IsTail(s, cut);
      FloorInRune(s, cut - 1);
    }
  }

  lemma {:induction false} FloorShifts(s: string, w: nat, cut: nat)
    requires w <= cut < |s| && RuneStart(s[w])
    ensures RuneFloor(s, cut) == w + RuneFloor(s[w..], cut - w)
    decreases cut
  {
    if w < cut && !RuneStart(s[cut]) {
      FloorShifts(s, w, cut - 1);
    }
  }

  /** The dead-letter error text, for every error text and every limit. */
  lemma DeadLetterText(s: string, maxBytes: nat)
    ensures var clean := Sanitize(s);
            var t := Truncated(clean, maxBytes);
            && IsValid(t)
            && (forall i :: 0 <= i < |t| ==> Printable(t[i]))
            && t <= clean
            && |t| <= maxBytes
            && (|clean| <= maxBytes ==> t == clean)
            && (|clean| > maxBytes ==> |t| >= maxBytes - 3)
  {
    SanitizeCleans(s);
    if |Sanitize(s)| > maxBytes {
      CutAtRuneStart(Sanitize(s), maxBytes);
    }
  }
}
