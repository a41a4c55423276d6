/** The framing of Gemini's answers (parseGeminiResponse, qlappcom/aigptbot.cpp:1382-1428): a UTF-8 body cut into frames
    whose lengths are given in UTF-16 code units. */
module GeminiFrames {
  type octet = x: int | 0 <= x < 256

  const NEWLINE: octet := 10
  const PREFIX: seq<octet> := [41, 93, 125, 39]

  // ---- What the program reads ----

  /** isspace. */
  predicate IsSpace(c: octet) {
    c == 32 || 9 <= c <= 13
  }

  predicate IsDigit(c: octet) {
    48 <= c <= 57
  }

  /** Nothing but blanks, tabs and line ends. */
  predicate Blank(s: seq<octet>) {
    forall k :: 0 <= k < |s| ==> s[k] in {32, 9, 13, 10}
  }

  function SkipSpace(s: seq<octet>): seq<octet> {
    if s != [] && IsSpace(s[0]) then SkipSpace(s[1..]) else s
  }

  function DigitCount(s: seq<octet>): (k: nat)
    ensures k <= |s|
  {
    if s != [] && IsDigit(s[0]) then 1 + DigitCount(s[1..]) else 0
  }

  function DigitValue(c: octet): nat
    requires IsDigit(c)
  {
    c - 48
  }

  /** atoll. */
  function Value(s: seq<octet>): nat
    requires forall k :: 0 <= k < |s| ==> IsDigit(s[k])
  {
    if s == [] then 0
    else
      assert IsDigit(s[|s| - 1]);
      Value(s[..|s| - 1]) * 10 + DigitValue(s[|s| - 1])
  }

  lemma {:induction false} DigitsAreDigits(s: seq<octet>)
    ensures forall k :: 0 <= k < DigitCount(s) ==> IsDigit(s[k])
  {
    if s != [] && IsDigit(s[0]) {
      DigitsAreDigits(s[1..]);
      assert forall k :: 1 <= k < DigitCount(s) ==> s[k] == s[1..][k - 1];
    }
  }

  // The number of a character of two, three, four bytes: the low bits of the first one, six bits of each other one.

  function Two(a: nat, b: nat): nat {
    a % 32 * 64 + b % 64
  }

  function Three(a: nat, b: nat, c: nat): nat {
    a % 16 * 4096 + b % 64 * 64 + c % 64
  }

  function Four(a: nat, b: nat, c: nat, d: nat): nat {
    a % 8 * 262144 + b % 64 * 4096 + c % 64 * 64 + d % 64
  }

  /** The length of the character at the front, as its first byte tells, and its number; a truncated or foreign first
      byte counts as a character of its own. */
  function Decode(s: seq<octet>): (r: (nat, nat))
    requires s != []
    ensures 1 <= r.0 <= |s|
  {
    if 0xF0 <= s[0] < 0xF8 && 4 <= |s| then (4, Four(s[0], s[1], s[2], s[3]))
    else if 0xE0 <= s[0] < 0xF0 && 3 <= |s| then (3, Three(s[0], s[1], s[2]))
    else if 0xC0 <= s[0] < 0xE0 && 2 <= |s| then (2, Two(s[0], s[1]))
    else (1, s[0])
  }

  function UnitsOf(cp: nat): nat {
    if cp > 0xFFFF then 2 else 1
  }

  /** How many bytes hold the given number of code units, or as many as fit into it. */
  function TakeUnits(s: seq<octet>, expected: nat): (n: nat)
    ensures n <= |s|
  {
    if s == [] || expected == 0 then 0
    else
      var (len, cp) := Decode(s);
      if UnitsOf(cp) > expected then 0 else len + TakeUnits(s[len..], expected - UnitsOf(cp))
  }

  /** The white space, digits and line end before a payload: how long they are and what the number is. */
  datatype Header = NoHeader | Header(length: nat, units: nat)

  function ReadHeader(s: seq<octet>): (h: Header)
    ensures h.Header? ==> 0 < h.length <= |s|
  {
    var t := SkipSpace(s);
    SkipSpaceShortens(s);
    var k := DigitCount(t);
    if k == 0 || k >= |t| || t[k] != NEWLINE then NoHeader
    else
      DigitsAreDigits(t);
      Header(|s| - |t| + k + 1, Value(t[..k]))
  }

  /** The frames of a body after its prefix; blank ones are left out. */
  function Frames(s: seq<octet>): seq<seq<octet>>
    decreases |s|
  {
    match ReadHeader(s)
    case NoHeader => []
    case Header(length, units) =>
      var rest := s[length..];
      var n := TakeUnits(rest, units);
      (if Blank(rest[..n]) then [] else [rest[..n]]) + Frames(rest[n..])
  }

  lemma {:induction false} SkipSpaceShortens(s: seq<octet>)
    ensures |SkipSpace(s)| <= |s| && SkipSpace(s) == s[|s| - |SkipSpace(s)|..]
    ensures SkipSpace(s) != [] ==> !IsSpace(SkipSpace(s)[0])
  {
    if s != [] && IsSpace(s[0]) {
      SkipSpaceShortens(s[1..]);
    }
  }

  // ---- What a server prints ----

  /** Unicode scalar values. */
  predicate IsScalar(cp: nat) {
    cp < 0xD800 || 0xE000 <= cp <= 0x10FFFF
  }

  /** Section 3 of RFC 3629. */
  function Utf8(cp: nat): (s: seq<octet>)
    requires IsScalar(cp)
    ensures 1 <= |s| <= 4
  {
    if cp < 0x80 then [cp]
    else if cp < 0x800 then [0xC0 + cp / 64, 0x80 + cp % 64]
    else if cp < 0x10000 then [0xE0 + cp / 4096, 0x80 + cp / 64 % 64, 0x80 + cp % 64]
    else [0xF0 + cp / 262144, 0x80 + cp / 4096 % 64, 0x80 + cp / 64 % 64, 0x80 + cp % 64]
  }

  predicate IsText(cps: seq<nat>) {
    forall k :: 0 <= k < |cps| ==> IsScalar(cps[k])
  }

  function Encode(cps: seq<nat>): seq<octet>
    requires IsText(cps)
  {
    if cps == [] then [] else Utf8(cps[0]) + Encode(cps[1..])
  }

  /** The length in UTF-16. */
  function Units(cps: seq<nat>): nat {
    if cps == [] then 0 else UnitsOf(cps[0]) + Units(cps[1..])
  }

  function Decimal(n: nat): seq<octet> {
    if n < 10 then [48 + n] else Decimal(n / 10) + [48 + n % 10]
  }

  /** White space may stand before the length of a frame. */
  datatype Frame = Frame(gap: seq<octet>, text: seq<nat>)

  predicate IsFrame(f: Frame) {
    IsText(f.text) && forall k :: 0 <= k < |f.gap| ==> IsSpace(f.gap[k])
  }

  function Print(f: Frame): seq<octet>
    requires IsFrame(f)
  {
    f.gap + Decimal(Units(f.text)) + [NEWLINE] + Encode(f.text)
  }

  predicate AreFrames(fs: seq<Frame>) {
    forall k :: 0 <= k < |fs| ==> IsFrame(fs[k])
  }

  function PrintAll(fs: seq<Frame>): seq<octet>
    requires AreFrames(fs)
  {
    if fs == [] then [] else Print(fs[0]) + PrintAll(fs[1..])
  }

  /** The payloads that are not blank. */
  function Payloads(fs: seq<Frame>): seq<seq<octet>>
    requires AreFrames(fs)
  {
    if fs == [] then []
    else (if Blank(Encode(fs[0].text)) then [] else [Encode(fs[0].text)]) + Payloads(fs[1..])
  }

  // ---- Reading what was printed ----

  lemma TwoOf(cp: nat)
    requires 0x80 <= cp < 0x800
    ensures Two(0xC0 + cp / 64, 0x80 + cp % 64) == cp
  {
  }

  lemma ThreeOf(cp: nat)
    requires 0x800 <= cp < 0x10000
    ensures Three(0xE0 + cp / 4096, 0x80 + cp / 64 % 64, 0x80 + cp % 64) == cp
  {
    var a, b, c := cp / 4096, cp / 64 % 64, cp % 64;
    assert cp == (a * 64 + b) * 64 + c;
  }

  lemma FourOf(cp: nat)
    requires 0x10000 <= cp <= 0x10FFFF
    ensures Four(0xF0 + cp / 262144, 0x80 + cp / 4096 % 64, 0x80 + cp / 64 % 64, 0x80 + cp % 64) == cp
  {
    var a, b, c, d := cp / 262144, cp / 4096 % 64, cp / 64 % 64, cp % 64;
    FourParts(a, b, c, d);
    assert cp / 64 == (cp / 64) / 64 * 64 + c && cp / 4096 == (cp / 4096) / 64 * 64 + b;
    assert (cp / 64) / 64 == cp / 4096 && (cp / 4096) / 64 == a;
  }

  lemma FourParts(a: nat, b: nat, c: nat, d: nat)
    requires a < 8 && b < 64 && c < 64 && d < 64
    ensures Four(0xF0 + a, 0x80 + b, 0x80 + c, 0x80 + d) == a * 262144 + b * 4096 + c * 64 + d
  {
  }

  lemma DecodeOfUtf8(cp: nat, rest: seq<octet>)
    requires IsScalar(cp)
    ensures Decode(Utf8(cp) + rest) == (|Utf8(cp)|, cp)
  {
    hide Two, Three, Four;
    var s := Utf8(cp) + rest;
    assert forall k :: 0 <= k < |Utf8(cp)| ==> s[k] == Utf8(cp)[k];
    if cp < 0x80 {
    } else if cp < 0x800 {
      TwoOf(cp);
    } else if cp < 0x10000 {
      ThreeOf(cp);
    } else {
      FourOf(cp);
    }
  }

  lemma {:induction false} TakeUnitsOfText(cps: seq<nat>, rest: seq<octet>)
    requires IsText(cps)
    ensures TakeUnits(Encode(cps) + rest, Units(cps)) == |Encode(cps)|
  {
    hide Utf8, Decode, IsScalar;
    if cps != [] {
      var tail := Encode(cps[1..]) + rest;
      assert Encode(cps) + rest == Utf8(cps[0]) + tail;
      DecodeOfUtf8(cps[0], tail);
      assert (Utf8(cps[0]) + tail)[|Utf8(cps[0])|..] == tail;
      TakeUnitsOfText(cps[1..], rest);
    }
  }

  lemma {:induction false} DecimalDigits(n: nat)
    ensures Decimal(n) != [] && forall k :: 0 <= k < |Decimal(n)| ==> IsDigit(Decimal(n)[k])
    ensures Value(Decimal(n)) == n
  {
    if n < 10 {
      assert Value([]) == 0;
    } else {
      DecimalDigits(n / 10);
      assert Decimal(n)[..|Decimal(n)| - 1] == Decimal(n / 10);
    }
  }

  lemma {:induction false} CountDigits(s: seq<octet>, rest: seq<octet>)
    requires forall k :: 0 <= k < |s| ==> IsDigit(s[k])
    requires rest != [] && !IsDigit(rest[0])
    ensures DigitCount(s + rest) == |s|
  {
    if s == [] {
      assert s + rest == rest;
    } else {
      assert (s + rest)[1..] == s[1..] + rest;
      CountDigits(s[1..], rest);
    }
  }

  lemma {:induction false} SkipGap(gap: seq<octet>, rest: seq<octet>)
    requires forall k :: 0 <= k < |gap| ==> IsSpace(gap[k])
    requires rest != [] && !IsSpace(rest[0])
    ensures SkipSpace(gap + rest) == rest
  {
    if gap == [] {
      assert gap + rest == rest;
    } else {
      assert (gap + rest)[1..] == gap[1..] + rest;
      SkipGap(gap[1..], rest);
    }
  }

  lemma HeaderOfPrinted(f: Frame, rest: seq<octet>)
    requires IsFrame(f)
    ensures var h := ReadHeader(Print(f) + rest);
            h.Header? && h.units == Units(f.text) && (Print(f) + rest)[h.length..] == Encode(f.text) + rest
  {
    hide IsSpace, IsDigit, Encode, Decimal, IsText;
    var digits, payload := Decimal(Units(f.text)), Encode(f.text);
    var tail := [NEWLINE] + (payload + rest);
    var s := Print(f) + rest;
    DecimalDigits(Units(f.text));
    assert s == f.gap + (digits + tail);
    assert !IsDigit(NEWLINE) && !IsSpace(digits[0]) by { DigitIsNoSpace(digits[0]); }
    SkipGap(f.gap, digits + tail);
    CountDigits(digits, tail);
    assert (digits + tail)[..|digits|] == digits;
    assert s[|f.gap| + |digits| + 1..] == payload + rest;
  }

  lemma FirstFrame(f: Frame, rest: seq<octet>)
    requires IsFrame(f)
    ensures Frames(Print(f) + rest) ==
            (if Blank(Encode(f.text)) then [] else [Encode(f.text)]) + Frames(rest)
  {
    hide Blank, Encode, TakeUnits, ReadHeader, Print, IsText;
    var payload := Encode(f.text);
    HeaderOfPrinted(f, rest);
    TakeUnitsOfText(f.text, rest);
    assert (payload + rest)[..|payload|] == payload && (payload + rest)[|payload|..] == rest;
  }

  lemma DigitIsNoSpace(c: octet)
    ensures IsDigit(c) ==> !IsSpace(c)
    ensures !IsDigit(NEWLINE)
  {
  }

  /** Any list of frames, printed one after the other, is read back as the list of its payloads that are not blank. */
  lemma {:induction false} FramesOfPrinted(fs: seq<Frame>)
    requires AreFrames(fs)
    ensures Frames(PrintAll(fs)) == Payloads(fs)
  {
    hide Print, Blank, IsFrame, Encode;
    if fs == [] {
      assert DigitCount([]) == 0;
    } else {
      FirstFrame(fs[0], PrintAll(fs[1..]));
      FramesOfPrinted(fs[1..]);
    }
  }

  // ---- The program ----

  /** The digits from index i on. */
  method ScanDigits(body: seq<octet>, start: nat) returns (i: nat)
    requires start <= |body|
    ensures i == start + DigitCount(body[start..])
  {
    i := start;
    while i < |body| && IsDigit(body[i])
      invariant start <= i <= |body|
      invariant i + DigitCount(body[i..]) == start + DigitCount(body[start..])
    {
      assert body[i..][1..] == body[i + 1..];
      i := i + 1;
    }
  }

  method ScanSpace(body: seq<octet>, start: nat) returns (i: nat)
    requires start <= |body|
    ensures start <= i <= |body| && body[i..] == SkipSpace(body[start..])
  {
    i := start;
    while i < |body| && IsSpace(body[i])
      invariant start <= i <= |body|
      invariant SkipSpace(body[i..]) == SkipSpace(body[start..])
    {
      assert body[i..][1..] == body[i + 1..];
      i := i + 1;
    }
  }

  /** The character at index i (aigptbot.cpp:1403-1418). */
  method DecodeAt(body: seq<octet>, i: nat) returns (cpLen: nat, cp: nat)
    requires i < |body|
    ensures (cpLen, cp) == Decode(body[i..])
  {
    hide Two, Three, Four;
    var c := body[i];
    cpLen, cp := 1, c;
    if 0xF0 <= c < 0xF8 && i + 4 <= |body| {
      cpLen, cp := 4, Four(c, body[i + 1], body[i + 2], body[i + 3]);
    } else if 0xE0 <= c < 0xF0 && i + 3 <= |body| {
      cpLen, cp := 3, Three(c, body[i + 1], body[i + 2]);
    } else if 0xC0 <= c < 0xE0 && i + 2 <= |body| {
      cpLen, cp := 2, Two(c, body[i + 1]);
    }
  }

  /** The index after the payload that starts at start (aigptbot.cpp:1401-1423). It never passes the end of the body. */
  method ScanPayload(body: seq<octet>, start: nat, expected: nat) returns (i: nat)
    requires start <= |body|
    ensures i == start + TakeUnits(body[start..], expected) <= |body|
  {
    hide UnitsOf, Decode;
    i := start;
    var units := 0;
    while i < |body| && units < expected
      invariant start <= i <= |body| && units <= expected
      invariant i + TakeUnits(body[i..], expected - units) == start + TakeUnits(body[start..], expected)
    {
      var cpLen, cp := DecodeAt(body, i);
      assert body[i..][cpLen..] == body[i + cpLen..];
      var add := UnitsOf(cp);
      if units + add > expected {
        break;
      }
      units := units + add;
      i := i + cpLen;
    }
  }

  /** The index of the payload and its length in code units, if there is a header (aigptbot.cpp:1393-1400). */
  method ScanHeader(body: seq<octet>, start: nat) returns (found: bool, i: nat, expected: nat)
    requires start <= |body|
    ensures found <==> ReadHeader(body[start..]).Header?
    ensures found ==> start < i <= |body| && ReadHeader(body[start..]) == Header(i - start, expected)
  {
    hide IsDigit, Value;
    found, expected := false, 0;
    i := ScanSpace(body, start);
    if i >= |body| {
      return;
    }
    var numStart := i;
    i := ScanDigits(body, i);
    ghost var t := body[numStart..];
    if i == numStart || i >= |body| || body[i] != NEWLINE {
      return;
    }
    DigitsAreDigits(t);
    assert body[numStart..i] == t[..i - numStart];
    found, expected := true, Value(body[numStart..i]);
    i := i + 1;
  }

  lemma FrameBetween(body: seq<octet>, i: nat, start: nat, next: nat, units: nat)
    requires i < start <= next <= |body|
    requires ReadHeader(body[i..]) == Header(start - i, units) && next == start + TakeUnits(body[start..], units)
    ensures Frames(body[i..]) ==
            (if Blank(body[start..next]) then [] else [body[start..next]]) + Frames(body[next..])
  {
    hide Blank, TakeUnits, ReadHeader;
    assert body[i..][start - i..] == body[start..];
    assert body[start..][..next - start] == body[start..next] && body[start..][next - start..] == body[next..];
  }

  /** The loop over the frames, on any bytes. */
  method SplitFrames(body: seq<octet>) returns (frames: seq<seq<octet>>)
    ensures frames == Frames(if PREFIX <= body then body[4..] else body)
  {
    hide Blank, TakeUnits, ReadHeader, Frames;
    var i := 0;
    if PREFIX <= body {
      i := 4;
    }
    ghost var from := body[i..];
    assert from == if PREFIX <= body then body[4..] else body;
    frames := [];
    while i < |body|
      invariant i <= |body|
      invariant frames + Frames(body[i..]) == Frames(from)
      decreases |body| - i
    {
      var found, payloadStart, expected := ScanHeader(body, i);
      if !found {
        NoHeaderNoFrames(body[i..]);
        break;
      }
      var next := ScanPayload(body, payloadStart, expected);
      FrameBetween(body, i, payloadStart, next, expected);
      i := next;
      if Blank(body[payloadStart..next]) {
        continue;
      }
      frames := Pushed(frames, body[payloadStart..next], Frames(body[next..]));
    }
    NoHeaderNoFrames([]);
    assert i == |body| ==> body[i..] == [];
    assert frames + [] == frames;
  }

  lemma NoHeaderNoFrames(s: seq<octet>)
    ensures ReadHeader([]).NoHeader? && (ReadHeader(s).NoHeader? ==> Frames(s) == [])
  {
  }

  function Pushed(frames: seq<seq<octet>>, frame: seq<octet>, ghost later: seq<seq<octet>>): (r: seq<seq<octet>>)
    ensures r == frames + [frame] && r + later == frames + ([frame] + later)
  {
    frames + [frame]
  }

  /** The body that a server prints is split into exactly its payloads. */
  lemma SplitOfPrinted(fs: seq<Frame>)
    requires AreFrames(fs)
    ensures var body := PREFIX + PrintAll(fs);
            Frames(if PREFIX <= body then body[4..] else body) == Payloads(fs)
  {
    var body := PREFIX + PrintAll(fs);
    assert body[4..] == PrintAll(fs);
    FramesOfPrinted(fs);
  }

  // ---- What is not printed so ----

  /** A header is white space, digits and a line end, and its number is that of the digits. */
  lemma HeaderMeans(s: seq<octet>) returns (gap: seq<octet>, digits: seq<octet>)
    requires ReadHeader(s).Header?
    ensures digits != [] && forall k :: 0 <= k < |digits| ==> IsDigit(digits[k])
    ensures forall k :: 0 <= k < |gap| ==> IsSpace(gap[k])
    ensures s[..ReadHeader(s).length] == gap + digits + [NEWLINE] && ReadHeader(s).units == Value(digits)
  {
    var t := SkipSpace(s);
    SkipSpaceShortens(s);
    DigitsAreDigits(t);
    gap := SpaceSkipped(s);
    digits := t[..DigitCount(t)];
    assert s == gap + t;
    assert s[..ReadHeader(s).length] == gap + (digits + [NEWLINE]);
  }

  lemma {:induction false} SpaceSkipped(s: seq<octet>) returns (gap: seq<octet>)
    ensures s == gap + SkipSpace(s) && forall k :: 0 <= k < |gap| ==> IsSpace(gap[k])
  {
    gap := [];
    if s != [] && IsSpace(s[0]) {
      var g := SpaceSkipped(s[1..]);
      gap := [s[0]] + g;
      assert s == [s[0]] + s[1..];
    }
  }

  /** Whatever number is announced, as many characters are taken as have no more code units than that. */
  lemma {:induction false} TakesAsManyAsFit(cps: seq<nat>, expected: nat, j: nat)
    requires IsText(cps) && j <= |cps| && Units(cps[..j]) <= expected
    requires j < |cps| ==> Units(cps[..j + 1]) > expected
    ensures TakeUnits(Encode(cps), expected) == |Encode(cps[..j])|
  {
    hide Utf8, Decode, IsScalar;
    if cps != [] {
      var tail := Encode(cps[1..]);
      assert cps[..1] == [cps[0]] && Units(cps[..1]) == UnitsOf(cps[0]) + Units([]) && cps[0] == cps[..1][0];
      DecodeOfUtf8(cps[0], tail);
      assert (Utf8(cps[0]) + tail)[|Utf8(cps[0])|..] == tail;
      if j > 0 {
        assert cps[..j][1..] == cps[1..][..j - 1] && cps[..j][0] == cps[0];
        assert j < |cps| ==> cps[..j + 1][1..] == cps[1..][..j] && cps[..j + 1][0] == cps[0];
        TakesAsManyAsFit(cps[1..], expected - UnitsOf(cps[0]), j - 1);
      } else {
        assert cps[..0] == [];
      }
    }
  }

  // ---- Held to the standards ----

  /** The code units of a character: itself, or a pair of surrogates with ten bits each of what it exceeds 0xFFFF by. */
  function Utf16(cp: nat): (us: seq<nat>)
    requires IsScalar(cp)
    ensures forall k :: 0 <= k < |us| ==> us[k] <= 0xFFFF
    ensures |us| == 2 ==> 0xD800 <= us[0] < 0xDC00 <= us[1] < 0xE000
  {
    if cp < 0x10000 then [cp] else [0xD800 + (cp - 0x10000) / 0x400, 0xDC00 + (cp - 0x10000) % 0x400]
  }

  function Utf16All(cps: seq<nat>): seq<nat>
    requires IsText(cps)
  {
    if cps == [] then [] else Utf16(cps[0]) + Utf16All(cps[1..])
  }

  /** The length that a frame announces is the number of its UTF-16 code units. */
  lemma {:induction false} UnitsAreUtf16(cps: seq<nat>)
    requires IsText(cps)
    ensures Units(cps) == |Utf16All(cps)|
  {
    if cps != [] {
      UnitsAreUtf16(cps[1..]);
    }
  }

  /** The characters that section 7 of RFC 3629 takes from each length, and the digits of a number. */
  lemma EncodingExamples()
    ensures Utf8(0x41) == [0x41] && Utf8(0x391) == [0xCE, 0x91]
    ensures Utf8(0x2262) == [0xE2, 0x89, 0xA2] && Utf8(0xD55C) == [0xED, 0x95, 0x9C]
    ensures Utf8(0x233B4) == [0xF0, 0xA3, 0x8E, 0xB4]
    ensures Decimal(1024) == [0x31, 0x30, 0x32, 0x34]
  {
    assert Decimal(1) == [0x31] && Decimal(10) == [0x31, 0x30] && Decimal(102) == [0x31, 0x30, 0x32];
  }

  /** What is left out are the frames whose texts have no other characters than blanks, tabs and line ends. */
  lemma {:induction false} BlankIsWhiteText(cps: seq<nat>)
    requires IsText(cps)
    ensures Blank(Encode(cps)) <==> forall k :: 0 <= k < |cps| ==>
              cps[k] == 32 || cps[k] == 9 || cps[k] == 10 || cps[k] == 13
  {
    if cps != [] {
      BlankIsWhiteText(cps[1..]);
      BlankCharacter(cps[0]);
      BlankInParts(Utf8(cps[0]), Encode(cps[1..]));
      hide Blank, Utf8, IsScalar;
      assert cps == [cps[0]] + cps[1..];
    }
  }

  lemma BlankCharacter(cp: nat)
    requires IsScalar(cp)
    ensures Blank(Utf8(cp)) <==> cp == 32 || cp == 9 || cp == 10 || cp == 13
  {
    assert Blank(Utf8(cp)) ==> Utf8(cp)[0] in {32, 9, 13, 10};
  }

  lemma BlankInParts(s: seq<octet>, t: seq<octet>)
    ensures Blank(s + t) <==> Blank(s) && Blank(t)
  {
    if Blank(s + t) {
      assert forall k :: 0 <= k < |s| ==> s[k] == (s + t)[k];
      assert forall k :: 0 <= k < |t| ==> t[k] == (s + t)[|s| + k];
    }
  }
}
