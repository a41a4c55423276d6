/** base64Encode (qlappcom/aigptbot.cpp:522-557) and base64UrlDecode (qlappcom/fanyibot.cpp:478-509), held to sections 4
    and 5 of RFC 4648.

    Both work on 32-bit accumulators; the decoder never masks its own, and takes every variant of the encoding: padded
    or not, in either alphabet.
*/
module Base64 {
  import opened Bytes
  import opened Words

  // ---- The alphabets ----

  const PAD: byte := 0x3D

  /** The letter of a 6-bit value: A-Z, a-z, 0-9, +, /. */
  function Letter(v: byte): byte {
    if v < 26 then 0x41 + v
    else if v < 52 then 0x61 + (v - 26)
    else if v < 62 then 0x30 + (v - 52)
    else if v == 62 then 0x2B
    else 0x2F
  }

  datatype Digit = NotDigit | Digit(value: byte)

  /** The reverse table of the standard alphabet. */
  function Reverse(c: byte): Digit {
    if 0x41 <= c <= 0x5A then Digit(c - 0x41)
    else if 0x61 <= c <= 0x7A then Digit(c - 0x61 + 26)
    else if 0x30 <= c <= 0x39 then Digit(c - 0x30 + 52)
    else if c == 0x2B then Digit(62)
    else if c == 0x2F then Digit(63)
    else NotDigit
  }

  /** The value of a character in either alphabet: '-' and '_' stand for 62 and 63. */
  function ValueOf(c: byte): Digit {
    if c == 0x2D then Digit(62)
    else if c == 0x5F then Digit(63)
    else if c < 128 then Reverse(c)
    else NotDigit
  }

  predicate IsSextet(v: byte) {
    v & 0xC0 == 0
  }

  lemma LetterHasValue(v: byte)
    requires IsSextet(v)
    ensures ValueOf(Letter(v)) == Digit(v) && Letter(v) != PAD
  {
  }

  lemma ValuesAreSextets(c: byte)
    ensures ValueOf(c).Digit? ==> IsSextet(ValueOf(c).value)
  {
  }

  // ---- Bytes and 6-bit values ----

  // The four values of the bytes a, b, c; a missing byte counts as 0.

  function First(a: byte): byte {
    a >> 2
  }

  function Second(a: byte, b: byte): byte {
    ((a & 3) << 4) | (b >> 4)
  }

  function Third(b: byte, c: byte): byte {
    ((b & 0xF) << 2) | (c >> 6)
  }

  function Fourth(c: byte): byte {
    c & 0x3F
  }

  /** Three bytes become four values, two become three, one becomes two. */
  function Split(x: seq<byte>): seq<byte> {
    if |x| == 0 then []
    else if |x| == 1 then [First(x[0]), Second(x[0], 0)]
    else if |x| == 2 then [First(x[0]), Second(x[0], x[1]), Third(x[1], 0)]
    else [First(x[0]), Second(x[0], x[1]), Third(x[1], x[2]), Fourth(x[2])] + Split(x[3..])
  }

  lemma {:induction false} SplitSextets(x: seq<byte>)
    ensures forall v :: v in Split(x) ==> IsSextet(v)
  {
    if |x| >= 3 {
      SextetBounds(x[0], x[1], x[2]);
      hide First, Second, Third, Fourth, IsSextet;
      SplitSextets(x[3..]);
    } else if |x| > 0 {
      SextetBounds(x[0], x[|x| - 1], 0);
      SextetBounds(x[0], 0, 0);
    }
  }

  lemma SextetBounds(a: byte, b: byte, c: byte)
    ensures IsSextet(First(a)) && IsSextet(Second(a, b)) && IsSextet(Third(b, c)) && IsSextet(Fourth(c))
  {
  }

  /** The byte that ends inside value v, k values into a group: the low bits of the value before and the high bits of
      v. */
  function Join(last: byte, v: byte, k: nat): byte
    requires 1 <= k <= 3
  {
    if k == 1 then (last << 2) | (v >> 4) else if k == 2 then (last << 4) | (v >> 2) else (last << 6) | v
  }

  /** Four values become three bytes; of a shorter last group only the whole bytes count. */
  function Merge(vs: seq<byte>): seq<byte> {
    if |vs| <= 1 then []
    else if |vs| == 2 then [Join(vs[0], vs[1], 1)]
    else if |vs| == 3 then [Join(vs[0], vs[1], 1), Join(vs[1], vs[2], 2)]
    else [Join(vs[0], vs[1], 1), Join(vs[1], vs[2], 2), Join(vs[2], vs[3], 3)] + Merge(vs[4..])
  }

  lemma MergeGroup(a: byte, b: byte, c: byte)
    ensures Join(First(a), Second(a, b), 1) == a
    ensures Join(Second(a, b), Third(b, c), 2) == b
    ensures Join(Third(b, c), Fourth(c), 3) == c
  {
  }

  lemma {:induction false} MergeOfSplit(x: seq<byte>)
    ensures Merge(Split(x)) == x
  {
    hide First, Second, Third, Fourth, Join;
    if |x| == 1 {
      MergeGroup(x[0], 0, 0);
    } else if |x| == 2 {
      MergeGroup(x[0], x[1], 0);
    } else if |x| >= 3 {
      MergeGroup(x[0], x[1], x[2]);
      MergeOfSplit(x[3..]);
      assert Split(x)[4..] == Split(x[3..]);
      assert x == [x[0], x[1], x[2]] + x[3..];
    }
  }

  /** What one value more, the last being v, adds to a group of n values. */
  function Completed(vs: seq<byte>, v: byte): seq<byte> {
    if |vs| % 4 == 0 then [] else [Join(vs[|vs| - 1], v, |vs| % 4)]
  }

  lemma MergeOfFew(a: byte, b: byte, c: byte, d: byte)
    ensures Merge([]) == [] && Merge([a]) == [] && Merge([a, b]) == [Join(a, b, 1)]
    ensures Merge([a, b, c]) == [Join(a, b, 1), Join(b, c, 2)]
    ensures Merge([a, b, c, d]) == [Join(a, b, 1), Join(b, c, 2), Join(c, d, 3)]
  {
    hide Join;
    assert [a, b, c, d][4..] == [] && Merge([]) == [];
  }

  lemma CompletedByOne(a: byte, v: byte)
    ensures Completed([], v) == [] && Completed([a], v) == [Join(a, v, 1)]
  {
    hide Join;
  }

  lemma CompletedByTwo(a: byte, b: byte, v: byte)
    ensures Completed([a, b], v) == [Join(b, v, 2)]
  {
    hide Join;
  }

  lemma CompletedByThree(a: byte, b: byte, c: byte, v: byte)
    ensures Completed([a, b, c], v) == [Join(c, v, 3)]
  {
    hide Join;
  }

  lemma SnocToFew(a: byte, b: byte, c: byte, v: byte)
    ensures Merge([] + [v]) == Merge([]) + Completed([], v) && Merge([a] + [v]) == Merge([a]) + Completed([a], v)
    ensures Merge([a, b] + [v]) == Merge([a, b]) + Completed([a, b], v)
    ensures Merge([a, b, c] + [v]) == Merge([a, b, c]) + Completed([a, b, c], v)
  {
    hide Join, Merge, Completed;
    MergeOfFew(v, v, v, v);
    MergeOfFew(a, v, v, v);
    MergeOfFew(a, b, v, v);
    MergeOfFew(a, b, c, v);
    CompletedByOne(a, v);
    CompletedByTwo(a, b, v);
    CompletedByThree(a, b, c, v);
    assert [] + [v] == [v] && [a] + [v] == [a, v] && [a, b] + [v] == [a, b, v] && [a, b, c] + [v] == [a, b, c, v];
  }

  lemma MergeSnocShort(vs: seq<byte>, v: byte)
    requires |vs| < 4
    ensures Merge(vs + [v]) == Merge(vs) + Completed(vs, v)
  {
    hide Join, Merge, Completed;
    if |vs| == 0 {
      SnocToFew(v, v, v, v);
      assert vs == [];
    } else if |vs| == 1 {
      SnocToFew(vs[0], v, v, v);
      assert vs == [vs[0]];
    } else if |vs| == 2 {
      SnocToFew(vs[0], vs[1], v, v);
      assert vs == [vs[0], vs[1]];
    } else {
      SnocToFew(vs[0], vs[1], vs[2], v);
      assert vs == [vs[0], vs[1], vs[2]];
    }
  }

  /** One value more gives one byte more, except at the start of a group. */
  lemma {:induction false} MergeSnoc(vs: seq<byte>, v: byte)
    ensures Merge(vs + [v]) == Merge(vs) + Completed(vs, v)
  {
    hide Join;
    if |vs| >= 4 {
      assert (vs + [v])[4..] == vs[4..] + [v];
      assert Completed(vs[4..], v) == Completed(vs, v);
      MergeSnoc(vs[4..], v);
      hide Completed;
      var head := [Join(vs[0], vs[1], 1), Join(vs[1], vs[2], 2), Join(vs[2], vs[3], 3)];
      assert Merge(vs + [v]) == head + Merge(vs[4..] + [v]);
    } else {
      MergeSnocShort(vs, v);
    }
  }

  // ---- Encoding ----

  function Letters(vs: seq<byte>): (s: seq<byte>)
    ensures |s| == |vs|
  {
    seq(|vs|, i requires 0 <= i < |vs| => Letter(vs[i]))
  }

  /** Section 4 of RFC 4648: the letters of the 6-bit values, padded to a multiple of four. */
  function Encoded(x: seq<byte>): seq<byte> {
    Letters(Split(x)) + if |x| % 3 == 1 then [PAD, PAD] else if |x| % 3 == 2 then [PAD] else []
  }

  /** The accumulator of three bytes, taken six bits at a time. */
  lemma SextetsOfAccumulator(a: byte, b: byte, c: byte)
    ensures var n := ((a as word) << 16) | ((b as word) << 8) | (c as word);
            && ((n >> 18) & 63) as byte == First(a) && ((n >> 12) & 63) as byte == Second(a, b)
            && ((n >> 6) & 63) as byte == Third(b, c) && (n & 63) as byte == Fourth(c)
    ensures var n := ((a as word) << 16) | ((b as word) << 8);
            && ((n >> 18) & 63) as byte == First(a) && ((n >> 12) & 63) as byte == Second(a, b)
            && ((n >> 6) & 63) as byte == Third(b, 0)
    ensures var n := (a as word) << 16;
            ((n >> 18) & 63) as byte == First(a) && ((n >> 12) & 63) as byte == Second(a, 0)
  {
  }

  lemma EncodedGroup(x: seq<byte>)
    requires |x| >= 3
    ensures Encoded(x) == Letters([First(x[0]), Second(x[0], x[1]), Third(x[1], x[2]), Fourth(x[2])]) + Encoded(x[3..])
  {
    hide First, Second, Third, Fourth, Letter;
    assert |x| % 3 == |x[3..]| % 3;
    var group := [First(x[0]), Second(x[0], x[1]), Third(x[1], x[2]), Fourth(x[2])];
    assert Letters(Split(x)) == Letters(group) + Letters(Split(x[3..]));
  }

  /** The letters of three bytes (aigptbot.cpp:528-534). */
  method EncodeThree(a: byte, b: byte, c: byte) returns (s: seq<byte>)
    ensures s == Letters([First(a), Second(a, b), Third(b, c), Fourth(c)])
  {
    var n := ((a as word) << 16) | ((b as word) << 8) | (c as word);
    SextetsOfAccumulator(a, b, c);
    hide First, Second, Third, Fourth, Letter;
    s := [Letter(((n >> 18) & 63) as byte), Letter(((n >> 12) & 63) as byte),
          Letter(((n >> 6) & 63) as byte), Letter((n & 63) as byte)];
  }

  /** The one or two bytes left over (aigptbot.cpp:537-548). */
  method EncodeRest(x: seq<byte>) returns (s: seq<byte>)
    requires |x| <= 2
    ensures s == Encoded(x)
  {
    s := [];
    if |x| == 1 {
      var n := (x[0] as word) << 16;
      SextetsOfAccumulator(x[0], 0, 0);
      hide First, Second, Third, Fourth, Letter;
      s := [Letter(((n >> 18) & 63) as byte), Letter(((n >> 12) & 63) as byte), PAD, PAD];
    } else if |x| == 2 {
      var n := ((x[0] as word) << 16) | ((x[1] as word) << 8);
      SextetsOfAccumulator(x[0], x[1], 0);
      hide First, Second, Third, Fourth, Letter;
      s := [Letter(((n >> 18) & 63) as byte), Letter(((n >> 12) & 63) as byte), Letter(((n >> 6) & 63) as byte), PAD];
    }
  }

  method Base64Encode(input: seq<byte>) returns (out: seq<byte>)
    ensures out == Encoded(input)
  {
    hide First, Second, Third, Fourth, Letter, Encoded;
    out := [];
    var i := 0;
    while i + 2 < |input|
      invariant 0 <= i <= |input|
      invariant out + Encoded(input[i..]) == Encoded(input)
    {
      EncodedGroup(input[i..]);
      var group := EncodeThree(input[i], input[i + 1], input[i + 2]);
      assert input[i..][3..] == input[i + 3..];
      out := out + group;
      i := i + 3;
    }
    var rest := EncodeRest(input[i..]);
    out := out + rest;
  }

  // ---- Decoding ----

  /** The values of the characters of s up to the first padding, characters outside both alphabets skipped. */
  function Values(s: seq<byte>): seq<byte> {
    if |s| == 0 || s[0] == PAD then []
    else if ValueOf(s[0]).Digit? then [ValueOf(s[0]).value] + Values(s[1..])
    else Values(s[1..])
  }

  /** Whatever its higher bits hold, the accumulator yields the byte that the last two values make. */
  lemma AccumulatorByte(bits: word, v: byte)
    requires IsSextet(v)
    ensures ((((bits << 6) | (v as word)) >> 4) & 0xFF) as byte == Join((bits & 0x3F) as byte, v, 1)
    ensures ((((bits << 6) | (v as word)) >> 2) & 0xFF) as byte == Join((bits & 0x3F) as byte, v, 2)
    ensures (((bits << 6) | (v as word)) & 0xFF) as byte == Join((bits & 0x3F) as byte, v, 3)
    ensures (((bits << 6) | (v as word)) & 0x3F) as byte == v
  {
  }

  /** nbits is what the values of the open group leave over, and the low bits of bits are the last value. */
  ghost predicate Accumulates(bits: word, nbits: bv6, seen: seq<byte>) {
    && nbits == (if |seen| % 4 == 0 then 0 else if |seen| % 4 == 1 then 6 else if |seen| % 4 == 2 then 4 else 2)
    && (|seen| > 0 ==> (bits & 0x3F) as byte == seen[|seen| - 1])
  }

  /** One value shifted into the accumulator, and the byte it completes, if any (fanyibot.cpp:501-506). */
  method Push(bits: word, nbits: bv6, v: byte, ghost seen: seq<byte>) returns (b: word, n: bv6, emitted: seq<byte>)
    requires IsSextet(v) && Accumulates(bits, nbits, seen)
    ensures Accumulates(b, n, seen + [v])
    ensures Merge(seen + [v]) == Merge(seen) + emitted
  {
    AccumulatorByte(bits, v);
    MergeSnoc(seen, v);
    hide Join, Merge;
    b := (bits << 6) | (v as word);
    n := nbits + 6;
    emitted := [];
    if n >= 8 {
      n := n - 8;
      emitted := [((b >> n) & 0xFF) as byte];
    }
  }

  /** The decoder: any text, in either alphabet, with or without padding, with any other characters in between. */
  method Base64UrlDecode(s: seq<byte>) returns (out: seq<byte>)
    ensures out == Merge(Values(s))
  {
    hide Merge, ValueOf, Accumulates;
    out := [];
    var bits: word := 0;
    var nbits: bv6 := 0;
    ghost var seen: seq<byte>, rest := [], Values(s);
    StartEmpty();
    for i := 0 to |s|
      invariant rest == Values(s[i..]) && seen + rest == Values(s)
      invariant out == Merge(seen) && Accumulates(bits, nbits, seen)
    {
      var c := s[i];
      assert s[i..][1..] == s[i + 1..];
      if c == PAD {
        assert rest == [];
        break;
      }
      rest := Values(s[i + 1..]);
      if ValueOf(c).NotDigit? {
        continue;
      }
      ValuesAreSextets(c);
      var emitted;
      bits, nbits, emitted := Push(bits, nbits, ValueOf(c).value, seen);
      seen := seen + [ValueOf(c).value];
      out := out + emitted;
    }
    assert rest == [] && seen + rest == seen;
  }

  lemma StartEmpty()
    ensures Merge([]) == [] && Accumulates(0, 0, [])
  {
  }

  // ---- Round trips ----

  lemma LettersInParts(v: byte, vs: seq<byte>, tail: seq<byte>)
    ensures Letters([v] + vs) + tail == [Letter(v)] + (Letters(vs) + tail)
  {
    hide Letter;
  }

  lemma ValuesOfOne(c: byte, rest: seq<byte>)
    requires c != PAD && ValueOf(c).Digit?
    ensures Values([c] + rest) == [ValueOf(c).value] + Values(rest)
  {
    hide ValueOf;
    assert ([c] + rest)[1..] == rest;
  }

  lemma {:induction false} ValuesOfLetters(vs: seq<byte>, tail: seq<byte>)
    requires forall i :: 0 <= i < |vs| ==> IsSextet(vs[i])
    ensures Values(Letters(vs) + tail) == vs + Values(tail)
  {
    hide IsSextet, Letter, ValueOf, Values;
    if |vs| == 0 {
      assert Letters(vs) + tail == tail;
    } else {
      var v, rest := vs[0], vs[1..];
      assert vs == [v] + rest;
      LetterHasValue(v);
      LettersInParts(v, rest, tail);
      ValuesOfLetters(rest, tail);
      hide Letters;
      ValuesOfOne(Letter(v), Letters(rest) + tail);
      assert [v] + (rest + Values(tail)) == vs + Values(tail);
    }
  }

  lemma ValuesOfEncoded(x: seq<byte>)
    ensures Values(Encoded(x)) == Split(x)
  {
    SplitSextets(x);
    var tail := if |x| % 3 == 1 then [PAD, PAD] else if |x| % 3 == 2 then [PAD] else [];
    ValuesOfLetters(Split(x), tail);
    assert Values(tail) == [];
  }

  /** Any text whose digits before the first padding are those of an encoding decodes to the bytes encoded. */
  lemma DecodeRoundTrip(x: seq<byte>, s: seq<byte>)
    requires Values(s) == Values(Encoded(x))
    ensures Merge(Values(s)) == x
  {
    ValuesOfEncoded(x);
    MergeOfSplit(x);
  }

  // ---- The variants a server may send ----

  /** Section 5 of RFC 4648: '-' for '+' and '_' for '/'. */
  function UrlAlphabet(s: seq<byte>): (t: seq<byte>)
    ensures |t| == |s|
  {
    seq(|s|, i requires 0 <= i < |s| => if s[i] == 0x2B then 0x2D else if s[i] == 0x2F then 0x5F else s[i])
  }

  /** base64EncodeNoPad: the padding at the end removed. */
  function StripPadding(s: seq<byte>): seq<byte> {
    if |s| > 0 && s[|s| - 1] == PAD then StripPadding(s[..|s| - 1]) else s
  }

  lemma {:induction false} UrlAlphabetKeepsValues(s: seq<byte>)
    ensures Values(UrlAlphabet(s)) == Values(s)
  {
    if |s| > 0 {
      UrlAlphabetKeepsValues(s[1..]);
      assert UrlAlphabet(s)[1..] == UrlAlphabet(s[1..]);
      var c := s[0];
      assert UrlAlphabet(s)[0] == if c == 0x2B then 0x2D else if c == 0x2F then 0x5F else c;
    }
  }

  lemma {:induction false} PaddingAtEndHasNoValue(s: seq<byte>)
    ensures Values(s + [PAD]) == Values(s)
  {
    if |s| > 0 {
      PaddingAtEndHasNoValue(s[1..]);
      assert (s + [PAD])[1..] == s[1..] + [PAD];
    }
  }

  lemma {:induction false} StripPaddingKeepsValues(s: seq<byte>)
    ensures Values(StripPadding(s)) == Values(s)
  {
    if |s| > 0 && s[|s| - 1] == PAD {
      StripPaddingKeepsValues(s[..|s| - 1]);
      PaddingAtEndHasNoValue(s[..|s| - 1]);
      assert s == s[..|s| - 1] + [PAD];
    }
  }

  lemma LettersAreNoPadding(vs: seq<byte>)
    requires forall v :: v in vs ==> IsSextet(v)
    ensures PAD !in Letters(vs)
  {
    forall i | 0 <= i < |vs| ensures Letters(vs)[i] != PAD {
      assert vs[i] in vs;
      LetterHasValue(vs[i]);
    }
  }

  lemma {:induction false} StripOfUnpadded(s: seq<byte>)
    requires PAD !in s
    ensures StripPadding(s) == s && StripPadding(s + [PAD]) == s && StripPadding(s + [PAD, PAD]) == s
  {
    assert (s + [PAD])[..|s|] == s;
    assert (s + [PAD, PAD])[..|s| + 1] == s + [PAD];
  }

  /** In the URL alphabet, without its padding, an encoding has none of the characters that a URL reserves. */
  lemma UrlVariantIsSafe(x: seq<byte>)
    ensures var s := UrlAlphabet(StripPadding(Encoded(x)));
            PAD !in s && 0x2B !in s && 0x2F !in s && |s| == |Split(x)|
  {
    SplitSextets(x);
    LettersAreNoPadding(Split(x));
    StripOfUnpadded(Letters(Split(x)));
    hide Split, Letter, StripPadding;
    assert Letters(Split(x)) + [] == Letters(Split(x));
  }

  /** Every byte string comes back from its encoding: as encoded, without padding, and in the URL alphabet. */
  lemma AllVariantsRoundTrip(x: seq<byte>)
    ensures Merge(Values(Encoded(x))) == x
    ensures Merge(Values(StripPadding(Encoded(x)))) == x
    ensures Merge(Values(UrlAlphabet(Encoded(x)))) == x
    ensures Merge(Values(UrlAlphabet(StripPadding(Encoded(x))))) == x
  {
    DecodeRoundTrip(x, Encoded(x));
    StripPaddingKeepsValues(Encoded(x));
    UrlAlphabetKeepsValues(Encoded(x));
    UrlAlphabetKeepsValues(StripPadding(Encoded(x)));
  }

  // ---- Table 1, table 2 and section 10 of RFC 4648 ----

  const CAPITALS := "ABCDEFGHIJKLMNOPQRSTUVWXYZ"
  const SMALL := "abcdefghijklmnopqrstuvwxyz"
  const DIGITS := "0123456789"

  /** The letter of a value: capitals, small letters and digits in order, then two signs. */
  predicate InTable(v: byte, c: char) {
    if v < 26 then c == CAPITALS[v as int]
    else if v < 52 then c == SMALL[(v as int) - 26]
    else if v < 62 then c == DIGITS[(v as int) - 52]
    else if v == 62 then c == '+'
    else c == '/'
  }

  lemma CapitalsRise(k: nat)
    requires k < 26
    ensures CAPITALS[k] as int == 0x41 + k
  {
  }

  lemma SmallRise(k: nat)
    requires k < 26
    ensures SMALL[k] as int == 0x61 + k
  {
  }

  /** The letters are those of table 1. */
  lemma LetterIsStandard(v: byte)
    requires IsSextet(v)
    ensures InTable(v, (Letter(v) as int) as char)
  {
    hide CAPITALS, SMALL;
    if v < 26 {
      CapitalsRise(v as nat);
    } else if v < 52 {
      SmallRise((v - 26) as nat);
    }
  }

  lemma ReverseIsLetter(c: byte)
    ensures ValueOf(c).Digit? && c != 0x2D && c != 0x5F ==> Letter(ValueOf(c).value) == c
    ensures ValueOf(0x2D) == Digit(62) && ValueOf(0x5F) == Digit(63)
  {
  }

  lemma SameLetter(v: byte, c: int, d: int)
    requires IsSextet(v) && 0 <= c < 256 && 0 <= d < 256 && InTable(v, c as char) && InTable(v, d as char)
    ensures c == d
  {
    assert c as char == d as char && (c as char) as int == c && (d as char) as int == d;
  }

  lemma LetterHasThatValue(c: byte, v: byte)
    requires IsSextet(v)
    ensures ValueOf(c) == Digit(v) <==> c == Letter(v) || (v == 62 && c == 0x2D) || (v == 63 && c == 0x5F)
  {
    LetterHasValue(v);
    ReverseIsLetter(c);
    hide Letter, ValueOf;
  }

  /** A character stands for a value exactly when it is its letter in table 1, or in table 2. */
  lemma ValueIsStandard(c: byte, v: byte)
    requires IsSextet(v)
    ensures ValueOf(c) == Digit(v) <==>
            InTable(v, (c as int) as char) || (v == 62 && c == 0x2D) || (v == 63 && c == 0x5F)
  {
    LetterIsStandard(v);
    LetterHasThatValue(c, v);
    hide Letter, ValueOf, CAPITALS, SMALL, InTable, IsSextet;
    if InTable(v, (c as int) as char) {
      SameLetter(v, c as int, Letter(v) as int);
    }
  }

  lemma Group(x: seq<byte>, v: byte, w: byte, y: byte, z: byte)
    requires |x| >= 3
    requires First(x[0]) == v && Second(x[0], x[1]) == w && Third(x[1], x[2]) == y && Fourth(x[2]) == z
    ensures Encoded(x) == [Letter(v), Letter(w), Letter(y), Letter(z)] + Encoded(x[3..])
  {
    EncodedGroup(x);
    hide Encoded, Letter, First, Second, Third, Fourth;
    assert Letters([v, w, y, z]) == [Letter(v), Letter(w), Letter(y), Letter(z)];
  }

  // The examples of section 10, character by character.

  const F: byte := 0x66
  const O: byte := 0x6F

  /** f is Zg==. */
  lemma ExampleOfOne()
    ensures Encoded([F]) == [0x5A, 0x67, PAD, PAD]
  {
    assert First(F) == 25 && Second(F, 0) == 32;
    assert Letter(25) == 0x5A && Letter(32) == 0x67;
    hide Letter, First, Second;
    assert Letters([25, 32]) == [0x5A, 0x67];
  }

  /** fo is Zm8=. */
  lemma ExampleOfTwo()
    ensures Encoded([F, O]) == [0x5A, 0x6D, 0x38, PAD]
  {
    assert First(F) == 25 && Second(F, O) == 38 && Third(O, 0) == 60;
    assert Letter(25) == 0x5A && Letter(38) == 0x6D && Letter(60) == 0x38;
    hide Letter, First, Second, Third;
    assert Letters([25, 38, 60]) == [0x5A, 0x6D, 0x38];
  }

  /** foobar is Zm9vYmFy. */
  lemma ExampleOfSix()
    ensures Encoded([F, O, O, 0x62, 0x61, 0x72]) == [0x5A, 0x6D, 0x39, 0x76] + [0x59, 0x6D, 0x46, 0x79]
  {
    var x: seq<byte> := [F, O, O, 0x62, 0x61, 0x72];
    var y: seq<byte> := [0x62, 0x61, 0x72];
    assert x[3..] == y && y[3..] == [];
    assert First(F) == 25 && Second(F, O) == 38 && Third(O, O) == 61 && Fourth(O) == 47;
    assert First(0x62) == 24 && Second(0x62, 0x61) == 38 && Third(0x61, 0x72) == 5 && Fourth(0x72) == 50;
    Group(x, 25, 38, 61, 47);
    Group(y, 24, 38, 5, 50);
    assert Encoded([]) == [];
    assert Letter(25) == 0x5A && Letter(38) == 0x6D && Letter(61) == 0x39 && Letter(47) == 0x76;
    assert Letter(24) == 0x59 && Letter(5) == 0x46 && Letter(50) == 0x79;
  }
}
