/** How a prompt travels to Gemini (qlappcom/aigptbot.cpp:315-338, 583-600, 1286-1318, 1605-1609). */
module PromptTransport {
  // It is escaped into a string of an array, which is escaped into a string of another array, which is percent-encoded
  // into a form field. The reading side follows sections 2.1 and 2.3 of RFC 3986 and section 7 of RFC 8259. A char
  // stands for a byte.

  import opened Options

  type bytes = s: string | forall i :: 0 <= i < |s| ==> s[i] as int < 256

  // ---- Percent-encoding ----

  predicate Unreserved(c: char) {
    'A' <= c <= 'Z' || 'a' <= c <= 'z' || '0' <= c <= '9' || c == '-' || c == '_' || c == '.' || c == '~'
  }

  function HexUpper(n: nat): char
    requires n < 16
  {
    if n < 10 then (n + 48) as char else (n + 55) as char
  }

  function HexLower(n: nat): char
    requires n < 16
  {
    if n < 10 then (n + 48) as char else (n + 87) as char
  }

  function HexValue(c: char): Option<nat> {
    if '0' <= c <= '9' then Some(c as int - 48)
    else if 'A' <= c <= 'F' then Some(c as int - 55)
    else if 'a' <= c <= 'f' then Some(c as int - 87)
    else None
  }

  lemma HexRoundTrip(n: nat)
    requires n < 16
    ensures HexValue(HexUpper(n)) == Some(n) && HexValue(HexLower(n)) == Some(n)
  {
  }

  function EncodeByte(c: char): string
    requires c as int < 256
  {
    if Unreserved(c) then [c] else ['%', HexUpper(c as int / 16), HexUpper(c as int % 16)]
  }

  function UrlEncoded(s: bytes): string {
    if s == "" then "" else EncodeByte(s[0]) + UrlEncoded(s[1..])
  }

  /** Section 2.1 of RFC 3986: a percent sign and two hexadecimal digits stand for a byte. */
  function PercentDecode(s: string): Option<string> {
    if s == "" then Some("")
    else if s[0] != '%' then
      match PercentDecode(s[1..])
      case Some(t) => Some([s[0]] + t)
      case None => None
    else if |s| < 3 then None
    else
      match (HexValue(s[1]), HexValue(s[2]), PercentDecode(s[3..]))
      case (Some(h), Some(l), Some(t)) => Some([(h * 16 + l) as char] + t)
      case _ => None
  }

  lemma DecodeOfByte(c: char, rest: string)
    requires c as int < 256
    ensures PercentDecode(EncodeByte(c) + rest) ==
            match PercentDecode(rest) { case Some(t) => Some([c] + t) case None => None }
  {
    var s := EncodeByte(c) + rest;
    if Unreserved(c) {
      assert s[1..] == rest;
    } else {
      HexRoundTrip(c as int / 16);
      HexRoundTrip(c as int % 16);
      assert s[3..] == rest;
    }
  }

  /** Every byte string comes back, and its encoding has no separator of a form in it. */
  lemma {:induction false} PercentRoundTrip(s: bytes)
    ensures PercentDecode(UrlEncoded(s)) == Some(s)
    ensures forall i :: 0 <= i < |UrlEncoded(s)| ==> Unreserved(UrlEncoded(s)[i]) || UrlEncoded(s)[i] == '%'
  {
    hide HexUpper, HexValue;
    if s != "" {
      PercentRoundTrip(s[1..]);
      DecodeOfByte(s[0], UrlEncoded(s[1..]));
      EncodedByteChars(s[0]);
      assert s == [s[0]] + s[1..];
    }
  }

  lemma EncodedByteChars(c: char)
    requires c as int < 256
    ensures forall i :: 0 <= i < |EncodeByte(c)| ==> Unreserved(EncodeByte(c)[i]) || EncodeByte(c)[i] == '%'
  {
  }

  method EncodeOne(c: char) returns (out: string)
    requires c as int < 256
    ensures out == EncodeByte(c)
  {
    hide Unreserved;
    if Unreserved(c) {
      out := [c];
    } else {
      out := ['%', HexUpper(c as int / 16), HexUpper(c as int % 16)];
    }
  }

  method UrlEncode(s: bytes) returns (out: string)
    ensures out == UrlEncoded(s)
  {
    hide EncodeByte;
    out := "";
    for i := 0 to |s|
      invariant out + UrlEncoded(s[i..]) == UrlEncoded(s)
    {
      assert s[i..][0] == s[i] && s[i..][1..] == s[i + 1..];
      var e := EncodeOne(s[i]);
      out := out + e;
    }
  }

  // ---- JSON strings ----

  function EscapeChar(c: char): string {
    if c == '"' then "\\\""
    else if c == '\\' then "\\\\"
    else if c as int == 8 then "\\b"
    else if c as int == 12 then "\\f"
    else if c == '\n' then "\\n"
    else if c == '\r' then "\\r"
    else if c == '\t' then "\\t"
    else if c as int < 0x20 then ['\\', 'u', '0', '0', HexLower(c as int / 16), HexLower(c as int % 16)]
    else [c]
  }

  function Escaped(s: string): string {
    if s == "" then "" else EscapeChar(s[0]) + Escaped(s[1..])
  }

  /** The character of an escape sequence after the backslash, and how long the sequence is. Four hexadecimal digits are
      read when they stand for an ASCII character; others the program never prints. */
  function ReadEscape(s: string): Option<(char, nat)> {
    if s == "" then None
    else if s[0] == '"' || s[0] == '\\' || s[0] == '/' then Some((s[0], 1))
    else if s[0] == 'b' then Some((8 as char, 1))
    else if s[0] == 'f' then Some((12 as char, 1))
    else if s[0] == 'n' then Some(('\n', 1))
    else if s[0] == 'r' then Some(('\r', 1))
    else if s[0] == 't' then Some(('\t', 1))
    else if s[0] == 'u' && |s| >= 5 then
      match (HexValue(s[1]), HexValue(s[2]), HexValue(s[3]), HexValue(s[4]))
      case (Some(0), Some(0), Some(h), Some(l)) => if h < 8 then Some(((h * 16 + l) as char, 5)) else None
      case _ => None
    else None
  }

  lemma ReadEscapeLength(s: string)
    ensures ReadEscape(s).Some? ==> 1 <= ReadEscape(s).value.1 <= |s|
  {
  }

  /** The string up to the closing quotation mark, and what follows (section 7 of RFC 8259). */
  function ReadString(s: string): (r: Option<(string, string)>)
    ensures r.Some? ==> |r.value.1| < |s|
    decreases |s|
  {
    if s == "" then None
    else if s[0] == '"' then Some(("", s[1..]))
    else if s[0] == '\\' then
      ReadEscapeLength(s[1..]);
      match ReadEscape(s[1..])
      case None => None
      case Some((c, n)) =>
        (match ReadString(s[1 + n..])
         case Some((t, rest)) => Some(([c] + t, rest))
         case None => None)
    else if s[0] as int < 0x20 then None
    else
      match ReadString(s[1..])
      case Some((t, rest)) => Some(([s[0]] + t, rest))
      case None => None
  }

  lemma ReadOfEscapedChar(c: char, rest: string)
    ensures ReadString(EscapeChar(c) + rest) ==
            match ReadString(rest) { case Some((t, left)) => Some(([c] + t, left)) case None => None }
  {
    var e := EscapeChar(c);
    var s := e + rest;
    if |e| == 1 {
      assert s[1..] == rest;
    } else if |e| == 2 {
      assert s[1..][0] == e[1] && s[1..][1..] == rest && s[2..] == rest;
    } else {
      HexRoundTrip(c as int / 16);
      HexRoundTrip(c as int % 16);
      ReadOfHexEscape(c, rest);
      assert s[6..] == rest;
    }
  }

  lemma ReadOfHexEscape(c: char, rest: string)
    requires |EscapeChar(c)| == 6
    ensures ReadEscape((EscapeChar(c) + rest)[1..]) == Some((c, 5))
  {
    HexRoundTrip(c as int / 16);
    HexRoundTrip(c as int % 16);
    var s := (EscapeChar(c) + rest)[1..];
    assert s[0] == 'u' && s[1] == '0' && s[2] == '0' && s[3] == EscapeChar(c)[4] && s[4] == EscapeChar(c)[5];
  }

  /** Every string comes back from its escaped form, whatever follows the closing quotation mark. */
  lemma {:induction false} ReadOfEscaped(s: string, rest: string)
    ensures ReadString(Escaped(s) + "\"" + rest) == Some((s, rest))
  {
    hide EscapeChar;
    if s == "" {
      assert Escaped(s) + "\"" + rest == "\"" + rest;
      assert ("\"" + rest)[1..] == rest;
    } else {
      var tail := Escaped(s[1..]) + "\"" + rest;
      assert Escaped(s) + "\"" + rest == EscapeChar(s[0]) + tail;
      ReadOfEscapedChar(s[0], tail);
      hide ReadString;
      ReadOfEscaped(s[1..], rest);
      assert s == [s[0]] + s[1..];
    }
  }

  /** The switch over one character (aigptbot.cpp:319-335). */
  method EscapeOne(c: char) returns (out: string)
    ensures out == EscapeChar(c)
  {
    if c == '"' {
      out := "\\\"";
    } else if c == '\\' {
      out := "\\\\";
    } else if c as int == 8 {
      out := "\\b";
    } else if c as int == 12 {
      out := "\\f";
    } else if c == '\n' {
      out := "\\n";
    } else if c == '\r' {
      out := "\\r";
    } else if c == '\t' {
      out := "\\t";
    } else if c as int < 0x20 {
      out := ['\\', 'u', '0', '0', HexLower(c as int / 16), HexLower(c as int % 16)];
    } else {
      out := [c];
    }
  }

  method JsonEscape(s: string) returns (out: string)
    ensures out == Escaped(s)
  {
    hide EscapeChar;
    out := "";
    for i := 0 to |s|
      invariant out + Escaped(s[i..]) == Escaped(s)
    {
      assert s[i..][0] == s[i] && s[i..][1..] == s[i + 1..];
      var e := EscapeOne(s[i]);
      out := out + e;
    }
  }

  // ---- JSON arrays ----

  /** Null, numbers, strings and arrays, as far as the program prints them. */
  datatype Json = Null | Number(digits: string) | Text(s: string) | List(items: seq<Json>)

  predicate IsDigit(c: char) {
    '0' <= c <= '9'
  }

  predicate IsNumber(s: string) {
    s != "" && forall i :: 0 <= i < |s| ==> IsDigit(s[i])
  }

  predicate Printable(v: Json) {
    match v
    case Number(digits) => IsNumber(digits)
    case List(items) => forall i :: 0 <= i < |items| ==> Printable(items[i])
    case _ => true
  }

  function Printed(v: Json): string {
    match v
    case Null => "null"
    case Number(digits) => digits
    case Text(s) => Quoted(Escaped(s))
    case List(items) => Bracketed(PrintedItems(items))
  }

  function PrintedItems(items: seq<Json>): string {
    if items == [] then ""
    else if |items| == 1 then Printed(items[0])
    else Comma(Printed(items[0]), PrintedItems(items[1..]))
  }

  function Comma(first: string, rest: string): string {
    first + "," + rest
  }

  function Quoted(s: string): string {
    "\"" + s + "\""
  }

  function Bracketed(s: string): string {
    "[" + s + "]"
  }

  function DigitCount(s: string): (k: nat)
    ensures k <= |s|
  {
    if s != "" && IsDigit(s[0]) then 1 + DigitCount(s[1..]) else 0
  }

  /** A value, and what follows it. No white space is read: the program prints none. */
  function ReadValue(s: string): (r: Option<(Json, string)>)
    ensures r.Some? ==> |r.value.1| < |s|
    decreases |s|, 1
  {
    if s == "" then None
    else if s[0] == 'n' then (if "null" <= s then Some((Null, s[4..])) else None)
    else if s[0] == '"' then
      match ReadString(s[1..])
      case Some((t, rest)) => Some((Text(t), rest))
      case None => None
    else if s[0] == '[' then
      if |s| > 1 && s[1] == ']' then Some((List([]), s[2..]))
      else
        match ReadItems(s[1..])
        case Some((items, rest)) => Some((List(items), rest))
        case None => None
    else
      var k := DigitCount(s);
      if k == 0 then None else Some((Number(s[..k]), s[k..]))
  }

  /** Items up to the closing bracket. */
  function ReadItems(s: string): (r: Option<(seq<Json>, string)>)
    ensures r.Some? ==> |r.value.1| < |s|
    decreases |s|, 2
  {
    match ReadValue(s)
    case None => None
    case Some((v, rest)) =>
      if rest != "" && rest[0] == ']' then Some(([v], rest[1..]))
      else if rest != "" && rest[0] == ',' then
        match ReadItems(rest[1..])
        case Some((items, left)) => Some(([v] + items, left))
        case None => None
      else None
  }

  lemma {:induction false} CountDigits(s: string, rest: string)
    requires forall i :: 0 <= i < |s| ==> IsDigit(s[i])
    requires rest == "" || !IsDigit(rest[0])
    ensures DigitCount(s + rest) == |s|
  {
    if s == "" {
      assert s + rest == rest;
    } else {
      assert (s + rest)[1..] == s[1..] + rest;
      CountDigits(s[1..], rest);
    }
  }

  /** Printed values do not begin with a closing bracket. */
  lemma PrintedBegins(v: Json, rest: string)
    requires Printable(v)
    ensures |Printed(v)| > 0 && Printed(v)[0] != ']' && (v.Number? ==> IsDigit(Printed(v)[0]))
  {
  }

  lemma ReadOfNull(rest: string)
    ensures ReadValue("null" + rest) == Some((Null, rest))
  {
    var s := "null" + rest;
    assert s[..4] == "null" && s[4..] == rest;
  }

  lemma ReadOfNumber(digits: string, rest: string)
    requires IsNumber(digits) && (rest == "" || !IsDigit(rest[0]))
    ensures ReadValue(digits + rest) == Some((Number(digits), rest))
  {
    var s := digits + rest;
    CountDigits(digits, rest);
    assert IsDigit(digits[0]) && s[0] == digits[0] && s[..|digits|] == digits && s[|digits|..] == rest;
  }

  lemma ReadOfText(t: string, rest: string)
    ensures ReadValue("\"" + Escaped(t) + "\"" + rest) == Some((Text(t), rest))
  {
    hide ReadString;
    assert ("\"" + Escaped(t) + "\"" + rest)[1..] == Escaped(t) + "\"" + rest;
    ReadOfEscaped(t, rest);
  }

  lemma ReadOfList(inner: string, items: seq<Json>, rest: string)
    requires inner != "" && inner[0] != ']' && ReadItems(inner + "]" + rest) == Some((items, rest))
    ensures ReadValue("[" + inner + "]" + rest) == Some((List(items), rest))
  {
    hide ReadItems;
    var s := "[" + inner + "]" + rest;
    assert s[1] == inner[0] && s[1..] == inner + "]" + rest;
  }

  lemma ReadOfEmptyList(rest: string)
    ensures ReadValue("[" + "" + "]" + rest) == Some((List([]), rest))
  {
    var s := "[" + "" + "]" + rest;
    assert s[1] == ']' && s[2..] == rest;
  }

  /** What is printed is read back, whatever follows it, as long as a number is not followed by another digit. */
  lemma {:induction false} ReadOfPrinted(v: Json, rest: string)
    requires Printable(v) && (v.Number? ==> rest == "" || !IsDigit(rest[0]))
    ensures ReadValue(Printed(v) + rest) == Some((v, rest))
    decreases v
  {
    hide ReadValue, Escaped;
    match v
    case Null => ReadOfNull(rest);
    case Number(digits) => ReadOfNumber(digits, rest);
    case Text(t) => ReadOfText(t, rest);
    case List(items) =>
      if items == [] {
        ReadOfEmptyList(rest);
      } else {
        ReadOfPrintedItems(items, rest);
        PrintedBegins(items[0], "");
        ReadOfList(PrintedItems(items), items, rest);
      }
  }

  lemma {:induction false} ReadOfPrintedItems(items: seq<Json>, rest: string)
    requires items != [] && forall i :: 0 <= i < |items| ==> Printable(items[i])
    ensures ReadItems(PrintedItems(items) + "]" + rest) == Some((items, rest))
    decreases items
  {
    hide Printed, Printable, ReadValue;
    var s := PrintedItems(items) + "]" + rest;
    if |items| == 1 {
      assert s == Printed(items[0]) + ("]" + rest);
      ReadOfPrinted(items[0], "]" + rest);
      assert ("]" + rest)[1..] == rest && items == [items[0]];
    } else {
      var tail := PrintedItems(items[1..]) + "]" + rest;
      assert s == Printed(items[0]) + ("," + tail);
      ReadOfPrinted(items[0], "," + tail);
      assert ("," + tail)[1..] == tail;
      ReadOfPrintedItems(items[1..], rest);
      assert items == [items[0]] + items[1..];
    }
  }

  // ---- The array of 81 slots ----

  /** What a request says: the prompt, the language, an identifier, and the conversation it continues. */
  datatype Request = Request(prompt: bytes, lang: bytes, uuid: bytes, conv: bytes, resp: bytes)

  const ZERO := Number("0")
  const ONE := Number("1")

  function PromptSlot(prompt: string): Json {
    List([Text(prompt), ZERO, Null, Null, Null, Null, ZERO])
  }

  function ConversationSlot(conv: string, resp: string): Json {
    List([Text(conv), Text(resp), Null, Null, Null, Null, Null, Null, Null, Text("")])
  }

  function Slot(q: Request, i: nat): Json {
    if i == 0 then PromptSlot(q.prompt)
    else if i == 1 then List([Text(q.lang)])
    else if i == 2 then ConversationSlot(q.conv, q.resp)
    else if i == 6 || i == 41 then List([ONE])
    else if i in {7, 10, 27, 68, 79, 80} then ONE
    else if i in {11, 18, 53} then ZERO
    else if i == 17 then List([List([ZERO])])
    else if i == 30 then List([Number("4")])
    else if i == 59 then Text(q.uuid)
    else if i == 61 then List([])
    else Null
  }

  function Slots(q: Request): (vs: seq<Json>)
    ensures |vs| == 81
  {
    seq(81, i requires 0 <= i < 81 => Slot(q, i))
  }

  /** Texts with commas in between. */
  function Joined(texts: seq<string>): string {
    if texts == [] then ""
    else if |texts| == 1 then texts[0]
    else Comma(texts[0], Joined(texts[1..]))
  }

  lemma {:induction false} PrintedIsJoined(vs: seq<Json>, texts: seq<string>)
    requires |texts| == |vs| && forall i :: 0 <= i < |vs| ==> texts[i] == Printed(vs[i])
    ensures PrintedItems(vs) == Joined(texts)
  {
    hide Printed, Comma;
    if |vs| > 1 {
      PrintedIsJoined(vs[1..], texts[1..]);
    }
  }

  lemma {:induction false} JoinedSnoc(texts: seq<string>, text: string)
    requires texts != []
    ensures Joined(texts + [text]) == Comma(Joined(texts), text)
  {
    if |texts| == 1 {
      assert (texts + [text])[1..] == [text];
    } else {
      assert (texts + [text])[1..] == texts[1..] + [text];
      JoinedSnoc(texts[1..], text);
    }
  }

  /** The text of a slot is what the program puts into it; an empty one stands for null. */
  predicate SlotText(text: string, v: Json) {
    (if text == "" then "null" else text) == Printed(v)
  }

  lemma PrintedConstants()
    ensures Printed(Null) == "null" && Printed(ZERO) == "0" && Printed(ONE) == "1" && Printed(Text("")) == Quoted("")
  {
  }

  lemma PromptText(prompt: string)
    ensures Printed(PromptSlot(prompt)) ==
            Bracketed(Joined([Quoted(Escaped(prompt)), "0", "null", "null", "null", "null", "0"]))
  {
    hide Escaped, Comma, Bracketed, Quoted, Joined;
    PrintedIsJoined(PromptSlot(prompt).items,
                    [Quoted(Escaped(prompt)), "0", "null", "null", "null", "null", "0"]);
  }

  lemma ConversationText(conv: string, resp: string)
    ensures Printed(ConversationSlot(conv, resp)) ==
            Bracketed(Joined([Quoted(Escaped(conv)), Quoted(Escaped(resp)), "null", "null", "null", "null", "null",
                              "null", "null", Quoted("")]))
  {
    PrintedConstants();
    hide Escaped, Comma, Bracketed, Quoted, Joined;
    PrintedIsJoined(ConversationSlot(conv, resp).items,
                    [Quoted(Escaped(conv)), Quoted(Escaped(resp)), "null", "null", "null", "null", "null", "null",
                     "null", Quoted("")]);
  }

  lemma ListOfOne(v: Json)
    ensures Printed(List([v])) == Bracketed(Printed(v))
    ensures Printed(List([])) == Bracketed("")
  {
  }

  /** The loop over the slots (aigptbot.cpp:1311-1316). */
  method JoinSlots(slot: seq<string>, ghost vs: seq<Json>) returns (inner: string)
    requires |slot| == |vs| && forall i :: 0 <= i < |vs| ==> SlotText(slot[i], vs[i])
    ensures inner == Printed(List(vs))
  {
    hide Printed, Joined;
    inner := "[";
    ghost var texts: seq<string> := [];
    JoinedNoneOrOne("");
    for i := 0 to |slot|
      invariant |texts| == i && forall j :: 0 <= j < i ==> texts[j] == Printed(vs[j])
      invariant inner == "[" + Joined(texts)
    {
      var text := if slot[i] == "" then "null" else slot[i];
      ghost var before := inner;
      if i > 0 {
        JoinedSnoc(texts, text);
        inner := inner + ",";
      } else {
        JoinedNoneOrOne(text);
      }
      inner := inner + text;
      texts := texts + [text];
    }
    inner := inner + "]";
    PrintedIsJoined(vs, texts);
    PrintedList(vs);
  }

  lemma JoinedNoneOrOne(text: string)
    ensures Joined([]) == "" && Joined([] + [text]) == text
  {
  }

  lemma PrintedList(vs: seq<Json>)
    ensures Printed(List(vs)) == "[" + PrintedItems(vs) + "]"
  {
  }

  /** The text of slot i, empty for null. */
  function TextOf(q: Request, i: nat): string {
    if i == 0 then Bracketed(Joined([Quoted(Escaped(q.prompt)), "0", "null", "null", "null", "null", "0"]))
    else if i == 1 then Bracketed(Quoted(Escaped(q.lang)))
    else if i == 2 then
      Bracketed(Joined([Quoted(Escaped(q.conv)), Quoted(Escaped(q.resp)), "null", "null", "null", "null", "null",
                        "null", "null", Quoted("")]))
    else if i == 6 || i == 41 then Bracketed("1")
    else if i in {7, 10, 27, 68, 79, 80} then "1"
    else if i in {11, 18, 53} then "0"
    else if i == 17 then Bracketed(Bracketed("0"))
    else if i == 30 then Bracketed("4")
    else if i == 59 then Quoted(Escaped(q.uuid))
    else if i == 61 then Bracketed("")
    else ""
  }

  lemma OtherSlotsEmpty(q: Request, i: nat)
    ensures i !in TEXTS && i !in NUMBERS && i !in LISTS ==> TextOf(q, i) == ""
  {
  }

  lemma SlotTextOf(q: Request, i: nat)
    requires i < 81
    ensures SlotText(TextOf(q, i), Slots(q)[i])
  {
    PrintedConstants();
    PromptText(q.prompt);
    ConversationText(q.conv, q.resp);
    ListOfOne(Text(q.lang));
    ListOfOne(ONE);
    ListOfOne(ZERO);
    ListOfOne(List([ZERO]));
    ListOfOne(Number("4"));
    hide Escaped, Joined;
  }

  // The slots that are set, in three groups.

  const TEXTS: set<nat> := {0, 1, 2, 59}
  const NUMBERS: set<nat> := {7, 10, 11, 18, 27, 53, 68, 79, 80}
  const LISTS: set<nat> := {6, 17, 30, 41, 61}

  method FillTexts(slot: array<string>, q: Request)
    requires slot.Length == 81
    modifies slot
    ensures forall i :: i in TEXTS ==> slot[i] == TextOf(q, i)
    ensures forall i :: 0 <= i < 81 && i !in TEXTS ==> slot[i] == old(slot[i])
  {
    hide Escaped, Joined, Bracketed, Quoted;
    var prompt := JsonEscape(q.prompt);
    var lang := JsonEscape(q.lang);
    var conv := JsonEscape(q.conv);
    var resp := JsonEscape(q.resp);
    var uuid := JsonEscape(q.uuid);
    slot[0] := Bracketed(Joined([Quoted(prompt), "0", "null", "null", "null", "null", "0"]));
    slot[1] := Bracketed(Quoted(lang));
    slot[2] := Bracketed(Joined([Quoted(conv), Quoted(resp), "null", "null", "null", "null", "null", "null", "null",
                                 Quoted("")]));
    slot[59] := Quoted(uuid);
  }

  method FillNumbers(slot: array<string>, ghost q: Request)
    requires slot.Length == 81
    modifies slot
    ensures forall i :: i in NUMBERS ==> slot[i] == TextOf(q, i)
    ensures forall i :: 0 <= i < 81 && i !in NUMBERS ==> slot[i] == old(slot[i])
  {
    hide Escaped, Joined, Bracketed, Quoted;
    slot[7] := "1";
    slot[10] := "1";
    slot[11] := "0";
    slot[18] := "0";
    slot[27] := "1";
    slot[53] := "0";
    slot[68] := "1";
    slot[79] := "1";
    slot[80] := "1";
  }

  method FillLists(slot: array<string>, ghost q: Request)
    requires slot.Length == 81
    modifies slot
    ensures forall i :: i in LISTS ==> slot[i] == TextOf(q, i)
    ensures forall i :: 0 <= i < 81 && i !in LISTS ==> slot[i] == old(slot[i])
  {
    hide Escaped, Joined, Bracketed, Quoted;
    slot[6] := Bracketed("1");
    slot[17] := Bracketed(Bracketed("0"));
    slot[30] := Bracketed("4");
    slot[41] := Bracketed("1");
    slot[61] := Bracketed("");
  }

  method GemInnerJson(q: Request) returns (inner: string)
    ensures inner == Printed(List(Slots(q)))
  {
    hide TextOf, Slot, SlotText, Printed;
    var slot := new string[81](_ => "");
    FillTexts(slot, q);
    FillNumbers(slot, q);
    FillLists(slot, q);
    forall i | 0 <= i < 81 ensures slot[i] == TextOf(q, i) {
      OtherSlotsEmpty(q, i);
    }
    forall i | 0 <= i < 81 ensures SlotText(slot[i], Slots(q)[i]) {
      SlotTextOf(q, i);
    }
    inner := JoinSlots(slot[..], Slots(q));
  }

  // ---- The form ----

  /** The two fields of the request body (aigptbot.cpp:1607-1609). */
  function Form(at: bytes, outer: bytes): string {
    "at=" + UrlEncoded(at) + "&f.req=" + UrlEncoded(outer)
  }

  function Outer(inner: string): string {
    "[null,\"" + Escaped(inner) + "\"]"
  }

  /** Where a field ends. */
  function FieldEnd(s: string): (k: nat)
    ensures k <= |s|
  {
    if s == "" || s[0] == '&' then 0 else 1 + FieldEnd(s[1..])
  }

  /** The value of a field, undecoded. */
  function FieldValue(s: string, name: string): Option<string>
    decreases |s|
  {
    var k := FieldEnd(s);
    if name + "=" <= s[..k] then Some(s[|name| + 1..k])
    else if k == |s| then None
    else FieldValue(s[k + 1..], name)
  }

  lemma {:induction false} FieldEndOf(s: string, rest: string)
    requires (forall i :: 0 <= i < |s| ==> s[i] != '&') && (rest == "" || rest[0] == '&')
    ensures FieldEnd(s + rest) == |s|
  {
    if s == "" {
      assert s + rest == rest;
    } else {
      assert (s + rest)[1..] == s[1..] + rest;
      FieldEndOf(s[1..], rest);
    }
  }

  lemma SecondField(first: string, name: string, value: string)
    requires forall i :: 0 <= i < |first| ==> first[i] != '&'
    requires forall i :: 0 <= i < |value| ==> value[i] != '&'
    requires forall i :: 0 <= i < |name| ==> name[i] != '&'
    requires !(name + "=" <= first)
    ensures FieldValue(first + "&" + (name + "=" + value), name) == Some(value)
  {
    var second := name + "=" + value;
    var form := first + "&" + second;
    assert form == first + ("&" + second);
    FieldEndOf(first, "&" + second);
    assert form[..|first|] == first && form[|first| + 1..] == second;
    assert second + "" == second;
    FieldEndOf(second, "");
    assert second[..|second|] == second && second[|name| + 1..] == value;
  }

  lemma FormField(at: bytes, outer: bytes)
    ensures FieldValue(Form(at, outer), "f.req") == Some(UrlEncoded(outer))
  {
    PercentRoundTrip(at);
    PercentRoundTrip(outer);
    hide UrlEncoded, PercentDecode, FieldValue;
    var first := "at=" + UrlEncoded(at);
    assert first[0] == 'a' && ("f.req" + "=")[0] == 'f';
    SecondField(first, "f.req", UrlEncoded(outer));
    assert Form(at, outer) == first + "&" + ("f.req" + "=" + UrlEncoded(outer));
  }

  // ---- Bytes ----

  predicate IsBytes(s: string) {
    forall i :: 0 <= i < |s| ==> s[i] as int < 256
  }

  lemma {:induction false} EscapedIsBytes(s: string)
    requires IsBytes(s)
    ensures IsBytes(Escaped(s))
  {
    if s != "" {
      EscapedIsBytes(s[1..]);
      assert IsBytes(EscapeChar(s[0]));
    }
  }

  predicate HoldsBytes(v: Json) {
    match v
    case Text(s) => IsBytes(s)
    case Number(digits) => IsNumber(digits)
    case List(items) => forall i :: 0 <= i < |items| ==> HoldsBytes(items[i])
    case Null => true
  }

  lemma {:induction false} PrintedIsBytes(v: Json)
    requires HoldsBytes(v)
    ensures IsBytes(Printed(v))
    decreases v
  {
    match v
    case Text(s) => EscapedIsBytes(s);
    case List(items) =>
      if items != [] {
        ItemsAreBytes(items);
      }
    case _ =>
  }

  lemma {:induction false} ItemsAreBytes(items: seq<Json>)
    requires items != [] && forall i :: 0 <= i < |items| ==> HoldsBytes(items[i])
    ensures IsBytes(PrintedItems(items))
    decreases items
  {
    hide Printed, HoldsBytes;
    PrintedIsBytes(items[0]);
    if |items| > 1 {
      ItemsAreBytes(items[1..]);
    }
  }

  lemma SlotIsFine(q: Request, i: nat)
    requires i < 81
    ensures HoldsBytes(Slot(q, i)) && Printable(Slot(q, i))
  {
  }

  // ---- End to end ----

  /** The items of a text that is one array and nothing else. */
  function ReadArray(s: string): Option<seq<Json>> {
    match ReadValue(s)
    case Some((List(items), rest)) => if rest == "" then Some(items) else None
    case _ => None
  }

  /** The string in a place of an array. */
  function TextAt(items: seq<Json>, i: nat): Option<string> {
    if i < |items| && items[i].Text? then Some(items[i].s) else None
  }

  /** What a server that follows the standards finds in a field of the form. */
  function ReceivedField(form: string, name: string): Option<string> {
    var field := FieldValue(form, name);
    if field.Some? then PercentDecode(field.value) else None
  }

  /** The slots of the inner array. */
  function ReceivedSlots(form: string): Option<seq<Json>> {
    var outer := ReceivedField(form, "f.req");
    var pair := if outer.Some? then ReadArray(outer.value) else None;
    var inner := if pair.Some? then TextAt(pair.value, 1) else None;
    if inner.Some? then ReadArray(inner.value) else None
  }

  /** The prompt in slot 0, and how many slots there are. */
  function ReceivedPrompt(form: string): Option<(string, nat)> {
    var slots := ReceivedSlots(form);
    if slots.None? || |slots.value| == 0 || !slots.value[0].List? then None
    else
      match TextAt(slots.value[0].items, 0)
      case Some(prompt) => Some((prompt, |slots.value|))
      case None => None
  }

  /** What the 81 slots hold, place by place. */
  predicate AreSlots(q: Request, vs: seq<Json>) {
    && |vs| == 81
    && vs[0] == List([Text(q.prompt), Number("0"), Null, Null, Null, Null, Number("0")])
    && vs[1] == List([Text(q.lang)])
    && vs[2] == List([Text(q.conv), Text(q.resp), Null, Null, Null, Null, Null, Null, Null, Text("")])
    && vs[6] == List([Number("1")]) && vs[7] == Number("1") && vs[10] == Number("1") && vs[11] == Number("0")
    && vs[17] == List([List([Number("0")])]) && vs[18] == Number("0") && vs[27] == Number("1")
    && vs[30] == List([Number("4")]) && vs[41] == List([Number("1")]) && vs[53] == Number("0")
    && vs[59] == Text(q.uuid) && vs[61] == List([])
    && vs[68] == Number("1") && vs[79] == Number("1") && vs[80] == Number("1")
    && forall i :: 0 <= i < 81 && i !in {0, 1, 2, 6, 7, 10, 11, 17, 18, 27, 30, 41, 53, 59, 61, 68, 79, 80} ==>
                     vs[i] == Null
  }

  lemma SlotsAreThose(q: Request)
    ensures AreSlots(q, Slots(q))
  {
  }

  lemma InnerIsRead(q: Request)
    ensures ReadValue(Printed(List(Slots(q)))) == Some((List(Slots(q)), ""))
    ensures IsBytes(Printed(List(Slots(q))))
  {
    forall i | 0 <= i < 81 ensures HoldsBytes(Slots(q)[i]) && Printable(Slots(q)[i]) {
      SlotIsFine(q, i);
    }
    hide Slot, Printed;
    PrintedIsBytes(List(Slots(q)));
    ReadOfPrinted(List(Slots(q)), "");
    assert Printed(List(Slots(q))) + "" == Printed(List(Slots(q)));
  }

  lemma OuterIsRead(inner: string)
    requires IsBytes(inner)
    ensures ReadValue(Outer(inner)) == Some((List([Null, Text(inner)]), "")) && IsBytes(Outer(inner))
  {
    EscapedIsBytes(inner);
    var v := List([Null, Text(inner)]);
    PrintedTwo(Null, Text(inner));
    hide Escaped, ReadValue, PrintedItems;
    assert "[" + ("null" + "," + ("\"" + Escaped(inner) + "\"")) + "]" == Outer(inner) by {
      assert "[" + ("null" + ",") == "[null," && "[null," + "\"" == "[null,\"";
    }
    ReadOfPrinted(v, "");
    assert Outer(inner) + "" == Outer(inner);
  }

  lemma PrintedTwo(v: Json, w: Json)
    ensures PrintedItems([v, w]) == Comma(Printed(v), Printed(w))
  {
    hide Printed;
    assert [v, w][1..] == [w];
  }

  /** The prompt arrives byte for byte, in an array of 81 slots, whatever bytes it and the other parts of the request
      contain; so do all other slots, and the token in the other field. */
  lemma PromptArrives(q: Request, at: bytes)
    ensures IsBytes(Outer(Printed(List(Slots(q)))))
    ensures var form := Form(at, Outer(Printed(List(Slots(q)))));
            && ReceivedPrompt(form) == Some((q.prompt, 81)) && ReceivedField(form, "at") == Some(at)
            && ReceivedSlots(form).Some? && AreSlots(q, ReceivedSlots(form).value)
  {
    var inner := Printed(List(Slots(q)));
    InnerIsRead(q);
    OuterIsRead(inner);
    FormField(at, Outer(inner));
    FormToken(at, Outer(inner));
    PercentRoundTrip(Outer(inner));
    PercentRoundTrip(at);
    SlotsAreThose(q);
    hide FieldValue, PercentDecode, ReadValue, Printed, Outer, Form, Slots;
    var form := Form(at, Outer(inner));
    assert ReceivedField(form, "f.req") == Some(Outer(inner));
    assert ReadArray(Outer(inner)) == Some([Null, Text(inner)]);
    assert ReceivedSlots(form) == Some(Slots(q));
    assert Slots(q)[0] == PromptSlot(q.prompt);
  }

  lemma FormToken(at: bytes, outer: bytes)
    ensures FieldValue(Form(at, outer), "at") == Some(UrlEncoded(at))
  {
    PercentRoundTrip(at);
    hide UrlEncoded, PercentDecode;
    var first, rest := "at=" + UrlEncoded(at), "&f.req=" + UrlEncoded(outer);
    assert Form(at, outer) == first + rest;
    FieldEndOf(first, rest);
    assert (first + rest)[..|first|] == first && "at" + "=" <= first && first[3..] == UrlEncoded(at);
  }

  /** The body of the request (aigptbot.cpp:1605-1609). */
  method BuildForm(q: Request, at: bytes) returns (form: string)
    ensures ReceivedPrompt(form) == Some((q.prompt, 81)) && ReceivedField(form, "at") == Some(at)
    ensures ReceivedSlots(form).Some? && AreSlots(q, ReceivedSlots(form).value)
  {
    hide ReceivedPrompt, ReceivedField, ReceivedSlots, AreSlots, UrlEncoded, Escaped;
    PromptArrives(q, at);
    var inner := GemInnerJson(q);
    var escaped := JsonEscape(inner);
    var outer := "[null,\"" + escaped + "\"]";
    assert outer == Outer(inner);
    var first := UrlEncode(at);
    var second := UrlEncode(outer);
    form := "at=" + first + "&f.req=" + second;
    assert form == Form(at, outer);
  }

  // ---- The reading side, by the characters of the standards ----

  /** Section 7 of RFC 8259: what stands for what after a backslash. Section 2.1 of RFC 3986: the digits. */
  lemma StandardEscapes(rest: string)
    ensures ReadEscape("\"" + rest) == Some(('\"', 1)) && ReadEscape("\\" + rest) == Some(('\\', 1))
    ensures ReadEscape("/" + rest) == Some(('/', 1)) && ReadEscape("b" + rest) == Some((8 as char, 1))
    ensures ReadEscape("f" + rest) == Some((12 as char, 1)) && ReadEscape("n" + rest) == Some((10 as char, 1))
    ensures ReadEscape("r" + rest) == Some((13 as char, 1)) && ReadEscape("t" + rest) == Some((9 as char, 1))
    ensures HexValue('0') == Some(0) && HexValue('9') == Some(9) && HexValue('A') == HexValue('a') == Some(10)
    ensures HexValue('F') == HexValue('f') == Some(15) && HexValue('G') == None && HexValue('g') == None
  {
  }

  /** Section 2.3 of RFC 3986: letters, digits and four signs stand for themselves, so nothing that separates fields
      does. */
  lemma UnreservedAre(c: char)
    ensures Unreserved(c) ==> c != '&' && c != '=' && c != '+' && c != ' ' && c != '%' && c != '#' && c as int < 128
    ensures c == '-' || c == '.' || c == '_' || c == '~' ==> Unreserved(c)
    ensures 'A' <= c <= 'Z' || 'a' <= c <= 'z' || '0' <= c <= '9' ==> Unreserved(c)
  {
  }
}
