/** What the server sends, line by line (qlappcom/aigptbot.cpp:906-929). */
module DeltaBodies {
  // A body of data lines, of lines of other kinds and of blank ones, ended either way, is read as the frames of its
  // data lines; with that, an answer printed as such a body is read as what it says.

  import opened Json
  import opened Options
  import opened DeepseekDelta
  import opened DeepseekSse
  import opened DeltaIndices
  import opened DeltaTexts

  /** A frame, with white space around it, or any other line; and whether a carriage return stands at its end. */
  datatype Line =
    | DataLine(gap: string, text: string, tail: string, cr: bool)
    | OtherLine(line: string, cr: bool)

  function Shown(l: Line): string {
    match l
    case DataLine(gap, text, tail, _) => "data:" + gap + text + tail
    case OtherLine(line, _) => line
  }

  /** What is sent is no line end, and no part of one. */
  predicate OnOneLine(s: string) {
    '\n' !in s && '\r' !in s
  }

  /** Other lines are comments, names of events and blank lines; a name is not left out. */
  predicate IsLine(l: Line) {
    && OnOneLine(Shown(l))
    && match l
       case DataLine(gap, text, tail, _) =>
         Blank(gap) && Blank(tail) && text != "" && !White(text[0]) && !White(text[|text| - 1])
       case OtherLine(line, _) => !("data:" <= line) && line != "event:"
  }

  function PrintLine(l: Line): string {
    Shown(l) + if l.cr then "\r\n" else "\n"
  }

  function Print(ls: seq<Line>): string {
    if ls == [] then "" else PrintLine(ls[0]) + Print(ls[1..])
  }

  function AllShown(ls: seq<Line>): seq<string> {
    if ls == [] then [] else [Shown(ls[0])] + AllShown(ls[1..])
  }

  /** The frames that the data lines hold; a line that is no JSON holds none. */
  function Sent(ls: seq<Line>, parse: string -> Option<Value>): seq<Value> {
    if ls == [] then []
    else
      (match ls[0]
       case DataLine(_, text, _, _) => (match parse(text) case Some(j) => [j] case None => [])
       case OtherLine(_, _) => []) + Sent(ls[1..], parse)
  }

  predicate AreLines(ls: seq<Line>) {
    forall i :: 0 <= i < |ls| ==> IsLine(ls[i])
  }

  // ---- Trimming what is between blanks ----

  lemma {:induction false} LeftOfBlanks(gap: string, s: string)
    requires Blank(gap) && (s != "" ==> !White(s[0]))
    ensures TrimLeft(gap + s) == s
  {
    if gap == "" {
      assert gap + s == s;
    } else {
      assert White(gap[0]) && (gap + s)[1..] == gap[1..] + s;
      LeftOfBlanks(gap[1..], s);
    }
  }

  lemma {:induction false} RightOfBlanks(s: string, tail: string)
    requires Blank(tail) && (s != "" ==> !White(s[|s| - 1]))
    ensures TrimRight(s + tail) == s
  {
    if tail == "" {
      assert s + tail == s;
    } else {
      var n := |tail| - 1;
      assert White(tail[n]) && (s + tail)[..|s + tail| - 1] == s + tail[..n];
      RightOfBlanks(s, tail[..n]);
    }
  }

  lemma TrimOfPadded(gap: string, text: string, tail: string)
    requires Blank(gap) && Blank(tail) && text != "" && !White(text[0]) && !White(text[|text| - 1])
    ensures Trim(gap + text + tail) == text
  {
    assert gap + text + tail == gap + (text + tail) && (text + tail)[0] == text[0];
    hide Blank, White, TrimLeft, TrimRight;
    LeftOfBlanks(gap, text + tail);
    RightOfBlanks(text, tail);
  }

  // ---- One line ----

  /** A data line holds its frame, another line none. */
  lemma DataOfShown(l: Line, parse: string -> Option<Value>)
    requires IsLine(l)
    ensures Shown(l) != "event:"
    ensures DataOf(Shown(l), parse) == match l { case DataLine(_, text, _, _) => parse(text) case OtherLine(_, _) =>
                                                None }
  {
    var line := Shown(l);
    match l
    case DataLine(gap, text, tail, _) =>
      assert line == "data:" + (gap + text + tail);
      assert line[0] == 'd' && "event:"[0] == 'e';
      assert line[..5] == "data:" && line[5..] == gap + text + tail;
      TrimOfPadded(gap, text, tail);
      hide Trim;
    case OtherLine(_, _) =>
      assert Beginning(line, 5) == "data:" ==> "data:" <= line;
  }

  lemma {:induction false} EndIsFirst(body: string, pos: nat, n: nat)
    requires pos + n <= |body| && (pos + n == |body| || body[pos + n] == '\n')
    requires forall i :: pos <= i < pos + n ==> body[i] != '\n'
    ensures LineEnd(body, pos) == pos + n
    decreases n
  {
    if n > 0 {
      EndIsFirst(body, pos + 1, n - 1);
    }
  }

  /** A line ends at the first line feed. */
  lemma EndAt(body: string, pos: nat, line: string, rest: string)
    requires '\n' !in line && pos <= |body| && body[pos..] == line + ("\n" + rest)
    ensures var e := LineEnd(body, pos);
            e < |body| && body[pos..e] == line && body[e + 1..] == rest
  {
    forall i | pos <= i < pos + |line| ensures body[i] != '\n' {
      assert body[i] == body[pos..][i - pos] == line[i - pos];
      assert line[i - pos] in line;
    }
    assert body[pos + |line|] == body[pos..][|line|] == '\n';
    EndIsFirst(body, pos, |line|);
    assert body[pos..pos + |line|] == body[pos..][..|line|] == line;
    assert body[pos + |line| + 1..] == body[pos..][|line| + 1..] == rest;
  }

  lemma ReturnTakenAway(s: string)
    requires OnOneLine(s)
    ensures WithoutReturn(s) == s && WithoutReturn(s + "\r") == s
  {
    assert s != "" ==> s[|s| - 1] in s;
    assert (s + "\r")[..|s|] == s;
  }

  lemma LineAt(body: string, pos: nat, l: Line, rest: string)
    requires IsLine(l) && pos <= |body| && body[pos..] == PrintLine(l) + rest
    ensures var e := LineEnd(body, pos);
            e < |body| && WithoutReturn(body[pos..e]) == Shown(l) && body[e + 1..] == rest
  {
    var s := Shown(l);
    var line := s + if l.cr then "\r" else "";
    ReturnTakenAway(s);
    hide Shown, IsLine, LineEnd, WithoutReturn;
    assert line == if l.cr then s + "\r" else s;
    assert PrintLine(l) + rest == line + ("\n" + rest);
    EndAt(body, pos, line, rest);
  }

  // ---- All lines ----

  lemma LineAndRest(body: string, pos: nat, ls: seq<Line>)
    requires ls != [] && IsLine(ls[0]) && pos <= |body| && body[pos..] == Print(ls)
    ensures var next := LineEnd(body, pos) + 1;
            && next <= |body| && body[next..] == Print(ls[1..])
            && LinesFrom(body, pos) == [Shown(ls[0])] + LinesFrom(body, next)
  {
    LineAt(body, pos, ls[0], Print(ls[1..]));
    hide IsLine, PrintLine, Shown, LineEnd, WithoutReturn;
  }

  lemma NoMoreLines(body: string)
    ensures LinesFrom(body, |body|) == [""]
  {
    assert LineEnd(body, |body|) == |body| && body[|body|..|body|] == "";
    assert WithoutReturn("") == "" && LinesFrom(body, |body| + 1) == [];
  }

  lemma {:induction false} LinesOfPrinted(body: string, pos: nat, ls: seq<Line>)
    requires AreLines(ls) && pos <= |body| && body[pos..] == Print(ls)
    ensures LinesFrom(body, pos) == AllShown(ls) + [""]
    decreases |ls|
  {
    hide IsLine, PrintLine, Shown, LineEnd, LinesFrom;
    if ls == [] {
      assert pos == |body| && AllShown(ls) + [""] == [""];
      NoMoreLines(body);
    } else {
      LineAndRest(body, pos, ls);
      LinesOfPrinted(body, LineEnd(body, pos) + 1, ls[1..]);
      assert [Shown(ls[0])] + (AllShown(ls[1..]) + [""]) == AllShown(ls) + [""];
    }
  }

  lemma {:induction false} FramesOfShown(ls: seq<Line>, parse: string -> Option<Value>)
    requires AreLines(ls)
    ensures "event:" !in AllShown(ls) + [""]
    ensures DataFrames(AllShown(ls) + [""], parse) == Sent(ls, parse)
  {
    hide IsLine, Shown, DataOf;
    if ls == [] {
      NoData("", parse);
      assert [""][1..] == [] && "event:" != "";
      assert AllShown(ls) + [""] == [""];
    } else {
      DataOfShown(ls[0], parse);
      FramesOfShown(ls[1..], parse);
      assert AllShown(ls) + [""] == [Shown(ls[0])] + (AllShown(ls[1..]) + [""]);
    }
  }

  /** A body of any lines is read as the frames of its data lines. */
  lemma BodyIsRead(ls: seq<Line>, parse: string -> Option<Value>)
    requires AreLines(ls)
    ensures "event:" !in LinesFrom(Print(ls), 0)
    ensures DataFrames(LinesFrom(Print(ls), 0), parse) == Sent(ls, parse)
  {
    hide LinesFrom, AreLines, DataFrames;
    assert Print(ls)[0..] == Print(ls);
    LinesOfPrinted(Print(ls), 0, ls);
    FramesOfShown(ls, parse);
  }

  /** An answer sent as a body: whatever lines stand between its frames, the program reads what the answer says. */
  lemma SentAnswerIsParsed(ls: seq<Line>, parse: string -> Option<Value>, ps: seq<Piece>, status: string, quasi: string)
    requires AreLines(ls) && |ps| <= MAX_INT && Sent(ls, parse) == WithStatus(ps, status, quasi)
    ensures MeaningInt(Print(ls), parse) == Parsed(Reported(ps, status, quasi))
  {
    hide LinesFrom, AreLines, DataFrames, MeaningInt, Reported, WithStatus;
    BodyIsRead(ls, parse);
    AnswerIsParsed(Print(ls), parse, ps, status, quasi);
  }
}
