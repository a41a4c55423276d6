/** parseDeepseekSse (qlappcom/aigptbot.cpp:697-1010) as it runs: the aggregate is an object that the operations change,
    and the body is read line by line. Reading JSON is left to the environment. */
module DeepseekSse {
  import opened Json
  import opened Options
  import opened DeepseekDelta
  import opened DeltaIndices
  import opened DeltaLaws

  // ---- The aggregate ----

  /** What a method reports, and leaves behind if it reports success, is what was computed. */
  ghost predicate Yields<T>(ok: bool, now: T, r: Option<T>) {
    if ok then r == Some(now) else r == None
  }

  class DsAgg {
    var frag: map<int, string>
    var fragType: map<int, string>
    var maxIdx: int
    var status: string
    var quasi: string
    var errMsg: string
    var curPath: string
    var curOp: string
    var respMsgId: string
    var sessionFull: bool

    ghost function Contents(): Agg
      reads this
    {
      Agg(frag, fragType, maxIdx, status, quasi, errMsg, respMsgId, sessionFull)
    }

    ghost function Everything(): State
      reads this
    {
      State(Contents(), curPath, curOp)
    }

    constructor ()
      ensures Everything() == START
    {
      frag, fragType, maxIdx := map[], map[], -1;
      status, quasi, errMsg, curPath, curOp, respMsgId, sessionFull := "", "", "", "", "", "", false;
    }

    /** A number that is no int has no meaning; nothing happens then. */
    method ResolveIdx(key: string) returns (ok: bool, idx: int)
      modifies `maxIdx
      ensures ok == KeyFits(key)
      ensures ok ==> idx == Index(old(Contents()), key) && Contents() == Raise(old(Contents()), idx)
    {
      hide Atoi;
      ok, idx := true, 0;
      if key == "-1" || key == "" {
        idx := maxIdx;
        if idx < 0 {
          idx := 0;
        }
      } else {
        idx := Atoi(key);
        if !IsInt(idx) {
          return false, 0;
        }
        if idx < 0 {
          idx := 0;
        }
      }
      if idx > maxIdx {
        maxIdx := idx;
      }
    }

    method SetFragment(idx: int, f: Value)
      modifies `frag, `fragType
      ensures Contents() == PutFragment(old(Contents()), idx, f)
    {
      frag := frag[idx := StringItem(f, "content")];
      var t := StringItem(f, "type");
      if t != "" {
        fragType := fragType[idx := t];
      }
    }

    /** The objects among fs, each at its own place (aigptbot.cpp:744-751, 835-843 for SET). */
    method SetFragments(fs: seq<Value>)
      modifies this
      ensures Contents() == Seed(old(Contents()), fs, 0) && curPath == old(curPath) && curOp == old(curOp)
    {
      hide PutFragment;
      for i := 0 to |fs|
        invariant Seed(Contents(), fs, i) == Seed(old(Contents()), fs, 0)
        invariant curPath == old(curPath) && curOp == old(curOp)
      {
        if fs[i].Object? {
          SetFragment(i, fs[i]);
          if i > maxIdx {
            maxIdx := i;
          }
        }
      }
    }

    method AddFragments(fs: seq<Value>) returns (ok: bool)
      modifies this
      ensures Yields(ok, Contents(), AppendAllInt(old(Contents()), fs, 0))
      ensures curPath == old(curPath) && curOp == old(curOp)
    {
      hide PutFragment;
      for i := 0 to |fs|
        invariant AppendAllInt(Contents(), fs, i) == AppendAllInt(old(Contents()), fs, 0)
        invariant curPath == old(curPath) && curOp == old(curOp)
      {
        if fs[i].Object? {
          if maxIdx >= MAX_INT {
            return false;
          }
          maxIdx := maxIdx + 1;
          SetFragment(maxIdx, fs[i]);
          if i > maxIdx {
            maxIdx := i;
          }
        }
      }
      ok := true;
    }

    method SeedFragments(resp: Value) returns (ok: bool)
      modifies this
      ensures ok == SnapshotFits(resp)
      ensures ok ==> Contents() == DeepseekDelta.SeedFragments(old(Contents()), resp)
      ensures curPath == old(curPath) && curOp == old(curOp)
    {
      hide StringItem, Seed;
      ok := true;
      if !resp.Object? {
        return;
      }
      hide Item;
      var st := StringItem(resp, "status");
      if st != "" {
        status := st;
      }
      match Item(resp, "fragments")
      case Some(Array(fs)) =>
        if !Countable(fs) {
          return false;
        }
        SetFragments(fs);
      case _ =>
    }

    method AppendActive(text: string)
      modifies `frag, `maxIdx
      ensures Contents() == DeepseekDelta.AppendActive(old(Contents()), text)
    {
      if text == "" {
        return;
      }
      if maxIdx < 0 {
        maxIdx := 0;
        frag := frag[maxIdx := ""];
      }
      frag := frag[maxIdx := (if maxIdx in frag then frag[maxIdx] else "") + text];
    }

    method ApplyToFragments(op: string, v: Value) returns (ok: bool)
      modifies this
      ensures Yields(ok, Contents(), ApplyToFragmentsInt(old(Contents()), op, v))
      ensures curPath == old(curPath) && curOp == old(curOp)
    {
      hide PutFragment, Seed, AppendAllInt;
      ok := true;
      match v
      case Array(fs) =>
        if !Countable(fs) {
          return false;
        }
        if op != "APPEND" {
          frag := map[];
          fragType := map[];
          maxIdx := -1;
          SetFragments(fs);
        } else {
          ok := AddFragments(fs);
        }
      case Object(_) =>
        if op == "APPEND" {
          if maxIdx >= MAX_INT {
            return false;
          }
          maxIdx := maxIdx + 1;
          SetFragment(maxIdx, v);
        }
      case _ =>
    }

    method ApplyToFragment(toks: seq<string>, op: string, v: Value) returns (ok: bool)
      requires |toks| >= 3
      modifies `frag, `fragType, `maxIdx
      ensures Yields(ok, Contents(), ApplyToFragmentInt(old(Contents()), toks, op, v))
    {
      hide PutFragment, Index, Content, KeyFits;
      var idx;
      ok, idx := ResolveIdx(toks[2]);
      if !ok {
        return;
      }
      if |toks| == 3 {
        if v.Object? {
          SetFragment(idx, v);
        }
        return;
      }
      var vstr := Content(v);
      if toks[3] == "content" {
        if op == "APPEND" {
          frag := frag[idx := (if idx in frag then frag[idx] else "") + vstr];
        } else {
          frag := frag[idx := vstr];
        }
      } else if toks[3] == "type" {
        fragType := fragType[idx := vstr];
      }
    }

    method ApplyPlain(toks: seq<string>, op: string, v: Value) returns (ok: bool)
      modifies this
      ensures Yields(ok, Contents(), ApplyPlainInt(old(Contents()), toks, op, v))
      ensures curPath == old(curPath) && curOp == old(curOp)
    {
      hide ApplyToFragmentsInt, ApplyToFragmentInt, DeepseekDelta.AppendActive, Content;
      hide DeepseekDelta.ApplyToFragments, DeepseekDelta.ApplyToFragment;
      ok := true;
      if |toks| >= 2 && toks[0] == "response" && toks[1] == "fragments" {
        if |toks| == 2 {
          ok := ApplyToFragments(op, v);
          return;
        }
        ok := ApplyToFragment(toks, op, v);
        return;
      }
      if |toks| != 2 || toks[0] != "response" {
        return;
      }
      var vstr := Content(v);
      if toks[1] == "content" || toks[1] == "thinking_content" {
        if op == "SET" && maxIdx >= 0 {
          frag := frag[maxIdx := vstr];
        } else {
          AppendActive(vstr);
        }
      } else if toks[1] == "status" {
        status := vstr;
      } else if toks[1] == "quasi_status" {
        quasi := vstr;
      }
    }

    method ApplyOp(path: string, op: string, v: Value) returns (ok: bool)
      modifies this
      ensures Yields(ok, Contents(), ApplyOpInt(old(Contents()), path, op, v))
      ensures curPath == old(curPath) && curOp == old(curOp)
      decreases v, 1
    {
      hide ApplyPlainInt, ApplyItemInt, Tokens;
      ok := true;
      if path == "" {
        return;
      }
      if op == "BATCH" {
        match v
        case Array(items) =>
          if !Countable(items) {
            return false;
          }
          ghost var start := Contents();
          for i := 0 to |items|
            invariant ApplyBatchInt(Contents(), path, items[i..]) == ApplyBatchInt(start, path, items)
            invariant curPath == old(curPath) && curOp == old(curOp)
          {
            assert items[i..][0] == items[i] && items[i..][1..] == items[i + 1..];
            ok := ApplyBatchItem(path, items[i]);
            if !ok {
              return;
            }
          }
          return true;
        case _ => return;
      }
      var toks := Tokenise(path);
      ok := ApplyPlain(toks, op, v);
    }

    method ApplyBatchItem(path: string, item: Value) returns (ok: bool)
      modifies this
      ensures Yields(ok, Contents(), ApplyItemInt(old(Contents()), path, item))
      ensures curPath == old(curPath) && curOp == old(curOp)
      decreases item, 0
    {
      hide StringItem, Join, ApplyOpInt;
      ok := true;
      var cp := StringItem(item, "p");
      if cp == "" {
        return;
      }
      var v := Item(item, "v");
      if v.None? {
        return;
      }
      ok := ApplyOp(Join(path, cp), OpOf(item), v.value);
    }

    /** One frame (aigptbot.cpp:929-981). */
    method TakeFrame(evt: string, j: Value) returns (ok: bool)
      modifies this
      ensures Yields(ok, Everything(), OnFrameInt(old(Everything()), evt, j))
    {
      hide Item, NoteError, NoteReady, Given, ApplyInForceInt;
      if !j.Object? {
        return true;
      }
      TakeError(evt, j);
      TakeReady(evt, j);
      curPath := Given(Item(j, "p"), curPath);
      curOp := Given(Item(j, "o"), curOp);
      ok := TakeValue(j);
    }

    method TakeError(evt: string, j: Value)
      modifies `errMsg, `sessionFull
      ensures Contents() == NoteError(old(Contents()), evt, j)
    {
      hide StringItem, ErrorText, IsError;
      if IsError(evt, j) {
        errMsg := ErrorText(j);
        if StringItem(j, "finish_reason") == "input_exceeds_limit" {
          sessionFull := true;
        }
      }
    }

    method TakeReady(evt: string, j: Value)
      modifies `respMsgId
      ensures Contents() == NoteReady(old(Contents()), evt, j)
    {
      hide Item;
      if evt == "ready" {
        match Item(j, "response_message_id")
        case Some(Number(text)) => respMsgId := text;
        case Some(Text(s)) => respMsgId := s;
        case _ =>
      }
    }

    method TakeValue(j: Value) returns (ok: bool)
      modifies this
      ensures match Item(j, "v")
              case None => ok && Everything() == old(Everything())
              case Some(v) =>
                && Yields(ok, Contents(), ApplyInForceInt(old(Contents()), curPath, curOp, v))
                && curPath == old(curPath) && curOp == old(curOp)
    {
      hide Item, ApplyOpInt, SnapshotFits, DeepseekDelta.SeedFragments, DeepseekDelta.AppendActive;
      ok := true;
      match Item(j, "v")
      case None =>
      case Some(v) =>
        if curPath == "" {
          match Item(v, "response")
          case Some(resp) => ok := SeedFragments(resp);
          case None =>
            if v.Text? {
              AppendActive(v.s);
            }
        } else {
          var op := if curOp == "" then "SET" else curOp;
          ok := ApplyOp(curPath, op, v);
        }
    }

    /** The fragments that are not thoughts, in order (aigptbot.cpp:998-1003). With the largest int as largest index the
        loop has no end: its counter cannot pass it. */
    method JoinSpoken() returns (out: Option<string>)
      ensures out == if maxIdx >= MAX_INT then None else Some(SpokenFrom(Contents(), 0))
      ensures InRange(Contents()) && out.Some? ==>
                forall ks :: SpokenKeys(Contents(), ks) ==> out.value == Texts(Contents(), ks)
    {
      hide SpokenKeys, Texts, InRange, SpokenFrom;
      if maxIdx >= MAX_INT {
        return None;
      }
      var text := JoinUpToLast();
      if InRange(Contents()) {
        SpokenInOrder(Contents());
      }
      out := Some(text);
    }

    method JoinUpToLast() returns (out: string)
      requires maxIdx < MAX_INT
      ensures out == SpokenFrom(Contents(), 0)
    {
      ghost var a := Contents();
      out := "";
      var i := 0;
      assert out + SpokenFrom(a, 0) == SpokenFrom(a, 0);
      hide SpokenFrom;
      while i <= maxIdx
        invariant 0 <= i && (i <= maxIdx + 1 || i == 0) && IsInt(i)
        invariant out + SpokenFrom(a, i) == SpokenFrom(a, 0)
        decreases maxIdx + 1 - i
      {
        JoinStep(a, out, i);
        if !(i in fragType && fragType[i] == "THINK") && i in frag {
          out := out + frag[i];
        }
        i := i + 1;
      }
      JoinStep(a, out, i);
    }
  }

  lemma JoinStep(a: Agg, out: string, i: int)
    ensures i <= a.maxIdx ==>
              out + SpokenFrom(a, i) ==
              (if !(i in a.fragType && a.fragType[i] == "THINK") && i in a.frag then out + a.frag[i] else out) +
              SpokenFrom(a, i + 1)
    ensures i > a.maxIdx ==> out + SpokenFrom(a, i) == out
  {
    if i <= a.maxIdx {
      assert out + (Spoken(a, i) + SpokenFrom(a, i + 1)) == (out + Spoken(a, i)) + SpokenFrom(a, i + 1);
      assert out + "" == out;
    }
  }

  method Tokenise(path: string) returns (toks: seq<string>)
    ensures toks == Tokens(path)
  {
    toks := [];
    var cur := "";
    for i := 0 to |path|
      invariant toks + TokensFrom(path[i..], cur) == Tokens(path)
    {
      assert path[i..][1..] == path[i + 1..];
      if path[i] == '/' {
        if cur != "" {
          toks := toks + [cur];
        }
        cur := "";
      } else {
        cur := cur + [path[i]];
      }
    }
    if cur != "" {
      toks := toks + [cur];
    }
  }

  // ---- The body, line by line ----

  /** The index of the first line end from pos on, or the length. */
  function LineEnd(body: string, pos: nat): (e: nat)
    requires pos <= |body|
    ensures pos <= e <= |body|
    decreases |body| - pos
  {
    if pos == |body| || body[pos] == '\n' then pos else LineEnd(body, pos + 1)
  }

  function WithoutReturn(line: string): string {
    if line != [] && line[|line| - 1] == '\r' then line[..|line| - 1] else line
  }

  function LinesFrom(body: string, pos: nat): seq<string>
    decreases |body| + 1 - pos
  {
    if pos > |body| then []
    else [WithoutReturn(body[pos..LineEnd(body, pos)])] + LinesFrom(body, LineEnd(body, pos) + 1)
  }

  function Beginning(line: string, n: nat): string {
    if |line| <= n then line else line[..n]
  }

  /** The JSON value of a data line, if it is one. */
  function DataOf(line: string, parse: string -> Option<Value>): Option<Value> {
    if Beginning(line, 5) != "data:" || Trim(line[5..]) == "" then None else parse(Trim(line[5..]))
  }

  /** The state and the event name after the lines, or nothing when one of them makes substr throw. */
  function OnLines(s: State, evt: string, lines: seq<string>, parse: string -> Option<Value>): Option<(State, string)>
    decreases |lines|
  {
    if lines == [] then Some((s, evt))
    else
      var line, rest := lines[0], lines[1..];
      if line == "" then OnLines(s, "", rest, parse)
      else if Beginning(line, 7) == "event:" then
        if |line| < 7 then None else OnLines(s, Trim(line[7..]), rest, parse)
      else
        match DataOf(line, parse)
        case None => OnLines(s, evt, rest, parse)
        case Some(j) => OnLines(OnFrame(s, evt, j), evt, rest, parse)
  }

  /** The values of the data lines. */
  function DataFrames(lines: seq<string>, parse: string -> Option<Value>): seq<Value> {
    if lines == [] then []
    else
      match DataOf(lines[0], parse)
      case None => DataFrames(lines[1..], parse)
      case Some(j) => [j] + DataFrames(lines[1..], parse)
  }

  /** The comparison takes seven characters of the line and six of the name, so it holds of the line without an event
      name alone, where there is nothing to cut off. */
  lemma EventNeverNamed(line: string)
    ensures Beginning(line, 7) == "event:" <==> line == "event:"
  {
    if |line| > 7 {
      assert |Beginning(line, 7)| == 7;
    }
  }

  lemma NoData(line: string, parse: string -> Option<Value>)
    ensures line == "" || line == "event:" ==> DataOf(line, parse) == None
  {
    if line == "event:" {
      assert Beginning(line, 5)[0] == 'e' && "data:"[0] == 'd';
    }
  }

  /** Event names are never seen: reading throws exactly when a line is "event:" and otherwise yields what the data
      lines alone, without event names, yield. */
  lemma {:induction false} LinesAreDataFrames(s: State, lines: seq<string>, parse: string -> Option<Value>)
    ensures OnLines(s, "", lines, parse) ==
            if "event:" in lines then None else Some((OnFrames(s, "", DataFrames(lines, parse)), ""))
    decreases |lines|
  {
    hide OnFrame;
    if lines != [] {
      var line := lines[0];
      EventNeverNamed(line);
      var j := DataOf(line, parse);
      var t := if line != "" && j.Some? then OnFrame(s, "", j.value) else s;
      NoData(line, parse);
      LinesAreDataFrames(t, lines[1..], parse);
      assert lines == [line] + lines[1..];
      if j.Some? {
        assert ([j.value] + DataFrames(lines[1..], parse))[1..] == DataFrames(lines[1..], parse);
      }
    }
  }

  // ---- The lines, with the limit ----

  datatype Reading = Went(s: State, evt: string) | Thrown | Overflow

  function OnLinesInt(s: State, evt: string, lines: seq<string>, parse: string -> Option<Value>): Reading
    decreases |lines|
  {
    if lines == [] then Went(s, evt)
    else
      var line, rest := lines[0], lines[1..];
      if line == "" then OnLinesInt(s, "", rest, parse)
      else if Beginning(line, 7) == "event:" then
        if |line| < 7 then Thrown else OnLinesInt(s, Trim(line[7..]), rest, parse)
      else
        match DataOf(line, parse)
        case None => OnLinesInt(s, evt, rest, parse)
        case Some(j) =>
          match OnFrameInt(s, evt, j)
          case None => Overflow
          case Some(t) => OnLinesInt(t, evt, rest, parse)
  }

  /** The lines before the first that makes substr throw. */
  function BeforeThrow(lines: seq<string>): seq<string> {
    if lines == [] || lines[0] == "event:" then [] else [lines[0]] + BeforeThrow(lines[1..])
  }

  lemma {:induction false} NothingThrows(lines: seq<string>)
    requires "event:" !in lines
    ensures BeforeThrow(lines) == lines
  {
    if lines != [] {
      assert lines == [lines[0]] + lines[1..];
      NothingThrows(lines[1..]);
    }
  }

  /** Reading goes beyond the limit exactly when the frames before the first throw do. */
  lemma {:induction false} LinesWithin(s: State, lines: seq<string>, parse: string -> Option<Value>)
    ensures OnLinesInt(s, "", lines, parse) ==
            match OnFramesInt(s, "", DataFrames(BeforeThrow(lines), parse)) {
              case None => Overflow
              case Some(t) => if "event:" in lines then Thrown else Went(t, "")
            }
    decreases |lines|
  {
    hide OnFrameInt;
    if lines != [] {
      var line, rest := lines[0], lines[1..];
      EventNeverNamed(line);
      NoData(line, parse);
      assert lines == [line] + rest;
      if line != "event:" {
        var j := DataOf(line, parse);
        assert BeforeThrow(lines)[1..] == BeforeThrow(rest);
        if line != "" && j.Some? {
          assert ([j.value] + DataFrames(BeforeThrow(rest), parse))[1..] == DataFrames(BeforeThrow(rest), parse);
          match OnFrameInt(s, "", j.value)
          case None =>
          case Some(t) => LinesWithin(t, rest, parse);
        } else {
          LinesWithin(s, rest, parse);
        }
      }
    }
  }

  // ---- The program ----

  /** Overflowed: an int has met its limit, and what the program does then is not defined; the loop that joins the
      texts may have no end. */
  datatype Outcome = Threw | Overflowed | Parsed(result: Result)

  /** What the frames of the body's data lines amount to. */
  function Aggregate(body: string, parse: string -> Option<Value>): Agg {
    OnFrames(START, "", DataFrames(LinesFrom(body, 0), parse)).agg
  }

  /** What parsing yields, by the data lines alone. */
  function Meaning(body: string, parse: string -> Option<Value>): Outcome {
    if "event:" in LinesFrom(body, 0) then Threw else Parsed(Finish(Aggregate(body, parse)))
  }

  /** For every body: the reply is made of the texts of all fragments that are not thoughts, in order, and there is
      an order of them. */
  lemma MeaningIsEveryText(body: string, parse: string -> Option<Value>) returns (ks: seq<int>)
    ensures SpokenKeys(Aggregate(body, parse), ks)
    ensures forall js :: SpokenKeys(Aggregate(body, parse), js) ==>
              Meaning(body, parse) == if "event:" in LinesFrom(body, 0) then Threw
                                      else Parsed(ResultOf(Aggregate(body, parse), Texts(Aggregate(body, parse), js)))
  {
    var a := Aggregate(body, parse);
    assert InRange(START.agg);
    FramesInRange(START, "", DataFrames(LinesFrom(body, 0), parse));
    hide InRange, SpokenFrom, Texts, LinesFrom, Trim, DataFrames, OnFrames;
    ks := SpokenKeysExist(a);
    SpokenInOrder(a);
  }

  /** The loop that joins the texts is reached. */
  predicate Joins(a: Agg) {
    a.errMsg == "" && a.status != "INCOMPLETE" && a.quasi != "INCOMPLETE"
  }

  function FinishInt(a: Agg): Outcome {
    if Joins(a) && a.maxIdx >= MAX_INT then Overflowed else Parsed(Finish(a))
  }

  /** What parsing yields, with the limit. */
  function MeaningInt(body: string, parse: string -> Option<Value>): Outcome {
    var lines := LinesFrom(body, 0);
    match OnFramesInt(START, "", DataFrames(BeforeThrow(lines), parse))
    case None => Overflowed
    case Some(s) => if "event:" in lines then Threw else FinishInt(s.agg)
  }

  /** The largest index after the frames of a body, by what they name and append alone; none beyond the limit. */
  function LargestNamed(body: string, parse: string -> Option<Value>): Option<int> {
    AfterAll(-1, Touches("", "", DataFrames(BeforeThrow(LinesFrom(body, 0)), parse)))
  }

  /** For every body: the limit changes the outcome exactly when an index of its frames goes beyond it, or is the
      limit itself when the texts are to be joined. */
  lemma LimitMetExactly(body: string, parse: string -> Option<Value>)
    ensures var m := LargestNamed(body, parse);
            MeaningInt(body, parse) ==
            if m == None then Overflowed
            else if "event:" in LinesFrom(body, 0) then Threw
            else if m == Some(MAX_INT) && Joins(Aggregate(body, parse)) then Overflowed
            else Meaning(body, parse)
  {
    var lines := LinesFrom(body, 0);
    var js := DataFrames(BeforeThrow(lines), parse);
    assert Fine(START.agg);
    hide LinesFrom, DataFrames, Touches, OnFrames, OnFramesInt, BeforeThrow, InRange, Finish;
    FramesTrack(START, "", js);
    if "event:" !in lines {
      NothingThrows(lines);
    }
  }

  method FindLineEnd(body: string, pos: nat) returns (e: nat)
    requires pos <= |body|
    ensures e == LineEnd(body, pos)
  {
    e := pos;
    while e < |body| && body[e] != '\n'
      invariant pos <= e <= |body| && LineEnd(body, e) == LineEnd(body, pos)
    {
      e := e + 1;
    }
  }

  /** What is read without a throw or an int beyond its limit is what the data lines amount to. */
  lemma ReadIsAggregate(body: string, parse: string -> Option<Value>)
    ensures var lines := LinesFrom(body, 0);
            var r := OnFramesInt(START, "", DataFrames(BeforeThrow(lines), parse));
            "event:" !in lines && r.Some? ==> r.value.agg == Aggregate(body, parse)
  {
    var lines := LinesFrom(body, 0);
    assert Fine(START.agg);
    hide LinesFrom, DataFrames, Touches, OnFrames, OnFramesInt, BeforeThrow, InRange;
    FramesTrack(START, "", DataFrames(BeforeThrow(lines), parse));
    if "event:" !in lines {
      NothingThrows(lines);
    }
  }

  /** The result holds the trimmed text of all fragments that are not thoughts, in order, unless an error was noted, the
      generation was interrupted or that text is empty; and unless an int meets its limit. With it come the identifier
      of the next message's parent and whether the conversation is full. */
  method ParseDeepseekSse(body: string, parse: string -> Option<Value>) returns (o: Outcome, id: string, full: bool)
    ensures o == MeaningInt(body, parse)
    ensures o.Overflowed? || o == Meaning(body, parse)
    ensures forall ks :: o.Parsed? && SpokenKeys(Aggregate(body, parse), ks) ==>
              o.result == ResultOf(Aggregate(body, parse), Texts(Aggregate(body, parse), ks))
    ensures o.Parsed? ==> id == Aggregate(body, parse).respMsgId && full == Aggregate(body, parse).sessionFull
  {
    ReadIsAggregate(body, parse);
    id, full := "", false;
    ghost var order := MeaningIsEveryText(body, parse);
    LimitMetExactly(body, parse);
    hide SpokenKeys, Texts;
    hide OnFrameInt, Trim, DataOf, LineEnd, OnLinesInt, LinesFrom, WithoutReturn, Beginning, LargestNamed;
    var a := new DsAgg();
    var evt := "";
    var pos := 0;
    ghost var lines := LinesFrom(body, 0);
    LinesWithin(START, lines, parse);
    while pos <= |body|
      invariant OnLinesInt(a.Everything(), evt, LinesFrom(body, pos), parse) == OnLinesInt(START, "", lines, parse)
      invariant fresh(a)
      decreases |body| + 1 - pos
    {
      LineStep(a.Everything(), evt, body, pos, parse);
      var eol := FindLineEnd(body, pos);
      var line := WithoutReturn(body[pos..eol]);
      pos := eol + 1;
      if line == "" {
        evt := "";
        continue;
      }
      if Beginning(line, 7) == "event:" {
        if |line| < 7 {
          return Threw, id, full;
        }
        evt := Trim(line[7..]);
        continue;
      }
      var j := DataOf(line, parse);
      if j.Some? {
        var ok := a.TakeFrame(evt, j.value);
        if !ok {
          return Overflowed, id, full;
        }
      }
    }
    NoLines(a.Everything(), evt, body, pos, parse);
    id, full := a.respMsgId, a.sessionFull;
    o := FinishAgg(a);
  }

  /** The first line, and then the others. */
  lemma LineStep(s: State, evt: string, body: string, pos: nat, parse: string -> Option<Value>)
    requires pos <= |body|
    ensures var line := WithoutReturn(body[pos..LineEnd(body, pos)]);
            var rest := LinesFrom(body, LineEnd(body, pos) + 1);
            OnLinesInt(s, evt, LinesFrom(body, pos), parse) ==
            if line == "" then OnLinesInt(s, "", rest, parse)
            else if Beginning(line, 7) == "event:" then
              (if |line| < 7 then Thrown else OnLinesInt(s, Trim(line[7..]), rest, parse))
            else
              match DataOf(line, parse) {
                case None => OnLinesInt(s, evt, rest, parse)
                case Some(j) =>
                  match OnFrameInt(s, evt, j)
                  case None => Overflow
                  case Some(t) => OnLinesInt(t, evt, rest, parse)
              }
  {
    hide OnFrameInt, Trim, DataOf, LineEnd, WithoutReturn, Beginning;
    var lines := LinesFrom(body, pos);
    assert lines[1..] == LinesFrom(body, LineEnd(body, pos) + 1);
  }

  lemma NoLines(s: State, evt: string, body: string, pos: nat, parse: string -> Option<Value>)
    requires pos > |body|
    ensures OnLinesInt(s, evt, LinesFrom(body, pos), parse) == Went(s, evt)
  {
  }

  method FinishAgg(a: DsAgg) returns (o: Outcome)
    ensures o == FinishInt(a.Contents())
  {
    hide Trim, SpokenFrom;
    if a.errMsg != "" {
      return Parsed(ServerError(a.errMsg));
    }
    if a.status == "INCOMPLETE" || a.quasi == "INCOMPLETE" {
      return Parsed(Interrupted);
    }
    var joined := a.JoinSpoken();
    if joined.None? {
      return Overflowed;
    }
    var out := Trim(joined.value);
    if out == "" {
      return Parsed(Empty);
    }
    o := Parsed(Reply(out));
  }

  // ---- Outcomes at concrete bodies ----

  lemma {:induction false} OneLine(body: string)
    requires '\n' !in body && '\r' !in body
    ensures LinesFrom(body, 0) == [body]
  {
    EndOfOnlyLine(body, 0);
    assert body[0..|body|] == body;
    assert LinesFrom(body, |body| + 1) == [];
    assert WithoutReturn(body) == body by {
      if body != [] {
        assert body[|body| - 1] in body;
      }
    }
  }

  lemma {:induction false} EndOfOnlyLine(body: string, pos: nat)
    requires pos <= |body| && '\n' !in body
    ensures LineEnd(body, pos) == |body|
    decreases |body| - pos
  {
    if pos < |body| {
      assert body[pos] in body;
      EndOfOnlyLine(body, pos + 1);
    }
  }

  /** A line that ends before the name of its event. */
  lemma BareEventThrows(parse: string -> Option<Value>)
    ensures Meaning("event:", parse) == Threw && MeaningInt("event:", parse) == Threw
  {
    OneLine("event:");
    assert LinesFrom("event:", 0)[0] == "event:";
    assert BeforeThrow(["event:"]) == [];
    hide LinesFrom;
  }

  lemma OneDataLine(parse: string -> Option<Value>, j: Value)
    requires parse("j") == Some(j)
    ensures var lines := LinesFrom("data:j", 0);
            "event:" !in lines && BeforeThrow(lines) == lines && DataFrames(lines, parse) == [j]
  {
    var body := "data:j";
    OneLine(body);
    assert body[0] == 'd' && "event:"[0] == 'e';
    assert DataOf(body, parse) == Some(j) by {
      assert body[..5] == "data:" && body[5..] == "j";
      TrimOfOne('j');
    }
    hide LinesFrom, DataOf;
    assert [body][1..] == [];
    assert DataFrames([], parse) == [];
    NothingThrows([body]);
  }

  lemma LastAggregate()
    ensures var a := OnFrames(START, "", [LastFrame()]).agg;
            Joins(a) && a.maxIdx == MAX_INT && Finish(a) == Reply("x")
  {
    LastFrameReachesLimit();
    hide OnFrames, OnFramesInt, LastFrame, Finish, SpokenFrom;
    var a := OnFrames(START, "", [LastFrame()]).agg;
    FarText(a, "x");
    OnlyText(a, 'x');
  }

  /** A body that names fragment 2147483647: without a limit its reply is x, and the program's loop has no end. */
  lemma LastFragmentHasNoEnd(parse: string -> Option<Value>)
    requires parse("j") == Some(LastFrame())
    ensures Meaning("data:j", parse) == Parsed(Reply("x")) && MeaningInt("data:j", parse) == Overflowed
  {
    hide LinesFrom, DataFrames, OnFrames, OnFramesInt, LastFrame, BeforeThrow, Finish, Joins;
    OneDataLine(parse, LastFrame());
    LastFrameReachesLimit();
    LastAggregate();
  }

  lemma OnlyText(a: Agg, c: char)
    requires Joins(a) && SpokenFrom(a, 0) == [c] && !IsBlank(c)
    ensures Finish(a) == Reply([c])
  {
    TrimOfOne(c);
    hide Trim, SpokenFrom;
  }

  lemma TrimOfOne(c: char)
    requires !IsBlank(c)
    ensures Trim([c]) == [c]
  {
    assert [c][0] == c;
  }

  /** The only fragment is the last. */
  lemma FarText(a: Agg, text: string)
    requires InRange(a) && a.frag == map[a.maxIdx := text] && a.fragType == map[]
    ensures SpokenFrom(a, 0) == text
  {
    assert SpokenKeys(a, [a.maxIdx]);
    SpokenInOrder(a);
    assert Texts(a, [a.maxIdx]) == text + Texts(a, []) by {
      assert [a.maxIdx][1..] == [];
    }
    assert text + "" == text;
  }
}
