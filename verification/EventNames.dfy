/** What it costs that event names are never seen (qlappcom/aigptbot.cpp:917-944). */
module EventNames {
  // A reader that compares the six characters of "event:" notes errors and identifiers that the program does not.
  // Nothing else depends on event names.

  import opened Json
  import opened Options
  import opened DeepseekDelta
  import opened DeltaLaws
  import opened DeepseekSse

  // ---- Operations neither read nor change what events note ----

  datatype Marks = Marks(errMsg: string, full: bool, id: string)

  function Marked(a: Agg, m: Marks): Agg {
    a.(errMsg := m.errMsg, sessionFull := m.full, respMsgId := m.id)
  }

  lemma {:induction false} SeedMarked(a: Agg, m: Marks, fs: seq<Value>, i: nat)
    requires i <= |fs|
    ensures Seed(Marked(a, m), fs, i) == Marked(Seed(a, fs, i), m)
    decreases |fs| - i
  {
    hide StringItem;
    if i < |fs| {
      SeedMarked(if fs[i].Object? then Raise(PutFragment(a, i, fs[i]), i) else a, m, fs, i + 1);
    }
  }

  lemma {:induction false} AppendAllMarked(a: Agg, m: Marks, fs: seq<Value>, i: nat)
    requires i <= |fs|
    ensures AppendAll(Marked(a, m), fs, i) == Marked(AppendAll(a, fs, i), m)
    decreases |fs| - i
  {
    hide StringItem;
    if i < |fs| {
      var b := if fs[i].Object? then Raise(PutFragment(a.(maxIdx := a.maxIdx + 1), a.maxIdx + 1, fs[i]), i) else a;
      AppendAllMarked(b, m, fs, i + 1);
    }
  }

  lemma FragmentsMarked(a: Agg, m: Marks, op: string, v: Value)
    ensures ApplyToFragments(Marked(a, m), op, v) == Marked(ApplyToFragments(a, op, v), m)
  {
    if v.Array? {
      AppendAllMarked(a, m, v.items, 0);
      SeedMarked(a.(frag := map[], fragType := map[], maxIdx := -1), m, v.items, 0);
    }
    hide StringItem, Seed, AppendAll;
  }

  lemma TextsMarked(a: Agg, m: Marks, idx: int, text: string)
    ensures Put(Marked(a, m), idx, text) == Marked(Put(a, idx, text), m)
    ensures Extend(Marked(a, m), idx, text) == Marked(Extend(a, idx, text), m)
    ensures Raise(Marked(a, m), idx) == Marked(Raise(a, idx), m)
  {
  }

  lemma FragmentPutMarked(a: Agg, m: Marks, idx: int, f: Value)
    ensures PutFragment(Marked(a, m), idx, f) == Marked(PutFragment(a, idx, f), m)
  {
    hide StringItem;
  }

  lemma ActiveMarked(a: Agg, m: Marks, text: string)
    ensures AppendActive(Marked(a, m), text) == Marked(AppendActive(a, text), m)
  {
  }

  lemma IndexMarked(a: Agg, m: Marks, key: string)
    ensures Index(Marked(a, m), key) == Index(a, key)
  {
    hide Atoi;
  }

  lemma FragmentMarked(a: Agg, m: Marks, toks: seq<string>, op: string, v: Value)
    requires |toks| >= 3
    ensures ApplyToFragment(Marked(a, m), toks, op, v) == Marked(ApplyToFragment(a, toks, op, v), m)
  {
    hide Content, Put, Extend, Raise, PutFragment, Index;
    IndexMarked(a, m, toks[2]);
    var idx := Index(a, toks[2]);
    TextsMarked(a, m, idx, Content(v));
    TextsMarked(Raise(a, idx), m, idx, Content(v));
    FragmentPutMarked(Raise(a, idx), m, idx, v);
  }

  lemma PlainMarked(a: Agg, m: Marks, toks: seq<string>, op: string, v: Value)
    ensures ApplyPlain(Marked(a, m), toks, op, v) == Marked(ApplyPlain(a, toks, op, v), m)
  {
    hide ApplyToFragments, ApplyToFragment, Content, Put, AppendActive;
    FragmentsMarked(a, m, op, v);
    if |toks| >= 3 {
      FragmentMarked(a, m, toks, op, v);
    }
    TextsMarked(a, m, a.maxIdx, Content(v));
    ActiveMarked(a, m, Content(v));
  }

  lemma {:induction false} OpMarked(a: Agg, m: Marks, path: string, op: string, v: Value)
    ensures ApplyOp(Marked(a, m), path, op, v) == Marked(ApplyOp(a, path, op, v), m)
    decreases v
  {
    hide ApplyPlain, Tokens;
    if op == "BATCH" {
      if v.Array? {
        BatchMarked(a, m, path, v.items);
      }
    } else {
      PlainMarked(a, m, Tokens(path), op, v);
    }
  }

  lemma {:induction false} BatchMarked(a: Agg, m: Marks, path: string, items: seq<Value>)
    ensures ApplyBatch(Marked(a, m), path, items) == Marked(ApplyBatch(a, path, items), m)
    decreases items
  {
    hide ApplyOp;
    if items != [] {
      ItemMarked(a, m, path, items[0]);
      BatchMarked(ApplyItem(a, path, items[0]), m, path, items[1..]);
    }
  }

  lemma {:induction false} ItemMarked(a: Agg, m: Marks, path: string, item: Value)
    ensures ApplyItem(Marked(a, m), path, item) == Marked(ApplyItem(a, path, item), m)
    decreases item
  {
    hide ApplyOp, StringItem;
    var part := StringItem(item, "p");
    if part != "" && Item(item, "v").Some? {
      OpMarked(a, m, Join(path, part), OpOf(item), Item(item, "v").value);
    }
  }

  lemma BareMarked(a: Agg, m: Marks, v: Value)
    ensures ApplyBare(Marked(a, m), v) == Marked(ApplyBare(a, v), m)
  {
    hide StringItem, Seed;
    match Item(v, "response")
    case Some(resp) =>
      if resp.Object? {
        var b := if StringItem(resp, "status") != "" then a.(status := StringItem(resp, "status")) else a;
        match Item(resp, "fragments")
        case Some(Array(fs)) => SeedMarked(b, m, fs, 0);
        case _ =>
      }
    case None =>
  }

  lemma InForceMarked(a: Agg, m: Marks, path: string, op: string, v: Value)
    ensures ApplyInForce(Marked(a, m), path, op, v) == Marked(ApplyInForce(a, path, op, v), m)
  {
    hide ApplyBare, ApplyOp;
    BareMarked(a, m, v);
    OpMarked(a, m, path, StickyOp(op), v);
  }

  // ---- Frames with the names of their events ----

  datatype Named = Named(evt: string, j: Value)

  function OnNamed(s: State, ns: seq<Named>): State
    decreases |ns|
  {
    if ns == [] then s else OnNamed(OnFrame(s, ns[0].evt, ns[0].j), ns[1..])
  }

  function Nameless(ns: seq<Named>): seq<Value> {
    if ns == [] then [] else [ns[0].j] + Nameless(ns[1..])
  }

  function MarksOf(a: Agg): Marks {
    Marks(a.errMsg, a.sessionFull, a.respMsgId)
  }

  const NONE := Marks("", false, "")

  /** What a frame adds: an error that it reports, whether the conversation is full, and the identifier of a ready
      frame. */
  function AfterFrame(m: Marks, evt: string, j: Value): Marks {
    if !j.Object? then m
    else
      var n := if IsError(evt, j) then
                 Marks(ErrorText(j), m.full || StringItem(j, "finish_reason") == "input_exceeds_limit", m.id)
               else m;
      if evt != "ready" then n
      else
        match Item(j, "response_message_id")
        case Some(Number(text)) => n.(id := text)
        case Some(Text(s)) => n.(id := s)
        case _ => n
  }

  /** What the frames add, by themselves; when the names of events are not seen they count as empty. */
  function MarksAfter(m: Marks, ns: seq<Named>, seen: bool): Marks
    decreases |ns|
  {
    if ns == [] then m else MarksAfter(AfterFrame(m, if seen then ns[0].evt else "", ns[0].j), ns[1..], seen)
  }

  predicate SameButMarks(s: State, t: State) {
    s == State(Marked(t.agg, MarksOf(s.agg)), t.curPath, t.curOp)
  }

  /** What a frame notes, apart from path and operator. */
  function NotedMarks(a: Agg, evt: string, j: Value): Agg {
    NoteReady(NoteError(a, evt, j), evt, j)
  }

  lemma ErrorMarked(a: Agg, b: Agg, evt: string, j: Value)
    requires a == Marked(b, MarksOf(a)) && j.Object?
    ensures NoteError(a, evt, j) == Marked(NoteError(b, "", j), MarksOf(NoteError(a, evt, j)))
    ensures MarksOf(NoteReady(NoteError(a, evt, j), evt, j)) == AfterFrame(MarksOf(a), evt, j)
  {
    hide Item, StringItem, ErrorText, IsError;
  }

  lemma ReadyMarked(a: Agg, b: Agg, evt: string, j: Value)
    requires a == Marked(b, MarksOf(a))
    ensures NoteReady(a, evt, j) == Marked(NoteReady(b, "", j), MarksOf(NoteReady(a, evt, j)))
  {
    hide Item;
  }

  lemma NotedMarked(a: Agg, b: Agg, evt: string, j: Value)
    requires a == Marked(b, MarksOf(a)) && j.Object?
    ensures NotedMarks(a, evt, j) == Marked(NotedMarks(b, "", j), MarksOf(NotedMarks(a, evt, j)))
    ensures MarksOf(NotedMarks(a, evt, j)) == AfterFrame(MarksOf(a), evt, j)
  {
    hide NoteError, NoteReady, AfterFrame, Marked, MarksOf;
    ErrorMarked(a, b, evt, j);
    ReadyMarked(NoteError(a, evt, j), NoteError(b, "", j), evt, j);
  }

  lemma MarkedByItself(a: Agg)
    ensures a == Marked(a, MarksOf(a))
  {
  }

  lemma NothingAdded(m: Marks, evt: string, j: Value)
    ensures !j.Object? ==> AfterFrame(m, evt, j) == m
  {
  }

  lemma FrameMarked(s: State, t: State, evt: string, j: Value)
    requires SameButMarks(s, t)
    ensures SameButMarks(OnFrame(s, evt, j), OnFrame(t, "", j))
    ensures MarksOf(OnFrame(s, evt, j).agg) == AfterFrame(MarksOf(s.agg), evt, j)
  {
    hide Item, ApplyInForce, AfterFrame, NoteReady, NoteError;
    var u, w := NotedMarks(s.agg, evt, j), NotedMarks(t.agg, "", j);
    MarkedByItself(u);
    if !j.Object? {
      NothingAdded(MarksOf(s.agg), evt, j);
    } else {
      NotedMarked(s.agg, t.agg, evt, j);
    }
    if j.Object? && Item(j, "v").Some? {
      var path, op := Given(Item(j, "p"), s.curPath), Given(Item(j, "o"), s.curOp);
      InForceMarked(w, MarksOf(u), path, op, Item(j, "v").value);
      InForceMarked(u, MarksOf(u), path, op, Item(j, "v").value);
    }
  }

  lemma {:induction false} NamedMarked(s: State, t: State, ns: seq<Named>)
    requires SameButMarks(s, t)
    ensures SameButMarks(OnNamed(s, ns), OnFrames(t, "", Nameless(ns)))
    ensures MarksOf(OnNamed(s, ns).agg) == MarksAfter(MarksOf(s.agg), ns, true)
    ensures MarksOf(OnFrames(t, "", Nameless(ns)).agg) == MarksAfter(MarksOf(t.agg), ns, false)
    decreases |ns|
  {
    hide OnFrame, AfterFrame, Marked, MarksOf;
    if ns != [] {
      assert ([ns[0].j] + Nameless(ns[1..]))[1..] == Nameless(ns[1..]);
      FrameMarked(s, t, ns[0].evt, ns[0].j);
      SameAsItself(t);
      FrameMarked(t, t, "", ns[0].j);
      NamedMarked(OnFrame(s, ns[0].evt, ns[0].j), OnFrame(t, "", ns[0].j), ns[1..]);
    }
  }

  lemma SameAsItself(t: State)
    ensures SameButMarks(t, t)
  {
  }

  // ---- The reader of names ----

  /** The data lines with the names that a reader of six characters gives to their events. */
  function NamedFrames(evt: string, lines: seq<string>, parse: string -> Option<Value>): seq<Named>
    decreases |lines|
  {
    if lines == [] then []
    else if lines[0] == "" then NamedFrames("", lines[1..], parse)
    else if Beginning(lines[0], 6) == "event:" then NamedFrames(Trim(lines[0][6..]), lines[1..], parse)
    else
      match DataOf(lines[0], parse)
      case None => NamedFrames(evt, lines[1..], parse)
      case Some(j) => [Named(evt, j)] + NamedFrames(evt, lines[1..], parse)
  }

  lemma EventLineHasNoData(line: string, parse: string -> Option<Value>)
    ensures line == "" || Beginning(line, 6) == "event:" ==> DataOf(line, parse) == None
  {
    if line != "" && Beginning(line, 6) == "event:" {
      assert line[0] == Beginning(line, 6)[0] == 'e';
      assert Beginning(line, 5)[0] == 'e' && "data:"[0] == 'd';
    }
  }

  lemma {:induction false} NamelessIsData(evt: string, lines: seq<string>, parse: string -> Option<Value>)
    ensures Nameless(NamedFrames(evt, lines, parse)) == DataFrames(lines, parse)
    decreases |lines|
  {
    assert lines != [] && Beginning(lines[0], 6) == "event:" ==> |lines[0]| >= 6;
    hide Trim, DataOf, Beginning;
    if lines != [] {
      var line, rest := lines[0], lines[1..];
      EventLineHasNoData(line, parse);
      NamelessIsData("", rest, parse);
      NamelessIsData(evt, rest, parse);
      if Beginning(line, 6) == "event:" {
        NamelessIsData(Trim(line[6..]), rest, parse);
      }
      if DataOf(line, parse).Some? {
        var n := Named(evt, DataOf(line, parse).value);
        assert ([n] + NamedFrames(evt, rest, parse))[1..] == NamedFrames(evt, rest, parse);
      }
    }
  }

  /** What parsing reports: the outcome, and with a result the identifier of the next message's parent and whether
      the conversation is full. */
  datatype Report = Thrown | Reported(result: Result, id: string, full: bool)

  function Reports(a: Agg): Report {
    Reported(Finish(a), a.respMsgId, a.sessionFull)
  }

  function ReportOf(body: string, parse: string -> Option<Value>): Report {
    if Meaning(body, parse).Threw? then Report.Thrown else Reports(Aggregate(body, parse))
  }

  function ReportNamed(body: string, parse: string -> Option<Value>): Report {
    Reports(OnNamed(START, NamedFrames("", LinesFrom(body, 0), parse)).agg)
  }

  lemma {:induction false} SpokenOfMarked(a: Agg, m: Marks, i: int)
    ensures SpokenFrom(Marked(a, m), i) == SpokenFrom(a, i)
    decreases a.maxIdx + 1 - i
  {
    if i <= a.maxIdx {
      SpokenOfMarked(a, m, i + 1);
    }
  }

  lemma ReportsOfMarked(a: Agg, m: Marks)
    ensures Reports(Marked(a, m)) == Reports(a) <==> m == MarksOf(a)
  {
    SpokenOfMarked(a, m, 0);
    hide SpokenFrom, Trim;
  }

  /** For every body: not seeing event names changes the report exactly when a line is "event:" by itself, or when what
      the frames add by their names and content is not what they add by their content: the last error, whether an
      error says that the conversation is full, and the last identifier of a ready frame. */
  lemma NamesMatterExactly(body: string, parse: string -> Option<Value>)
    ensures var ns := NamedFrames("", LinesFrom(body, 0), parse);
            ReportOf(body, parse) != ReportNamed(body, parse) <==>
            "event:" in LinesFrom(body, 0) || MarksAfter(NONE, ns, true) != MarksAfter(NONE, ns, false)
  {
    var ns := NamedFrames("", LinesFrom(body, 0), parse);
    NamelessIsData("", LinesFrom(body, 0), parse);
    SameAsItself(START);
    NamedMarked(START, START, ns);
    hide LinesFrom, NamedFrames, OnNamed, OnFrames, Reports, MarksAfter, DataFrames, Nameless;
    ReportsOfMarked(Aggregate(body, parse), MarksOf(OnNamed(START, ns).agg));
  }

  lemma {:induction false} NoIdentifierAfter(m: Marks, ns: seq<Named>)
    ensures MarksAfter(m, ns, false).id == m.id
    decreases |ns|
  {
    hide IsError, ErrorText, StringItem, Item;
    if ns != [] {
      NoIdentifierAfter(AfterFrame(m, "", ns[0].j), ns[1..]);
    }
  }

  /** Whatever the body, no identifier of a message is ever found. */
  lemma NoIdentifier(body: string, parse: string -> Option<Value>)
    ensures ReportOf(body, parse).Reported? ==> ReportOf(body, parse).id == ""
  {
    var ns := NamedFrames("", LinesFrom(body, 0), parse);
    NamelessIsData("", LinesFrom(body, 0), parse);
    SameAsItself(START);
    NamedMarked(START, START, ns);
    hide LinesFrom, NamedFrames, OnNamed, OnFrames, MarksAfter, DataFrames, Nameless;
    NoIdentifierAfter(NONE, ns);
  }

  function Hint(): Value {
    Object([Member("type", Text("error")), Member("content", Text("no"))])
  }

  lemma {:induction false} EndOfLine(body: string, pos: nat, e: nat)
    requires pos <= e < |body| && body[e] == '\n' && '\n' !in body[pos..e]
    ensures LineEnd(body, pos) == e
    decreases e - pos
  {
    if pos < e {
      assert body[pos] == body[pos..e][0];
      assert body[pos + 1..e] == body[pos..e][1..];
      EndOfLine(body, pos + 1, e);
    }
  }

  lemma TwoLines(first: string, second: string)
    requires '\n' !in first + second && '\r' !in first + second
    ensures LinesFrom(first + "\n" + second, 0) == [first, second]
  {
    var body := first + "\n" + second;
    var e := |first|;
    assert body[0..e] == first && body[e + 1..] == second;
    assert forall c :: c in first || c in second ==> c in first + second;
    EndOfLine(body, 0, e);
    forall k | e < k < |body| ensures body[k] != '\n' {
      assert body[k] == second[k - e - 1];
    }
    EndOfLastLine(body, e + 1);
    assert WithoutReturn(first) == first && WithoutReturn(second) == second;
    hide LineEnd, WithoutReturn;
    assert LinesFrom(body, |body| + 1) == [];
    assert LinesFrom(body, e + 1) == [second] by {
      assert body[e + 1..|body|] == second;
    }
  }

  lemma {:induction false} EndOfLastLine(body: string, pos: nat)
    requires pos <= |body| && forall k :: pos <= k < |body| ==> body[k] != '\n'
    ensures LineEnd(body, pos) == |body|
    decreases |body| - pos
  {
    if pos < |body| {
      EndOfLastLine(body, pos + 1);
    }
  }

  lemma NamedHint(parse: string -> Option<Value>)
    requires parse("j") == Some(Hint())
    ensures NamedFrames("", ["event: hint", "data:j"], parse) == [Named("hint", Hint())]
  {
    var lines := ["event: hint", "data:j"];
    assert lines[1..] == ["data:j"] && lines[1..][1..] == [];
    assert Beginning("event: hint", 6) == "event:" && "event: hint"[6..] == " hint";
    assert Trim(" hint") == "hint" by {
      assert " hint"[1..] == "hint";
      assert !IsBlank("hint"[0]) && !IsBlank("hint"[3]);
    }
    assert Beginning("data:j", 6)[0] == 'd' && "event:"[0] == 'e';
    assert DataOf("data:j", parse) == Some(Hint()) by {
      assert "data:j"[..5] == "data:" && "data:j"[5..] == "j";
      TrimOfOne('j');
    }
    hide Trim, DataOf, Beginning, Hint;
    assert NamedFrames("hint", [], parse) == [];
    assert NamedFrames("hint", ["data:j"], parse) == [Named("hint", Hint())];
  }

  const HINT_BODY := "event: hint" + "\n" + "data:j"

  lemma HintLines(parse: string -> Option<Value>)
    requires parse("j") == Some(Hint())
    ensures var lines := LinesFrom(HINT_BODY, 0);
            && "event:" !in lines && DataFrames(lines, parse) == [Hint()]
            && NamedFrames("", lines, parse) == [Named("hint", Hint())]
  {
    var lines := ["event: hint", "data:j"];
    TwoLines("event: hint", "data:j");
    NamedHint(parse);
    hide LinesFrom, Hint, DataOf, NamedFrames, HINT_BODY;
    NamelessIsData("", lines, parse);
    assert |"event: hint"| > |"event:"| && "data:j"[0] == 'd' && "event:"[0] == 'e';
    assert Nameless([Named("hint", Hint())]) == [Hint()] by {
      assert [Named("hint", Hint())][1..] == [];
      assert Nameless([]) == [];
    }
  }

  /** A hint of an error is not noticed: the answer is reported to be empty, where a reader of the name reports the
      error. */
  lemma HintIsLost(parse: string -> Option<Value>)
    requires parse("j") == Some(Hint())
    ensures ReportOf(HINT_BODY, parse) == Reported(Empty, "", false)
    ensures ReportNamed(HINT_BODY, parse) == Reported(ServerError("no"), "", false)
  {
    HintLines(parse);
    HintFrames();
    hide Hint, LinesFrom, NamedFrames, DataFrames, OnFrames, OnNamed, HINT_BODY;
    assert Trim("") == "";
  }

  lemma HintFrames()
    ensures OnFrames(START, "", [Hint()]) == START
    ensures OnNamed(START, [Named("hint", Hint())]).agg == START.agg.(errMsg := "no")
  {
    HintItems();
    hide Item, StringItem, IsError, ErrorText, Hint, ApplyInForce;
    OneFrame(START, Hint());
    assert [Named("hint", Hint())][1..] == [];
    assert |"hint"| != |"ready"|;
  }

  lemma HintItems()
    ensures Hint().Object? && IsError("hint", Hint()) && !IsError("", Hint()) && ErrorText(Hint()) == "no"
    ensures StringItem(Hint(), "finish_reason") == ""
    ensures Item(Hint(), "p") == None && Item(Hint(), "o") == None && Item(Hint(), "v") == None
  {
    var a, b := Member("type", Text("error")), Member("content", Text("no"));
    assert [a, b][1..] == [b] && [b][1..] == [];
    assert SameName("type", "type") && SameName("content", "content") && !SameName("content", "type");
    assert !SameName("type", "content") && !SameName("type", "error") && !SameName("content", "error");
    assert Lower("content"[0]) == 'c' && Lower("message"[0]) == 'm';
    assert !SameName("type", "message") && !SameName("content", "message");
    assert !SameName("type", "msg") && !SameName("content", "msg");
    assert !SameName("type", "finish_reason") && !SameName("content", "finish_reason");
    assert forall name :: |name| == 1 ==> !SameName("type", name) && !SameName("content", name);
    assert |"p"| == 1 && |"o"| == 1 && |"v"| == 1;
    hide SameName;
    assert Item(Hint(), "finish_reason") == None;
    assert Item(Hint(), "type") == Some(Text("error"));
    assert Item(Hint(), "error") == None && Item(Hint(), "message") == None && Item(Hint(), "msg") == None;
    assert Item(Hint(), "content") == Some(Text("no"));
  }
}
