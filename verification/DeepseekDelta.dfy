/** The interpreter of DeepSeek's event stream (qlappcom/aigptbot.cpp:697-1010) as functions.

    They are the aggregate of fragments, the operations on it, sticky paths and operators, and nested batches. The laws
    of module DeltaLaws are about them; the class of module DeepseekSse, which updates the aggregate in place, is tied
    to them operation by operation.
*/
module DeepseekDelta {
  import opened Json
  import opened Options

  datatype Agg = Agg(frag: map<int, string>, fragType: map<int, string>, maxIdx: int, status: string, quasi: string,
                     errMsg: string, respMsgId: string, sessionFull: bool)

  /** Path and operator stay in force from frame to frame. */
  datatype State = State(agg: Agg, curPath: string, curOp: string)

  const START := State(Agg(map[], map[], -1, "", "", "", "", false), "", "")

  // ---- Helpers of the operations ----

  function Put(a: Agg, idx: int, text: string): Agg {
    a.(frag := a.frag[idx := text])
  }

  function Extend(a: Agg, idx: int, text: string): Agg {
    Put(a, idx, (if idx in a.frag then a.frag[idx] else "") + text)
  }

  /** The content of a fragment object, and its type if it gives one. */
  function PutFragment(a: Agg, idx: int, f: Value): Agg {
    var b := Put(a, idx, StringItem(f, "content"));
    if StringItem(f, "type") != "" then b.(fragType := b.fragType[idx := StringItem(f, "type")]) else b
  }

  function Raise(a: Agg, idx: int): Agg {
    if idx > a.maxIdx then a.(maxIdx := idx) else a
  }

  /** atoi. */
  function Atoi(s: string): int {
    if s == [] then 0
    else if s[0] == ' ' || '\t' <= s[0] <= '\r' then Atoi(s[1..])
    else if s[0] == '-' then 0 - Digits(s[1..], 0)
    else if s[0] == '+' then Digits(s[1..], 0)
    else Digits(s, 0)
  }

  function Digits(s: string, n: nat): nat {
    if s != [] && '0' <= s[0] <= '9' then Digits(s[1..], 10 * n + (s[0] as int - '0' as int)) else n
  }

  function Index(a: Agg, key: string): int {
    var idx := if key == "-1" || key == "" then a.maxIdx else Atoi(key);
    if idx < 0 then 0 else idx
  }

  function Seed(a: Agg, fs: seq<Value>, i: nat): Agg
    requires i <= |fs|
    decreases |fs| - i
  {
    if i == |fs| then a else Seed(if fs[i].Object? then Raise(PutFragment(a, i, fs[i]), i) else a, fs, i + 1)
  }

  function SeedFragments(a: Agg, resp: Value): Agg {
    if !resp.Object? then a
    else
      var b := if StringItem(resp, "status") != "" then a.(status := StringItem(resp, "status")) else a;
      match Item(resp, "fragments")
      case Some(Array(fs)) => Seed(b, fs, 0)
      case _ => b
  }

  function AppendActive(a: Agg, text: string): Agg {
    if text == "" then a
    else
      var b := if a.maxIdx < 0 then Put(a.(maxIdx := 0), 0, "") else a;
      Extend(b, b.maxIdx, text)
  }

  /** The objects among the items from i on become new fragments after the last one. */
  function AppendAll(a: Agg, fs: seq<Value>, i: nat): Agg
    requires i <= |fs|
    decreases |fs| - i
  {
    if i == |fs| then a
    else
      var b := if fs[i].Object? then Raise(PutFragment(a.(maxIdx := a.maxIdx + 1), a.maxIdx + 1, fs[i]), i) else a;
      AppendAll(b, fs, i + 1)
  }

  // ---- Paths ----

  /** The parts of a path between slashes, empty ones left out; cur is the part being read. */
  function TokensFrom(path: string, cur: string): seq<string> {
    if path == [] then (if cur == "" then [] else [cur])
    else if path[0] == '/' then (if cur == "" then [] else [cur]) + TokensFrom(path[1..], "")
    else TokensFrom(path[1..], cur + [path[0]])
  }

  function Tokens(path: string): seq<string> {
    TokensFrom(path, "")
  }

  function Join(path: string, part: string): string
    requires part != ""
  {
    if part[0] == '/' then path + part else path + "/" + part
  }

  // ---- One operation ----

  /** A string without its quotes, a number as it is printed, nothing else. */
  function Content(v: Value): string {
    match v
    case Text(s) => s
    case Number(text) => text
    case _ => ""
  }

  function ApplyToFragments(a: Agg, op: string, v: Value): Agg {
    match v
    case Array(fs) =>
      if op == "APPEND" then AppendAll(a, fs, 0)
      else Seed(a.(frag := map[], fragType := map[], maxIdx := -1), fs, 0)
    case Object(_) => if op == "APPEND" then PutFragment(a.(maxIdx := a.maxIdx + 1), a.maxIdx + 1, v) else a
    case _ => a
  }

  function ApplyToFragment(a: Agg, toks: seq<string>, op: string, v: Value): Agg
    requires |toks| >= 3
  {
    var idx := Index(a, toks[2]);
    var b := Raise(a, idx);
    if |toks| == 3 then (if v.Object? then PutFragment(b, idx, v) else b)
    else if toks[3] == "content" then (if op == "APPEND" then Extend(b, idx, Content(v)) else Put(b, idx, Content(v)))
    else if toks[3] == "type" then b.(fragType := b.fragType[idx := Content(v)])
    else b
  }

  /** An operation other than BATCH, by the parts of its path. */
  function ApplyPlain(a: Agg, toks: seq<string>, op: string, v: Value): Agg {
    if |toks| >= 2 && toks[0] == "response" && toks[1] == "fragments" then
      if |toks| == 2 then ApplyToFragments(a, op, v) else ApplyToFragment(a, toks, op, v)
    else if |toks| != 2 || toks[0] != "response" then a
    else if toks[1] == "content" || toks[1] == "thinking_content" then
      if op == "SET" && a.maxIdx >= 0 then Put(a, a.maxIdx, Content(v)) else AppendActive(a, Content(v))
    else if toks[1] == "status" then a.(status := Content(v))
    else if toks[1] == "quasi_status" then a.(quasi := Content(v))
    else a
  }

  function ApplyOp(a: Agg, path: string, op: string, v: Value): Agg
    decreases v
  {
    if path == "" then a
    else if op == "BATCH" then (if v.Array? then ApplyBatch(a, path, v.items) else a)
    else ApplyPlain(a, Tokens(path), op, v)
  }

  function ApplyBatch(a: Agg, path: string, items: seq<Value>): Agg
    decreases items
  {
    if items == [] then a else ApplyBatch(ApplyItem(a, path, items[0]), path, items[1..])
  }

  function OpOf(item: Value): string {
    if StringItem(item, "o") == "" then "SET" else StringItem(item, "o")
  }

  function ApplyItem(a: Agg, path: string, item: Value): Agg
    decreases item
  {
    var part := StringItem(item, "p");
    if part == "" || Item(item, "v").None? then a
    else ApplyOp(a, Join(path, part), OpOf(item), Item(item, "v").value)
  }

  // ---- One frame ----

  predicate IsError(evt: string, j: Value) {
    (evt == "hint" && StringItem(j, "type") == "error") || (Item(j, "error").Some? && Item(j, "error").value.Object?)
  }

  function ErrorText(j: Value): string {
    var inner := match Item(j, "error") case Some(e) => StringItem(e, "message") case None => "";
    if StringItem(j, "message") != "" then StringItem(j, "message")
    else if StringItem(j, "msg") != "" then StringItem(j, "msg")
    else if inner != "" then inner
    else if StringItem(j, "content") != "" then StringItem(j, "content")
    else "服务端错误"
  }

  function NoteError(a: Agg, evt: string, j: Value): Agg {
    if IsError(evt, j) then
      a.(errMsg := ErrorText(j),
         sessionFull := a.sessionFull || StringItem(j, "finish_reason") == "input_exceeds_limit")
    else a
  }

  function NoteReady(a: Agg, evt: string, j: Value): Agg {
    if evt != "ready" then a
    else
      match Item(j, "response_message_id")
      case Some(Number(text)) => a.(respMsgId := text)
      case Some(Text(s)) => a.(respMsgId := s)
      case _ => a
  }

  /** A string that a frame gives, or the one in force. */
  function Given(item: Option<Value>, inForce: string): string {
    match item
    case Some(Text(s)) => s
    case _ => inForce
  }

  /** A frame's own p and o replace those in force. */
  function NoteSticky(s: State, j: Value): State {
    State(s.agg, Given(Item(j, "p"), s.curPath), Given(Item(j, "o"), s.curOp))
  }

  /** Without a path in force: a snapshot, or text for the active fragment. */
  function ApplyBare(a: Agg, v: Value): Agg {
    match Item(v, "response")
    case Some(resp) => SeedFragments(a, resp)
    case None => if v.Text? then AppendActive(a, v.s) else a
  }

  function StickyOp(op: string): string {
    if op == "" then "SET" else op
  }

  /** v under the path and the operator in force. */
  function ApplyInForce(a: Agg, path: string, op: string, v: Value): Agg {
    if path == "" then ApplyBare(a, v) else ApplyOp(a, path, StickyOp(op), v)
  }

  function OnFrame(s: State, evt: string, j: Value): State {
    if !j.Object? then s
    else
      var t := NoteSticky(s.(agg := NoteReady(NoteError(s.agg, evt, j), evt, j)), j);
      match Item(j, "v")
      case None => t
      case Some(v) => t.(agg := ApplyInForce(t.agg, t.curPath, t.curOp, v))
  }

  function OnFrames(s: State, evt: string, js: seq<Value>): State
    decreases |js|
  {
    if js == [] then s else OnFrames(OnFrame(s, evt, js[0]), evt, js[1..])
  }

  // ---- The result ----

  predicate IsBlank(c: char) {
    c == ' ' || c == '\t' || c == '\r' || c == '\n'
  }

  function TrimLeft(s: string): string {
    if s != [] && IsBlank(s[0]) then TrimLeft(s[1..]) else s
  }

  function TrimRight(s: string): string {
    if s != [] && IsBlank(s[|s| - 1]) then TrimRight(s[..|s| - 1]) else s
  }

  function Trim(s: string): string {
    TrimRight(TrimLeft(s))
  }

  /** The text of fragment i, if there is one and it is not a thought. */
  function Spoken(a: Agg, i: int): string {
    if (i in a.fragType && a.fragType[i] == "THINK") || i !in a.frag then "" else a.frag[i]
  }

  function SpokenFrom(a: Agg, i: int): string
    decreases a.maxIdx + 1 - i
  {
    if i > a.maxIdx then "" else Spoken(a, i) + SpokenFrom(a, i + 1)
  }

  datatype Result = Reply(text: string) | ServerError(message: string) | Interrupted | Empty

  function ResultOf(a: Agg, text: string): Result {
    if a.errMsg != "" then ServerError(a.errMsg)
    else if a.status == "INCOMPLETE" || a.quasi == "INCOMPLETE" then Interrupted
    else if Trim(text) == "" then Empty
    else Reply(Trim(text))
  }

  function Finish(a: Agg): Result {
    ResultOf(a, SpokenFrom(a, 0))
  }
}
