/** Indices of fragments are 32-bit integers: the interpreter with that limit, and when it meets it. */
module DeltaIndices {
  // The functions here follow those of module DeepseekDelta with the width of int in view. Where atoi reads a number
  // that is no int, where the largest index is raised beyond the largest int, or where an array has more items than an
  // int can count, the program's behaviour is undefined; the result is then None.

  import opened Json
  import opened Options
  import opened DeepseekDelta
  import opened DeltaLaws

  const MAX_INT := 2147483647

  predicate IsInt(n: int) {
    -2147483648 <= n <= MAX_INT
  }

  // ---- The interpreter ----

  predicate KeyFits(key: string) {
    key == "-1" || key == "" || IsInt(Atoi(key))
  }

  predicate Countable(items: seq<Value>) {
    |items| <= MAX_INT
  }

  function AppendAllInt(a: Agg, fs: seq<Value>, i: nat): Option<Agg>
    requires i <= |fs|
    decreases |fs| - i
  {
    if i == |fs| then Some(a)
    else if !fs[i].Object? then AppendAllInt(a, fs, i + 1)
    else if a.maxIdx >= MAX_INT then None
    else AppendAllInt(Raise(PutFragment(a.(maxIdx := a.maxIdx + 1), a.maxIdx + 1, fs[i]), i), fs, i + 1)
  }

  function ApplyToFragmentsInt(a: Agg, op: string, v: Value): Option<Agg> {
    match v
    case Array(fs) =>
      if !Countable(fs) then None
      else if op == "APPEND" then AppendAllInt(a, fs, 0)
      else Some(Seed(a.(frag := map[], fragType := map[], maxIdx := -1), fs, 0))
    case Object(_) =>
      if op != "APPEND" then Some(a)
      else if a.maxIdx >= MAX_INT then None
      else Some(PutFragment(a.(maxIdx := a.maxIdx + 1), a.maxIdx + 1, v))
    case _ => Some(a)
  }

  function ApplyToFragmentInt(a: Agg, toks: seq<string>, op: string, v: Value): Option<Agg>
    requires |toks| >= 3
  {
    if KeyFits(toks[2]) then Some(ApplyToFragment(a, toks, op, v)) else None
  }

  function ApplyPlainInt(a: Agg, toks: seq<string>, op: string, v: Value): Option<Agg> {
    if |toks| >= 2 && toks[0] == "response" && toks[1] == "fragments" then
      if |toks| == 2 then ApplyToFragmentsInt(a, op, v) else ApplyToFragmentInt(a, toks, op, v)
    else Some(ApplyPlain(a, toks, op, v))
  }

  function ApplyOpInt(a: Agg, path: string, op: string, v: Value): Option<Agg>
    decreases v
  {
    if path == "" then Some(a)
    else if op == "BATCH" then
      if !v.Array? then Some(a)
      else if Countable(v.items) then ApplyBatchInt(a, path, v.items)
      else None
    else ApplyPlainInt(a, Tokens(path), op, v)
  }

  function ApplyBatchInt(a: Agg, path: string, items: seq<Value>): Option<Agg>
    decreases items
  {
    if items == [] then Some(a)
    else
      match ApplyItemInt(a, path, items[0])
      case None => None
      case Some(b) => ApplyBatchInt(b, path, items[1..])
  }

  function ApplyItemInt(a: Agg, path: string, item: Value): Option<Agg>
    decreases item
  {
    var part := StringItem(item, "p");
    if part == "" || Item(item, "v").None? then Some(a)
    else ApplyOpInt(a, Join(path, part), OpOf(item), Item(item, "v").value)
  }

  predicate SnapshotFits(resp: Value) {
    match Item(resp, "fragments")
    case Some(Array(fs)) => Countable(fs)
    case _ => true
  }

  function ApplyBareInt(a: Agg, v: Value): Option<Agg> {
    match Item(v, "response")
    case Some(resp) => if SnapshotFits(resp) then Some(SeedFragments(a, resp)) else None
    case None => Some(ApplyBare(a, v))
  }

  function ApplyInForceInt(a: Agg, path: string, op: string, v: Value): Option<Agg> {
    if path == "" then ApplyBareInt(a, v) else ApplyOpInt(a, path, StickyOp(op), v)
  }

  /** The state after a frame's own error, id, path and operator are noted, before its value is applied. */
  function Noted(s: State, evt: string, j: Value): State {
    NoteSticky(s.(agg := NoteReady(NoteError(s.agg, evt, j), evt, j)), j)
  }

  function OnFrameInt(s: State, evt: string, j: Value): Option<State> {
    if !j.Object? then Some(s)
    else
      var t := Noted(s, evt, j);
      match Item(j, "v")
      case None => Some(t)
      case Some(v) =>
        match ApplyInForceInt(t.agg, t.curPath, t.curOp, v)
        case None => None
        case Some(b) => Some(t.(agg := b))
  }

  function OnFramesInt(s: State, evt: string, js: seq<Value>): Option<State>
    decreases |js|
  {
    if js == [] then Some(s)
    else
      match OnFrameInt(s, evt, js[0])
      case None => None
      case Some(t) => OnFramesInt(t, evt, js[1..])
  }

  // ---- What frames do to the largest index, by themselves ----

  /** Reach: an index is named. Append: an object is appended, the item at that place of its array. Reset: the
      fragments are replaced. Begin: a text goes to the last fragment. Oversize: an array is too long to be counted. */
  datatype Touch = Reach(k: int) | Append(at: nat) | Reset | Begin | Oversize

  function Larger(m: int, k: int): int {
    if m < k then k else m
  }

  /** The largest index after a touch, if an int can hold what is named or raised. */
  function After(m: int, t: Touch): Option<int> {
    match t
    case Reach(k) => if IsInt(k) then Some(Larger(m, Larger(k, 0))) else None
    case Append(at) => if m < MAX_INT then Some(Larger(m + 1, at)) else None
    case Reset => Some(-1)
    case Begin => Some(Larger(m, 0))
    case Oversize => None
  }

  function AfterAll(m: int, ts: seq<Touch>): Option<int>
    decreases |ts|
  {
    if ts == [] then Some(m)
    else
      match After(m, ts[0])
      case None => None
      case Some(k) => AfterAll(k, ts[1..])
  }

  function Appends(fs: seq<Value>, i: nat): seq<Touch>
    requires i <= |fs|
    decreases |fs| - i
  {
    if i == |fs| then [] else (if fs[i].Object? then [Append(i)] else []) + Appends(fs, i + 1)
  }

  function Seeds(fs: seq<Value>, i: nat): seq<Touch>
    requires i <= |fs|
    decreases |fs| - i
  {
    if i == |fs| then [] else (if fs[i].Object? then [Reach(i)] else []) + Seeds(fs, i + 1)
  }

  function KeyNumber(key: string): int {
    if key == "-1" || key == "" then 0 else Atoi(key)
  }

  function TouchesOfPlain(toks: seq<string>, op: string, v: Value): seq<Touch> {
    if |toks| >= 2 && toks[0] == "response" && toks[1] == "fragments" then
      if |toks| >= 3 then [Reach(KeyNumber(toks[2]))]
      else
        match v
        case Array(fs) =>
          if !Countable(fs) then [Oversize] else if op == "APPEND" then Appends(fs, 0) else [Reset] + Seeds(fs, 0)
        case Object(_) => if op == "APPEND" then [Append(0)] else []
        case _ => []
    else if |toks| == 2 && toks[0] == "response" && (toks[1] == "content" || toks[1] == "thinking_content")
            && Content(v) != "" then [Begin]
    else []
  }

  function TouchesOfOp(path: string, op: string, v: Value): seq<Touch>
    decreases v
  {
    if path == "" then []
    else if op == "BATCH" then
      if !v.Array? then []
      else if Countable(v.items) then TouchesOfBatch(path, v.items)
      else [Oversize]
    else TouchesOfPlain(Tokens(path), op, v)
  }

  function TouchesOfBatch(path: string, items: seq<Value>): seq<Touch>
    decreases items
  {
    if items == [] then [] else TouchesOfItem(path, items[0]) + TouchesOfBatch(path, items[1..])
  }

  function TouchesOfItem(path: string, item: Value): seq<Touch>
    decreases item
  {
    var part := StringItem(item, "p");
    if part == "" || Item(item, "v").None? then []
    else TouchesOfOp(Join(path, part), OpOf(item), Item(item, "v").value)
  }

  function TouchesOfBare(v: Value): seq<Touch> {
    match Item(v, "response")
    case Some(resp) =>
      (match Item(resp, "fragments")
       case Some(Array(fs)) => if Countable(fs) then Seeds(fs, 0) else [Oversize]
       case _ => [])
    case None => if v.Text? && v.s != "" then [Begin] else []
  }

  function TouchesOfValue(path: string, op: string, v: Value): seq<Touch> {
    if path == "" then TouchesOfBare(v) else TouchesOfOp(path, StickyOp(op), v)
  }

  /** What frames do, given the path and the operator in force before the first of them. */
  function Touches(path: string, op: string, js: seq<Value>): seq<Touch>
    decreases |js|
  {
    if js == [] then []
    else if !js[0].Object? then Touches(path, op, js[1..])
    else
      var p, o := Given(Item(js[0], "p"), path), Given(Item(js[0], "o"), op);
      (match Item(js[0], "v")
       case None => []
       case Some(v) => TouchesOfValue(p, o, v)) + Touches(p, o, js[1..])
  }

  lemma {:induction false} AfterAllInParts(m: int, ts: seq<Touch>, us: seq<Touch>)
    ensures AfterAll(m, ts + us) == match AfterAll(m, ts) { case None => None case Some(k) => AfterAll(k, us) }
    decreases |ts|
  {
    hide After;
    if ts == [] {
      assert ts + us == us;
    } else {
      assert (ts + us)[1..] == ts[1..] + us;
      match After(m, ts[0])
      case None =>
      case Some(k) => AfterAllInParts(k, ts[1..], us);
    }
  }

  lemma AfterOne(m: int, t: Touch)
    ensures AfterAll(m, [t]) == After(m, t)
  {
    assert [t][1..] == [];
  }

  // ---- The limit is met exactly where the touches say ----

  /** An aggregate whose indices are ints. */
  predicate Fine(a: Agg) {
    InRange(a) && a.maxIdx <= MAX_INT
  }

  /** What is computed with the limit is b, whose largest index is the one given, or nothing when none is given. */
  ghost predicate Tracks(r: Option<Agg>, m: Option<int>, b: Agg) {
    match m
    case None => r == None
    case Some(k) => r == Some(b) && Fine(b) && b.maxIdx == k
  }

  lemma AppendedFine(a: Agg, f: Value, i: nat)
    requires Fine(a) && a.maxIdx < MAX_INT && i <= MAX_INT
    ensures var b := Raise(PutFragment(a.(maxIdx := a.maxIdx + 1), a.maxIdx + 1, f), i);
            Fine(b) && b.maxIdx == Larger(a.maxIdx + 1, i)
  {
    NewFragmentInRange(a, f, i);
    hide InRange, StringItem;
  }

  lemma SeededFine(a: Agg, f: Value, i: nat)
    requires Fine(a) && i <= MAX_INT
    ensures var b := Raise(PutFragment(a, i, f), i);
            Fine(b) && b.maxIdx == Larger(a.maxIdx, i)
  {
    PutFragmentInRange(a, i, f);
    hide InRange, StringItem;
  }

  lemma AfterFirst(m: int, t: Touch, rest: seq<Touch>)
    ensures AfterAll(m, [t] + rest) == match After(m, t) { case None => None case Some(k) => AfterAll(k, rest) }
    ensures [] + rest == rest
  {
    assert ([t] + rest)[1..] == rest;
  }

  lemma {:induction false} AppendAllTracks(a: Agg, fs: seq<Value>, i: nat)
    requires Fine(a) && i <= |fs| && Countable(fs)
    ensures Tracks(AppendAllInt(a, fs, i), AfterAll(a.maxIdx, Appends(fs, i)), AppendAll(a, fs, i))
    decreases |fs| - i
  {
    hide PutFragment, Raise, InRange;
    if i < |fs| {
      AfterFirst(a.maxIdx, Append(i), Appends(fs, i + 1));
      if !fs[i].Object? {
        AppendAllTracks(a, fs, i + 1);
      } else if a.maxIdx < MAX_INT {
        AppendedFine(a, fs[i], i);
        hide AfterAll;
        AppendAllTracks(Raise(PutFragment(a.(maxIdx := a.maxIdx + 1), a.maxIdx + 1, fs[i]), i), fs, i + 1);
      }
    }
  }

  lemma {:induction false} SeedTracks(a: Agg, fs: seq<Value>, i: nat)
    requires Fine(a) && i <= |fs| && Countable(fs)
    ensures Tracks(Some(Seed(a, fs, i)), AfterAll(a.maxIdx, Seeds(fs, i)), Seed(a, fs, i))
    decreases |fs| - i
  {
    hide PutFragment, Raise, InRange;
    if i < |fs| {
      AfterFirst(a.maxIdx, Reach(i), Seeds(fs, i + 1));
      if fs[i].Object? {
        SeededFine(a, fs[i], i);
        hide AfterAll;
        SeedTracks(Raise(PutFragment(a, i, fs[i]), i), fs, i + 1);
      } else {
        SeedTracks(a, fs, i + 1);
      }
    }
  }

  lemma FragmentsTrack(a: Agg, op: string, v: Value)
    requires Fine(a)
    ensures Tracks(ApplyToFragmentsInt(a, op, v), AfterAll(a.maxIdx, TouchesOfPlain(["response", "fragments"], op, v)),
                   ApplyToFragments(a, op, v))
  {
    var cleared := a.(frag := map[], fragType := map[], maxIdx := -1);
    assert Fine(cleared);
    match v
    case Array(fs) =>
      if !Countable(fs) {
        AfterOne(a.maxIdx, Oversize);
      } else if op == "APPEND" {
        AppendAllTracks(a, fs, 0);
      } else {
        SeedTracks(cleared, fs, 0);
        AfterOne(a.maxIdx, Reset);
        AfterAllInParts(a.maxIdx, [Reset], Seeds(fs, 0));
      }
    case Object(_) =>
      AfterOne(a.maxIdx, Append(0));
      NewFragmentInRange(a, v, 0);
      hide StringItem;
    case _ =>
  }

  lemma FragmentTracks(a: Agg, toks: seq<string>, op: string, v: Value)
    requires Fine(a) && |toks| >= 3
    ensures Tracks(ApplyToFragmentInt(a, toks, op, v), AfterAll(a.maxIdx, [Reach(KeyNumber(toks[2]))]),
                   ApplyToFragment(a, toks, op, v))
  {
    AfterOne(a.maxIdx, Reach(KeyNumber(toks[2])));
    ApplyToFragmentInRange(a, toks, op, v);
    assert a.maxIdx >= -1;
    hide InRange, Content, StringItem, Atoi;
  }

  lemma ContentTracks(a: Agg, op: string, text: string)
    requires Fine(a)
    ensures var b := if op == "SET" && a.maxIdx >= 0 then Put(a, a.maxIdx, text) else AppendActive(a, text);
            Tracks(Some(b), AfterAll(a.maxIdx, if text != "" then [Begin] else []), b)
  {
    AfterOne(a.maxIdx, Begin);
    AppendActiveInRange(a, text);
    PutInRange(a, if a.maxIdx >= 0 then a.maxIdx else 0, text);
    assert a.maxIdx >= -1;
    hide InRange;
  }

  lemma PlainTracks(a: Agg, toks: seq<string>, op: string, v: Value)
    requires Fine(a)
    ensures Tracks(ApplyPlainInt(a, toks, op, v), AfterAll(a.maxIdx, TouchesOfPlain(toks, op, v)),
                   ApplyPlain(a, toks, op, v))
  {
    hide InRange, ApplyToFragments, ApplyToFragmentsInt, ApplyToFragment, ApplyToFragmentInt, Content, Put,
      AppendActive;
    if |toks| >= 2 && toks[0] == "response" && toks[1] == "fragments" {
      if |toks| == 2 {
        assert toks == ["response", "fragments"];
        FragmentsTrack(a, op, v);
      } else {
        FragmentTracks(a, toks, op, v);
      }
    } else {
      ContentTracks(a, op, Content(v));
      StatusInRange(a, Content(v));
    }
  }

  lemma {:induction false} OpTracks(a: Agg, path: string, op: string, v: Value)
    requires Fine(a)
    ensures Tracks(ApplyOpInt(a, path, op, v), AfterAll(a.maxIdx, TouchesOfOp(path, op, v)), ApplyOp(a, path, op, v))
    decreases v
  {
    hide InRange, ApplyPlain, ApplyPlainInt, TouchesOfPlain;
    if path != "" {
      if op == "BATCH" {
        if v.Array? {
          AfterOne(a.maxIdx, Oversize);
          BatchTracks(a, path, v.items);
        }
      } else {
        PlainTracks(a, Tokens(path), op, v);
      }
    }
  }

  lemma {:induction false} BatchTracks(a: Agg, path: string, items: seq<Value>)
    requires Fine(a)
    ensures Tracks(ApplyBatchInt(a, path, items), AfterAll(a.maxIdx, TouchesOfBatch(path, items)),
                   ApplyBatch(a, path, items))
    decreases items
  {
    hide Fine, ApplyOp, ApplyOpInt, TouchesOfOp;
    if items != [] {
      ItemTracks(a, path, items[0]);
      AfterAllInParts(a.maxIdx, TouchesOfItem(path, items[0]), TouchesOfBatch(path, items[1..]));
      if AfterAll(a.maxIdx, TouchesOfItem(path, items[0])).Some? {
        BatchTracks(ApplyItem(a, path, items[0]), path, items[1..]);
      }
    }
  }

  lemma {:induction false} ItemTracks(a: Agg, path: string, item: Value)
    requires Fine(a)
    ensures Tracks(ApplyItemInt(a, path, item), AfterAll(a.maxIdx, TouchesOfItem(path, item)), ApplyItem(a, path, item))
    decreases item
  {
    hide InRange, ApplyOp, ApplyOpInt, TouchesOfOp;
    var part := StringItem(item, "p");
    if part != "" && Item(item, "v").Some? {
      OpTracks(a, Join(path, part), OpOf(item), Item(item, "v").value);
    }
  }

  lemma BareTracks(a: Agg, v: Value)
    requires Fine(a)
    ensures Tracks(ApplyBareInt(a, v), AfterAll(a.maxIdx, TouchesOfBare(v)), ApplyBare(a, v))
  {
    hide StringItem, Seed, Seeds;
    match Item(v, "response")
    case Some(resp) =>
      AfterOne(a.maxIdx, Oversize);
      if resp.Object? {
        var b := if StringItem(resp, "status") != "" then a.(status := StringItem(resp, "status")) else a;
        match Item(resp, "fragments")
        case Some(Array(fs)) =>
          if Countable(fs) {
            SeedTracks(b, fs, 0);
          }
        case _ =>
      }
    case None =>
      if v.Text? {
        ContentTracks(a, "APPEND", v.s);
        assert |"APPEND"| != |"SET"|;
      }
  }

  lemma InForceTracks(a: Agg, path: string, op: string, v: Value)
    requires Fine(a)
    ensures Tracks(ApplyInForceInt(a, path, op, v), AfterAll(a.maxIdx, TouchesOfValue(path, op, v)),
                   ApplyInForce(a, path, op, v))
  {
    hide Fine, ApplyBare, ApplyBareInt, TouchesOfBare, ApplyOp, ApplyOpInt, TouchesOfOp;
    BareTracks(a, v);
    OpTracks(a, path, StickyOp(op), v);
  }

  /** What a frame notes leaves the fragments alone. */
  lemma NotedFine(s: State, evt: string, j: Value)
    requires Fine(s.agg)
    ensures Fine(Noted(s, evt, j).agg) && Noted(s, evt, j).agg.maxIdx == s.agg.maxIdx
  {
    NotesInRange(s.agg, evt, j);
    hide InRange, Item, IsError, ErrorText, StringItem;
  }

  /** The interpreter with the limit does what the one without does, over every sequence of frames, exactly when the
      frames' touches stay within it; the largest index is then theirs. */
  lemma {:induction false} FramesTrack(s: State, evt: string, js: seq<Value>)
    requires Fine(s.agg)
    ensures var m := AfterAll(s.agg.maxIdx, Touches(s.curPath, s.curOp, js));
            var t := OnFrames(s, evt, js);
            && OnFramesInt(s, evt, js) == (if m.None? then None else Some(t))
            && (m.Some? ==> Fine(t.agg) && t.agg.maxIdx == m.value)
    decreases |js|
  {
    hide Fine, Item, ApplyInForce, ApplyInForceInt, TouchesOfValue, NoteError, NoteReady;
    if js != [] {
      var j := js[0];
      if j.Object? {
        var t := Noted(s, evt, j);
        NotedFine(s, evt, j);
        var rest := Touches(t.curPath, t.curOp, js[1..]);
        match Item(j, "v") {
          case None =>
            assert [] + rest == rest;
            FramesTrack(t, evt, js[1..]);
          case Some(v) =>
            var ts := TouchesOfValue(t.curPath, t.curOp, v);
            InForceTracks(t.agg, t.curPath, t.curOp, v);
            AfterAllInParts(s.agg.maxIdx, ts, rest);
            if AfterAll(s.agg.maxIdx, ts).Some? {
              FramesTrack(t.(agg := ApplyInForce(t.agg, t.curPath, t.curOp, v)), evt, js[1..]);
            }
        }
      } else {
        FramesTrack(s, evt, js[1..]);
      }
    }
  }

  // ---- Frames that stay away from the limit ----

  /** No index beyond top is named, and no array is too long. */
  predicate NamesUpTo(t: Touch, top: int) {
    match t
    case Reach(k) => IsInt(k) && k <= top
    case Append(at) => at <= top
    case Oversize => false
    case _ => true
  }

  predicate AllUpTo(ts: seq<Touch>, top: int) {
    forall i :: 0 <= i < |ts| ==> NamesUpTo(ts[i], top)
  }

  function Appended(ts: seq<Touch>): nat {
    if ts == [] then 0 else (if ts[0].Append? then 1 else 0) + Appended(ts[1..])
  }

  /** It is enough that the largest index named and the number of objects appended stay below the largest int
      together. */
  lemma {:induction false} SmallIndicesFit(m: int, ts: seq<Touch>, top: int)
    requires m <= top && 0 <= top && AllUpTo(ts, top) && top + Appended(ts) < MAX_INT
    ensures AfterAll(m, ts).Some? && AfterAll(m, ts).value < MAX_INT
    decreases |ts|
  {
    if ts != [] {
      var next := if ts[0].Append? then top + 1 else top;
      assert NamesUpTo(ts[0], top);
      forall i | 0 <= i < |ts[1..]| ensures NamesUpTo(ts[1..][i], next) {
        assert ts[1..][i] == ts[i + 1] && NamesUpTo(ts[i + 1], top);
      }
      SmallIndicesFit(After(m, ts[0]).value, ts[1..], next);
    }
  }

  // ---- Appending, with the limit ----

  /** APPEND goes beyond the limit exactly where its touches do, and otherwise keeps every text and every type
      exactly but in the cases of Replaces. */
  lemma AppendKeepsWithin(a: Agg, path: string, v: Value)
    requires Fine(a) && path != ""
    ensures var r := ApplyOpInt(a, path, "APPEND", v);
            && (r.None? <==> AfterAll(a.maxIdx, TouchesOfPlain(Tokens(path), "APPEND", v)).None?)
            && (r.Some? ==> (Keeps(a, r.value) <==> !Replaces(a, Tokens(path), v)))
  {
    assert |"APPEND"| != |"BATCH"|;
    OpTracks(a, path, "APPEND", v);
    AppendKeepsExactly(a, path, v);
    hide InRange, Keeps, Replaces, ApplyOp, ApplyPlainInt, TouchesOfPlain, Tokens;
  }

  // ---- The limit, at concrete frames ----

  lemma NextDigit(s: string, n: nat, d: nat)
    requires s != [] && d < 10 && s[0] as int == '0' as int + d
    ensures Digits(s, n) == Digits(s[1..], 10 * n + d)
  {
  }

  lemma FiveDigits(s: string, n: nat, d: seq<nat>)
    requires |s| == |d| == 5 && forall i :: 0 <= i < 5 ==> d[i] < 10 && s[i] as int == '0' as int + d[i]
    ensures Digits(s, n) == 100000 * n + 10000 * d[0] + 1000 * d[1] + 100 * d[2] + 10 * d[3] + d[4]
  {
    assert Digits("", 100000 * n + 10000 * d[0] + 1000 * d[1] + 100 * d[2] + 10 * d[3] + d[4]) ==
           100000 * n + 10000 * d[0] + 1000 * d[1] + 100 * d[2] + 10 * d[3] + d[4];
    hide Digits;
    assert s[1..][1..] == s[2..] && s[2..][1..] == s[3..] && s[3..][1..] == s[4..] && s[4..][1..] == "";
    NextDigit(s, n, d[0]);
    NextDigit(s[1..], 10 * n + d[0], d[1]);
    NextDigit(s[2..], 100 * n + 10 * d[0] + d[1], d[2]);
    NextDigit(s[3..], 1000 * n + 100 * d[0] + 10 * d[1] + d[2], d[3]);
    NextDigit(s[4..], 10000 * n + 1000 * d[0] + 100 * d[1] + 10 * d[2] + d[3], d[4]);
  }

  lemma {:induction false} DigitsInParts(s: string, t: string, n: nat)
    requires forall i :: 0 <= i < |s| ==> '0' <= s[i] <= '9'
    ensures Digits(s + t, n) == Digits(t, Digits(s, n))
  {
    if s == [] {
      assert s + t == t;
    } else {
      assert (s + t)[1..] == s[1..] + t;
      DigitsInParts(s[1..], t, 10 * n + (s[0] as int - '0' as int));
    }
  }

  lemma TenDigits(s: string, t: string, d: seq<nat>, e: seq<nat>)
    requires |s| == |d| == 5 && forall i :: 0 <= i < 5 ==> d[i] < 10 && s[i] as int == '0' as int + d[i]
    requires |t| == |e| == 5 && forall i :: 0 <= i < 5 ==> e[i] < 10 && t[i] as int == '0' as int + e[i]
    ensures Atoi(s + t) == 100000 * (10000 * d[0] + 1000 * d[1] + 100 * d[2] + 10 * d[3] + d[4]) +
                           10000 * e[0] + 1000 * e[1] + 100 * e[2] + 10 * e[3] + e[4]
  {
    DigitsInParts(s, t, 0);
    FiveDigits(s, 0, d);
    FiveDigits(t, Digits(s, 0), e);
    assert (s + t)[0] == s[0];
    hide Digits;
  }

  lemma LongNumbers()
    ensures Atoi("2147483647") == MAX_INT && Atoi("4294967296") == 4294967296
  {
    assert "2147483647" == "21474" + "83647" && "4294967296" == "42949" + "67296";
    TenDigits("21474", "83647", [2, 1, 4, 7, 4], [8, 3, 6, 4, 7]);
    TenDigits("42949", "67296", [4, 2, 9, 4, 9], [6, 7, 2, 9, 6]);
    hide Atoi;
  }

  /** The path of a field of a fragment, response/fragments/key/field. */
  function FieldPath(key: string, field: string): string {
    "response" + "/" + ("fragments" + "/" + (key + "/" + field))
  }

  lemma TokensOfFieldPath(key: string, field: string)
    requires '/' !in key && '/' !in field && key != "" && field != ""
    ensures Tokens(FieldPath(key, field)) == ["response", "fragments", key, field]
  {
    FragmentPath(key + "/" + field);
    TwoParts(key, field);
    WordAlone(field, "");
    assert "" + field == field;
    assert Tokens(field) == [field];
    hide Tokens;
  }

  lemma TouchesOfLeaf(p: string, o: string, path: string, op: string, v: Value)
    requires path != "" && op != "" && op != "BATCH"
    ensures Touches(p, o, [LeafFrame(path, op, v)]) == TouchesOfPlain(Tokens(path), op, v)
  {
    LeafFrameItems(path, op, v);
    assert [LeafFrame(path, op, v)][1..] == [];
    hide Item, TouchesOfPlain, Tokens;
    assert TouchesOfPlain(Tokens(path), op, v) + [] == TouchesOfPlain(Tokens(path), op, v);
  }

  /** A frame, and the number of the fragment that its path names. */
  lemma FieldFrameTracks(key: string, field: string, op: string, v: Value)
    requires '/' !in key && '/' !in field && key != "" && key != "-1" && field != "" && op != "" && op != "BATCH"
    ensures var js, toks := [LeafFrame(FieldPath(key, field), op, v)], ["response", "fragments", key, field];
            && (!IsInt(Atoi(key)) ==> OnFramesInt(START, "", js) == None)
            && (IsInt(Atoi(key)) ==> OnFramesInt(START, "", js) == Some(OnFrames(START, "", js)))
            && OnFrames(START, "", js).agg == ApplyToFragment(START.agg, toks, op, v)
  {
    var path := FieldPath(key, field);
    assert path != "";
    TokensOfFieldPath(key, field);
    TouchesOfLeaf("", "", path, op, v);
    AfterOne(-1, Reach(Atoi(key)));
    assert Fine(START.agg);
    LeafFrameApplies(START, path, op, v);
    OneFrame(START, LeafFrame(path, op, v));
    hide Atoi, Tokens, LeafFrame, OnFrame, Touches, OnFrames, OnFramesInt, InRange, ApplyToFragment, FieldPath;
    FramesTrack(START, "", [LeafFrame(path, op, v)]);
  }

  function LastFrame(): Value {
    LeafFrame(FieldPath("2147483647", "content"), "SET", Text("x"))
  }

  lemma Names()
    ensures '/' !in "2147483647" && '/' !in "4294967296" && '/' !in "content" && '/' !in "type"
    ensures "2147483647" != "-1" && "4294967296" != "-1" && "SET" != "BATCH" && "APPEND" != "BATCH" && "SET" != "APPEND"
    ensures "content" != "type"
  {
    assert |"2147483647"| > |"-1"| && |"4294967296"| > |"-1"| && |"SET"| < |"BATCH"| < |"APPEND"|;
    assert |"content"| != |"type"|;
  }

  /** A frame that names fragment 2147483647 is taken, and the largest index is then the largest int. */
  lemma LastFrameReachesLimit()
    ensures OnFramesInt(START, "", [LastFrame()]) == Some(OnFrames(START, "", [LastFrame()]))
    ensures var a := OnFrames(START, "", [LastFrame()]).agg;
            a == START.agg.(frag := map[MAX_INT := "x"], maxIdx := MAX_INT)
  {
    LongNumbers();
    Names();
    FieldFrameTracks("2147483647", "content", "SET", Text("x"));
    hide Atoi, LeafFrame, FieldPath, OnFrames, OnFramesInt;
    ContentAt(START.agg, ["response", "fragments", "2147483647", "content"], "x");
  }

  lemma ContentAt(a: Agg, toks: seq<string>, text: string)
    requires |toks| == 4 && toks[3] == "content" && toks[2] != "-1" && toks[2] != "" && Atoi(toks[2]) > a.maxIdx >= -1
    ensures ApplyToFragment(a, toks, "SET", Text(text)) ==
            a.(frag := a.frag[Atoi(toks[2]) := text], maxIdx := Atoi(toks[2]))
  {
    Names();
    hide Atoi;
  }

  lemma FragmentsPath()
    ensures Tokens("response" + "/" + "fragments") == ["response", "fragments"]
  {
    WordAlone("fragments", "");
    assert "" + "fragments" == "fragments";
    assert Tokens("fragments") == ["fragments"];
    hide Tokens;
    TwoParts("response", "fragments");
  }

  function AppendingFrame(v: Value): Value {
    LeafFrame("response" + "/" + "fragments", "APPEND", v)
  }

  lemma AppendingFrameTracks(s: State, v: Value)
    requires Fine(s.agg) && s.agg.maxIdx == MAX_INT && v.Object?
    ensures OnFramesInt(s, "", [AppendingFrame(v)]) == None
  {
    FragmentsPath();
    Names();
    TouchesOfLeaf(s.curPath, s.curOp, "response" + "/" + "fragments", "APPEND", v);
    AfterOne(MAX_INT, Append(0));
    hide Fine, LeafFrame, Tokens, Touches, OnFrames, OnFramesInt;
    FramesTrack(s, "", [AppendingFrame(v)]);
  }

  lemma AppendingFrameApplies(s: State, v: Value)
    requires v.Object?
    ensures s.agg.maxIdx + 1 in OnFrames(s, "", [AppendingFrame(v)]).agg.frag
  {
    FragmentsPath();
    Names();
    OneFrame(s, AppendingFrame(v));
    LeafFrameApplies(s, "response" + "/" + "fragments", "APPEND", v);
    hide LeafFrame, Tokens, OnFrames, OnFrame, StringItem;
  }

  lemma InTurn(s: State, a: Value, b: Value)
    ensures OnFrames(s, "", [a, b]) == OnFrames(OnFrames(s, "", [a]), "", [b])
    ensures OnFramesInt(s, "", [a, b]) ==
            match OnFramesInt(s, "", [a]) { case None => None case Some(t) => OnFramesInt(t, "", [b]) }
  {
    assert [a, b][1..] == [b] && [a][1..] == [];
    hide OnFrame, OnFrameInt;
  }

  /** The next object appended goes beyond it, although without a limit it would get an index of its own. */
  lemma AppendAfterLimit(v: Value)
    requires v.Object?
    ensures OnFramesInt(START, "", [LastFrame(), AppendingFrame(v)]) == None
    ensures MAX_INT + 1 in OnFrames(START, "", [LastFrame(), AppendingFrame(v)]).agg.frag
  {
    LastFrameReachesLimit();
    hide LastFrame, AppendingFrame, OnFrames, OnFramesInt;
    var s := OnFrames(START, "", [LastFrame()]);
    assert Fine(s.agg);
    AppendingFrameTracks(s, v);
    AppendingFrameApplies(s, v);
    InTurn(START, LastFrame(), AppendingFrame(v));
  }

  /** So does a type given to fragment 4294967296, a number that is no int. */
  lemma BeyondIntIsUndefined()
    ensures OnFramesInt(START, "", [LeafFrame(FieldPath("4294967296", "type"), "APPEND", Text("THINK"))]) == None
  {
    LongNumbers();
    Names();
    FieldFrameTracks("4294967296", "type", "APPEND", Text("THINK"));
  }
}
