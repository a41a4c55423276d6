/** What the interpreter of DeepSeek's event stream keeps: fragments stay in range, appending loses nothing with exact
    exceptions, and making sticky paths explicit and batches flat changes nothing. */
module DeltaLaws {
  import opened Json
  import opened Options
  import opened DeepseekDelta

  // ---- Fragments stay in range ----

  /** Every fragment and every type has an index between 0 and the largest one. */
  predicate InRange(a: Agg) {
    && a.maxIdx >= -1
    && (forall i :: i in a.frag ==> 0 <= i <= a.maxIdx)
    && (forall i :: i in a.fragType ==> 0 <= i <= a.maxIdx)
  }

  lemma PutFragmentInRange(a: Agg, idx: int, f: Value)
    requires 0 <= idx && InRange(a)
    ensures InRange(Raise(PutFragment(a, idx, f), idx))
  {
    hide StringItem;
  }

  lemma {:induction false} SeedInRange(a: Agg, fs: seq<Value>, i: nat)
    requires InRange(a) && i <= |fs|
    ensures InRange(Seed(a, fs, i))
    decreases |fs| - i
  {
    if i < |fs| {
      if fs[i].Object? {
        PutFragmentInRange(a, i, fs[i]);
      }
      hide InRange, PutFragment, Raise;
      SeedInRange(if fs[i].Object? then Raise(PutFragment(a, i, fs[i]), i) else a, fs, i + 1);
    }
  }

  lemma NewFragmentInRange(a: Agg, f: Value, i: nat)
    requires InRange(a)
    ensures var b := PutFragment(a.(maxIdx := a.maxIdx + 1), a.maxIdx + 1, f); InRange(b) && InRange(Raise(b, i))
  {
    hide StringItem;
  }

  lemma {:induction false} AppendAllInRange(a: Agg, fs: seq<Value>, i: nat)
    requires InRange(a) && i <= |fs|
    ensures InRange(AppendAll(a, fs, i))
    decreases |fs| - i
  {
    if i < |fs| {
      var b := if fs[i].Object? then Raise(PutFragment(a.(maxIdx := a.maxIdx + 1), a.maxIdx + 1, fs[i]), i) else a;
      NewFragmentInRange(a, fs[i], i);
      hide InRange, PutFragment, Raise;
      AppendAllInRange(b, fs, i + 1);
    }
  }

  lemma AppendActiveInRange(a: Agg, text: string)
    requires InRange(a)
    ensures InRange(AppendActive(a, text))
  {
  }

  lemma SeedFragmentsInRange(a: Agg, resp: Value)
    requires InRange(a)
    ensures InRange(SeedFragments(a, resp))
  {
    if resp.Object? {
      var b := if StringItem(resp, "status") != "" then a.(status := StringItem(resp, "status")) else a;
      match Item(resp, "fragments")
      case Some(Array(fs)) => SeedInRange(b, fs, 0);
      case _ =>
    }
  }

  lemma PutInRange(a: Agg, idx: int, text: string)
    requires InRange(a) && 0 <= idx
    ensures var b := Raise(a, idx);
            && InRange(b) && InRange(Put(b, idx, text)) && InRange(Extend(b, idx, text))
            && InRange(b.(fragType := b.fragType[idx := text]))
    ensures idx <= a.maxIdx ==> InRange(Put(a, idx, text))
  {
  }

  lemma RaisedFragmentInRange(a: Agg, idx: int, v: Value)
    requires InRange(a) && 0 <= idx
    ensures InRange(PutFragment(Raise(a, idx), idx, v))
  {
    hide StringItem;
  }

  lemma IndexNotNegative(a: Agg, key: string)
    ensures 0 <= Index(a, key)
  {
    hide Atoi;
  }

  lemma ApplyToFragmentInRange(a: Agg, toks: seq<string>, op: string, v: Value)
    requires InRange(a) && |toks| >= 3
    ensures InRange(ApplyToFragment(a, toks, op, v))
  {
    hide Content, InRange, Put, Extend, Raise, PutFragment, Index;
    var idx := Index(a, toks[2]);
    IndexNotNegative(a, toks[2]);
    PutInRange(a, idx, Content(v));
    RaisedFragmentInRange(a, idx, v);
  }

  lemma ApplyToFragmentsInRange(a: Agg, op: string, v: Value)
    requires InRange(a)
    ensures InRange(ApplyToFragments(a, op, v))
  {
    var cleared := a.(frag := map[], fragType := map[], maxIdx := -1);
    assert InRange(cleared);
    hide InRange, PutFragment, AppendAll, Seed;
    NewFragmentInRange(a, v, 0);
    if v.Array? {
      AppendAllInRange(a, v.items, 0);
      SeedInRange(cleared, v.items, 0);
    }
  }

  lemma StatusInRange(a: Agg, text: string)
    requires InRange(a)
    ensures InRange(a.(status := text)) && InRange(a.(quasi := text))
  {
  }

  lemma ApplyPlainInRange(a: Agg, toks: seq<string>, op: string, v: Value)
    requires InRange(a)
    ensures InRange(ApplyPlain(a, toks, op, v))
  {
    assert a.maxIdx >= -1;
    hide InRange, Put, AppendActive, ApplyToFragment, ApplyToFragments, Content;
    AppendActiveInRange(a, Content(v));
    ApplyToFragmentsInRange(a, op, v);
    StatusInRange(a, Content(v));
    if |toks| >= 3 {
      ApplyToFragmentInRange(a, toks, op, v);
    }
    if a.maxIdx >= 0 {
      PutInRange(a, a.maxIdx, Content(v));
    }
  }

  lemma {:induction false} ApplyOpInRange(a: Agg, path: string, op: string, v: Value)
    requires InRange(a)
    ensures InRange(ApplyOp(a, path, op, v))
    decreases v
  {
    hide InRange, ApplyPlain;
    if op == "BATCH" {
      if v.Array? {
        ApplyBatchInRange(a, path, v.items);
      }
    } else {
      ApplyPlainInRange(a, Tokens(path), op, v);
    }
  }

  lemma {:induction false} ApplyBatchInRange(a: Agg, path: string, items: seq<Value>)
    requires InRange(a)
    ensures InRange(ApplyBatch(a, path, items))
    decreases items
  {
    hide InRange;
    if items != [] {
      ApplyItemInRange(a, path, items[0]);
      ApplyBatchInRange(ApplyItem(a, path, items[0]), path, items[1..]);
    }
  }

  lemma {:induction false} ApplyItemInRange(a: Agg, path: string, item: Value)
    requires InRange(a)
    ensures InRange(ApplyItem(a, path, item))
    decreases item
  {
    hide InRange;
    var part := StringItem(item, "p");
    if part != "" && Item(item, "v").Some? {
      ApplyOpInRange(a, Join(path, part), OpOf(item), Item(item, "v").value);
    }
  }

  /** What a frame notes does not touch the fragments. */
  lemma NotesInRange(a: Agg, evt: string, j: Value)
    requires InRange(a)
    ensures InRange(NoteReady(NoteError(a, evt, j), evt, j))
  {
    hide Item, IsError, ErrorText, StringItem;
  }

  lemma ApplyBareInRange(a: Agg, v: Value)
    requires InRange(a)
    ensures InRange(ApplyBare(a, v))
  {
    hide InRange, SeedFragments, AppendActive, Item;
    if Item(v, "response").Some? {
      SeedFragmentsInRange(a, Item(v, "response").value);
    }
    if v.Text? {
      AppendActiveInRange(a, v.s);
    }
  }

  lemma OnFrameInRange(s: State, evt: string, j: Value)
    requires InRange(s.agg)
    ensures InRange(OnFrame(s, evt, j).agg)
  {
    hide InRange, NoteReady, NoteError, ApplyOp, ApplyBare, Item, StickyOp;
    if j.Object? {
      NotesInRange(s.agg, evt, j);
      var t := NoteSticky(s.(agg := NoteReady(NoteError(s.agg, evt, j), evt, j)), j);
      if Item(j, "v").Some? {
        ApplyOpInRange(t.agg, t.curPath, StickyOp(t.curOp), Item(j, "v").value);
        ApplyBareInRange(t.agg, Item(j, "v").value);
      }
    }
  }

  /** Over every sequence of frames. */
  lemma {:induction false} FramesInRange(s: State, evt: string, js: seq<Value>)
    requires InRange(s.agg)
    ensures InRange(OnFrames(s, evt, js).agg)
    decreases |js|
  {
    hide InRange, OnFrame;
    if js != [] {
      OnFrameInRange(s, evt, js[0]);
      FramesInRange(OnFrame(s, evt, js[0]), evt, js[1..]);
    }
  }

  // ---- The text of a reply ----

  predicate Ascending(ks: seq<int>) {
    forall i, j :: 0 <= i < j < |ks| ==> ks[i] < ks[j]
  }

  predicate IsSpoken(a: Agg, k: int) {
    k in a.frag && !(k in a.fragType && a.fragType[k] == "THINK")
  }

  /** The indices of all fragments that are not thoughts, in order. */
  ghost predicate SpokenKeys(a: Agg, ks: seq<int>) {
    Ascending(ks) && forall k :: k in ks <==> IsSpoken(a, k)
  }

  function Texts(a: Agg, ks: seq<int>): string {
    if ks == [] then "" else (if ks[0] in a.frag then a.frag[ks[0]] else "") + Texts(a, ks[1..])
  }

  lemma FirstSpoken(a: Agg, i: int, ks: seq<int>)
    requires Ascending(ks) && i in ks && forall k :: k in ks <==> IsSpoken(a, k) && k >= i
    ensures ks[0] == i && Ascending(ks[1..]) && forall k :: k in ks[1..] <==> IsSpoken(a, k) && k >= i + 1
  {
    hide IsSpoken;
    assert ks[0] in ks;
    forall k ensures k in ks[1..] <==> k in ks && k != i {
      if k in ks && k != i {
        var j :| 0 <= j < |ks| && ks[j] == k;
        assert ks[1..][j - 1] == k;
      }
    }
  }

  lemma FirstIsIn(ks: seq<int>)
    ensures ks != [] ==> ks[0] in ks
  {
  }

  lemma {:induction false} SpokenFromIsTexts(a: Agg, i: int, ks: seq<int>)
    requires InRange(a) && Ascending(ks) && forall k :: k in ks <==> IsSpoken(a, k) && k >= i
    ensures SpokenFrom(a, i) == Texts(a, ks)
    decreases a.maxIdx + 1 - i
  {
    FirstIsIn(ks);
    if i <= a.maxIdx {
      if IsSpoken(a, i) {
        FirstSpoken(a, i, ks);
        SpokenFromIsTexts(a, i + 1, ks[1..]);
      } else {
        SpokenFromIsTexts(a, i + 1, ks);
      }
    }
  }

  /** The text that the loop joins is that of all fragments that are not thoughts, in order: none lies out of its
      reach. */
  lemma SpokenInOrder(a: Agg)
    requires InRange(a)
    ensures forall ks :: SpokenKeys(a, ks) ==> SpokenFrom(a, 0) == Texts(a, ks)
  {
    forall ks | SpokenKeys(a, ks) ensures SpokenFrom(a, 0) == Texts(a, ks) {
      SpokenFromIsTexts(a, 0, ks);
    }
  }

  lemma {:induction false} SpokenKeysUpTo(a: Agg, n: nat) returns (ks: seq<int>)
    ensures Ascending(ks) && forall k :: k in ks <==> IsSpoken(a, k) && 0 <= k < n
  {
    if n == 0 {
      ks := [];
    } else {
      ks := SpokenKeysUpTo(a, n - 1);
      if IsSpoken(a, n - 1) {
        forall i | 0 <= i < |ks| ensures ks[i] < n - 1 {
          assert ks[i] in ks;
        }
        ks := ks + [n - 1];
      }
    }
  }

  lemma SpokenKeysExist(a: Agg) returns (ks: seq<int>)
    requires InRange(a)
    ensures SpokenKeys(a, ks)
  {
    ks := SpokenKeysUpTo(a, a.maxIdx + 1);
  }

  // ---- Appending loses nothing ----

  function TypeOf(a: Agg, i: int): Option<string> {
    if i in a.fragType then Some(a.fragType[i]) else None
  }

  predicate IsThere(a: Agg, i: int) {
    i in a.frag || i in a.fragType
  }

  /** Every fragment is there, with its text as the beginning of its new text and with the type it had, if any. */
  ghost predicate Keeps(a: Agg, b: Agg) {
    && (forall i :: i in a.frag ==> i in b.frag && a.frag[i] <= b.frag[i])
    && (forall i :: IsThere(a, i) ==> TypeOf(b, i) == TypeOf(a, i))
  }

  lemma NewFragmentKeeps(a: Agg, f: Value, i: nat)
    requires InRange(a)
    ensures Keeps(a, a)
    ensures var b := PutFragment(a.(maxIdx := a.maxIdx + 1), a.maxIdx + 1, f); Keeps(a, b) && Keeps(a, Raise(b, i))
  {
    hide StringItem;
  }

  lemma {:induction false} AppendAllKeeps(a: Agg, fs: seq<Value>, i: nat)
    requires InRange(a) && i <= |fs|
    ensures Keeps(a, AppendAll(a, fs, i))
    decreases |fs| - i
  {
    NewFragmentKeeps(a, if i < |fs| then fs[i] else Null, i);
    hide Keeps, PutFragment, Raise;
    if i < |fs| {
      NewFragmentInRange(a, fs[i], i);
      hide InRange;
      var b := if fs[i].Object? then Raise(PutFragment(a.(maxIdx := a.maxIdx + 1), a.maxIdx + 1, fs[i]), i) else a;
      AppendAllKeeps(b, fs, i + 1);
      KeepsTwice(a, b, AppendAll(b, fs, i + 1));
    }
  }

  lemma KeepsTwice(a: Agg, b: Agg, c: Agg)
    requires Keeps(a, b) && Keeps(b, c)
    ensures Keeps(a, c)
  {
  }

  /** The path is that of a fragment or of a part of it. */
  predicate IsFragmentPath(toks: seq<string>) {
    |toks| >= 3 && toks[0] == "response" && toks[1] == "fragments"
  }

  /** An object at the path of a whole fragment puts its text in the place of the old one, and its type if it gives
      one. */
  predicate ReplacesText(a: Agg, toks: seq<string>, v: Value) {
    && IsFragmentPath(toks) && |toks| == 3 && v.Object?
    && Index(a, toks[2]) in a.frag && !(a.frag[Index(a, toks[2])] <= StringItem(v, "content"))
  }

  predicate ReplacesWholeType(a: Agg, toks: seq<string>, v: Value) {
    && IsFragmentPath(toks) && |toks| == 3 && v.Object? && StringItem(v, "type") != ""
    && IsThere(a, Index(a, toks[2])) && TypeOf(a, Index(a, toks[2])) != Some(StringItem(v, "type"))
  }

  /** A value at the path of a fragment's type replaces the type. */
  predicate ReplacesType(a: Agg, toks: seq<string>, v: Value) {
    && IsFragmentPath(toks) && |toks| > 3 && toks[3] == "type"
    && IsThere(a, Index(a, toks[2])) && TypeOf(a, Index(a, toks[2])) != Some(Content(v))
  }

  predicate Replaces(a: Agg, toks: seq<string>, v: Value) {
    ReplacesText(a, toks, v) || ReplacesWholeType(a, toks, v) || ReplacesType(a, toks, v)
  }

  /** Only the entry at idx changes. */
  lemma KeepsAllButOne(a: Agg, b: Agg, idx: int, text: string, kind: Option<string>)
    requires b.frag == a.frag[idx := text] || (b.frag == a.frag && (idx in a.frag ==> text == a.frag[idx]))
    requires forall i :: i != idx ==> TypeOf(b, i) == TypeOf(a, i)
    requires TypeOf(b, idx) == kind
    ensures Keeps(a, b) <==> (idx in a.frag ==> a.frag[idx] <= text) && (IsThere(a, idx) ==> TypeOf(a, idx) == kind)
  {
    hide TypeOf;
  }

  lemma PutFragmentEffect(a: Agg, idx: int, f: Value, i: int)
    ensures var b := PutFragment(a, idx, f);
            && b.frag == a.frag[idx := StringItem(f, "content")]
            && TypeOf(b, i) == if i == idx && StringItem(f, "type") != "" then Some(StringItem(f, "type"))
              else TypeOf(a, i)
  {
    hide StringItem;
  }

  lemma AppendWholeKeeps(a: Agg, toks: seq<string>, v: Value)
    requires IsFragmentPath(toks) && |toks| == 3
    ensures Keeps(a, ApplyToFragment(a, toks, "APPEND", v)) <==> !Replaces(a, toks, v)
  {
    var idx, b := Index(a, toks[2]), ApplyToFragment(a, toks, "APPEND", v);
    hide Index, StringItem;
    if v.Object? {
      forall i: int ensures i == idx || TypeOf(b, i) == TypeOf(a, i) {
        PutFragmentEffect(Raise(a, idx), idx, v, i);
      }
      PutFragmentEffect(Raise(a, idx), idx, v, idx);
      hide Keeps, PutFragment;
      KeepsAllButOne(a, b, idx, StringItem(v, "content"), TypeOf(b, idx));
    }
  }

  lemma AppendTypeKeeps(a: Agg, toks: seq<string>, v: Value)
    requires IsFragmentPath(toks) && |toks| > 3 && toks[3] == "type"
    ensures Keeps(a, ApplyToFragment(a, toks, "APPEND", v)) <==> !Replaces(a, toks, v)
  {
    var idx, b := Index(a, toks[2]), ApplyToFragment(a, toks, "APPEND", v);
    hide Index, StringItem, Content, Extend, PutFragment;
    assert |"content"| != |"type"|;
    assert forall i :: i != idx ==> TypeOf(b, i) == TypeOf(a, i);
    assert b.frag == a.frag && TypeOf(b, idx) == Some(Content(v));
    hide Keeps, ApplyToFragment;
    KeepsAllButOne(a, b, idx, if idx in b.frag then b.frag[idx] else "", TypeOf(b, idx));
  }

  lemma AppendContentKeeps(a: Agg, toks: seq<string>, v: Value)
    requires IsFragmentPath(toks) && |toks| > 3 && toks[3] != "type"
    ensures Keeps(a, ApplyToFragment(a, toks, "APPEND", v))
  {
    hide Index, StringItem, Content, PutFragment;
  }

  lemma AppendToFragmentKeeps(a: Agg, toks: seq<string>, v: Value)
    requires IsFragmentPath(toks)
    ensures Keeps(a, ApplyToFragment(a, toks, "APPEND", v)) <==> !Replaces(a, toks, v)
  {
    hide Keeps, ApplyToFragment, Replaces;
    if |toks| == 3 {
      AppendWholeKeeps(a, toks, v);
    } else {
      if toks[3] == "type" {
        AppendTypeKeeps(a, toks, v);
      } else {
        AppendContentKeeps(a, toks, v);
        assert !Replaces(a, toks, v) by { OnlyThose(a, toks, v); }
      }
    }
  }

  lemma OnlyThose(a: Agg, toks: seq<string>, v: Value)
    requires !IsFragmentPath(toks) || (|toks| > 3 && toks[3] != "type")
    ensures !Replaces(a, toks, v)
  {
    hide Index, StringItem, Content, TypeOf;
  }

  lemma AppendKeepsElsewhere(a: Agg, v: Value, text: string)
    requires InRange(a)
    ensures Keeps(a, AppendActive(a, text)) && Keeps(a, ApplyToFragments(a, "APPEND", v))
  {
    hide StringItem;
    if v.Array? {
      AppendAllKeeps(a, v.items, 0);
    }
    hide AppendAll;
  }

  /** APPEND keeps every text and every type, except exactly in those three cases. */
  lemma AppendKeepsExactly(a: Agg, path: string, v: Value)
    requires InRange(a) && path != ""
    ensures Keeps(a, ApplyOp(a, path, "APPEND", v)) <==> !Replaces(a, Tokens(path), v)
  {
    var toks := Tokens(path);
    hide Keeps, Replaces, AppendActive, ApplyToFragments, ApplyToFragment, Content, Tokens;
    AppendKeepsElsewhere(a, v, Content(v));
    StatusKeeps(a, Content(v));
    if IsFragmentPath(toks) {
      AppendToFragmentKeeps(a, toks, v);
    } else {
      OnlyThose(a, toks, v);
    }
  }

  lemma StatusKeeps(a: Agg, text: string)
    ensures Keeps(a, a) && Keeps(a, a.(status := text)) && Keeps(a, a.(quasi := text))
  {
  }

  // ---- Flat operations ----

  datatype Leaf = Leaf(path: string, op: string, v: Value)

  /** The operations that are not batches, with their whole paths. */
  function Leaves(path: string, op: string, v: Value): seq<Leaf>
    decreases v
  {
    if path == "" then []
    else if op == "BATCH" then (if v.Array? then BatchLeaves(path, v.items) else [])
    else [Leaf(path, op, v)]
  }

  function BatchLeaves(path: string, items: seq<Value>): seq<Leaf>
    decreases items
  {
    if items == [] then [] else ItemLeaves(path, items[0]) + BatchLeaves(path, items[1..])
  }

  function ItemLeaves(path: string, item: Value): seq<Leaf>
    decreases item
  {
    var part := StringItem(item, "p");
    if part == "" || Item(item, "v").None? then []
    else Leaves(Join(path, part), OpOf(item), Item(item, "v").value)
  }

  function ApplyLeaves(a: Agg, ls: seq<Leaf>): Agg
    decreases |ls|
  {
    if ls == [] then a else ApplyLeaves(ApplyOp(a, ls[0].path, ls[0].op, ls[0].v), ls[1..])
  }

  lemma {:induction false} ApplyLeavesInParts(a: Agg, ls: seq<Leaf>, ms: seq<Leaf>)
    ensures ApplyLeaves(a, ls + ms) == ApplyLeaves(ApplyLeaves(a, ls), ms)
    decreases |ls|
  {
    if ls == [] {
      assert ls + ms == ms;
    } else {
      assert (ls + ms)[1..] == ls[1..] + ms;
      ApplyLeavesInParts(ApplyOp(a, ls[0].path, ls[0].op, ls[0].v), ls[1..], ms);
    }
  }

  /** An operation, however deeply its batches nest, does what its flat operations do one after the other. */
  lemma {:induction false} OpIsLeaves(a: Agg, path: string, op: string, v: Value)
    ensures ApplyLeaves(a, Leaves(path, op, v)) == ApplyOp(a, path, op, v)
    decreases v
  {
    hide ApplyPlain;
    if path != "" && op == "BATCH" {
      if v.Array? {
        BatchIsLeaves(a, path, v.items);
      }
    } else if path != "" {
      assert [Leaf(path, op, v)][1..] == [];
    }
  }

  lemma {:induction false} BatchIsLeaves(a: Agg, path: string, items: seq<Value>)
    ensures ApplyLeaves(a, BatchLeaves(path, items)) == ApplyBatch(a, path, items)
    decreases items
  {
    hide ApplyOp, Leaves;
    if items != [] {
      ItemIsLeaves(a, path, items[0]);
      BatchIsLeaves(ApplyItem(a, path, items[0]), path, items[1..]);
      ApplyLeavesInParts(a, ItemLeaves(path, items[0]), BatchLeaves(path, items[1..]));
    }
  }

  lemma {:induction false} ItemIsLeaves(a: Agg, path: string, item: Value)
    ensures ApplyLeaves(a, ItemLeaves(path, item)) == ApplyItem(a, path, item)
    decreases item
  {
    hide ApplyOp, Leaves;
    var part := StringItem(item, "p");
    if part != "" && Item(item, "v").Some? {
      OpIsLeaves(a, Join(path, part), OpOf(item), Item(item, "v").value);
    }
  }

  predicate AreFlat(ls: seq<Leaf>) {
    forall k :: 0 <= k < |ls| ==> ls[k].path != "" && ls[k].op != "BATCH" && ls[k].op != ""
  }

  lemma {:induction false} LeavesAreFlat(path: string, op: string, v: Value)
    requires op != ""
    ensures AreFlat(Leaves(path, op, v))
    decreases v
  {
    if path != "" && op == "BATCH" && v.Array? {
      BatchLeavesAreFlat(path, v.items);
    }
  }

  lemma {:induction false} BatchLeavesAreFlat(path: string, items: seq<Value>)
    ensures AreFlat(BatchLeaves(path, items))
    decreases items
  {
    if items != [] {
      var item := items[0];
      if StringItem(item, "p") != "" && Item(item, "v").Some? {
        LeavesAreFlat(Join(path, StringItem(item, "p")), OpOf(item), Item(item, "v").value);
      }
      hide Leaves;
      BatchLeavesAreFlat(path, items[1..]);
    }
  }

  // ---- Paths compose ----

  lemma {:induction false} TokensOfParts(p: string, q: string, cur: string)
    ensures TokensFrom(p + "/" + q, cur) == TokensFrom(p, cur) + Tokens(q)
    decreases |p|
  {
    if p == [] {
      assert (p + "/" + q)[1..] == q;
    } else {
      assert (p + "/" + q)[1..] == p[1..] + "/" + q;
      TokensOfParts(p[1..], q, if p[0] == '/' then "" else cur + [p[0]]);
    }
  }

  /** The parts of a joined path are the parts of both, whether or not the second starts with a slash. */
  lemma TokensOfJoin(path: string, part: string)
    requires part != ""
    ensures Tokens(Join(path, part)) == Tokens(path) + Tokens(part)
  {
    if part[0] == '/' {
      assert path + part == path + "/" + part[1..];
      TokensOfParts(path, part[1..], "");
    } else {
      TokensOfParts(path, part, "");
    }
  }

  // ---- Explicit frames ----

  function LeafFrame(path: string, op: string, v: Value): Value {
    Object([Member("p", Text(path)), Member("o", Text(op)), Member("v", v)])
  }

  function ErrorFrame(message: string, reason: string): Value {
    Object([Member("error", Object([])), Member("message", Text(message)), Member("finish_reason", Text(reason))])
  }

  function LeafFrames(ls: seq<Leaf>): seq<Value> {
    if ls == [] then [] else [LeafFrame(ls[0].path, ls[0].op, ls[0].v)] + LeafFrames(ls[1..])
  }

  /** What one frame amounts to when the path and the operator in force are path and op: its error by itself, and
      either a bare value or flat operations, each with its own path and operator. */
  function Normal(path: string, op: string, evt: string, j: Value): seq<Value> {
    (if IsError(evt, j) then [ErrorFrame(ErrorText(j), StringItem(j, "finish_reason"))] else []) +
    (match Item(j, "v")
     case None => []
     case Some(v) => if path == "" then [LeafFrame("", op, v)] else LeafFrames(Leaves(path, StickyOp(op), v)))
  }

  function NormalFrames(s: State, evt: string, js: seq<Value>): seq<Value>
    decreases |js|
  {
    if js == [] then []
    else
      var t := OnFrame(s, evt, js[0]);
      (if js[0].Object? then Normal(t.curPath, t.curOp, evt, js[0]) else []) + NormalFrames(t, evt, js[1..])
  }

  lemma FirstOfThree(a: Member, b: Member, c: Member, name: string)
    ensures FirstNamed([a, b, c], name) ==
            if SameName(a.name, name) then Some(a.value)
            else if SameName(b.name, name) then Some(b.value)
            else if SameName(c.name, name) then Some(c.value)
            else None
  {
    hide SameName;
    assert [a, b, c][1..] == [b, c] && [b, c][1..] == [c] && [c][1..] == [];
    assert FirstNamed([c], name) == if SameName(c.name, name) then Some(c.value) else None;
    assert FirstNamed([b, c], name) == if SameName(b.name, name) then Some(b.value) else FirstNamed([c], name);
  }

  lemma NamesDiffer()
    ensures !SameName("p", "o") && !SameName("p", "v") && !SameName("o", "v")
  {
    assert Lower("p"[0]) == 'p' && Lower("o"[0]) == 'o' && Lower("v"[0]) == 'v';
  }

  lemma LeafFrameItems(path: string, op: string, v: Value)
    ensures var j := LeafFrame(path, op, v);
            && Item(j, "p") == Some(Text(path)) && Item(j, "o") == Some(Text(op)) && Item(j, "v") == Some(v)
            && Item(j, "error") == None
  {
    var a, b, c := Member("p", Text(path)), Member("o", Text(op)), Member("v", v);
    NamesDiffer();
    assert SameName("p", "p") && SameName("o", "o") && SameName("v", "v");
    assert !SameName("p", "error") && !SameName("o", "error") && !SameName("v", "error");
    hide SameName, FirstNamed;
    FirstOfThree(a, b, c, "p");
    FirstOfThree(a, b, c, "o");
    FirstOfThree(a, b, c, "v");
    FirstOfThree(a, b, c, "error");
  }

  lemma ErrorFrameItems(message: string, reason: string)
    ensures var j := ErrorFrame(message, reason);
            && Item(j, "error") == Some(Object([])) && Item(j, "message") == Some(Text(message))
            && Item(j, "finish_reason") == Some(Text(reason))
            && Item(j, "p") == None && Item(j, "o") == None && Item(j, "v") == None
  {
    var a, b, c := Member("error", Object([])), Member("message", Text(message)), Member("finish_reason", Text(reason));
    assert SameName("error", "error") && SameName("message", "message") && SameName("finish_reason", "finish_reason");
    assert !SameName("error", "message") && !SameName("error", "finish_reason")
      && !SameName("message", "finish_reason");
    assert !SameName("error", "p") && !SameName("message", "p") && !SameName("finish_reason", "p");
    assert !SameName("error", "o") && !SameName("message", "o") && !SameName("finish_reason", "o");
    assert !SameName("error", "v") && !SameName("message", "v") && !SameName("finish_reason", "v");
    hide SameName, FirstNamed;
    FirstOfThree(a, b, c, "error");
    FirstOfThree(a, b, c, "message");
    FirstOfThree(a, b, c, "finish_reason");
    FirstOfThree(a, b, c, "p");
    FirstOfThree(a, b, c, "o");
    FirstOfThree(a, b, c, "v");
  }

  /** An explicit frame does not depend on what was in force. */
  lemma LeafFrameApplies(s: State, path: string, op: string, v: Value)
    ensures OnFrame(s, "", LeafFrame(path, op, v)) == State(ApplyInForce(s.agg, path, op, v), path, op)
  {
    LeafFrameItems(path, op, v);
    hide Item, ApplyInForce, ErrorText;
  }

  lemma ErrorFrameApplies(s: State, message: string, reason: string)
    requires message != ""
    ensures OnFrame(s, "", ErrorFrame(message, reason)) ==
            s.(agg := s.agg.(errMsg := message, sessionFull := s.agg.sessionFull || reason == "input_exceeds_limit"))
  {
    ErrorFrameItems(message, reason);
    hide Item;
  }

  lemma {:induction false} FramesInParts(s: State, js: seq<Value>, ks: seq<Value>)
    ensures OnFrames(s, "", js + ks) == OnFrames(OnFrames(s, "", js), "", ks)
    decreases |js|
  {
    hide OnFrame;
    if js == [] {
      assert js + ks == ks;
    } else {
      assert (js + ks)[1..] == js[1..] + ks;
      FramesInParts(OnFrame(s, "", js[0]), js[1..], ks);
    }
  }

  lemma OneFrame(s: State, j: Value)
    ensures OnFrames(s, "", [j]) == OnFrame(s, "", j)
  {
    hide OnFrame;
    assert [j][1..] == [];
  }

  lemma {:induction false} LeafFramesApply(s: State, ls: seq<Leaf>)
    requires AreFlat(ls)
    ensures OnFrames(s, "", LeafFrames(ls)).agg == ApplyLeaves(s.agg, ls)
    decreases |ls|
  {
    hide OnFrame, ApplyOp, LeafFrame;
    if ls != [] {
      var l := ls[0];
      LeafFrameApplies(s, l.path, l.op, l.v);
      LeafFramesApply(OnFrame(s, "", LeafFrame(l.path, l.op, l.v)), ls[1..]);
    }
  }

  lemma ErrorTextNotEmpty(j: Value)
    ensures ErrorText(j) != ""
  {
    hide Item, StringItem;
  }

  /** The normal form of a frame does to any state with the same aggregate what the frame does. */
  lemma NormalApplies(s: State, u: State, j: Value)
    requires j.Object? && u.agg == s.agg
    ensures var t := OnFrame(s, "", j);
            OnFrames(u, "", Normal(t.curPath, t.curOp, "", j)).agg == t.agg
  {
    var t := OnFrame(s, "", j);
    var noted := NoteError(s.agg, "", j);
    var first := if IsError("", j) then [ErrorFrame(ErrorText(j), StringItem(j, "finish_reason"))] else [];
    var w := OnFrames(u, "", first);
    ErrorTextNotEmpty(j);
    if IsError("", j) {
      ErrorFrameApplies(u, ErrorText(j), StringItem(j, "finish_reason"));
      OneFrame(u, first[0]);
    }
    assert w.agg == noted;
    if Item(j, "v").Some? {
      var v := Item(j, "v").value;
      assert t.agg == ApplyInForce(noted, t.curPath, t.curOp, v);
      var rest := if t.curPath == "" then [LeafFrame("", t.curOp, v)]
        else LeafFrames(Leaves(t.curPath, StickyOp(t.curOp), v));
      hide Item, OnFrame, NoteError, LeafFrame, LeafFrames, Leaves, IsError, ErrorFrame, ErrorText;
      FramesInParts(u, first, rest);
      if t.curPath == "" {
        LeafFrameApplies(w, "", t.curOp, v);
        OneFrame(w, LeafFrame("", t.curOp, v));
      } else {
        LeavesAreFlat(t.curPath, StickyOp(t.curOp), v);
        LeafFramesApply(w, Leaves(t.curPath, StickyOp(t.curOp), v));
        OpIsLeaves(noted, t.curPath, StickyOp(t.curOp), v);
      }
    } else {
      assert first + [] == first;
    }
  }

  /** Making every inherited path and operator explicit and every batch flat gives the same aggregate, from any path and
      operator in force: the normal form does not need them. */
  lemma {:induction false} NormalisationKeepsMeaning(s: State, u: State, js: seq<Value>)
    requires u.agg == s.agg
    ensures OnFrames(u, "", NormalFrames(s, "", js)).agg == OnFrames(s, "", js).agg
    decreases |js|
  {
    hide OnFrame, Normal;
    if js != [] {
      var t := OnFrame(s, "", js[0]);
      var first := if js[0].Object? then Normal(t.curPath, t.curOp, "", js[0]) else [];
      FramesInParts(u, first, NormalFrames(t, "", js[1..]));
      if js[0].Object? {
        NormalApplies(s, u, js[0]);
      } else {
        NotAnObject(s, js[0]);
      }
      NormalisationKeepsMeaning(t, OnFrames(u, "", first), js[1..]);
    }
  }

  lemma NotAnObject(s: State, j: Value)
    requires !j.Object?
    ensures OnFrame(s, "", j) == s
  {
  }

  // ---- What APPEND loses, at concrete frames ----

  lemma {:induction false} WordAlone(word: string, cur: string)
    requires '/' !in word && cur + word != ""
    ensures TokensFrom(word, cur) == [cur + word]
    decreases |word|
  {
    if word == [] {
      assert cur + word == cur;
    } else {
      assert word == [word[0]] + word[1..];
      assert cur + word == (cur + [word[0]]) + word[1..];
      WordAlone(word[1..], cur + [word[0]]);
    }
  }

  lemma TwoParts(p: string, q: string)
    requires '/' !in p && p != ""
    ensures Tokens(p + "/" + q) == [p] + Tokens(q)
  {
    WordAlone(p, "");
    assert "" + p == p;
    hide TokensFrom;
    TokensOfParts(p, q, "");
  }

  lemma FirstFragmentPath()
    ensures Tokens("response/fragments/0") == ["response", "fragments", "0"]
    ensures Tokens("response/fragments/0/type") == ["response", "fragments", "0", "type"]
  {
    FragmentPath("0");
    FragmentPath("0" + "/" + "type");
    assert Tokens("0") == ["0"] && Tokens("type") == ["type"] by {
      WordAlone("0", "");
      WordAlone("type", "");
      assert "" + "0" == "0" && "" + "type" == "type";
    }
    hide Tokens;
    assert "response/fragments/0" == "response" + "/" + ("fragments" + "/" + "0");
    assert "response/fragments/0/type" == "response" + "/" + ("fragments" + "/" + ("0" + "/" + "type"));
    TwoParts("0", "type");
  }

  lemma FragmentPath(rest: string)
    ensures Tokens("response" + "/" + ("fragments" + "/" + rest)) == ["response", "fragments"] + Tokens(rest)
  {
    hide Tokens;
    TwoParts("response", "fragments" + "/" + rest);
    TwoParts("fragments", rest);
  }

  /** One fragment, "hello". */
  function Hello(): Agg {
    START.agg.(frag := map[0 := "hello"], fragType := map[0 := "RESPONSE"], maxIdx := 0)
  }

  function FragmentObject(content: string, kind: string): Value {
    Object([Member("content", Text(content)), Member("type", Text(kind))])
  }

  lemma FragmentObjectItems(content: string, kind: string)
    ensures StringItem(FragmentObject(content, kind), "content") == content
    ensures StringItem(FragmentObject(content, kind), "type") == kind
  {
    assert !SameName("content", "type");
    assert FirstNamed([Member("content", Text(content)), Member("type", Text(kind))][1..], "type") == Some(Text(kind));
  }

  lemma HelloIsFirst()
    ensures InRange(Hello()) && Spoken(Hello(), 0) == "hello" && TypeOf(Hello(), 0) == Some("RESPONSE")
    ensures Index(Hello(), "0") == 0 && IsThere(Hello(), 0) && Hello().frag == map[0 := "hello"]
    ensures "RESPONSE" != "THINK" && !("hello" <= "bye")
  {
    assert Atoi("0") == 0 by {
      assert Digits("", 0) == 0;
      assert "0"[1..] == "";
    }
    assert |"RESPONSE"| != |"THINK"| && |"hello"| > |"bye"|;
  }

  /** What an explicit APPEND to a fragment leaves there. */
  lemma AppendedTo(a: Agg, path: string, toks: seq<string>, v: Value, idx: int)
    requires Tokens(path) == toks && IsFragmentPath(toks) && Index(a, toks[2]) == idx
    ensures var b := OnFrame(State(a, "", ""), "", LeafFrame(path, "APPEND", v)).agg;
            && (|toks| == 3 && v.Object? && StringItem(v, "type") != "" ==>
                  b.frag == a.frag[idx := StringItem(v, "content")] && TypeOf(b, idx) == Some(StringItem(v, "type")))
            && (|toks| > 3 && toks[3] == "type" ==> b.frag == a.frag && TypeOf(b, idx) == Some(Content(v)))
  {
    assert path != "";
    assert |"APPEND"| != |"BATCH"| && |"content"| != |"type"|;
    LeafFrameApplies(State(a, "", ""), path, "APPEND", v);
    hide OnFrame, LeafFrame, Tokens, Index, Content, StringItem, Extend;
  }

  /** A new text takes "hello" out of the reply. */
  lemma AppendedObjectReplacesText()
    ensures var path, v := "response/fragments/0", FragmentObject("bye", "RESPONSE");
            var b := OnFrame(State(Hello(), "", ""), "", LeafFrame(path, "APPEND", v)).agg;
            && Spoken(Hello(), 0) == "hello" && ReplacesText(Hello(), Tokens(path), v)
            && Spoken(b, 0) == "bye" && !Keeps(Hello(), b)
  {
    var path, v := "response/fragments/0", FragmentObject("bye", "RESPONSE");
    FirstFragmentPath();
    HelloIsFirst();
    FragmentObjectItems("bye", "RESPONSE");
    hide Hello, Index, StringItem, Tokens, OnFrame, LeafFrame, InRange;
    AppendedTo(Hello(), path, Tokens(path), v, 0);
  }

  /** So does a new type along with an extended text. */
  lemma AppendedObjectReplacesType()
    ensures var path, v := "response/fragments/0", FragmentObject("hello you", "THINK");
            var b := OnFrame(State(Hello(), "", ""), "", LeafFrame(path, "APPEND", v)).agg;
            && !ReplacesText(Hello(), Tokens(path), v) && ReplacesWholeType(Hello(), Tokens(path), v)
            && Spoken(b, 0) == "" && !Keeps(Hello(), b)
  {
    var path, v := "response/fragments/0", FragmentObject("hello you", "THINK");
    FirstFragmentPath();
    HelloIsFirst();
    FragmentObjectItems("hello you", "THINK");
    hide Hello, Index, StringItem, Tokens, OnFrame, LeafFrame, InRange;
    AppendedTo(Hello(), path, Tokens(path), v, 0);
  }

  /** And a new type alone. */
  lemma AppendedTypeReplacesType()
    ensures var path, v := "response/fragments/0/type", Text("THINK");
            var b := OnFrame(State(Hello(), "", ""), "", LeafFrame(path, "APPEND", v)).agg;
            && ReplacesType(Hello(), Tokens(path), v) && Spoken(b, 0) == "" && !Keeps(Hello(), b)
  {
    var path, v := "response/fragments/0/type", Text("THINK");
    FirstFragmentPath();
    HelloIsFirst();
    hide Hello, Index, StringItem, Tokens, OnFrame, LeafFrame, InRange;
    AppendedTo(Hello(), path, Tokens(path), v, 0);
  }
}
