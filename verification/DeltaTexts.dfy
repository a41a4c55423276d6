/** What a streamed answer amounts to (qlappcom/aigptbot.cpp:737-895, 951-1009). */
module DeltaTexts {
  // APPEND lengthens a text by exactly what it brings, and a whole answer, printed as the frames of a stream, is read
  // back as the text of its pieces.

  import opened Json
  import opened Options
  import opened DeepseekDelta
  import opened DeepseekSse
  import opened DeltaIndices
  import opened DeltaLaws

  function Concat(vs: seq<string>): string {
    if vs == [] then "" else vs[0] + Concat(vs[1..])
  }

  function TextAt(a: Agg, i: int): string {
    if i in a.frag then a.frag[i] else ""
  }

  /** b is a, but for the text of fragment i. */
  predicate OnlyText(a: Agg, b: Agg, i: int, text: string) {
    b == a.(frag := a.frag[i := text], maxIdx := if i > a.maxIdx then i else a.maxIdx)
  }

  lemma TwoTexts(a: Agg, b: Agg, c: Agg, i: int, v: string, w: string)
    requires OnlyText(a, b, i, TextAt(a, i) + v) && OnlyText(b, c, i, TextAt(b, i) + w)
    ensures OnlyText(a, c, i, TextAt(a, i) + (v + w))
  {
    assert a.frag[i := TextAt(b, i)][i := TextAt(b, i) + w] == a.frag[i := TextAt(b, i) + w];
    assert TextAt(a, i) + v + w == TextAt(a, i) + (v + w);
  }

  // ---- One operation ----

  predicate IsKey(key: string) {
    '/' !in key && key != ""
  }

  /** The last fragment, or the first when there is none. */
  function Last(a: Agg): int {
    if a.maxIdx < 0 then 0 else a.maxIdx
  }

  /** A key names a fragment by its number, and -1 names the last. */
  lemma LastIsNamed(a: Agg)
    ensures Index(a, "-1") == Last(a) && IsKey("-1")
  {
  }

  lemma ContentOp(a: Agg, key: string, v: string)
    requires IsKey(key)
    ensures OnlyText(a, ApplyOp(a, FieldPath(key, "content"), "APPEND", Text(v)), Index(a, key),
                     TextAt(a, Index(a, key)) + v)
    ensures OnlyText(a, ApplyOp(a, FieldPath(key, "content"), "SET", Text(v)), Index(a, key), v)
  {
    Names();
    TokensOfFieldPath(key, "content");
    assert FieldPath(key, "content") != "";
    hide Tokens, Index, FieldPath;
  }

  lemma SameIndex(a: Agg, b: Agg, key: string, text: string)
    requires OnlyText(a, b, Index(a, key), text)
    ensures Index(b, key) == Index(a, key)
  {
    hide Atoi;
  }

  // ---- Frames that append ----

  /** A frame without a path and an operator of its own. */
  function TextFrame(v: string): Value {
    Object([Member("v", Text(v))])
  }

  function AppendFrame(key: string, v: string): Value {
    LeafFrame(FieldPath(key, "content"), "APPEND", Text(v))
  }

  /** The frames bring these texts to the fragment of that key, each by itself or by what is in force. */
  predicate Brings(js: seq<Value>, key: string, vs: seq<string>) {
    |js| == |vs| && forall i :: 0 <= i < |js| ==> js[i] == AppendFrame(key, vs[i]) || js[i] == TextFrame(vs[i])
  }

  predicate Appending(s: State, key: string) {
    s.curPath == FieldPath(key, "content") && s.curOp == "APPEND"
  }

  lemma OneMember(name: string, v: Value, other: string)
    ensures Item(Object([Member(name, v)]), other) == if SameName(name, other) then Some(v) else None
  {
    assert [Member(name, v)][1..] == [];
  }

  lemma BareFrameItems(v: Value)
    ensures var j := Object([Member("v", v)]);
            Item(j, "v") == Some(v) && Item(j, "p") == None && Item(j, "o") == None && Item(j, "error") == None
  {
    NamesDiffer();
    assert SameName("v", "v") && !SameName("v", "error");
    assert !SameName("v", "p") && !SameName("v", "o") by {
      assert Lower("p"[0]) == 'p' && Lower("o"[0]) == 'o' && Lower("v"[0]) == 'v';
    }
    hide SameName, Item;
    OneMember("v", v, "v");
    OneMember("v", v, "p");
    OneMember("v", v, "o");
    OneMember("v", v, "error");
  }

  /** A frame with nothing but a value. */
  lemma BareFrameApplies(s: State, v: Value)
    ensures OnFrame(s, "", Object([Member("v", v)])) == s.(agg := ApplyInForce(s.agg, s.curPath, s.curOp, v))
  {
    BareFrameItems(v);
    hide Item, ApplyInForce, ErrorText;
  }

  lemma FrameAppends(s: State, key: string, j: Value, v: string)
    requires IsKey(key) && (j == AppendFrame(key, v) || (j == TextFrame(v) && Appending(s, key)))
    ensures var t, i := OnFrame(s, "", j), Index(s.agg, key);
            Appending(t, key) && OnlyText(s.agg, t.agg, i, TextAt(s.agg, i) + v)
  {
    var path := FieldPath(key, "content");
    assert path != "" && "APPEND" != "";
    if j == AppendFrame(key, v) {
      LeafFrameApplies(s, path, "APPEND", Text(v));
    } else {
      BareFrameApplies(s, Text(v));
    }
    ContentOp(s.agg, key, v);
    hide OnFrame, FieldPath, LeafFrame, ApplyOp, Index;
  }

  lemma Concatenated(text: string, v: string, rest: string)
    ensures text + (v + rest) == (text + v) + rest
  {
  }

  /** Over every sequence of texts: frames that append them to one fragment lengthen its text by exactly all of them,
      and leave everything else as it was. */
  lemma {:induction false} AppendsLengthen(s: State, key: string, js: seq<Value>, vs: seq<string>)
    requires IsKey(key) && vs != [] && Brings(js, key, vs)
    requires js[0] == AppendFrame(key, vs[0]) || Appending(s, key)
    ensures var t, i := OnFrames(s, "", js), Index(s.agg, key);
            Appending(t, key) && OnlyText(s.agg, t.agg, i, TextAt(s.agg, i) + Concat(vs))
    decreases |vs|
  {
    hide OnFrame, AppendFrame, TextFrame, Index, FieldPath;
    var i, t := Index(s.agg, key), OnFrame(s, "", js[0]);
    FrameAppends(s, key, js[0], vs[0]);
    if |vs| == 1 {
      assert js == [js[0]] && vs[1..] == [];
      OneFrame(s, js[0]);
      assert vs[0] + "" == vs[0];
    } else {
      SameIndex(s.agg, t.agg, key, TextAt(s.agg, i) + vs[0]);
      AppendsLengthen(t, key, js[1..], vs[1..]);
      var u := OnFrames(s, "", js);
      assert u == OnFrames(t, "", js[1..]);
      hide OnFrames;
      TwoTexts(s.agg, t.agg, u.agg, i, vs[0], Concat(vs[1..]));
    }
  }

  /** SET leaves exactly its text. */
  lemma SetReplaces(s: State, key: string, v: string)
    requires IsKey(key)
    ensures var t := OnFrame(s, "", LeafFrame(FieldPath(key, "content"), "SET", Text(v)));
            OnlyText(s.agg, t.agg, Index(s.agg, key), v)
  {
    var path := FieldPath(key, "content");
    assert path != "" && "SET" != "";
    LeafFrameApplies(s, path, "SET", Text(v));
    ContentOp(s.agg, key, v);
    hide OnFrame, FieldPath, LeafFrame, ApplyOp, Index;
  }

  function TextFrames(vs: seq<string>): seq<Value> {
    if vs == [] then [] else [TextFrame(vs[0])] + TextFrames(vs[1..])
  }

  lemma TextHasNoItems(v: string, name: string)
    ensures Item(Text(v), name) == None
  {
  }

  lemma ActiveText(a: Agg, v: string)
    requires InRange(a)
    ensures v == "" ==> AppendActive(a, v) == a
    ensures v != "" ==> OnlyText(a, AppendActive(a, v), Last(a), TextAt(a, Last(a)) + v)
  {
    if a.maxIdx < 0 {
      assert 0 !in a.frag;
      assert a.frag[0 := ""][0 := "" + v] == a.frag[0 := "" + v];
    }
  }

  lemma BareText(s: State, v: string)
    requires s.curPath == "" && InRange(s.agg)
    ensures var t := OnFrame(s, "", TextFrame(v));
            && t.curPath == "" && InRange(t.agg)
            && (v == "" ==> t.agg == s.agg)
            && (v != "" ==> OnlyText(s.agg, t.agg, Last(s.agg), TextAt(s.agg, Last(s.agg)) + v))
  {
    BareFrameApplies(s, Text(v));
    TextHasNoItems(v, "response");
    AppendActiveInRange(s.agg, v);
    ActiveText(s.agg, v);
    hide OnFrame, Item, AppendActive, InRange;
  }

  /** Texts without any path lengthen the last fragment, or make the first. */
  lemma {:induction false} BareTextsLengthen(s: State, vs: seq<string>)
    requires s.curPath == "" && InRange(s.agg)
    ensures var t := OnFrames(s, "", TextFrames(vs));
            && t.curPath == "" && InRange(t.agg)
            && (Concat(vs) == "" ==> t.agg == s.agg)
            && (Concat(vs) != "" ==> OnlyText(s.agg, t.agg, Last(s.agg), TextAt(s.agg, Last(s.agg)) + Concat(vs)))
    decreases |vs|
  {
    hide OnFrame, InRange;
    if vs != [] {
      var t := OnFrame(s, "", TextFrame(vs[0]));
      BareText(s, vs[0]);
      BareTextsLengthen(t, vs[1..]);
      assert TextFrames(vs)[1..] == TextFrames(vs[1..]);
      var u := OnFrames(s, "", TextFrames(vs));
      assert u == OnFrames(t, "", TextFrames(vs[1..]));
      hide OnFrames;
      assert vs[0] + "" == vs[0] && "" + Concat(vs[1..]) == Concat(vs[1..]);
      if vs[0] != "" && Concat(vs[1..]) != "" {
        TwoTexts(s.agg, t.agg, u.agg, Last(s.agg), vs[0], Concat(vs[1..]));
      }
    }
  }

  // ---- The reply that they make ----

  /** A reply of that text and nothing else. */
  function ReplyOf(text: string): Result {
    if Trim(text) == "" then Empty else Reply(Trim(text))
  }

  lemma OneTextFinishes(a: Agg, i: int, text: string)
    requires i >= 0 && OnlyText(START.agg, a, i, text)
    ensures Finish(a) == ReplyOf(text)
  {
    assert a.frag == map[a.maxIdx := text] && InRange(a);
    FarText(a, text);
    hide SpokenFrom, Trim, InRange;
  }

  /** Frames that append texts to any one fragment are read as their concatenation. */
  lemma AppendsAreRead(body: string, parse: string -> Option<Value>, key: string, js: seq<Value>, vs: seq<string>)
    requires "event:" !in LinesFrom(body, 0) && DataFrames(LinesFrom(body, 0), parse) == js
    requires IsKey(key) && vs != [] && Brings(js, key, vs) && js[0] == AppendFrame(key, vs[0])
    ensures Meaning(body, parse) == Parsed(ReplyOf(Concat(vs)))
  {
    hide LinesFrom, DataFrames, OnFrames, Finish, Index, Brings, AppendFrame, Trim;
    AppendsLengthen(START, key, js, vs);
    IndexNotNegative(START.agg, key);
    assert "" + Concat(vs) == Concat(vs);
    OneTextFinishes(Aggregate(body, parse), Index(START.agg, key), Concat(vs));
  }

  /** So are texts without a path. */
  lemma BareTextsAreRead(body: string, parse: string -> Option<Value>, vs: seq<string>)
    requires "event:" !in LinesFrom(body, 0) && DataFrames(LinesFrom(body, 0), parse) == TextFrames(vs)
    ensures Meaning(body, parse) == Parsed(ReplyOf(Concat(vs)))
  {
    assert InRange(START.agg) && Last(START.agg) == 0 && SpokenFrom(START.agg, 0) == "" && Trim("") == "";
    hide LinesFrom, DataFrames, OnFrames, InRange, Trim, TextFrames;
    BareTextsLengthen(START, vs);
    assert "" + Concat(vs) == Concat(vs);
    if Concat(vs) != "" {
      hide SpokenFrom;
      OneTextFinishes(Aggregate(body, parse), 0, Concat(vs));
    }
  }

  // ---- A whole answer ----

  /** A fragment: its kind, the text it comes with, and the texts appended to it. */
  datatype Piece = Piece(kind: string, first: string, more: seq<string>)

  function Whole(p: Piece): string {
    p.first + Concat(p.more)
  }

  function PieceObject(p: Piece): Value {
    FragmentObject(p.first, p.kind)
  }

  function AppendFrames(vs: seq<string>): seq<Value> {
    if vs == [] then [] else [AppendFrame("-1", vs[0])] + TextFrames(vs[1..])
  }

  /** The first frame of an answer: a snapshot with one fragment. */
  function SnapshotFrame(p: Piece): Value {
    Object([Member("v", Object([Member("response", Object([Member("fragments", Array([PieceObject(p)]))]))]))])
  }

  /** A fragment more. */
  function PieceFrame(p: Piece): Value {
    AppendingFrame(Array([PieceObject(p)]))
  }

  /** The frames of an answer. */
  function Answer(ps: seq<Piece>): seq<Value> {
    if ps == [] then []
    else
      var p := ps[|ps| - 1];
      Answer(ps[..|ps| - 1]) + ([if |ps| == 1 then SnapshotFrame(p) else PieceFrame(p)] + AppendFrames(p.more))
  }

  /** What the answer says: the texts of the pieces that are not thoughts. */
  function Said(ps: seq<Piece>): string {
    if ps == [] then "" else (if ps[0].kind == "THINK" then "" else Whole(ps[0])) + Said(ps[1..])
  }

  ghost predicate TextsAre(frag: map<int, string>, ps: seq<Piece>) {
    (forall i :: i in frag <==> 0 <= i < |ps|) && (forall i :: 0 <= i < |ps| ==> frag[i] == Whole(ps[i]))
  }

  ghost predicate KindsAre(kinds: map<int, string>, ps: seq<Piece>) {
    && (forall i :: i in kinds <==> 0 <= i < |ps| && ps[i].kind != "")
    && (forall i :: 0 <= i < |ps| && ps[i].kind != "" ==> kinds[i] == ps[i].kind)
  }

  /** The fragments are the pieces, and nothing else is noted. */
  ghost predicate Holds(a: Agg, ps: seq<Piece>) {
    && a.maxIdx == |ps| - 1 && a.errMsg == "" && a.status == "" && a.quasi == "" && !a.sessionFull
    && TextsAre(a.frag, ps) && KindsAre(a.fragType, ps)
  }

  lemma TextsAndOne(frag: map<int, string>, ps: seq<Piece>, p: Piece)
    requires TextsAre(frag, ps)
    ensures TextsAre(frag[|ps| := Whole(p)], ps + [p])
  {
    hide Whole;
    assert forall i :: 0 <= i < |ps| ==> (ps + [p])[i] == ps[i];
  }

  lemma KindsAndOne(kinds: map<int, string>, ps: seq<Piece>, p: Piece)
    requires KindsAre(kinds, ps)
    ensures KindsAre(if p.kind != "" then kinds[|ps| := p.kind] else kinds, ps + [p])
  {
    assert forall i :: 0 <= i < |ps| ==> (ps + [p])[i] == ps[i];
  }

  lemma NewPiece(a: Agg, p: Piece, i: int)
    ensures PutFragment(a, i, PieceObject(p)) ==
            a.(frag := a.frag[i := p.first], fragType := if p.kind != "" then a.fragType[i := p.kind] else a.fragType)
  {
    FragmentObjectItems(p.first, p.kind);
    hide StringItem;
  }

  /** Before its texts are appended, a piece holds its first text alone. */
  function Bare(p: Piece): Piece {
    p.(more := [])
  }

  lemma PieceHolds(a: Agg, ps: seq<Piece>, p: Piece)
    requires Holds(a, ps)
    ensures Holds(PutFragment(a.(maxIdx := |ps|), |ps|, PieceObject(p)), ps + [Bare(p)])
  {
    NewPiece(a.(maxIdx := |ps|), p, |ps|);
    assert Whole(Bare(p)) == p.first + "" == p.first;
    TextsAndOne(a.frag, ps, Bare(p));
    KindsAndOne(a.fragType, ps, Bare(p));
    hide PutFragment, Whole, TextsAre, KindsAre;
  }

  lemma SnapshotItems(p: Piece)
    ensures var j := Object([Member("fragments", Array([PieceObject(p)]))]);
            && Item(j, "fragments") == Some(Array([PieceObject(p)])) && Item(j, "status") == None
            && Item(Object([Member("response", j)]), "response") == Some(j)
  {
    var j := Object([Member("fragments", Array([PieceObject(p)]))]);
    assert SameName("fragments", "fragments") && SameName("response", "response") && !SameName("fragments", "status");
    OneMember("fragments", Array([PieceObject(p)]), "fragments");
    OneMember("fragments", Array([PieceObject(p)]), "status");
    OneMember("response", j, "response");
    hide SameName, Item;
  }

  lemma SnapshotApplies(p: Piece)
    ensures var t := OnFrame(START, "", SnapshotFrame(p));
            t == State(PutFragment(START.agg.(maxIdx := 0), 0, PieceObject(p)), "", "")
  {
    var resp := Object([Member("fragments", Array([PieceObject(p)]))]);
    SnapshotItems(p);
    BareFrameApplies(START, Object([Member("response", resp)]));
    NewPiece(START.agg, p, 0);
    assert PieceObject(p).Object?;
    hide OnFrame, Item, PutFragment, PieceObject;
    assert SeedFragments(START.agg, resp) == Seed(START.agg, [PieceObject(p)], 0);
    assert Seed(START.agg, [PieceObject(p)], 0) == Raise(PutFragment(START.agg, 0, PieceObject(p)), 0);
    NewPiece(START.agg.(maxIdx := 0), p, 0);
  }

  lemma PieceFrameApplies(s: State, p: Piece)
    requires s.agg.maxIdx >= 0
    ensures OnFrame(s, "", PieceFrame(p)).agg ==
            PutFragment(s.agg.(maxIdx := s.agg.maxIdx + 1), s.agg.maxIdx + 1, PieceObject(p))
  {
    var path, v := "response" + "/" + "fragments", Array([PieceObject(p)]);
    FragmentsPath();
    Names();
    LeafFrameApplies(s, path, "APPEND", v);
    assert PieceObject(p).Object?;
    NewPiece(s.agg.(maxIdx := s.agg.maxIdx + 1), p, s.agg.maxIdx + 1);
    hide OnFrame, LeafFrame, Tokens, PieceObject, PutFragment;
    var b := Raise(PutFragment(s.agg.(maxIdx := s.agg.maxIdx + 1), s.agg.maxIdx + 1, PieceObject(p)), 0);
    assert AppendAll(s.agg, [PieceObject(p)], 0) == AppendAll(b, [PieceObject(p)], 1) == b;
  }

  lemma LongerHolds(a: Agg, b: Agg, ps: seq<Piece>, p: Piece)
    requires Holds(a, ps + [Bare(p)]) && OnlyText(a, b, |ps|, TextAt(a, |ps|) + Concat(p.more))
    ensures Holds(b, ps + [p])
  {
    var qs, rs := ps + [Bare(p)], ps + [p];
    assert Whole(Bare(p)) == p.first + "" == p.first;
    assert qs[|ps|] == Bare(p) && rs[|ps|] == p && forall i :: 0 <= i < |ps| ==> qs[i] == ps[i] == rs[i];
    assert Whole(p) == p.first + Concat(p.more);
    hide Whole, Concat;
    assert TextsAre(b.frag, rs);
    assert KindsAre(b.fragType, rs);
  }

  lemma {:induction false} FramesBring(vs: seq<string>)
    requires vs != []
    ensures Brings(AppendFrames(vs), "-1", vs) && AppendFrames(vs)[0] == AppendFrame("-1", vs[0])
  {
    TextFramesAre(vs[1..]);
    hide AppendFrame, TextFrame;
  }

  lemma {:induction false} TextFramesAre(vs: seq<string>)
    ensures |TextFrames(vs)| == |vs| && forall i :: 0 <= i < |vs| ==> TextFrames(vs)[i] == TextFrame(vs[i])
  {
    hide TextFrame;
    if vs != [] {
      TextFramesAre(vs[1..]);
    }
  }

  lemma TextsHold(s: State, ps: seq<Piece>, p: Piece)
    requires Holds(s.agg, ps + [Bare(p)])
    ensures Holds(OnFrames(s, "", AppendFrames(p.more)).agg, ps + [p])
  {
    hide OnFrame, AppendFrame, TextFrames;
    if p.more == [] {
      assert Bare(p) == p;
    } else {
      assert s.agg.maxIdx == |ps|;
      FramesBring(p.more);
      LastIsNamed(s.agg);
      hide AppendFrames, OnFrames, Holds, Index;
      AppendsLengthen(s, "-1", AppendFrames(p.more), p.more);
      LongerHolds(s.agg, OnFrames(s, "", AppendFrames(p.more)).agg, ps, p);
    }
  }

  /** Reading the frames of an answer leaves its pieces as the fragments. */
  lemma {:induction false} AnswerHolds(ps: seq<Piece>)
    ensures Holds(OnFrames(START, "", Answer(ps)).agg, ps)
    decreases |ps|
  {
    if ps != [] {
      var rest, p := ps[..|ps| - 1], ps[|ps| - 1];
      var s := OnFrames(START, "", Answer(rest));
      var j := if |ps| == 1 then SnapshotFrame(p) else PieceFrame(p);
      AnswerHolds(rest);
      assert Answer(ps) == Answer(rest) + ([j] + AppendFrames(p.more));
      assert |ps| == 1 ==> s == START;
      assert s.agg.maxIdx == |rest| - 1;
      assert rest + [p] == ps;
      hide OnFrame, OnFrames, Answer, AppendFrames, SnapshotFrame, PieceFrame, PutFragment, Holds;
      FramesInParts(START, Answer(rest), [j] + AppendFrames(p.more));
      FramesInParts(s, [j], AppendFrames(p.more));
      OneFrame(s, j);
      PieceHolds(s.agg, rest, p);
      if |ps| == 1 {
        SnapshotApplies(p);
      } else {
        PieceFrameApplies(s, p);
      }
      TextsHold(OnFrame(s, "", j), rest, p);
    }
  }

  lemma {:induction false} SpokenIsSaid(a: Agg, ps: seq<Piece>, i: nat)
    requires Holds(a, ps) && i <= |ps|
    ensures SpokenFrom(a, i) == Said(ps[i..])
    decreases |ps| - i
  {
    hide Whole;
    assert TextsAre(a.frag, ps) && KindsAre(a.fragType, ps);
    if i < |ps| {
      SpokenIsSaid(a, ps, i + 1);
      assert ps[i..][1..] == ps[i + 1..] && ps[i..][0] == ps[i];
      if ps[i].kind == "THINK" {
        assert i in a.fragType;
      }
    }
  }

  // ---- Whole lists of fragments ----

  function Objects(ps: seq<Piece>): (fs: seq<Value>)
    ensures |fs| == |ps|
  {
    seq(|ps|, i requires 0 <= i < |ps| => PieceObject(ps[i]))
  }

  function Bares(ps: seq<Piece>): (qs: seq<Piece>)
    ensures |qs| == |ps|
  {
    seq(|ps|, i requires 0 <= i < |ps| => Bare(ps[i]))
  }

  /** The fragments of a are those of ps as they come, and the rest is as in b. */
  ghost predicate Lists(a: Agg, b: Agg, ps: seq<Piece>) {
    && a == b.(frag := a.frag, fragType := a.fragType, maxIdx := |ps| - 1)
    && TextsAre(a.frag, Bares(ps)) && KindsAre(a.fragType, Bares(ps))
  }

  lemma OneListed(a: Agg, b: Agg, ps: seq<Piece>, i: nat)
    requires i < |ps| && Lists(a, b, ps[..i])
    ensures Lists(Raise(PutFragment(a, i, PieceObject(ps[i])), i), b, ps[..i + 1])
  {
    var p := ps[i];
    NewPiece(a, p, i);
    assert Whole(Bare(p)) == p.first + "" == p.first;
    TextsAndOne(a.frag, Bares(ps[..i]), Bare(p));
    KindsAndOne(a.fragType, Bares(ps[..i]), Bare(p));
    assert Bares(ps[..i + 1]) == Bares(ps[..i]) + [Bare(p)];
    hide PutFragment, Whole, TextsAre, KindsAre;
  }

  lemma {:induction false} AllListed(a: Agg, b: Agg, ps: seq<Piece>, i: nat)
    requires i <= |ps| && Lists(a, b, ps[..i])
    ensures Lists(Seed(a, Objects(ps), i), b, ps)
    decreases |ps| - i
  {
    if i == |ps| {
      assert ps[..i] == ps;
    } else {
      assert Objects(ps)[i] == PieceObject(ps[i]) && PieceObject(ps[i]).Object?;
      OneListed(a, b, ps, i);
      hide Lists, PieceObject, PutFragment, Raise;
      AllListed(Raise(PutFragment(a, i, Objects(ps)[i]), i), b, ps, i + 1);
    }
  }

  /** SET replaces all fragments by those of its list. */
  lemma ListReplacesAll(s: State, ps: seq<Piece>)
    ensures var t := OnFrame(s, "", LeafFrame("response" + "/" + "fragments", "SET", Array(Objects(ps))));
            Lists(t.agg, s.agg, ps)
  {
    var path, v := "response" + "/" + "fragments", Array(Objects(ps));
    FragmentsPath();
    Names();
    LeafFrameApplies(s, path, "SET", v);
    assert ps[..0] == [];
    assert Lists(s.agg.(frag := map[], fragType := map[], maxIdx := -1), s.agg, ps[..0]);
    AllListed(s.agg.(frag := map[], fragType := map[], maxIdx := -1), s.agg, ps, 0);
    hide OnFrame, LeafFrame, Tokens, Objects, Lists, Seed;
  }

  /** With the path of the reply's content: SET replaces the text of the last fragment, if there is one; everything
      else is appended to it. */
  lemma ReplyContent(s: State, field: string, op: string, v: string)
    requires (field == "content" || field == "thinking_content") && op != "" && op != "BATCH" && InRange(s.agg)
    ensures var t, i := OnFrame(s, "", LeafFrame("response" + "/" + field, op, Text(v))), Last(s.agg);
            if op == "SET" && s.agg.maxIdx >= 0 then OnlyText(s.agg, t.agg, i, v)
            else if v == "" then t.agg == s.agg
            else OnlyText(s.agg, t.agg, i, TextAt(s.agg, i) + v)
  {
    var path := "response" + "/" + field;
    ContentPath(field);
    LeafFrameApplies(s, path, op, Text(v));
    ActiveText(s.agg, v);
    hide OnFrame, LeafFrame, Tokens, AppendActive, InRange;
    assert path != "";
  }

  lemma ContentPath(field: string)
    requires field == "content" || field == "thinking_content"
    ensures Tokens("response" + "/" + field) == ["response", field] && field != "fragments"
  {
    assert '/' !in field && field != "" && |"fragments"| == 9 && |"content"| == 7 && |"thinking_content"| == 16;
    WordAlone(field, "");
    assert "" + field == field;
    assert Tokens(field) == [field];
    hide Tokens;
    TwoParts("response", field);
  }

  // ---- The end of an answer, and its result ----

  function StatusFrame(field: string, status: string): Value {
    LeafFrame("response" + "/" + field, "SET", Text(status))
  }

  lemma StatusPath(field: string)
    requires field == "status" || field == "quasi_status"
    ensures Tokens("response" + "/" + field) == ["response", field]
    ensures field != "fragments" && field != "content" && field != "thinking_content"
    ensures (field == "status") != (field == "quasi_status")
  {
    assert '/' !in field && field != "";
    assert |"status"| == 6 && |"quasi_status"| == 12 && |"fragments"| == 9 && |"content"| == 7;
    assert |"thinking_content"| == 16;
    WordAlone(field, "");
    assert "" + field == field;
    assert Tokens(field) == [field];
    hide Tokens;
    TwoParts("response", field);
  }

  lemma StatusApplies(s: State, field: string, status: string)
    requires field == "status" || field == "quasi_status"
    ensures OnFrame(s, "", StatusFrame(field, status)).agg ==
            if field == "status" then s.agg.(status := status) else s.agg.(quasi := status)
  {
    var path := "response" + "/" + field;
    StatusPath(field);
    Names();
    LeafFrameApplies(s, path, "SET", Text(status));
    hide OnFrame, LeafFrame, Tokens;
  }

  /** An answer and its status. */
  function WithStatus(ps: seq<Piece>, status: string, quasi: string): seq<Value> {
    Answer(ps) + ([StatusFrame("status", status)] + [StatusFrame("quasi_status", quasi)])
  }

  lemma ReadWithStatus(ps: seq<Piece>, status: string, quasi: string)
    ensures var a := OnFrames(START, "", WithStatus(ps, status, quasi)).agg;
            a.status == status && a.quasi == quasi && a.errMsg == "" && Holds(a.(status := "", quasi := ""), ps)
  {
    AnswerHolds(ps);
    var s := OnFrames(START, "", Answer(ps));
    var i, j := StatusFrame("status", status), StatusFrame("quasi_status", quasi);
    hide OnFrame, Answer, StatusFrame;
    FramesInParts(START, Answer(ps), [i] + [j]);
    FramesInParts(s, [i], [j]);
    OneFrame(s, i);
    OneFrame(OnFrame(s, "", i), j);
    StatusApplies(s, "status", status);
    StatusApplies(OnFrame(s, "", i), "quasi_status", quasi);
    hide OnFrames;
    var a := OnFrames(START, "", WithStatus(ps, status, quasi)).agg;
    assert a.(status := "", quasi := "") == s.agg;
  }

  lemma {:induction false} SpokenWithoutStatus(a: Agg, i: int)
    ensures SpokenFrom(a.(status := "", quasi := ""), i) == SpokenFrom(a, i)
    decreases a.maxIdx + 1 - i
  {
    if i <= a.maxIdx {
      SpokenWithoutStatus(a, i + 1);
    }
  }

  /** What is reported of an answer. */
  function Reported(ps: seq<Piece>, status: string, quasi: string): Result {
    if status == "INCOMPLETE" || quasi == "INCOMPLETE" then Interrupted else ReplyOf(Said(ps))
  }

  /** For every answer: a body whose data lines are its frames is read as what the answer says, all pieces that are not
      thoughts in order and every text that was appended to them, unless its status says that it is incomplete. */
  lemma AnswerIsRead(body: string, parse: string -> Option<Value>, ps: seq<Piece>, status: string, quasi: string)
    requires "event:" !in LinesFrom(body, 0)
    requires DataFrames(LinesFrom(body, 0), parse) == WithStatus(ps, status, quasi)
    ensures Meaning(body, parse) == Parsed(Reported(ps, status, quasi))
  {
    hide LinesFrom, DataFrames, OnFrames, WithStatus, Holds, Trim, Said;
    ReadWithStatus(ps, status, quasi);
    var a := Aggregate(body, parse);
    SpokenWithoutStatus(a, 0);
    SpokenIsSaid(a.(status := "", quasi := ""), ps, 0);
    assert ps[0..] == ps;
    hide SpokenFrom;
  }

  /** An error that the server reports at the end replaces all of it. */
  lemma ErrorIsReported(body: string, parse: string -> Option<Value>, js: seq<Value>, message: string, reason: string)
    requires "event:" !in LinesFrom(body, 0) && message != ""
    requires DataFrames(LinesFrom(body, 0), parse) == js + [ErrorFrame(message, reason)]
    ensures Meaning(body, parse) == Parsed(ServerError(message))
    ensures reason == "input_exceeds_limit" ==> Aggregate(body, parse).sessionFull
  {
    hide LinesFrom, DataFrames, OnFrame, ErrorFrame, Trim, SpokenFrom;
    var s := OnFrames(START, "", js);
    FramesInParts(START, js, [ErrorFrame(message, reason)]);
    OneFrame(s, ErrorFrame(message, reason));
    ErrorFrameApplies(s, message, reason);
    hide OnFrames;
  }

  // ---- With 32-bit indices ----

  /** The interpreter with the limit takes the frame as the one without. */
  predicate Fits(s: State, j: Value) {
    OnFrameInt(s, "", j) == Some(OnFrame(s, "", j))
  }

  /** A frame whose touches stay within the limit. */
  lemma FrameFits(s: State, j: Value, ts: seq<Touch>)
    requires Fine(s.agg) && Touches(s.curPath, s.curOp, [j]) == ts && AfterAll(s.agg.maxIdx, ts).Some?
    ensures Fits(s, j) && Fine(OnFrame(s, "", j).agg)
  {
    FramesTrack(s, "", [j]);
    OneFrame(s, j);
    assert [j][1..] == [];
    hide OnFrame, OnFrameInt, Touches, AfterAll, Fine;
  }

  predicate AllFit(s: State, js: seq<Value>)
    decreases |js|
  {
    js == [] || (Fits(s, js[0]) && AllFit(OnFrame(s, "", js[0]), js[1..]))
  }

  lemma {:induction false} FitTogether(s: State, js: seq<Value>)
    requires AllFit(s, js)
    ensures OnFramesInt(s, "", js) == Some(OnFrames(s, "", js))
    decreases |js|
  {
    hide OnFrame, OnFrameInt;
    if js != [] {
      FitTogether(OnFrame(s, "", js[0]), js[1..]);
    }
  }

  lemma {:induction false} FitInParts(s: State, js: seq<Value>, ks: seq<Value>)
    requires AllFit(s, js) && AllFit(OnFrames(s, "", js), ks)
    ensures AllFit(s, js + ks)
    decreases |js|
  {
    hide OnFrame, Fits;
    if js == [] {
      assert js + ks == ks;
    } else {
      assert (js + ks)[1..] == js[1..] + ks && (js + ks)[0] == js[0];
      FitInParts(OnFrame(s, "", js[0]), js[1..], ks);
    }
  }

  lemma TouchesOfAppend(p: string, o: string, v: string)
    ensures Touches(p, o, [AppendFrame("-1", v)]) == [Reach(0)]
    ensures Touches(FieldPath("-1", "content"), "APPEND", [TextFrame(v)]) == [Reach(0)]
  {
    var path := FieldPath("-1", "content");
    Names();
    LastIsNamed(START.agg);
    TokensOfFieldPath("-1", "content");
    assert path != "" && "APPEND" != "";
    TouchesOfLeaf(p, o, path, "APPEND", Text(v));
    TouchesOfText(path, v);
    hide FieldPath, LeafFrame, Tokens, Touches, TextFrame;
  }

  lemma AppendFrameFits(s: State, v: string)
    requires Fine(s.agg)
    ensures Fits(s, AppendFrame("-1", v)) && Fine(OnFrame(s, "", AppendFrame("-1", v)).agg)
    ensures Appending(s, "-1") ==> Fits(s, TextFrame(v)) && Fine(OnFrame(s, "", TextFrame(v)).agg)
  {
    assert s.agg.maxIdx >= -1;
    AfterOne(s.agg.maxIdx, Reach(0));
    hide Fine, Fits, OnFrame, FieldPath, AppendFrame, Touches, TextFrame;
    TouchesOfAppend(s.curPath, s.curOp, v);
    FrameFits(s, AppendFrame("-1", v), [Reach(0)]);
    if Appending(s, "-1") {
      FrameFits(s, TextFrame(v), [Reach(0)]);
    }
  }

  lemma TouchesOfText(path: string, v: string)
    requires path != ""
    ensures Touches(path, "APPEND", [TextFrame(v)]) == TouchesOfPlain(Tokens(path), "APPEND", Text(v))
  {
    BareFrameItems(Text(v));
    Names();
    assert [TextFrame(v)][1..] == [] && "APPEND" != "";
    hide Item, TouchesOfPlain, Tokens;
    assert TouchesOfPlain(Tokens(path), "APPEND", Text(v)) + [] == TouchesOfPlain(Tokens(path), "APPEND", Text(v));
  }

  lemma {:induction false} TextFramesFit(s: State, vs: seq<string>)
    requires Fine(s.agg) && Appending(s, "-1")
    ensures AllFit(s, TextFrames(vs)) && Fine(OnFrames(s, "", TextFrames(vs)).agg)
    decreases |vs|
  {
    hide OnFrame, Fits, Fine, TextFrame, Appending;
    if vs != [] {
      AppendFrameFits(s, vs[0]);
      assert TextFrames(vs)[1..] == TextFrames(vs[1..]);
      AppendingStays(s, vs[0]);
      TextFramesFit(OnFrame(s, "", TextFrame(vs[0])), vs[1..]);
    }
  }

  lemma AppendingStays(s: State, v: string)
    ensures Appending(OnFrame(s, "", AppendFrame("-1", v)), "-1")
    ensures Appending(s, "-1") ==> Appending(OnFrame(s, "", TextFrame(v)), "-1")
  {
    LastIsNamed(s.agg);
    hide OnFrame, Appending, AppendFrame, TextFrame;
    FrameAppends(s, "-1", AppendFrame("-1", v), v);
    if Appending(s, "-1") {
      FrameAppends(s, "-1", TextFrame(v), v);
    }
  }

  lemma AppendFramesFit(s: State, vs: seq<string>)
    requires Fine(s.agg)
    ensures AllFit(s, AppendFrames(vs)) && Fine(OnFrames(s, "", AppendFrames(vs)).agg)
  {
    hide OnFrame, Fits, Fine, TextFrames, AppendFrame, Appending;
    if vs != [] {
      AppendFrameFits(s, vs[0]);
      AppendingStays(s, vs[0]);
      TextFramesFit(OnFrame(s, "", AppendFrame("-1", vs[0])), vs[1..]);
      assert AppendFrames(vs)[1..] == TextFrames(vs[1..]);
    }
  }

  lemma SnapshotFits(p: Piece)
    ensures Fits(START, SnapshotFrame(p)) && Fine(OnFrame(START, "", SnapshotFrame(p)).agg)
  {
    var resp := Object([Member("fragments", Array([PieceObject(p)]))]);
    var v := Object([Member("response", resp)]);
    SnapshotItems(p);
    BareFrameItems(v);
    AfterOne(-1, Reach(0));
    assert Fine(START.agg) && PieceObject(p).Object? && [SnapshotFrame(p)][1..] == [];
    hide Item, PieceObject, Fits, OnFrame, Fine;
    assert Seeds([PieceObject(p)], 0) == [Reach(0)] + Seeds([PieceObject(p)], 1) == [Reach(0)];
    assert Touches("", "", [SnapshotFrame(p)]) == [Reach(0)] + Touches("", "", []) == [Reach(0)];
    hide Touches;
    FrameFits(START, SnapshotFrame(p), [Reach(0)]);
  }

  lemma PieceFrameFits(s: State, p: Piece)
    requires Fine(s.agg) && s.agg.maxIdx < MAX_INT
    ensures Fits(s, PieceFrame(p)) && Fine(OnFrame(s, "", PieceFrame(p)).agg)
  {
    var path, v := "response" + "/" + "fragments", Array([PieceObject(p)]);
    FragmentsPath();
    Names();
    TouchesOfLeaf(s.curPath, s.curOp, path, "APPEND", v);
    AfterOne(s.agg.maxIdx, Append(0));
    assert PieceObject(p).Object?;
    hide LeafFrame, PieceObject, Fits, OnFrame, Fine, Touches, Tokens;
    assert Appends([PieceObject(p)], 0) == [Append(0)] + Appends([PieceObject(p)], 1) == [Append(0)];
    FrameFits(s, PieceFrame(p), [Append(0)]);
  }

  lemma StatusFits(s: State, field: string, status: string)
    requires Fine(s.agg) && (field == "status" || field == "quasi_status")
    ensures Fits(s, StatusFrame(field, status)) && Fine(OnFrame(s, "", StatusFrame(field, status)).agg)
  {
    var path := "response" + "/" + field;
    StatusPath(field);
    Names();
    TouchesOfLeaf(s.curPath, s.curOp, path, "SET", Text(status));
    hide LeafFrame, Fits, OnFrame, Fine, Touches, Tokens;
    FrameFits(s, StatusFrame(field, status), []);
  }

  lemma OneFits(s: State, j: Value)
    requires Fits(s, j)
    ensures AllFit(s, [j])
  {
    assert [j][1..] == [];
    hide Fits, OnFrame;
  }

  lemma {:induction false} AnswerFits(ps: seq<Piece>)
    requires |ps| <= MAX_INT
    ensures AllFit(START, Answer(ps)) && Fine(OnFrames(START, "", Answer(ps)).agg)
    decreases |ps|
  {
    if ps == [] {
      assert Fine(START.agg);
    } else {
      var rest, p := ps[..|ps| - 1], ps[|ps| - 1];
      var s := OnFrames(START, "", Answer(rest));
      var j := if |ps| == 1 then SnapshotFrame(p) else PieceFrame(p);
      AnswerFits(rest);
      AnswerHolds(rest);
      assert |ps| == 1 ==> s == START;
      assert s.agg.maxIdx == |rest| - 1;
      hide OnFrame, AppendFrames, SnapshotFrame, PieceFrame, Fits, Fine, Holds;
      if |ps| == 1 {
        SnapshotFits(p);
      } else {
        PieceFrameFits(s, p);
      }
      AppendFramesFit(OnFrame(s, "", j), p.more);
      OneFrame(s, j);
      OneFits(s, j);
      hide AllFit, OnFrames;
      FitInParts(s, [j], AppendFrames(p.more));
      FitInParts(START, Answer(rest), [j] + AppendFrames(p.more));
      FramesInParts(START, Answer(rest), [j] + AppendFrames(p.more));
      FramesInParts(s, [j], AppendFrames(p.more));
    }
  }

  /** An answer of no more pieces than an int can count: the program, with its 32-bit indices, reads it as what it
      says. */
  lemma AnswerIsParsed(body: string, parse: string -> Option<Value>, ps: seq<Piece>, status: string, quasi: string)
    requires "event:" !in LinesFrom(body, 0) && |ps| <= MAX_INT
    requires DataFrames(LinesFrom(body, 0), parse) == WithStatus(ps, status, quasi)
    ensures MeaningInt(body, parse) == Parsed(Reported(ps, status, quasi))
  {
    var s := OnFrames(START, "", Answer(ps));
    var i, j := StatusFrame("status", status), StatusFrame("quasi_status", quasi);
    hide OnFrame, Answer, StatusFrame, Fine, Fits, LinesFrom, DataFrames, Reported, Finish;
    AnswerFits(ps);
    StatusFits(s, "status", status);
    StatusFits(OnFrame(s, "", i), "quasi_status", quasi);
    OneFits(s, i);
    OneFits(OnFrame(s, "", i), j);
    OneFrame(s, i);
    hide AllFit, OnFrames, OnFramesInt, Meaning;
    FitInParts(s, [i], [j]);
    FitInParts(START, Answer(ps), [i] + [j]);
    FitTogether(START, WithStatus(ps, status, quasi));
    ReadWithStatus(ps, status, quasi);
    NothingThrows(LinesFrom(body, 0));
    AnswerIsRead(body, parse, ps, status, quasi);
    var a := OnFrames(START, "", WithStatus(ps, status, quasi)).agg;
    assert a.(status := "", quasi := "").maxIdx == |ps| - 1;
    hide Holds;
  }

  // ---- Trimming ----

  predicate White(c: char) {
    c in {' ', '\t', '\r', '\n'}
  }

  predicate Blank(s: string) {
    forall i :: 0 <= i < |s| ==> White(s[i])
  }

  lemma {:induction false} TrimmedLeft(s: string) returns (l: string)
    ensures s == l + TrimLeft(s) && Blank(l) && (TrimLeft(s) != "" ==> !White(TrimLeft(s)[0]))
  {
    if s != [] && IsBlank(s[0]) {
      l := TrimmedLeft(s[1..]);
      assert s == [s[0]] + s[1..];
      l := [s[0]] + l;
    } else {
      l := "";
    }
  }

  lemma {:induction false} TrimmedRight(s: string) returns (r: string)
    ensures s == TrimRight(s) + r && Blank(r)
    ensures TrimRight(s) != "" ==> !White(TrimRight(s)[|TrimRight(s)| - 1]) && s != "" && TrimRight(s)[0] == s[0]
  {
    if s != [] && IsBlank(s[|s| - 1]) {
      r := TrimmedRight(s[..|s| - 1]);
      assert s == s[..|s| - 1] + [s[|s| - 1]];
      r := r + [s[|s| - 1]];
    } else {
      r := "";
    }
  }

  /** Trimming takes away blanks at both ends, all of them, and nothing else. */
  lemma TrimIsMiddle(s: string) returns (l: string, r: string)
    ensures s == l + Trim(s) + r && Blank(l) && Blank(r)
    ensures Trim(s) != "" ==> !White(Trim(s)[0]) && !White(Trim(s)[|Trim(s)| - 1])
  {
    l := TrimmedLeft(s);
    r := TrimmedRight(TrimLeft(s));
    assert s == l + (Trim(s) + r);
  }
}
