/** Batches of edits, and operators that are left out (qlappcom/aigptbot.cpp:769-797, 951-978). */
module DeltaBatches {
  // A batch edits a text in the order of its items; without an operator an item or a frame sets its text.

  import opened Json
  import opened Options
  import opened DeepseekDelta
  import opened DeltaIndices
  import opened DeltaLaws
  import opened DeltaTexts

  datatype Edit = Append(v: string) | Set(v: string) | Plain(v: string)

  /** What the edits make of a text, in order. */
  function Edited(text: string, edits: seq<Edit>): string
    decreases |edits|
  {
    if edits == [] then text
    else Edited(if edits[0].Append? then text + edits[0].v else edits[0].v, edits[1..])
  }

  function Part(key: string): string {
    "fragments" + "/" + (key + "/" + "content")
  }

  /** A path and a value, without an operator. */
  function PlainFrame(path: string, v: Value): Value {
    Object([Member("p", Text(path)), Member("v", v)])
  }

  function ItemOf(key: string, e: Edit): Value {
    match e
    case Append(v) => LeafFrame(Part(key), "APPEND", Text(v))
    case Set(v) => LeafFrame(Part(key), "SET", Text(v))
    case Plain(v) => PlainFrame(Part(key), Text(v))
  }

  function Items(key: string, edits: seq<Edit>): seq<Value> {
    if edits == [] then [] else [ItemOf(key, edits[0])] + Items(key, edits[1..])
  }

  lemma PlainItems(path: string, v: Value)
    ensures var j := PlainFrame(path, v);
            Item(j, "p") == Some(Text(path)) && Item(j, "o") == None && Item(j, "v") == Some(v)
              && Item(j, "error") == None
  {
    var m, n := Member("p", Text(path)), Member("v", v);
    NamesDiffer();
    assert Lower("p"[0]) == 'p' && Lower("o"[0]) == 'o' && Lower("v"[0]) == 'v';
    assert !SameName("p", "error") && !SameName("v", "error") && SameName("p", "p") && SameName("v", "v");
    assert !SameName("v", "o") && !SameName("v", "p");
    assert [m, n][1..] == [n] && [n][1..] == [];
    hide SameName;
    assert FirstNamed([n], "o") == None && FirstNamed([n], "error") == None && FirstNamed([n], "v") == Some(v);
  }

  lemma JoinedPart(key: string)
    ensures Part(key) != "" && Join("response", Part(key)) == FieldPath(key, "content")
  {
    assert Part(key)[0] == "fragments"[0] == 'f';
  }

  /** An item applies its value at the joined path, by its operator or by SET. */
  lemma ItemApplies(a: Agg, part: string, j: Value, op: Option<string>, v: Value)
    requires part != "" && Item(j, "p") == Some(Text(part)) && Item(j, "v") == Some(v)
    requires Item(j, "o") == match op { case Some(o) => Some(Text(o)) case None => None }
    requires op != Some("")
    ensures ApplyItem(a, "response", j) ==
            ApplyOp(a, Join("response", part), match op { case Some(o) => o case None => "SET" }, v)
  {
    hide Item, ApplyOp, Join;
  }

  lemma ItemEdits(a: Agg, key: string, e: Edit)
    requires IsKey(key)
    ensures OnlyText(a, ApplyItem(a, "response", ItemOf(key, e)), Index(a, key), Edited(TextAt(a, Index(a, key)), [e]))
  {
    var text := TextAt(a, Index(a, key));
    assert [e][1..] == [] && Edited(text, [e]) == if e.Append? then text + e.v else e.v;
    JoinedPart(key);
    ContentOp(a, key, e.v);
    hide OnlyText, Edited, ApplyItem, ApplyOp, Item, Part, FieldPath, Index, Join, PlainFrame, LeafFrame, TextAt;
    assert "APPEND" != "" && "SET" != "";
    match e
    case Append(v) =>
      LeafFrameItems(Part(key), "APPEND", Text(v));
      ItemApplies(a, Part(key), ItemOf(key, e), Some("APPEND"), Text(v));
    case Set(v) =>
      LeafFrameItems(Part(key), "SET", Text(v));
      ItemApplies(a, Part(key), ItemOf(key, e), Some("SET"), Text(v));
    case Plain(v) =>
      PlainItems(Part(key), Text(v));
      ItemApplies(a, Part(key), ItemOf(key, e), None, Text(v));
  }

  lemma FirstItem(a: Agg, key: string, edits: seq<Edit>)
    requires edits != []
    ensures var b := ApplyItem(a, "response", ItemOf(key, edits[0]));
            && ApplyBatch(a, "response", Items(key, edits)) == ApplyBatch(b, "response", Items(key, edits[1..]))
            && (|edits| == 1 ==> ApplyBatch(a, "response", Items(key, edits)) == b)
  {
    assert Items(key, edits)[1..] == Items(key, edits[1..]) && Items(key, edits)[0] == ItemOf(key, edits[0]);
    hide ApplyItem, ItemOf;
  }

  lemma EditedInParts(text: string, edits: seq<Edit>)
    requires edits != []
    ensures Edited(text, edits) == Edited(Edited(text, [edits[0]]), edits[1..])
  {
    assert [edits[0]][1..] == [];
  }

  lemma OneAfterOther(a: Agg, b: Agg, c: Agg, i: int, v: string, w: string)
    requires OnlyText(a, b, i, v) && OnlyText(b, c, i, w)
    ensures TextAt(b, i) == v && OnlyText(a, c, i, w)
  {
    assert a.frag[i := v][i := w] == a.frag[i := w];
  }

  lemma {:induction false} ItemsEdit(a: Agg, key: string, edits: seq<Edit>)
    requires IsKey(key) && edits != []
    ensures OnlyText(a, ApplyBatch(a, "response", Items(key, edits)), Index(a, key),
                     Edited(TextAt(a, Index(a, key)), edits))
    decreases |edits|
  {
    var e, rest := edits[0], edits[1..];
    var b, i := ApplyItem(a, "response", ItemOf(key, e)), Index(a, key);
    var text := Edited(TextAt(a, i), [e]);
    ItemEdits(a, key, e);
    FirstItem(a, key, edits);
    EditedInParts(TextAt(a, i), edits);
    hide ApplyItem, ItemOf, Index, ApplyBatch, Items, Edited;
    SameIndex(a, b, key, text);
    if rest == [] {
      assert edits == [e];
    } else {
      ItemsEdit(b, key, rest);
      assert TextAt(b, i) == text;
      OneAfterOther(a, b, ApplyBatch(a, "response", Items(key, edits)), i, text, Edited(text, rest));
    }
  }

  /** Over every sequence of edits: a batch under the reply leaves the text that they make of it one after the other,
      and everything else as it was. */
  lemma BatchEdits(s: State, key: string, edits: seq<Edit>)
    requires IsKey(key) && edits != []
    ensures var t, i := OnFrame(s, "", LeafFrame("response", "BATCH", Array(Items(key, edits)))), Index(s.agg, key);
            OnlyText(s.agg, t.agg, i, Edited(TextAt(s.agg, i), edits))
  {
    assert "response" != "" && "BATCH" != "";
    LeafFrameApplies(s, "response", "BATCH", Array(Items(key, edits)));
    ItemsEdit(s.agg, key, edits);
    hide OnFrame, LeafFrame, ApplyBatch, Index, Edited;
  }

  /** A frame without an operator, and with none in force, sets its text; one in force is inherited. */
  lemma PlainFrameSets(s: State, key: string, v: string)
    requires IsKey(key)
    ensures var t, i := OnFrame(s, "", PlainFrame(FieldPath(key, "content"), Text(v))), Index(s.agg, key);
            && t.curPath == FieldPath(key, "content") && t.curOp == s.curOp
            && (s.curOp == "" || s.curOp == "SET" ==> OnlyText(s.agg, t.agg, i, v))
            && (s.curOp == "APPEND" ==> OnlyText(s.agg, t.agg, i, TextAt(s.agg, i) + v))
  {
    var path := FieldPath(key, "content");
    assert path != "" && "APPEND" != "" && "SET" != "";
    PlainItems(path, Text(v));
    ContentOp(s.agg, key, v);
    hide FieldPath, PlainFrame, ApplyOp, Index, Item, ErrorText;
  }
}
