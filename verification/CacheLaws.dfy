/** What every run of the media cache keeps: agreement with a plain function from keys to bytes, no content stored
    twice, and when a store is read back. */
module CacheLaws {
  import opened Options
  import opened CacheSpec
  import opened Words

  // ---- Operations and runs ----

  datatype Op =
    | StoreOp(key: string, data: seq<byte>, mime: string, tag: int, dup: Option<string>, stored: PutOutcome, w: Write)
    | GetOp(key: string, got: GetOutcome)
    | LoadOp(key: string, loaded: LoadOutcome)
    | RemoveOp(key: string)
    | RemoveRefOp(key: string)
    | ClearOp(tag: int, rows: bool, refs: bool)
    | EvictOp(e: Eviction)

  datatype Reply = Stored(ok: bool) | Found(loaded: Loaded) | Quiet

  /** The answers left open by SQL and by the file system are possible ones. */
  predicate Possible(d: Digests, s: Store, now: int, op: Op) {
    match op
    case StoreOp(key, data, _, _, dup, _, w) =>
      (IsInline(key, data) ==> AnswersLookup(d, s, data, dup)) && (w.Written? ==> w.kept <= |data|)
    case EvictOp(e) => AnswersEviction(s, now, e)
    case _ => true
  }

  function Step(d: Digests, s: Store, now: int, op: Op): (Store, Reply)
    requires Possible(d, s, now, op)
  {
    match op
    case StoreOp(key, data, mime, tag, dup, ok, w) =>
      var (t, stored) := StoreMedia(d, s, key, data, mime, tag, now, dup, ok, w);
      (t, Stored(stored))
    case GetOp(key, ok) =>
      var (t, found) := Get(s, key, now, ok);
      (t, Found(found))
    case LoadOp(key, ok) =>
      var (t, found) := LoadMedia(s, key, now, ok);
      (t, Found(found))
    case RemoveOp(key) => (Remove(s, key), Quiet)
    case RemoveRefOp(key) => (s.(refs := s.refs - {key}), Quiet)
    case ClearOp(tag, rows, refs) => (Clear(s, tag, rows, refs), Quiet)
    case EvictOp(e) =>
      EvictionKeys(s, now, e);
      (Evict(s, now, e), Quiet)
  }

  lemma EvictionKeys(s: Store, now: int, e: Eviction)
    requires AnswersEviction(s, now, e)
    ensures e.refs <= s.refs.Keys && e.unlinked <= s.refs.Keys
  {
  }

  // ---- Agreement with a function from keys to bytes ----

  predicate SameHash(d: Digests, x: seq<byte>, y: seq<byte>) {
    ContentHash(d, x) == ContentHash(d, y)
  }

  /** Rows hold the bytes of their key, under the hash of those bytes if under any. */
  ghost predicate RowsCoherent(d: Digests, f: string -> seq<byte>, rows: map<string, Row>) {
    forall k :: k in rows ==> rows[k].data == f(k) && rows[k].hash in {None, Some(ContentHash(d, f(k)))}
  }

  /** An alias leads, even when dangling, to a key whose bytes have the same hash. */
  ghost predicate AliasesCoherent(d: Digests, f: string -> seq<byte>, aliases: map<string, Alias>) {
    forall a :: a in aliases ==> SameHash(d, f(a), f(aliases[a].target))
  }

  /** The file of a reference, unless missing or empty, holds the bytes of its key. */
  ghost predicate FilesCoherent(d: Digests, f: string -> seq<byte>, refs: map<string, Ref>,
                                files: map<string, seq<byte>>)
  {
    && (forall k :: k in refs ==> refs[k].path == d.path(k))
    && (forall k :: k in refs && d.path(k) in files ==> files[d.path(k)] in {[], f(k)})
  }

  ghost predicate Coherent(d: Digests, f: string -> seq<byte>, s: Store) {
    RowsCoherent(d, f, s.cache) && AliasesCoherent(d, f, s.aliases) && FilesCoherent(d, f, s.refs, s.files)
  }

  ghost predicate DistinctPaths(d: Digests) {
    forall j, k :: d.path(j) == d.path(k) ==> j == k
  }

  /** A store that goes to a file, and leaves a part of the bytes in it, neither none nor all. */
  predicate TearsFile(op: Op) {
    && op.StoreOp? && !AvatarGate(op.key, |op.data|) && |op.data| > MAX_INLINE
    && op.w.Written? && 0 < op.w.kept < |op.data|
  }

  /** The key of that file has a reference, or is given one because the writing is reported complete. */
  predicate TearsReferred(s: Store, op: Op) {
    TearsFile(op) && (op.key in s.refs || (op.w.complete && op.stored.insert))
  }

  lemma PutKeepsCoherence(d: Digests, f: string -> seq<byte>, s: Store, key: string, mime: string, tag: int, now: int,
                          dup: Option<string>, ok: PutOutcome)
    requires Coherent(d, f, s) && AnswersLookup(d, s, f(key), dup)
    ensures Coherent(d, f, Put(d, s, key, f(key), mime, tag, now, dup, ok).0)
  {
    var t := Put(d, s, key, f(key), mime, tag, now, dup, ok).0;
    if Links(d, f(key), dup, ok) {
      assert SameHash(d, f(key), f(dup.value));
      assert AliasesCoherent(d, f, t.aliases);
    } else if ok.insert {
      assert RowsCoherent(d, f, t.cache);
    }
  }

  lemma WrittenFileCoherence(d: Digests, f: string -> seq<byte>, refs: map<string, Ref>, files: map<string, seq<byte>>,
                             key: string, kept: nat)
    requires FilesCoherent(d, f, refs, files) && DistinctPaths(d) && kept <= |f(key)|
    ensures FilesCoherent(d, f, refs, files[d.path(key) := f(key)[..kept]]) <==> !(0 < kept < |f(key)| && key in refs)
  {
    var x := f(key)[..kept];
    var after := files[d.path(key) := x];
    assert kept == |f(key)| ==> x == f(key);
    if key in refs {
      assert after[d.path(key)] == x;
      assert FilesCoherent(d, f, refs, after) ==> x in {[], f(key)};
    }
    forall k | k in refs && k != key && d.path(k) in after ensures after[d.path(k)] == files[d.path(k)] {
      assert d.path(k) != d.path(key);
    }
  }

  lemma NewRefCoherence(d: Digests, f: string -> seq<byte>, refs: map<string, Ref>, files: map<string, seq<byte>>,
                        key: string, ref: Ref)
    requires FilesCoherent(d, f, refs, files) && ref.path == d.path(key)
    requires d.path(key) in files ==> files[d.path(key)] in {[], f(key)}
    ensures FilesCoherent(d, f, refs[key := if key in refs then refs[key].(access := ref.access) else ref], files)
  {
  }

  /** A write to the file of a key, then a reference to it. */
  lemma FileStoreCoherence(d: Digests, f: string -> seq<byte>, s: Store, key: string, ref: Ref, kept: nat, ok: bool)
    requires Coherent(d, f, s) && DistinctPaths(d) && kept <= |f(key)| && ref.path == d.path(key)
    ensures var t := WriteFile(s, d.path(key), f(key), Written(kept, ok));
            var u := PutRef(t, key, ref, ok).0;
            var torn := 0 < kept < |f(key)|;
            && (Coherent(d, f, t) <==> !(torn && key in s.refs))
            && (Coherent(d, f, u) <==> !(torn && key in u.refs))
  {
    hide RowsCoherent, AliasesCoherent, AvatarGate;
    var t := WriteFile(s, d.path(key), f(key), Written(kept, ok));
    var u := PutRef(t, key, ref, ok).0;
    WrittenFileCoherence(d, f, s.refs, s.files, key, kept);
    if key in u.refs && u.refs != t.refs {
      if key !in s.refs && 0 < kept < |f(key)| {
        assert t.files[d.path(key)] == f(key)[..kept] && |f(key)[..kept]| == kept;
        assert u.files[d.path(key)] !in {[], f(key)};
      } else if Coherent(d, f, t) {
        assert kept == |f(key)| ==> f(key)[..kept] == f(key);
        NewRefCoherence(d, f, t.refs, t.files, key, ref);
      } else {
        assert !FilesCoherent(d, f, u.refs, u.files);
      }
    }
  }

  lemma StoreCoherence(d: Digests, f: string -> seq<byte>, s: Store, now: int, op: Op)
    requires op.StoreOp? && op.data == f(op.key)
    requires Coherent(d, f, s) && DistinctPaths(d) && Possible(d, s, now, op)
    ensures var t := Step(d, s, now, op).0;
            Coherent(d, f, t) <==> !TearsReferred(s, op)
  {
    hide Coherent, AvatarGate, Put, AnswersLookup;
    if AvatarGate(op.key, |op.data|) {
    } else if |op.data| <= MAX_INLINE {
      PutKeepsCoherence(d, f, s, op.key, op.mime, op.tag, now, op.dup, op.stored);
    } else if op.w.Written? {
      FileStoreCoherence(d, f, s, op.key, Ref(d.path(op.key), op.mime, op.tag, now, |op.data|), op.w.kept,
                         op.stored.insert);
    }
  }

  lemma GetCoherence(d: Digests, f: string -> seq<byte>, s: Store, key: string, now: int, ok: GetOutcome)
    requires Coherent(d, f, s)
    ensures Coherent(d, f, Get(s, key, now, ok).0)
  {
  }

  lemma LoadCoherence(d: Digests, f: string -> seq<byte>, s: Store, key: string, now: int, ok: LoadOutcome)
    requires Coherent(d, f, s)
    ensures Coherent(d, f, LoadMedia(s, key, now, ok).0)
  {
    GetCoherence(d, f, s, key, now, ok.table);
    hide Get;
  }

  /** Removing entries, and files, cannot break the agreement. */
  lemma FewerEntriesCoherence(d: Digests, f: string -> seq<byte>, s: Store, t: Store)
    requires Coherent(d, f, s) && t.aliases == s.aliases
    requires forall k :: k in t.cache ==> k in s.cache && t.cache[k] == s.cache[k]
    requires forall k :: k in t.refs ==> k in s.refs && t.refs[k] == s.refs[k]
    requires forall p :: p in t.files ==> p in s.files && t.files[p] == s.files[p]
    ensures Coherent(d, f, t)
  {
  }

  /** Every operation keeps the agreement, whatever fails, except exactly a torn file write under a key that has a
      reference afterwards. */
  lemma StepCoherence(d: Digests, f: string -> seq<byte>, s: Store, now: int, op: Op)
    requires Coherent(d, f, s) && DistinctPaths(d) && Possible(d, s, now, op)
    requires op.StoreOp? ==> op.data == f(op.key)
    ensures var t := Step(d, s, now, op).0;
            Coherent(d, f, t) <==> !TearsReferred(s, op)
  {
    hide Coherent, AreOldest, Get, LoadMedia, StoreMedia;
    match op
    case StoreOp(_, _, _, _, _, _, _) => StoreCoherence(d, f, s, now, op);
    case GetOp(key, ok) => GetCoherence(d, f, s, key, now, ok);
    case LoadOp(key, ok) => LoadCoherence(d, f, s, key, now, ok);
    case RemoveOp(key) => FewerEntriesCoherence(d, f, s, Remove(s, key));
    case RemoveRefOp(key) => FewerEntriesCoherence(d, f, s, Step(d, s, now, op).0);
    case ClearOp(tag, rows, refs) => FewerEntriesCoherence(d, f, s, Clear(s, tag, rows, refs));
    case EvictOp(e) =>
      EvictionKeys(s, now, e);
      FewerEntriesCoherence(d, f, s, Evict(s, now, e));
  }

  /** What a coherent store answers: nothing, or the bytes of a key whose bytes have the hash of this key's bytes. */
  ghost predicate Agrees(d: Digests, f: string -> seq<byte>, key: string, data: seq<byte>) {
    data == [] || exists r :: data == f(r) && SameHash(d, f(r), f(key))
  }

  lemma GetAgrees(d: Digests, f: string -> seq<byte>, s: Store, key: string, now: int, ok: GetOutcome)
    requires Coherent(d, f, s)
    ensures Agrees(d, f, key, Get(s, key, now, ok).1.data)
  {
    var data := Get(s, key, now, ok).1.data;
    if data != [] && !(key in s.cache && ok.row) {
      assert data == f(s.aliases[key].target) && SameHash(d, f(s.aliases[key].target), f(key));
    }
  }

  lemma LoadAgrees(d: Digests, f: string -> seq<byte>, s: Store, key: string, now: int, ok: LoadOutcome)
    requires Coherent(d, f, s)
    ensures Agrees(d, f, key, LoadMedia(s, key, now, ok).1.data)
  {
    GetAgrees(d, f, s, key, now, ok.table);
    hide Get;
  }

  // ---- Runs ----

  predicate AllPossible(d: Digests, s: Store, ops: seq<(int, Op)>)
    decreases |ops|
  {
    |ops| == 0 ||
    (Possible(d, s, ops[0].0, ops[0].1) && AllPossible(d, Step(d, s, ops[0].0, ops[0].1).0, ops[1..]))
  }

  /** The store at the end, and the replies. */
  function Run(d: Digests, s: Store, ops: seq<(int, Op)>): (r: (Store, seq<Reply>))
    requires AllPossible(d, s, ops)
    ensures |r.1| == |ops|
    decreases |ops|
  {
    if |ops| == 0 then (s, [])
    else
      var (t, reply) := Step(d, s, ops[0].0, ops[0].1);
      var (u, replies) := Run(d, t, ops[1..]);
      (u, [reply] + replies)
  }

  /** All states of a run, the first and the last among them. */
  function States(d: Digests, s: Store, ops: seq<(int, Op)>): (ts: seq<Store>)
    requires AllPossible(d, s, ops)
    ensures |ts| == |ops| + 1
    decreases |ops|
  {
    if |ops| == 0 then [s] else [s] + States(d, Step(d, s, ops[0].0, ops[0].1).0, ops[1..])
  }

  /** Every store of the run is of f(key). */
  predicate StoresOnly(f: string -> seq<byte>, ops: seq<(int, Op)>) {
    forall i :: 0 <= i < |ops| ==> (ops[i].1.StoreOp? ==> ops[i].1.data == f(ops[i].1.key))
  }

  /** No file that is referred to afterwards is torn. */
  predicate TearsNothing(d: Digests, s: Store, ops: seq<(int, Op)>)
    requires AllPossible(d, s, ops)
    decreases |ops|
  {
    |ops| == 0 ||
    (var (now, op) := ops[0];
     var t := Step(d, s, now, op).0;
     !TearsReferred(s, op) && TearsNothing(d, t, ops[1..]))
  }

  const READS := GetOutcome(true, true, true, true, true, true)
  const LOADS := LoadOutcome(true, true, true, true, READS)

  const EMPTY := Store(map[], map[], map[], map[])

  lemma StepAgrees(d: Digests, f: string -> seq<byte>, s: Store, now: int, op: Op)
    requires Coherent(d, f, s) && Possible(d, s, now, op)
    ensures var reply := Step(d, s, now, op).1;
            reply.Found? ==> (op.GetOp? || op.LoadOp?) && Agrees(d, f, op.key, reply.loaded.data)
  {
    hide Coherent, Agrees, Get, LoadMedia, StoreMedia;
    match op
    case GetOp(key, ok) => GetAgrees(d, f, s, key, now, ok);
    case LoadOp(key, ok) => LoadAgrees(d, f, s, key, now, ok);
    case _ =>
  }

  /** No other stored content has the hash of this key's content. */
  ghost predicate NoCollision(d: Digests, f: string -> seq<byte>, key: string) {
    forall r :: SameHash(d, f(r), f(key)) ==> f(r) == f(key)
  }

  /** Every state of a run that stores f(key) under every key agrees with f exactly when the run tears no file that is
      referred to afterwards. */
  lemma {:induction false} RunCoherence(d: Digests, f: string -> seq<byte>, s: Store, ops: seq<(int, Op)>)
    requires Coherent(d, f, s) && DistinctPaths(d) && AllPossible(d, s, ops) && StoresOnly(f, ops)
    ensures (forall t :: t in States(d, s, ops) ==> Coherent(d, f, t)) <==> TearsNothing(d, s, ops)
    ensures TearsNothing(d, s, ops) ==> Coherent(d, f, Run(d, s, ops).0)
    decreases |ops|
  {
    hide Coherent, Step, Possible;
    if |ops| > 0 {
      var (now, op) := ops[0];
      var t := Step(d, s, now, op).0;
      StepCoherence(d, f, s, now, op);
      assert States(d, s, ops)[1..] == States(d, t, ops[1..]);
      if !TearsReferred(s, op) {
        RunCoherence(d, f, t, ops[1..]);
      } else {
        assert States(d, t, ops[1..])[0] == t;
        assert t in States(d, s, ops);
      }
    }
  }

  /** Over every run from a coherent store, each lookup finds nothing or the bytes of a key whose bytes have the same
      hash; those are f(key) itself unless two stored contents collide. */
  lemma {:induction false} RunAgrees(d: Digests, f: string -> seq<byte>, s: Store, ops: seq<(int, Op)>)
    requires Coherent(d, f, s) && DistinctPaths(d) && AllPossible(d, s, ops) && StoresOnly(f, ops)
             && TearsNothing(d, s, ops)
    ensures forall i :: 0 <= i < |ops| && Run(d, s, ops).1[i].Found? ==>
              var data := Run(d, s, ops).1[i].loaded.data;
              && (ops[i].1.GetOp? || ops[i].1.LoadOp?) && Agrees(d, f, ops[i].1.key, data)
              && (NoCollision(d, f, ops[i].1.key) ==> data in {[], f(ops[i].1.key)})
    decreases |ops|
  {
    hide Coherent, Agrees, NoCollision, Step, Possible, TearsReferred;
    if |ops| > 0 {
      var (now, op) := ops[0];
      StepAgrees(d, f, s, now, op);
      StepCoherence(d, f, s, now, op);
      RunAgrees(d, f, Step(d, s, now, op).0, ops[1..]);
      if op.GetOp? || op.LoadOp? {
        var reply := Step(d, s, now, op).1;
        if reply.Found? && NoCollision(d, f, op.key) {
          AgreesExactly(d, f, op.key, reply.loaded.data);
        }
      }
    }
  }

  lemma AgreesExactly(d: Digests, f: string -> seq<byte>, key: string, data: seq<byte>)
    requires NoCollision(d, f, key) && Agrees(d, f, key, data)
    ensures data == [] || data == f(key)
  {
    hide SameHash;
  }

  /** From the empty store on, with a hash and paths free of collisions, and file writes that are all or nothing: every
      lookup of every run finds nothing or f(key). */
  lemma EveryLookupAgrees(d: Digests, f: string -> seq<byte>, ops: seq<(int, Op)>, i: nat)
    requires DistinctPaths(d) && AllPossible(d, EMPTY, ops) && StoresOnly(f, ops) && TearsNothing(d, EMPTY, ops)
    requires i < |ops| && (ops[i].1.GetOp? || ops[i].1.LoadOp?) && NoCollision(d, f, ops[i].1.key)
    ensures Run(d, EMPTY, ops).1[i].Found?
    ensures Run(d, EMPTY, ops).1[i].loaded.data in {[], f(ops[i].1.key)}
  {
    EmptyCoherent(d, f);
    hide Coherent, NoCollision, Agrees, Possible;
    RunAgrees(d, f, EMPTY, ops);
    LookupsAnswer(d, EMPTY, ops, i);
  }

  lemma EmptyCoherent(d: Digests, f: string -> seq<byte>)
    ensures Coherent(d, f, EMPTY)
  {
  }

  lemma {:induction false} LookupsAnswer(d: Digests, s: Store, ops: seq<(int, Op)>, i: nat)
    requires AllPossible(d, s, ops) && i < |ops| && (ops[i].1.GetOp? || ops[i].1.LoadOp?)
    ensures Run(d, s, ops).1[i].Found?
    decreases |ops|
  {
    hide Get, LoadMedia, StoreMedia, Possible;
    if i > 0 {
      LookupsAnswer(d, Step(d, s, ops[0].0, ops[0].1).0, ops[1..], i - 1);
    }
  }

  /** The exception at an input: a content of more than a megabyte is stored, and stored again with one byte reaching
      the file. The key then loads that byte. */
  lemma TornWriteDisagrees(d: Digests, now: int)
    ensures var x: seq<byte> := seq(MAX_INLINE + 1, _ => 7);
            var f := (k: string) => x;
            var ok := PutOutcome(true, true, true);
            var whole := StoreOp("k", x, "", 0, None, ok, Written(|x|, true));
            var torn := StoreOp("k", x, "", 0, None, ok, Written(1, false));
            && Possible(d, EMPTY, now, whole) && Step(d, EMPTY, now, whole).1 == Stored(true)
            && var s := Step(d, EMPTY, now, whole).0;
            && Possible(d, s, now, torn) && TearsReferred(s, torn)
            && LoadMedia(s, "k", now, LOADS).1.data == f("k")
            && LoadMedia(Step(d, s, now, torn).0, "k", now, LOADS).1.data == [7] != f("k")
  {
    var x: seq<byte> := seq(MAX_INLINE + 1, _ => 7);
    var path := d.path("k");
    var ok := PutOutcome(true, true, true);
    assert !AvatarGate("k", |x|) by {
      assert "avatar_"[0] == 'a' && "k"[0] == 'k';
    }
    var s := Step(d, EMPTY, now, StoreOp("k", x, "", 0, None, ok, Written(|x|, true))).0;
    assert x[..|x|] == x;
    assert s == Store(map[], map[], map["k" := Ref(path, "", 0, now, |x|)], map[path := x]);
    assert x[..1] == [7];
  }

  // ---- What an operation leaves alone ----

  predicate SameButAccess(x: Row, y: Row) {
    x.(access := y.access) == y
  }

  /** The rows of u are rows of t, and those they share differ in access time alone. */
  predicate KeepsRows(t: map<string, Row>, u: map<string, Row>) {
    forall k :: k in t && k in u ==> SameButAccess(t[k], u[k])
  }

  predicate KeepsAliases(t: map<string, Alias>, u: map<string, Alias>) {
    forall a :: a in t ==> a in u && u[a].target == t[a].target
  }

  lemma ReadsTouch(s: Store, key: string, now: int, got: GetOutcome, loaded: LoadOutcome)
    ensures var t := Get(s, key, now, got).0;
            KeepsRows(s.cache, t.cache) && t.cache.Keys == s.cache.Keys && KeepsAliases(s.aliases, t.aliases)
    ensures var t := LoadMedia(s, key, now, loaded).0;
            KeepsRows(s.cache, t.cache) && t.cache.Keys == s.cache.Keys && KeepsAliases(s.aliases, t.aliases)
  {
    GetTouches(s, key, now, got);
    GetTouches(s, key, now, loaded.table);
    hide Get, KeepsRows, KeepsAliases;
    assert KeepsRows(s.cache, s.cache) && KeepsAliases(s.aliases, s.aliases) by { TouchesNothing(s); }
  }

  lemma TouchesNothing(s: Store)
    ensures KeepsRows(s.cache, s.cache) && KeepsAliases(s.aliases, s.aliases)
  {
  }

  lemma GetTouches(s: Store, key: string, now: int, ok: GetOutcome)
    ensures var t := Get(s, key, now, ok).0;
            KeepsRows(s.cache, t.cache) && t.cache.Keys == s.cache.Keys && KeepsAliases(s.aliases, t.aliases)
  {
  }

  lemma StoreFrame(d: Digests, s: Store, now: int, op: Op)
    requires op.StoreOp? && Possible(d, s, now, op)
    ensures var t := Step(d, s, now, op).0;
            KeepsRows(s.cache, t.cache) && KeepsAliases(s.aliases, t.aliases) && s.cache.Keys <= t.cache.Keys
  {
    hide AnswersLookup, AvatarGate, Put, PutRef;
    PutFrame(d, s, op.key, op.data, op.mime, op.tag, now, op.dup, op.stored);
    hide KeepsRows, KeepsAliases;
    TouchesNothing(s);
    if op.w.Written? {
      PutRefFrame(WriteFile(s, d.path(op.key), op.data, op.w), op.key,
                  Ref(d.path(op.key), op.mime, op.tag, now, |op.data|), op.stored.insert);
    }
  }

  lemma PutFrame(d: Digests, s: Store, key: string, data: seq<byte>, mime: string, tag: int, now: int,
                 dup: Option<string>, ok: PutOutcome)
    ensures var t := Put(d, s, key, data, mime, tag, now, dup, ok).0;
            KeepsRows(s.cache, t.cache) && KeepsAliases(s.aliases, t.aliases) && s.cache.Keys <= t.cache.Keys
  {
    hide Links, ContentHash;
  }

  lemma PutRefFrame(s: Store, key: string, ref: Ref, ok: bool)
    ensures var t := PutRef(s, key, ref, ok).0;
            t.cache == s.cache && t.aliases == s.aliases
  {
    hide AvatarGate;
  }

  /** Only its access time ever changes in a row that stays, and in an alias, and an alias stays for good. */
  lemma StepFrame(d: Digests, s: Store, now: int, op: Op)
    requires Possible(d, s, now, op)
    ensures var t := Step(d, s, now, op).0;
            KeepsRows(s.cache, t.cache) && KeepsAliases(s.aliases, t.aliases)
  {
    hide AreOldest, Get, LoadMedia, StoreMedia;
    match op
    case StoreOp(_, _, _, _, _, _, _) => StoreFrame(d, s, now, op);
    case GetOp(key, ok) => ReadsTouch(s, key, now, ok, LoadOutcome(false, false, false, false, ok));
    case LoadOp(key, ok) => ReadsTouch(s, key, now, ok.table, ok);
    case EvictOp(e) => EvictionKeys(s, now, e);
    case _ =>
  }

  // ---- No content twice ----

  predicate Hashed(d: Digests, rows: map<string, Row>) {
    forall k :: k in rows ==> rows[k].hash == Some(ContentHash(d, rows[k].data))
  }

  predicate NoDuplicates(rows: map<string, Row>) {
    forall j, k :: j in rows && k in rows && rows[j].data == rows[k].data != [] ==> j == k
  }

  /** An inline store of a new key whose content has a row already, when the lookup or the alias fails. */
  predicate Duplicates(s: Store, op: Op) {
    && op.StoreOp? && IsInline(op.key, op.data) && op.data != []
    && op.key !in s.cache && op.stored.insert && !(op.stored.lookup && op.stored.link)
    && exists k :: k in s.cache && s.cache[k].data == op.data
  }

  lemma FewerRowsDedup(d: Digests, rows: map<string, Row>, fewer: map<string, Row>)
    requires Hashed(d, rows) && NoDuplicates(rows) && KeepsRows(rows, fewer) && fewer.Keys <= rows.Keys
    ensures Hashed(d, fewer) && NoDuplicates(fewer)
  {
  }

  /** No operation stores a content twice, except exactly an insertion after a failed lookup or alias. */
  lemma StepDedup(d: Digests, s: Store, now: int, op: Op)
    requires Possible(d, s, now, op) && Hashed(d, s.cache) && NoDuplicates(s.cache)
    requires op.StoreOp? && op.data != [] ==> d.content(op.data) != ""
    ensures var t := Step(d, s, now, op).0;
            Hashed(d, t.cache) && (NoDuplicates(t.cache) <==> !Duplicates(s, op))
  {
    if op.StoreOp? {
      hide AvatarGate, Put, Hashed, NoDuplicates, AnswersLookup;
      if !AvatarGate(op.key, |op.data|) && |op.data| <= MAX_INLINE {
        PutDedup(d, s, op.key, op.data, op.mime, op.tag, now, op.dup, op.stored);
      }
    } else {
      hide AreOldest, Get, LoadMedia, Hashed, NoDuplicates, KeepsRows;
      StepFrame(d, s, now, op);
      match op {
        case GetOp(key, ok) => ReadsTouch(s, key, now, ok, LoadOutcome(false, false, false, false, ok));
        case LoadOp(key, ok) => ReadsTouch(s, key, now, ok.table, ok);
        case EvictOp(e) => EvictionKeys(s, now, e);
        case _ =>
      }
      FewerRowsDedup(d, s.cache, Step(d, s, now, op).0.cache);
    }
  }

  lemma PutDedup(d: Digests, s: Store, key: string, data: seq<byte>, mime: string, tag: int, now: int,
                 dup: Option<string>, ok: PutOutcome)
    requires Hashed(d, s.cache) && NoDuplicates(s.cache) && AnswersLookup(d, s, data, dup)
    requires data != [] ==> d.content(data) != ""
    ensures var t := Put(d, s, key, data, mime, tag, now, dup, ok).0;
            && Hashed(d, t.cache)
            && (NoDuplicates(t.cache) <==>
                !(data != [] && key !in s.cache && ok.insert && !(ok.lookup && ok.link)
                  && exists k :: k in s.cache && s.cache[k].data == data))
  {
    var t := Put(d, s, key, data, mime, tag, now, dup, ok).0;
    if !Links(d, data, dup, ok) && ok.insert && key !in s.cache && data != [] {
      assert t.cache[key].data == data;
      if k :| k in s.cache && s.cache[k].data == data {
        assert t.cache[k].data == data && k != key;
        assert s.cache[k].hash == Some(ContentHash(d, data));
      }
    }
  }

  /** Hexadecimal digests are not empty. */
  ghost predicate HashesContents(d: Digests) {
    forall x :: d.content(x) != ""
  }

  /** The run inserts no content that has a row already. */
  ghost predicate DuplicatesNothing(d: Digests, s: Store, ops: seq<(int, Op)>)
    requires AllPossible(d, s, ops)
    decreases |ops|
  {
    |ops| == 0 ||
    (var (now, op) := ops[0];
     !Duplicates(s, op) && DuplicatesNothing(d, Step(d, s, now, op).0, ops[1..]))
  }

  /** From a store whose rows all carry hashes: no two rows hold the same non-empty content in any state of a run,
      exactly when no insertion of the run follows a failed lookup or alias. */
  lemma {:induction false} RunDedup(d: Digests, s: Store, ops: seq<(int, Op)>)
    requires HashesContents(d) && AllPossible(d, s, ops) && Hashed(d, s.cache) && NoDuplicates(s.cache)
    ensures (forall t :: t in States(d, s, ops) ==> NoDuplicates(t.cache)) <==> DuplicatesNothing(d, s, ops)
    ensures DuplicatesNothing(d, s, ops) ==>
              Hashed(d, Run(d, s, ops).0.cache) && NoDuplicates(Run(d, s, ops).0.cache)
    decreases |ops|
  {
    hide Hashed, NoDuplicates, Duplicates, Step, Possible;
    if |ops| > 0 {
      var (now, op) := ops[0];
      var t := Step(d, s, now, op).0;
      StepDedup(d, s, now, op);
      assert States(d, s, ops)[1..] == States(d, t, ops[1..]);
      if Duplicates(s, op) {
        assert States(d, t, ops[1..])[0] == t;
        assert t in States(d, s, ops);
      } else {
        RunDedup(d, t, ops[1..]);
      }
    }
  }

  /** The exception at an input: the same bytes are stored under a and, when the lookup fails, under b. Both are
      accepted, and both have a row. */
  lemma FailedLookupDuplicates(d: Digests, now: int)
    ensures var a := StoreOp("a", [1], "", 0, None, PutOutcome(true, true, true), NotOpened);
            var b := StoreOp("b", [1], "", 0, Some("a"), PutOutcome(false, true, true), NotOpened);
            && Possible(d, EMPTY, now, a) && Step(d, EMPTY, now, a).1 == Stored(true)
            && var s := Step(d, EMPTY, now, a).0;
            && Possible(d, s, now, b) && Duplicates(s, b) && Step(d, s, now, b).1 == Stored(true)
            && !NoDuplicates(Step(d, s, now, b).0.cache)
  {
    var x: seq<byte> := [1];
    var s := Put(d, EMPTY, "a", x, "", 0, now, None, PutOutcome(true, true, true)).0;
    assert s.cache == map["a" := Row(x, "", 0, now, 1, now, Some(d.content(x)))];
    var t := Put(d, s, "b", x, "", 0, now, Some("a"), PutOutcome(false, true, true)).0;
    assert "a"[0] != "b"[0];
    assert t.cache["a"].data == t.cache["b"].data == x;
  }

  // ---- Reading back what was stored ----

  /** No row of its own, and an alias whose row is gone. */
  predicate Stranded(s: Store, key: string) {
    key !in s.cache && key in s.aliases && s.aliases[key].target !in s.cache
  }

  /** A row of its own, or an alias to a row. */
  predicate Tabled(s: Store, key: string) {
    key in s.cache || (key in s.aliases && s.aliases[key].target in s.cache)
  }

  /** An accepted store that belongs into the table is read back by the next get, with exactly two exceptions. A
      large avatar is accepted and not stored, so that it is read back only if it could be read before. And a key
      with a stranded alias stays unreadable when the store takes the branch for duplicates, which leaves the alias
      where it led. */
  lemma ReadAfterWrite(d: Digests, f: string -> seq<byte>, s: Store, now: int, op: Op, later: int)
    requires op.StoreOp? && op.data == f(op.key) && |op.data| <= MAX_INLINE
    requires Coherent(d, f, s) && NoCollision(d, f, op.key)
    requires Possible(d, s, now, op) && Step(d, s, now, op).1 == Stored(true)
    ensures Get(Step(d, s, now, op).0, op.key, later, READS).1.data == op.data <==>
            if AvatarGate(op.key, |op.data|) then Tabled(s, op.key)
            else !(Links(d, op.data, op.dup, op.stored) && Stranded(s, op.key))
  {
    var t := Step(d, s, now, op).0;
    if AvatarGate(op.key, |op.data|) {
      if op.key in s.aliases {
        assert SameHash(d, f(s.aliases[op.key].target), f(op.key));
      }
    } else {
      hide AvatarGate;
      if Links(d, op.data, op.dup, op.stored) {
        var target := t.aliases[op.key].target;
        if op.key !in s.aliases {
          assert SameHash(d, f(target), f(op.key));
        } else if target in s.cache {
          assert SameHash(d, f(op.key), f(target));
        }
      }
    }
  }

  /** The first exception at an input: an avatar of 300000 bytes, stored into the empty cache. */
  lemma LargeAvatarIsNotStored(d: Digests, now: int)
    ensures var x: seq<byte> := seq(300000, _ => 7);
            var op := StoreOp("avatar_1", x, "image/png", 1, None, PutOutcome(true, true, true), NotOpened);
            && Possible(d, EMPTY, now, op) && Step(d, EMPTY, now, op) == (EMPTY, Stored(true))
            && !Stranded(EMPTY, "avatar_1") && Get(EMPTY, "avatar_1", now, READS).1 == NOTHING
  {
    assert "avatar_1"[..7] == "avatar_";
  }

  /** A file with bytes in it, a row of its own, or an alias to a row. */
  predicate Readable(s: Store, key: string) {
    (key in s.refs && FileOf(s, s.refs[key], true) != []) || Tabled(s, key)
  }

  lemma ReadableLoads(d: Digests, f: string -> seq<byte>, s: Store, key: string, now: int)
    requires Coherent(d, f, s) && NoCollision(d, f, key) && f(key) != []
    ensures LoadMedia(s, key, now, LOADS).1.data == if Readable(s, key) then f(key) else []
  {
    if key in s.aliases {
      assert SameHash(d, f(key), f(s.aliases[key].target));
    }
  }

  /** After an accepted store of any size the key is readable, with the exceptions of ReadAfterWrite, and of a file that
      holds none of the bytes although its writing was reported complete. */
  lemma StoreMakesReadable(d: Digests, f: string -> seq<byte>, s: Store, now: int, op: Op)
    requires Coherent(d, f, s) && op.StoreOp? && op.data == f(op.key)
    requires Possible(d, s, now, op) && Step(d, s, now, op).1 == Stored(true)
    ensures Readable(Step(d, s, now, op).0, op.key) <==>
            if AvatarGate(op.key, |op.data|) then Readable(s, op.key)
            else if |op.data| <= MAX_INLINE then
              Readable(s, op.key) || !(Links(d, op.data, op.dup, op.stored) && Stranded(s, op.key))
            else op.w.kept > 0 || Tabled(s, op.key)
  {
    hide AvatarGate, RowsCoherent, AliasesCoherent;
    if !AvatarGate(op.key, |op.data|) && |op.data| > MAX_INLINE {
      var t := Step(d, s, now, op).0;
      assert t.refs[op.key].path == d.path(op.key);
      assert t.files[d.path(op.key)] == op.data[..op.w.kept];
    }
  }

  predicate WritesAll(op: Op) {
    op.StoreOp? && op.w.Written? ==> op.w.kept == |op.data|
  }

  predicate Removes(op: Op) {
    op.RemoveOp? || op.RemoveRefOp? || op.ClearOp? || op.EvictOp?
  }

  lemma StoreKeepsReadable(d: Digests, s: Store, now: int, op: Op, key: string)
    requires op.StoreOp? && Possible(d, s, now, op) && WritesAll(op) && Readable(s, key)
    ensures Readable(Step(d, s, now, op).0, key)
  {
    StoreFrame(d, s, now, op);
    hide AvatarGate, AnswersLookup, Links, KeepsRows;
    var t := Step(d, s, now, op).0;
    if |op.data| > MAX_INLINE && op.w.Written? {
      assert t.files == s.files || t.files == s.files[d.path(op.key) := op.data[..op.w.kept]];
    }
  }

  /** What is readable stays readable until something is removed, whatever is stored or looked up in between. */
  lemma ReadablePersists(d: Digests, s: Store, now: int, op: Op, key: string)
    requires Possible(d, s, now, op) && !Removes(op) && WritesAll(op) && Readable(s, key)
    ensures Readable(Step(d, s, now, op).0, key)
  {
    match op {
      case StoreOp(_, _, _, _, _, _, _) => StoreKeepsReadable(d, s, now, op, key);
      case GetOp(k, ok) =>
        ReadsTouch(s, k, now, ok, LoadOutcome(false, false, false, false, ok));
      case LoadOp(k, ok) =>
        ReadsTouch(s, k, now, ok.table, ok);
    }
  }

  /** Over a whole run without removals: a key readable at the start still loads its bytes at the end. */
  lemma {:induction false} RunPersists(d: Digests, f: string -> seq<byte>, s: Store, ops: seq<(int, Op)>, key: string,
                                       now: int)
    requires Coherent(d, f, s) && DistinctPaths(d) && AllPossible(d, s, ops) && StoresOnly(f, ops)
             && TearsNothing(d, s, ops)
    requires NoCollision(d, f, key) && f(key) != [] && Readable(s, key)
    requires forall i :: 0 <= i < |ops| ==> !Removes(ops[i].1) && WritesAll(ops[i].1)
    ensures LoadMedia(Run(d, s, ops).0, key, now, LOADS).1.data == f(key)
    decreases |ops|
  {
    hide Coherent, Step, Possible, TearsReferred, NoCollision, Readable, LoadMedia, Removes, WritesAll;
    if |ops| == 0 {
      ReadableLoads(d, f, s, key, now);
    } else {
      var (at, op) := ops[0];
      StepCoherence(d, f, s, at, op);
      ReadablePersists(d, s, at, op, key);
      RunPersists(d, f, Step(d, s, at, op).0, ops[1..], key, now);
    }
  }

  // ---- What removal does to aliases ----

  /** The exception of ReadAfterWrite is reachable: the same bytes stored under a and b, a removed, the bytes stored
      under c, and under b again. Every store is accepted, b exists all along, and b is not found. */
  lemma StrandedAliasStaysStranded(d: Digests, x: seq<byte>, now: int)
    requires x != [] && d.content(x) != ""
    ensures var ok := PutOutcome(true, true, true);
            var s1 := Put(d, EMPTY, "a", x, "", 0, now, None, ok).0;
            var s2 := Put(d, s1, "b", x, "", 0, now, Some("a"), ok).0;
            var s3 := Remove(s2, "a");
            var s4 := Put(d, s3, "c", x, "", 0, now, None, ok).0;
            var (s5, accepted) := Put(d, s4, "b", x, "", 0, now, Some("c"), ok);
            && AnswersLookup(d, EMPTY, x, None) && AnswersLookup(d, s1, x, Some("a"))
            && AnswersLookup(d, s3, x, None) && AnswersLookup(d, s4, x, Some("c"))
            && Get(s2, "b", now, READS).1.data == x
            && accepted && Exists(s5, "b") && Get(s5, "b", now, READS).1 == NOTHING
  {
    var ok := PutOutcome(true, true, true);
    var s1 := Put(d, EMPTY, "a", x, "", 0, now, None, ok).0;
    assert s1.cache == map["a" := Row(x, "", 0, now, |x|, now, Some(d.content(x)))];
    var s2 := Put(d, s1, "b", x, "", 0, now, Some("a"), ok).0;
    var s3 := Remove(s2, "a");
    assert s3.cache == map[];
    var s4 := Put(d, s3, "c", x, "", 0, now, None, ok).0;
    assert s4.cache == map["c" := Row(x, "", 0, now, |x|, now, Some(d.content(x)))];
  }
}
