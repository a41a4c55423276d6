/** What removals leave to be loaded, what a load returns of what was stored, and who is evicted first. */
module CacheUse {
  import opened Options
  import opened CacheSpec
  import opened CacheLaws

  // ---- Clearing by tag ----

  /** What can be loaded under a key carries other tags: its row, its reference, and the row its alias leads to. */
  predicate Untagged(s: Store, key: string, tag: int) {
    && (key in s.cache ==> s.cache[key].tag != tag)
    && (key in s.refs ==> s.refs[key].tag != tag)
    && (key in s.aliases && s.aliases[key].target in s.cache ==> s.cache[s.aliases[key].target].tag != tag)
  }

  /** Clearing a tag leaves no row and no reference of that tag, and whatever carries other tags loads as before,
      whatever statement of the load fails. */
  lemma ClearSpares(s: Store, tag: int, key: string, now: int, ok: LoadOutcome)
    requires tag != 0
    ensures var t := Clear(s, tag, true, true);
            && (forall k :: k in t.cache ==> t.cache[k].tag != tag)
              && (forall k :: k in t.refs ==> t.refs[k].tag != tag)
            && (Untagged(s, key, tag) ==> LoadMedia(t, key, now, ok).1 == LoadMedia(s, key, now, ok).1)
            && (Untagged(s, key, tag) ==> Get(t, key, now, ok.table).1 == Get(s, key, now, ok.table).1)
            && t.aliases == s.aliases && t.files == s.files
  {
  }

  /** What was of that tag alone is not found any more. */
  lemma ClearForgets(s: Store, tag: int, key: string, now: int, ok: LoadOutcome)
    requires tag != 0 && key !in s.aliases && (key in s.cache ==> s.cache[key].tag == tag)
    requires key in s.refs ==> s.refs[key].tag == tag
    ensures LoadMedia(Clear(s, tag, true, true), key, now, ok).1 == NOTHING
  {
  }

  /** When one of the statements fails, its table is left as it is, and the other is cleared. */
  lemma ClearInPart(s: Store, tag: int)
    ensures Clear(s, tag, false, false) == s
    ensures Clear(s, tag, true, false).refs == s.refs && Clear(s, tag, false, true).cache == s.cache
    ensures Clear(s, tag, true, false).cache == Clear(s, tag, true, true).cache
    ensures Clear(s, tag, false, true).refs == Clear(s, tag, true, true).refs
  {
  }

  /** Tag 0 stands for everything: nothing is found afterwards. */
  lemma ClearAll(s: Store, key: string, now: int, ok: LoadOutcome)
    ensures var t := Clear(s, 0, true, true);
            t.cache == map[] && t.refs == map[] && LoadMedia(t, key, now, ok).1 == NOTHING
            && (Exists(t, key) <==> key in s.aliases)
  {
  }

  // ---- Removing a key ----

  /** Removing a row takes it from its own key and from every key whose alias leads to it, and from no other. */
  lemma RemoveForgets(s: Store, key: string, k: string, now: int, ok: LoadOutcome)
    ensures var t, leads := Remove(s, key), k in s.aliases && s.aliases[k].target == key;
            && key !in t.cache
            && (k != key && !leads ==> LoadMedia(t, k, now, ok).1 == LoadMedia(s, k, now, ok).1)
            && (k != key && !leads ==> Get(t, k, now, ok.table).1 == Get(s, k, now, ok.table).1)
            && (k == key && k !in s.aliases ==> Get(t, k, now, ok.table).1 == NOTHING && !Exists(t, k))
            && (leads && k !in t.cache ==> Get(t, k, now, ok.table).1 == NOTHING && Exists(t, k))
            && (k in s.cache && k != key ==> k in t.cache && t.cache[k] == s.cache[k])
  {
  }

  // ---- Evicting ----

  lemma WholeSet(part: set<string>, whole: set<string>)
    requires part <= whole && |part| == |whole|
    ensures part == whole
  {
    assert |whole - part| == 0;
  }

  lemma TrimmedRows(rows: map<string, Row>, chosen: set<string>)
    requires AreOldest(RowTimes(rows), chosen, 100)
    ensures forall i, o :: i in chosen && o in rows && o !in chosen ==> rows[i].access <= rows[o].access
    ensures rows.Keys != chosen ==> |chosen| == 100
  {
    var times := RowTimes(rows);
    assert times.Keys == rows.Keys && |times| == |times.Keys|;
    if |times| <= 100 {
      WholeSet(chosen, times.Keys);
    }
    forall i, o | i in chosen && o in rows && o !in chosen ensures rows[i].access <= rows[o].access {
      assert times[i] <= times[o];
    }
  }

  /** Of the rows, those go that were not used for thirty days and are larger than two megabytes, and the chosen oldest
      ones; of the references, some that were not used for seven days. Everything else is loaded as before. */
  lemma EvictExactly(s: Store, now: int, e: Eviction)
    requires AnswersEviction(s, now, e)
    ensures e.unlinked <= s.refs.Keys
    ensures var t := Evict(s, now, e);
            && (forall k :: k in t.cache <==>
                  k in s.cache && k !in e.rows &&
                  !(e.bulk && s.cache[k].access < now - 30 * 24 * 60 * 60 && s.cache[k].size > 2 * 1024 * 1024))
            && (forall k :: k in t.cache ==> t.cache[k] == s.cache[k])
            && |e.rows| <= 100 && |e.refs| <= 100
            && (e.trim ==> forall i, o :: i in e.rows && o in t.cache ==> s.cache[i].access <= s.cache[o].access)
            && (e.trim && t.cache != map[] ==> |e.rows| == 100)
            && (forall k :: k in s.refs && k !in t.refs ==> k in e.refs && s.refs[k].access < now - 7 * 24 * 60 * 60)
            && (forall k :: k in t.refs ==> k in s.refs && t.refs[k] == s.refs[k])
            && t.aliases == s.aliases
            && (forall p :: p in s.files && p !in t.files ==>
                  exists k :: k in e.unlinked && s.refs[k].path == p && s.refs[k].access < now - 7 * 24 * 60 * 60)
  {
    EvictionKeys(s, now, e);
    var t := Evict(s, now, e);
    if e.trim {
      TrimmedRows(AfterBulk(s, now, e).cache, e.rows);
    }
    forall p | p in s.files && p !in t.files
      ensures exists k :: k in e.unlinked && s.refs[k].path == p && s.refs[k].access < now - 7 * 24 * 60 * 60
    {
      assert p in PathsOf(s.refs, e.unlinked);
      var k :| k in e.unlinked && s.refs[k].path == p;
      assert k in e.refs;
    }
  }

  // ---- Which row was used last ----

  /** Reads of keys that have a row, one after the other. */
  function ReadAll(s: Store, gets: seq<(string, int)>): Store
    decreases |gets|
  {
    if |gets| == 0 then s else ReadAll(Get(s, gets[0].0, gets[0].1, READS).0, gets[1..])
  }

  /** The time of the last of the reads that is one of this key, or before. */
  function LastRead(gets: seq<(string, int)>, key: string, before: int): int
    decreases |gets|
  {
    if |gets| == 0 then before
    else LastRead(gets[1..], key, if gets[0].0 == key then gets[0].1 else before)
  }

  /** Reading notes the time in the row of the key that is read, and nowhere else. */
  lemma {:induction false} AccessIsLastRead(s: Store, gets: seq<(string, int)>, key: string)
    requires key in s.cache
    ensures var t := ReadAll(s, gets);
            && t.cache.Keys == s.cache.Keys
            && t.cache[key] == s.cache[key].(access := LastRead(gets, key, s.cache[key].access))
    decreases |gets|
  {
    if |gets| > 0 {
      var t := Get(s, gets[0].0, gets[0].1, READS).0;
      assert t.cache.Keys == s.cache.Keys;
      AccessIsLastRead(t, gets[1..], key);
    }
  }

  /** A row that was read after another one is not evicted before it. */
  lemma LastReadGoesLast(s: Store, gets: seq<(string, int)>, a: string, b: string, now: int, e: Eviction)
    requires a in s.cache && b in s.cache
    requires LastRead(gets, a, s.cache[a].access) < LastRead(gets, b, s.cache[b].access)
    requires AnswersEviction(ReadAll(s, gets), now, e) && b in e.rows
    ensures e.unlinked <= ReadAll(s, gets).refs.Keys
    ensures a !in Evict(ReadAll(s, gets), now, e).cache
  {
    var t := ReadAll(s, gets);
    EvictionKeys(t, now, e);
    AccessIsLastRead(s, gets, a);
    AccessIsLastRead(s, gets, b);
    hide ReadAll;
    var u := AfterBulk(t, now, e);
    if a in u.cache {
      assert RowTimes(u.cache)[a] < RowTimes(u.cache)[b];
    }
  }

  // ---- What a load returns of what was stored ----

  predicate Unknown(s: Store, key: string) {
    key !in s.cache && key !in s.aliases && key !in s.refs
  }

  /** A new key, stored with every statement succeeding: an avatar of more than 256 kilobytes is not there; up to a
      megabyte the bytes come back with the type given, or with the type of the row that has them already; beyond it
      they come back from a file. */
  lemma StoredIsLoaded(d: Digests, s: Store, now: int, op: Op, later: int)
    requires op.StoreOp? && Possible(d, s, now, op) && Unknown(s, op.key) && op.data != []
    requires op.stored == PutOutcome(true, true, true) && op.w == Written(|op.data|, true)
    requires d.content(op.data) != ""
    ensures var (t, stored) := StoreMedia(d, s, op.key, op.data, op.mime, op.tag, now, op.dup, op.stored, op.w);
            && stored
            && LoadMedia(t, op.key, later, LOADS).1 ==
               if |op.key| >= 7 && op.key[..7] == "avatar_" && |op.data| > 256 * 1024 then NOTHING
               else if |op.data| <= 1024 * 1024 && op.dup.Some? then
                 Loaded(s.cache[op.dup.value].data, Some(s.cache[op.dup.value].mime))
               else Loaded(op.data, Some(op.mime))
  {
    assert op.data[..|op.data|] == op.data;
    assert "avatar_" <= op.key <==> |op.key| >= 7 && op.key[..7] == "avatar_";
  }

  /** It exists from then on, unless it is such an avatar; and it is cleared with its tag. */
  lemma StoredExists(d: Digests, s: Store, now: int, op: Op, later: int)
    requires op.StoreOp? && Possible(d, s, now, op) && Unknown(s, op.key) && op.data != []
    requires op.stored == PutOutcome(true, true, true) && op.w == Written(|op.data|, true)
    ensures var t := StoreMedia(d, s, op.key, op.data, op.mime, op.tag, now, op.dup, op.stored, op.w).0;
            && (|op.data| <= 1024 * 1024 ==> (Exists(t, op.key) <==> !AvatarGate(op.key, |op.data|)))
            && (op.tag != 0 && op.dup.None? ==>
                  LoadMedia(Clear(t, op.tag, true, true), op.key, later, LOADS).1 == NOTHING)
  {
  }

  /** What is found exists in the table, or as a file. */
  lemma FoundExists(s: Store, key: string, now: int, ok: GetOutcome)
    ensures Get(s, key, now, ok).1 != NOTHING ==> Exists(s, key)
    ensures Exists(Get(s, key, now, ok).0, key) <==> Exists(s, key)
    ensures key in s.cache && ok.prepared && ok.row ==>
              Get(s, key, now, ok).1 == Loaded(s.cache[key].data, Some(s.cache[key].mime))
  {
  }

  /** Storing a key that has a row already changes nothing but the time of its last use, whatever the bytes. */
  lemma StoredAgain(d: Digests, s: Store, now: int, op: Op, later: int)
    requires op.StoreOp? && Possible(d, s, now, op) && op.key in s.cache && op.key !in s.refs
             && IsInline(op.key, op.data)
    ensures var t := StoreMedia(d, s, op.key, op.data, op.mime, op.tag, now, op.dup, op.stored, op.w).0;
            && LoadMedia(t, op.key, later, LOADS).1 == LoadMedia(s, op.key, later, LOADS).1
            && (!Links(d, op.data, op.dup, op.stored) && op.stored.insert ==>
                  t == s.(cache := s.cache[op.key := s.cache[op.key].(access := now)]))
  {
  }
}
