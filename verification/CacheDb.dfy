/** CacheDbSync (qlappcom/cache_db.cpp:31-401): the tables and the files as fields, each operation statement by
    statement. Every method is tied to the function of module CacheSpec that says what it does to the whole store. */
module CacheDb {
  import opened Options
  import opened CacheSpec
  import opened Words

  // ---- What SQL computes ----

  ghost function Total(sizes: map<string, nat>): nat {
    if sizes == map[] then 0
    else
      var k :| k in sizes;
      sizes[k] + Total(sizes - {k})
  }

  lemma {:induction false} TotalWithout(sizes: map<string, nat>, k: string)
    requires k in sizes
    ensures Total(sizes) == sizes[k] + Total(sizes - {k})
    decreases |sizes|
  {
    var j :| j in sizes && Total(sizes) == sizes[j] + Total(sizes - {j});
    if j != k {
      TotalWithout(sizes - {j}, k);
      TotalWithout(sizes - {k}, j);
      assert sizes - {j} - {k} == sizes - {k} - {j};
    }
  }

  /** SUM(size). */
  method Sum(sizes: map<string, nat>) returns (total: nat)
    ensures total == Total(sizes)
  {
    total := 0;
    var rest := sizes;
    while rest != map[]
      invariant rest.Keys <= sizes.Keys && forall k :: k in rest ==> rest[k] == sizes[k]
      invariant total + Total(rest) == Total(sizes)
      decreases |rest|
    {
      assert rest.Keys != {};
      var k :| k in rest.Keys;
      TotalWithout(rest, k);
      total := total + rest[k];
      rest := rest - {k};
    }
  }

  /** A key of the smallest time. */
  method Oldest(times: map<string, int>) returns (key: string)
    requires times != map[]
    ensures key in times && forall o :: o in times ==> times[key] <= times[o]
  {
    assert times.Keys != {};
    key :| key in times.Keys;
    var todo := times.Keys - {key};
    while todo != {}
      invariant todo <= times.Keys && key in times
      invariant forall o :: o in times.Keys - todo ==> times[key] <= times[o]
      decreases |todo|
    {
      var k :| k in todo;
      if times[k] < times[key] {
        key := k;
      }
      todo := todo - {k};
    }
  }

  /** ORDER BY access_time ASC LIMIT limit. */
  method SelectOldest(times: map<string, int>, limit: nat) returns (chosen: set<string>)
    ensures AreOldest(times, chosen, limit)
  {
    chosen := {};
    var rest := times;
    while |chosen| < limit && rest != map[]
      invariant chosen <= times.Keys && rest.Keys == times.Keys - chosen && |chosen| + |rest.Keys| == |times.Keys|
      invariant |chosen| <= limit && forall k :: k in rest ==> rest[k] == times[k]
      invariant forall i, o :: i in chosen && o in rest ==> times[i] <= times[o]
      decreases |rest.Keys|
    {
      var k := Oldest(rest);
      chosen := chosen + {k};
      rest := rest - {k};
    }
    assert rest == map[] ==> rest.Keys == {};
    assert |times| == |times.Keys|;
  }

  class CacheDb {
    const digests: Digests
    var cache: map<string, Row>
    var aliases: map<string, Alias>
    var refs: map<string, Ref>
    var files: map<string, seq<byte>>

    ghost function Contents(): Store
      reads this
    {
      Store(cache, aliases, refs, files)
    }

    constructor (digests: Digests)
      ensures Contents() == Store(map[], map[], map[], map[]) && this.digests == digests
    {
      this.digests := digests;
      cache, aliases, refs, files := map[], map[], map[], map[];
    }

    // ---- Storing ----

    /** The key of a row with the given hash, the newest of them, or none (qlappcom/cache_db.cpp:53-57). */
    method FindDuplicate(hash: string) returns (dup: Option<string>)
      ensures dup.None? ==> forall r :: r in cache ==> cache[r].hash != Some(hash)
      ensures dup.Some? ==> dup.value in cache && cache[dup.value].hash == Some(hash)
      ensures dup.Some? ==> forall r :: r in cache && cache[r].hash == Some(hash) ==>
                              cache[r].created <= cache[dup.value].created
    {
      dup := None;
      var todo := cache.Keys;
      while todo != {}
        invariant todo <= cache.Keys
        invariant dup.None? ==> forall r :: r in cache.Keys - todo ==> cache[r].hash != Some(hash)
        invariant dup.Some? ==> dup.value in cache && cache[dup.value].hash == Some(hash)
        invariant dup.Some? ==> forall r :: r in cache.Keys - todo && cache[r].hash == Some(hash) ==>
                                  cache[r].created <= cache[dup.value].created
        decreases |todo|
      {
        var k :| k in todo;
        if cache[k].hash == Some(hash) && (dup.None? || cache[dup.value].created < cache[k].created) {
          dup := Some(k);
        }
        todo := todo - {k};
      }
    }

    method InsertAlias(key: string, target: string, now: int)
      modifies `aliases
      ensures Contents() == UpsertAlias(old(Contents()), key, Alias(target, now))
    {
      var link := Alias(target, now);
      if key in aliases {
        link := aliases[key].(access := now);
      }
      aliases := aliases[key := link];
    }

    method InsertRow(key: string, row: Row)
      modifies `cache
      ensures Contents() == UpsertRow(old(Contents()), key, row)
    {
      if key in cache {
        cache := cache[key := cache[key].(access := row.access)];
      } else {
        cache := cache[key := row];
      }
    }

    method PutInternal(key: string, data: seq<byte>, mime: string, tag: int, now: int, ok: PutOutcome)
      returns (stored: bool, ghost dup: Option<string>)
      modifies `cache, `aliases
      ensures AnswersLookup(digests, old(Contents()), data, dup)
      ensures (Contents(), stored) == Put(digests, old(Contents()), key, data, mime, tag, now, dup, ok)
    {
      var hash := ContentHash(digests, data);
      var found := FindDuplicate(hash);
      dup := found;
      if hash != "" {
        if ok.lookup && found.Some? {
          if ok.link {
            InsertAlias(key, found.value, now);
            return true, found;
          }
        }
      }
      if !ok.insert {
        return false, found;
      }
      InsertRow(key, Row(data, mime, tag, now, |data|, now, Some(hash)));
      stored := true;
    }

    method PutRef(key: string, path: string, mime: string, tag: int, size: nat, now: int, ok: bool)
      returns (stored: bool)
      modifies `refs
      ensures (Contents(), stored) == CacheSpec.PutRef(old(Contents()), key, Ref(path, mime, tag, now, size), ok)
    {
      hide AvatarGate;
      if AvatarGate(key, size) {
        return true;
      }
      if !ok {
        return false;
      }
      if key in refs {
        refs := refs[key := refs[key].(access := now)];
      } else {
        refs := refs[key := Ref(path, mime, tag, now, size)];
      }
      stored := true;
    }

    /** writeCacheFile (qlappcom/cache_fs.cpp:54-60): the file is truncated, then written; the environment
        says how far. */
    method WriteFile(path: string, data: seq<byte>, w: Write) returns (complete: bool)
      requires w.Written? ==> w.kept <= |data|
      modifies `files
      ensures Contents() == CacheSpec.WriteFile(old(Contents()), path, data, w)
      ensures complete == (w.Written? && w.complete)
    {
      if w.NotOpened? {
        return false;
      }
      files := files[path := data[..w.kept]];
      complete := w.complete;
    }

    method StoreMedia(key: string, data: seq<byte>, mime: string, tag: int, now: int, ok: PutOutcome, w: Write)
      returns (stored: bool, ghost dup: Option<string>)
      requires w.Written? ==> w.kept <= |data|
      modifies this
      ensures IsInline(key, data) ==> AnswersLookup(digests, old(Contents()), data, dup)
      ensures (Contents(), stored) ==
              CacheSpec.StoreMedia(digests, old(Contents()), key, data, mime, tag, now, dup, ok, w)
    {
      hide AvatarGate, AnswersLookup, Put, CacheSpec.PutRef;
      dup := None;
      if AvatarGate(key, |data|) {
        return true, None;
      }
      if |data| <= MAX_INLINE {
        stored, dup := PutInternal(key, data, mime, tag, now, ok);
        return;
      }
      var path := digests.path(key);
      var complete := WriteFile(path, data, w);
      if !complete {
        return false, None;
      }
      stored := PutRef(key, path, mime, tag, |data|, now, ok.insert);
    }

    // ---- Reading ----

    method Get(key: string, now: int, ok: GetOutcome) returns (found: Loaded)
      modifies `cache, `aliases
      ensures (Contents(), found) == CacheSpec.Get(old(Contents()), key, now, ok)
    {
      found := NOTHING;
      if !ok.prepared {
        return;
      }
      if !(key in cache && ok.row) {
        if key in aliases && ok.link {
          var target := aliases[key].target;
          if ok.touchLink {
            aliases := aliases[key := aliases[key].(access := now)];
          }
          if target in cache && ok.target {
            found := Loaded(cache[target].data, Some(cache[target].mime));
          }
        }
        return;
      }
      found := Loaded(cache[key].data, Some(cache[key].mime));
      if ok.touch {
        cache := cache[key := cache[key].(access := now)];
      }
    }

    method Exists(key: string) returns (found: bool)
      ensures found == CacheSpec.Exists(Contents(), key)
    {
      if key in cache {
        return true;
      }
      found := key in aliases;
    }

    method LoadMedia(key: string, now: int, ok: LoadOutcome) returns (found: Loaded)
      modifies `cache, `aliases, `refs
      ensures (Contents(), found) == CacheSpec.LoadMedia(old(Contents()), key, now, ok)
    {
      hide CacheSpec.Get;
      if !ok.locked {
        return NOTHING;
      }
      var mime := None;
      if key in refs && ok.ref {
        mime := Some(refs[key].mime);
        var path := refs[key].path;
        var data := if ok.file && path in files then files[path] else [];
        if data != [] {
          if ok.touchRef {
            refs := refs[key := refs[key].(access := now)];
          }
          return Loaded(data, mime);
        }
      }
      found := Get(key, now, ok.table);
      if found.mime.None? {
        found := found.(mime := mime);
      }
    }

    // ---- Removing ----

    method Remove(key: string)
      modifies `cache
      ensures Contents() == CacheSpec.Remove(old(Contents()), key)
    {
      cache := cache - {key};
    }

    method ClearByTag(tag: int, rows: bool, references: bool) returns (cleared: bool)
      modifies `cache, `refs
      ensures Contents() == Clear(old(Contents()), tag, rows, references && (tag == 0 ==> rows))
      ensures cleared == (tag == 0 ==> rows && references)
    {
      if tag == 0 {
        if rows {
          cache := map[];
          if references {
            refs := map[];
          }
        }
        return rows && references;
      }
      if rows {
        cache := map k | k in cache && cache[k].tag != tag :: cache[k];
      }
      if references {
        refs := map k | k in refs && refs[k].tag != tag :: refs[k];
      }
      cleared := true;
    }

    /** The sum of all sizes, where a sum whose statement fails counts as 0, and so does the second after the first. */
    ghost function ReportedSize(rows: bool, references: bool): nat
      reads this
    {
      if !rows then 0
      else
        Total(map k | k in cache :: cache[k].size) +
        if references then Total(map k | k in refs :: refs[k].size) else 0
    }

    method TotalCacheSize(rows: bool, references: bool) returns (total: nat)
      ensures total == ReportedSize(rows, references)
    {
      if !rows {
        return 0;
      }
      total := Sum(map k | k in cache :: cache[k].size);
      if references {
        var more := Sum(map k | k in refs :: refs[k].size);
        total := total + more;
      }
    }

    /** The chosen references, one by one: the file goes first, then the entry. */
    method DropRefs(chosen: set<string>, unlinks: string -> bool, drops: string -> bool)
      returns (ghost unlinked: set<string>, ghost dropped: set<string>)
      requires chosen <= refs.Keys
      modifies `refs, `files
      ensures unlinked == (set k | k in chosen && unlinks(k)) && dropped == set k | k in chosen && drops(k)
      ensures unlinked <= old(refs).Keys && files == old(files) - PathsOf(old(refs), unlinked)
      ensures refs == old(refs) - dropped
    {
      hide PathsOf;
      ghost var before := refs;
      unlinked, dropped := {}, {};
      var todo := chosen;
      NoPaths(before);
      while todo != {}
        invariant todo <= chosen
        invariant forall k :: k in unlinked <==> k in chosen && k !in todo && unlinks(k)
        invariant forall k :: k in dropped <==> k in chosen && k !in todo && drops(k)
        invariant unlinked <= before.Keys && files == old(files) - PathsOf(before, unlinked)
        invariant refs == before - dropped
        decreases |todo|
      {
        var key :| key in todo;
        var path := refs[key].path;
        if unlinks(key) {
          PathsOfMore(before, unlinked, key);
          MinusMore(old(files), PathsOf(before, unlinked), path);
          unlinked := unlinked + {key};
          if path != "" {
            files := files - {path};
          }
        }
        if drops(key) {
          MinusMore(before, dropped, key);
          dropped := dropped + {key};
          refs := refs - {key};
        }
        todo := todo - {key};
      }
    }

    method EvictRefs(now: int, purge: bool, unlinks: string -> bool, drops: string -> bool)
      returns (chosen: set<string>, ghost unlinked: set<string>, ghost dropped: set<string>)
      modifies `refs, `files
      ensures if purge then AreOldest(StaleRefTimes(old(refs), now - 604800), chosen, 100) else chosen == {}
      ensures unlinked == (set k | k in chosen && unlinks(k)) && dropped == set k | k in chosen && drops(k)
      ensures unlinked <= old(refs).Keys && files == old(files) - PathsOf(old(refs), unlinked)
      ensures refs == old(refs) - dropped
    {
      chosen := {};
      if purge {
        chosen := SelectOldest(map k | k in refs && refs[k].access < now - 604800 :: refs[k].access, 100);
      }
      unlinked, dropped := DropRefs(chosen, unlinks, drops);
    }

    method EvictRows(now: int, bulk: bool, trim: bool) returns (rows: set<string>)
      modifies `cache
      ensures var t := if bulk then WithoutBulk(old(Contents()), now) else old(Contents());
              && cache == t.cache - rows
              && if trim then AreOldest(RowTimes(t.cache), rows, 100) else rows == {}
    {
      hide AreOldest;
      if bulk {
        cache := map k | k in cache && !(cache[k].access < now - 2592000 && cache[k].size > 2097152) :: cache[k];
      }
      rows := {};
      if trim {
        rows := SelectOldest(map k | k in cache :: cache[k].access, 100);
      }
      cache := cache - rows;
    }

    /** Which files can be removed, and which entries, is up to the environment. */
    method Evict(target: int, now: int, sums: (bool, bool), deletes: (bool, bool, bool), unlinks: string -> bool,
                 drops: string -> bool)
      returns (ghost e: Eviction)
      modifies this
      ensures old(ReportedSize(sums.0, sums.1)) <= target ==> Contents() == old(Contents())
      ensures old(ReportedSize(sums.0, sums.1)) > target ==>
                && (e.bulk, e.trim, e.purge) == deletes && AnswersEviction(old(Contents()), now, e)
                && e.unlinked == (set k | k in e.refs && unlinks(k)) && e.dropped == (set k | k in e.refs && drops(k))
                && e.unlinked <= old(refs).Keys && Contents() == CacheSpec.Evict(old(Contents()), now, e)
    {
      hide AreOldest, PathsOf, RowTimes, StaleRefTimes;
      e := Eviction(false, false, false, {}, {}, {}, {});
      var total := TotalCacheSize(sums.0, sums.1);
      if total <= target {
        return;
      }
      var rows := EvictRows(now, deletes.0, deletes.1);
      var chosen, unlinked, dropped := EvictRefs(now, deletes.2, unlinks, drops);
      e := Eviction(deletes.0, deletes.1, deletes.2, rows, chosen, unlinked, dropped);
    }
  }

  lemma MinusMore<V>(m: map<string, V>, s: set<string>, key: string)
    ensures m - s - {key} == m - (s + {key})
  {
  }

  lemma NoPaths(refs: map<string, Ref>)
    ensures PathsOf(refs, {}) == {}
  {
  }

  lemma PathsOfMore(refs: map<string, Ref>, keys: set<string>, key: string)
    requires keys <= refs.Keys && key in refs
    ensures PathsOf(refs, keys + {key}) == PathsOf(refs, keys) + if refs[key].path != "" then {refs[key].path} else {}
  {
  }
}
