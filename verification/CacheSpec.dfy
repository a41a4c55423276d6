/** The media cache of qlappcom/cache_db.cpp as a value: three tables and a directory of files, and what each operation
    does to them.

    The statements that may fail, the clock and the answers that SQL leaves open are parameters. The laws of module
    CacheLaws are about these functions, and the methods of module CacheDb are tied to them.
*/
module CacheSpec {
  import opened Options
  import opened Words

  /** A row of table cache. Rows older than the column carry no content hash. */
  datatype Row = Row(data: seq<byte>, mime: string, tag: int, access: int, size: nat, created: int,
                     hash: Option<string>)
  datatype Alias = Alias(target: string, access: int)
  datatype Ref = Ref(path: string, mime: string, tag: int, access: int, size: nat)

  datatype Store = Store(cache: map<string, Row>, aliases: map<string, Alias>, refs: map<string, Ref>,
                         files: map<string, seq<byte>>)

  /** MD5 in hexadecimal of a content, and the path made of the MD5 of a key. */
  datatype Digests = Digests(content: seq<byte> -> string, path: string -> string)

  function ContentHash(d: Digests, data: seq<byte>): string {
    if data == [] then "" else d.content(data)
  }

  datatype Loaded = Loaded(data: seq<byte>, mime: Option<string>)

  const NOTHING := Loaded([], None)

  const MAX_AVATAR := 262144
  const MAX_INLINE := 1048576

  // ---- Which statements succeed ----

  datatype PutOutcome = PutOutcome(lookup: bool, link: bool, insert: bool)
  datatype GetOutcome = GetOutcome(prepared: bool, row: bool, link: bool, touchLink: bool, target: bool, touch: bool)
  datatype LoadOutcome = LoadOutcome(locked: bool, ref: bool, file: bool, touchRef: bool, table: GetOutcome)

  /** A file is not opened, or truncated and given the first kept bytes; complete is what fwrite reports. */
  datatype Write = NotOpened | Written(kept: nat, complete: bool)

  // ---- Storing ----

  /** The duplicate query's answer: a newest row with the hash of the data, if there is one. */
  predicate AnswersLookup(d: Digests, s: Store, data: seq<byte>, dup: Option<string>) {
    match dup
    case None => forall r :: r in s.cache ==> s.cache[r].hash != Some(ContentHash(d, data))
    case Some(k) =>
      && k in s.cache && s.cache[k].hash == Some(ContentHash(d, data))
      && forall r :: r in s.cache && s.cache[r].hash == Some(ContentHash(d, data)) ==>
           s.cache[r].created <= s.cache[k].created
  }

  /** An insertion into each of the tables: an entry of that key, if there is one, changes its access time alone. */
  function UpsertRow(s: Store, key: string, row: Row): Store {
    s.(cache := s.cache[key := if key in s.cache then s.cache[key].(access := row.access) else row])
  }

  function UpsertAlias(s: Store, key: string, link: Alias): Store {
    s.(aliases := s.aliases[key := if key in s.aliases then s.aliases[key].(access := link.access) else link])
  }

  function UpsertRef(s: Store, key: string, ref: Ref): Store {
    s.(refs := s.refs[key := if key in s.refs then s.refs[key].(access := ref.access) else ref])
  }

  predicate Links(d: Digests, data: seq<byte>, dup: Option<string>, ok: PutOutcome) {
    ContentHash(d, data) != "" && dup.Some? && ok.lookup && ok.link
  }

  function Put(d: Digests, s: Store, key: string, data: seq<byte>, mime: string, tag: int, now: int,
               dup: Option<string>, ok: PutOutcome): (r: (Store, bool))
  {
    if Links(d, data, dup, ok) then (UpsertAlias(s, key, Alias(dup.value, now)), true)
    else if ok.insert then
      (UpsertRow(s, key, Row(data, mime, tag, now, |data|, now, Some(ContentHash(d, data)))), true)
    else (s, false)
  }

  /** Large avatars are turned away and reported as stored. */
  predicate AvatarGate(key: string, size: nat) {
    "avatar_" <= key && size > MAX_AVATAR
  }

  /** What is stored as a row, not as a file. */
  predicate IsInline(key: string, data: seq<byte>) {
    !AvatarGate(key, |data|) && |data| <= MAX_INLINE
  }

  function PutRef(s: Store, key: string, ref: Ref, ok: bool): (Store, bool) {
    if AvatarGate(key, ref.size) then (s, true)
    else if ok then (UpsertRef(s, key, ref), true)
    else (s, false)
  }

  function WriteFile(s: Store, path: string, data: seq<byte>, w: Write): Store
    requires w.Written? ==> w.kept <= |data|
  {
    if w.NotOpened? then s else s.(files := s.files[path := data[..w.kept]])
  }

  function StoreMedia(d: Digests, s: Store, key: string, data: seq<byte>, mime: string, tag: int, now: int,
                      dup: Option<string>, ok: PutOutcome, w: Write): (Store, bool)
    requires w.Written? ==> w.kept <= |data|
  {
    if AvatarGate(key, |data|) then (s, true)
    else if |data| <= MAX_INLINE then Put(d, s, key, data, mime, tag, now, dup, ok)
    else
      var t := WriteFile(s, d.path(key), data, w);
      if w.NotOpened? || !w.complete then (t, false)
      else PutRef(t, key, Ref(d.path(key), mime, tag, now, |data|), ok.insert)
  }

  // ---- Reading ----

  function TouchRow(s: Store, key: string, now: int): Store
    requires key in s.cache
  {
    s.(cache := s.cache[key := s.cache[key].(access := now)])
  }

  function TouchAlias(s: Store, key: string, now: int): Store
    requires key in s.aliases
  {
    s.(aliases := s.aliases[key := s.aliases[key].(access := now)])
  }

  function TouchRef(s: Store, key: string, now: int): Store
    requires key in s.refs
  {
    s.(refs := s.refs[key := s.refs[key].(access := now)])
  }

  function Get(s: Store, key: string, now: int, ok: GetOutcome): (Store, Loaded) {
    if !ok.prepared then (s, NOTHING)
    else if key in s.cache && ok.row then
      (if ok.touch then TouchRow(s, key, now) else s, Loaded(s.cache[key].data, Some(s.cache[key].mime)))
    else if key in s.aliases && ok.link then
      var target := s.aliases[key].target;
      (if ok.touchLink then TouchAlias(s, key, now) else s,
       if target in s.cache && ok.target then Loaded(s.cache[target].data, Some(s.cache[target].mime)) else NOTHING)
    else (s, NOTHING)
  }

  predicate Exists(s: Store, key: string) {
    key in s.cache || key in s.aliases
  }

  /** The bytes of the file a reference names, none when there is no such file or it cannot be read. */
  function FileOf(s: Store, ref: Ref, readable: bool): seq<byte> {
    if readable && ref.path in s.files then s.files[ref.path] else []
  }

  function LoadMedia(s: Store, key: string, now: int, ok: LoadOutcome): (Store, Loaded) {
    if !ok.locked then (s, NOTHING)
    else if key in s.refs && ok.ref then
      var ref := s.refs[key];
      var data := FileOf(s, ref, ok.file);
      if data != [] then (if ok.touchRef then TouchRef(s, key, now) else s, Loaded(data, Some(ref.mime)))
      else
        var (t, found) := Get(s, key, now, ok.table);
        (t, if found.mime.None? then found.(mime := Some(ref.mime)) else found)
    else Get(s, key, now, ok.table)
  }

  // ---- Removing ----

  function Remove(s: Store, key: string): Store {
    s.(cache := s.cache - {key})
  }

  /** Tag 0 stands for every row. Aliases and files stay. */
  function Clear(s: Store, tag: int, rows: bool, refs: bool): Store {
    var t :=
      if rows then s.(cache := map k | k in s.cache && !(tag == 0 || s.cache[k].tag == tag) :: s.cache[k]) else s;
    if refs then t.(refs := map k | k in t.refs && !(tag == 0 || t.refs[k].tag == tag) :: t.refs[k]) else t
  }

  function RowTimes(rows: map<string, Row>): map<string, int> {
    map k | k in rows :: rows[k].access
  }

  function StaleRefTimes(refs: map<string, Ref>, cutoff: int): map<string, int> {
    map k | k in refs && refs[k].access < cutoff :: refs[k].access
  }

  /** An answer to ORDER BY access_time ASC LIMIT n. */
  predicate AreOldest(times: map<string, int>, chosen: set<string>, limit: nat) {
    && chosen <= times.Keys
    && |chosen| == (if |times| <= limit then |times| else limit)
    && forall i, o :: i in chosen && o in times.Keys - chosen ==> times[i] <= times[o]
  }

  /** Rows unused for thirty days and larger than two megabytes. */
  function WithoutBulk(s: Store, now: int): Store {
    s.(cache := map k | k in s.cache && !(s.cache[k].access < now - 2592000 && s.cache[k].size > 2097152) :: s.cache[k])
  }

  /** Which statements of an eviction succeed, and what they choose: the rows, the references, and those among the
      references whose file and whose entry are indeed removed. */
  datatype Eviction = Eviction(bulk: bool, trim: bool, purge: bool, rows: set<string>, refs: set<string>,
                               unlinked: set<string>, dropped: set<string>)

  function AfterBulk(s: Store, now: int, e: Eviction): Store {
    if e.bulk then WithoutBulk(s, now) else s
  }

  predicate AnswersEviction(s: Store, now: int, e: Eviction) {
    && (if e.trim then AreOldest(RowTimes(AfterBulk(s, now, e).cache), e.rows, 100) else e.rows == {})
    && (if e.purge then AreOldest(StaleRefTimes(s.refs, now - 604800), e.refs, 100) else e.refs == {})
    && e.unlinked <= e.refs && e.dropped <= e.refs
  }

  /** The files of some references; an empty path names none. */
  function PathsOf(refs: map<string, Ref>, keys: set<string>): set<string>
    requires keys <= refs.Keys
  {
    set k | k in keys && refs[k].path != "" :: refs[k].path
  }

  function Evict(s: Store, now: int, e: Eviction): Store
    requires e.unlinked <= s.refs.Keys
  {
    var t := AfterBulk(s, now, e);
    t.(cache := t.cache - e.rows, refs := s.refs - e.dropped, files := s.files - PathsOf(s.refs, e.unlinked))
  }
}
