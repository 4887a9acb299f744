/** The reliability store: write-behind tables that are committed together, and the markers that
    say what was going on when the process died. */
module Reliability {
  import opened Jobs

  /** One table: what is on disk, what the process sees, and the writes since the last commit. */
  datatype Tbl<K, V> = Tbl(db: map<K, V>, cache: map<K, V>, add: map<K, V>, del: set<K>, ignore: bool)

  function Put<K, V>(t: Tbl<K, V>, k: K, v: V): Tbl<K, V> {
    if t.ignore then t
    else t.(del := t.del - {k}, add := t.add[k := v], cache := t.cache[k := v])
  }

  function Delete<K, V>(t: Tbl<K, V>, k: K): Tbl<K, V> {
    if t.ignore then t
    else t.(add := t.add - {k}, del := t.del + {k}, cache := t.cache - {k})
  }

  function Export<K, V>(t: Tbl<K, V>): Tbl<K, V> {
    t.(db := t.db + t.add - t.del, add := map[], del := {})
  }

  function Import<K, V>(t: Tbl<K, V>): Tbl<K, V> {
    t.(cache := t.db, add := map[], del := {})
  }

  function Clear<K, V>(t: Tbl<K, V>): Tbl<K, V> {
    t.(db := map[], cache := map[], add := map[], del := {})
  }

  /** The process sees the disk overlaid by its own writes. */
  ghost predicate Overlay<K, V>(t: Tbl<K, V>) {
    t.add.Keys !! t.del && t.cache == t.db + t.add - t.del
  }

  lemma PutKeepsOverlay<K, V>(t: Tbl<K, V>, k: K, v: V)
    requires Overlay(t)
    ensures Overlay(Put(t, k, v)) && Put(t, k, v).db == t.db
    ensures if t.ignore then Put(t, k, v) == t else Put(t, k, v).cache == t.cache[k := v]
  {
    assert (t.db + t.add - t.del)[k := v] == t.db + t.add[k := v] - (t.del - {k});
  }

  lemma DeleteKeepsOverlay<K, V>(t: Tbl<K, V>, k: K)
    requires Overlay(t)
    ensures Overlay(Delete(t, k)) && Delete(t, k).db == t.db
    ensures if t.ignore then Delete(t, k) == t else Delete(t, k).cache == t.cache - {k}
  {
    assert (t.db + t.add - t.del) - {k} == t.db + (t.add - {k}) - (t.del + {k});
  }

  /** A commit puts on disk exactly what the process sees. */
  lemma ExportSettles<K, V>(t: Tbl<K, V>)
    requires Overlay(t)
    ensures Overlay(Export(t)) && Export(t).db == t.cache == Export(t).cache
  {
    assert t.cache == t.cache + map[] - {};
  }

  /** Importing or clearing establishes the overlay whatever the memory held before; a table that is
      created over a disk that is not empty does not have it until then. */
  lemma OverlayStarts<K, V>(t: Tbl<K, V>)
    ensures Overlay(Import(t)) && Import(t).cache == t.db == Import(t).db
    ensures Overlay(Clear(t)) && Clear(t).cache == map[] == Clear(t).db
    ensures Overlay(Tbl(t.db, map[], map[], {}, false)) <==> t.db == map[]
  {
    assert t.db + map[] - {} == t.db;
  }

  /** The table as an object: its loops over the pending writes, in whatever order, do what the
      operations above say. */
  class ReDb<K(==), V> {
    var db: map<K, V>
    var cache: map<K, V>
    var add: map<K, V>
    var del: set<K>
    var ignore: bool

    ghost function State(): Tbl<K, V>
      reads this
    {
      Tbl(db, cache, add, del, ignore)
    }

    constructor (disk: map<K, V>)
      ensures State() == Tbl(disk, map[], map[], {}, false)
    {
      db, cache, add, del, ignore := disk, map[], map[], {}, false;
    }

    method Insert(k: K, v: V)
      modifies this
      ensures State() == Put(old(State()), k, v)
      ensures old(Overlay(State())) ==> Overlay(State())
    {
      if Overlay(State()) { PutKeepsOverlay(State(), k, v); }
      if ignore { return; }
      del := del - {k};
      add := add[k := v];
      cache := cache[k := v];
    }

    method Remove(k: K)
      modifies this
      ensures State() == Delete(old(State()), k)
      ensures old(Overlay(State())) ==> Overlay(State())
    {
      if Overlay(State()) { DeleteKeepsOverlay(State(), k); }
      if ignore { return; }
      add := add - {k};
      del := del + {k};
      cache := cache - {k};
    }

    method CacheToDb()
      modifies this
      ensures State() == Export(old(State()))
      ensures old(Overlay(State())) ==> Overlay(State()) && db == cache
    {
      ghost var old_db := db;
      var puts := add.Keys;
      while puts != {}
        invariant puts <= add.Keys && State() == old(State()).(db := db)
        invariant db == old_db + (add - puts)
        decreases puts
      {
        var k :| k in puts;
        db := db[k := add[k]];
        puts := puts - {k};
        assert db == old_db + (add - puts);
      }
      assert db == old_db + add;
      ghost var put_db := db;
      add := map[];
      var dels := del;
      while dels != {}
        invariant dels <= del && State() == old(State()).(db := db, add := map[])
        invariant db == put_db - (del - dels)
        decreases dels
      {
        var k :| k in dels;
        db := db - {k};
        dels := dels - {k};
        assert db == put_db - (del - dels);
      }
      assert db == put_db - del;
      del := {};
      if old(Overlay(State())) { ExportSettles(old(State())); }
    }

    method DbToCache()
      modifies this
      ensures State() == Import(old(State())) && Overlay(State())
    {
      OverlayStarts(State());
      add := map[];
      del := {};
      cache := map[];
      var entries := db.Keys;
      while entries != {}
        invariant entries <= db.Keys && State() == old(State()).(cache := cache, add := map[], del := {})
        invariant cache == db - entries
        decreases entries
      {
        var k :| k in entries;
        cache := cache[k := db[k]];
        entries := entries - {k};
        assert cache == db - entries;
      }
      assert cache == db;
    }
  }

  // ---------------------------------------------------------------- all tables and the markers

  type Frame = (nat, Option<nat>, Option<nat>)

  /** `frames` and `unit` are the recorded last words: the stack of frames and the unit that is being
      acted on; they are not recorded while `ignoreLast`, which is during a recovery. The rest is
      history: `open` are the frames the running process has open, `closing` says that nothing was
      written since the last commit, and `snap` is what the process saw in every table at the last
      commit or import. */
  datatype Store<K, V> = Store(
    tables: map<string, Tbl<K, V>>,
    frames: seq<Frame>,
    unit: Option<Unit>,
    ignoreLast: bool,
    open: seq<Frame>,
    closing: bool,
    snap: map<string, map<K, V>>)

  datatype Op<K, V> =
    | Write(table: string, key: K, value: V)
    | Erase(table: string, key: K)
    | CommitAll
    | SetFrame(frame: Frame)
    | PopFrame
    | SetUnit(unit: Unit)
    | ClearUnit
    | IgnoreHistory(ignore: bool)

  function Caches<K, V>(ts: map<string, Tbl<K, V>>): map<string, map<K, V>> {
    map n | n in ts :: ts[n].cache
  }

  function Disks<K, V>(ts: map<string, Tbl<K, V>>): map<string, map<K, V>> {
    map n | n in ts :: ts[n].db
  }

  function Act<K, V>(s: Store<K, V>, op: Op<K, V>): Store<K, V>
    requires (op.Write? || op.Erase?) ==> op.table in s.tables
    requires op.PopFrame? && !s.ignoreLast ==> s.open != [] && s.frames != []
  {
    match op
    case Write(n, k, v) => s.(tables := s.tables[n := Put(s.tables[n], k, v)], closing := false)
    case Erase(n, k) => s.(tables := s.tables[n := Delete(s.tables[n], k)], closing := false)
    case CommitAll =>
      s.(tables := (map n | n in s.tables :: Export(s.tables[n])), closing := true, snap := Caches(s.tables))
    case SetFrame(f) => if s.ignoreLast then s else s.(frames := s.frames + [f], open := s.open + [f])
    case PopFrame =>
      if s.ignoreLast then s else s.(frames := s.frames[..|s.frames| - 1], open := s.open[..|s.open| - 1])
    case SetUnit(u) => if s.ignoreLast then s else s.(unit := Some(u))
    case ClearUnit => if s.ignoreLast then s else s.(unit := None)
    case IgnoreHistory(b) => s.(tables := map n | n in s.tables :: s.tables[n].(ignore := b))
  }

  /** The process writes only while it has a frame open or recovers, and it takes a marker back only
      after a commit. */
  predicate Legal<K, V>(s: Store<K, V>, op: Op<K, V>) {
    match op
    case Write(n, _, _) => n in s.tables && (s.open != [] || s.ignoreLast)
    case Erase(n, _) => n in s.tables && (s.open != [] || s.ignoreLast)
    case PopFrame => s.ignoreLast || (s.closing && s.open != [])
    case ClearUnit => s.closing
    case _ => true
  }

  predicate NoPending<K, V>(ts: map<string, Tbl<K, V>>) {
    forall n :: n in ts ==> ts[n].add == map[] && ts[n].del == {}
  }

  ghost predicate StoreInv<K, V>(s: Store<K, V>) {
    && (forall n :: n in s.tables ==> Overlay(s.tables[n]))
    && s.snap == Disks(s.tables)
    && ((s.open == [] && !s.ignoreLast) || s.closing ==> NoPending(s.tables))
    && |s.open| <= |s.frames| && s.frames[|s.frames| - |s.open|..] == s.open
  }

  /** Starting over after a crash: memory is rebuilt from disk, no frame is open, and the last words are
      left as they are until the recovery is done. */
  function Restart<K, V>(s: Store<K, V>): Store<K, V> {
    var ts := map n | n in s.tables :: Import(s.tables[n].(ignore := false));
    s.(tables := ts, ignoreLast := true, open := [], closing := true, snap := Caches(ts))
  }

  lemma WriteKeeps<K, V>(s: Store<K, V>, n: string, t: Tbl<K, V>)
    requires StoreInv(s) && n in s.tables && Overlay(t) && t.db == s.tables[n].db && (s.open != [] || s.ignoreLast)
    ensures StoreInv(s.(tables := s.tables[n := t], closing := false))
  {
    DisksKept(s.tables, n, t);
  }

  lemma CommitKeeps<K, V>(s: Store<K, V>)
    requires StoreInv(s)
    ensures StoreInv(Act(s, CommitAll))
  {
    forall n | n in s.tables { ExportSettles(s.tables[n]); }
    assert Disks(map n | n in s.tables :: Export(s.tables[n])) == Caches(s.tables);
  }

  lemma ActKeeps<K, V>(s: Store<K, V>, op: Op<K, V>)
    requires StoreInv(s) && Legal(s, op)
    ensures StoreInv(Act(s, op))
  {
    match op
    case Write(n, k, v) => PutKeepsOverlay(s.tables[n], k, v); WriteKeeps(s, n, Put(s.tables[n], k, v));
    case Erase(n, k) => DeleteKeepsOverlay(s.tables[n], k); WriteKeeps(s, n, Delete(s.tables[n], k));
    case CommitAll => CommitKeeps(s);
    case SetFrame(f) =>
    case PopFrame =>
    case SetUnit(u) =>
    case ClearUnit =>
    case IgnoreHistory(b) =>
      assert Disks(map n | n in s.tables :: s.tables[n].(ignore := b)) == Disks(s.tables);
  }

  lemma DisksKept<K, V>(ts: map<string, Tbl<K, V>>, n: string, t: Tbl<K, V>)
    requires n in ts && t.db == ts[n].db
    ensures Disks(ts[n := t]) == Disks(ts)
  {
  }

  lemma RestartKeeps<K, V>(s: Store<K, V>)
    ensures StoreInv(Restart(s))
  {
    forall n | n in s.tables { OverlayStarts(s.tables[n].(ignore := false)); }
    assert Disks(Restart(s).tables) == Caches(Restart(s).tables);
  }

  predicate LegalAll<K, V>(s: Store<K, V>, ops: seq<Op<K, V>>)
    decreases |ops|
  {
    ops != [] ==> Legal(s, ops[0]) && (ops[0].PopFrame? && !s.ignoreLast ==> s.frames != []) && LegalAll(Act(s, ops[0]), ops[1..])
  }

  function Acts<K, V>(s: Store<K, V>, ops: seq<Op<K, V>>): Store<K, V>
    requires LegalAll(s, ops)
    decreases |ops|
  {
    if ops == [] then s else Acts(Act(s, ops[0]), ops[1..])
  }

  lemma {:induction false} ActsKeep<K, V>(s: Store<K, V>, ops: seq<Op<K, V>>)
    requires StoreInv(s) && LegalAll(s, ops)
    ensures StoreInv(Acts(s, ops))
    decreases |ops|
  {
    if ops != [] {
      ActKeeps(s, ops[0]);
      ActsKeep(Act(s, ops[0]), ops[1..]);
    }
  }

  lemma RestartBrings<K, V>(s: Store<K, V>)
    requires StoreInv(s)
    ensures Caches(Restart(s).tables) == s.snap
    ensures s.frames == [] && !s.ignoreLast ==> Caches(Restart(s).tables) == Caches(s.tables)
  {
    assert Caches(Restart(s).tables) == Disks(s.tables);
    if s.frames == [] && !s.ignoreLast {
      forall n | n in s.tables
        ensures s.tables[n].db == s.tables[n].cache
      {
        assert s.tables[n].cache == s.tables[n].db + map[] - {};
      }
    }
  }

  /** A crash after any run brings back, in all tables together, what the process saw at the last
      commit; and if no frame was recorded as open and it was not recovering, that is all it had seen:
      nothing is lost. The last words come back as they were. */
  lemma CrashRestoresLastCommit<K, V>(s: Store<K, V>, ops: seq<Op<K, V>>)
    requires StoreInv(s) && LegalAll(s, ops)
    ensures var e := Acts(s, ops);
            && Caches(Restart(e).tables) == e.snap && Restart(e).frames == e.frames && Restart(e).unit == e.unit
            && (e.frames == [] && !e.ignoreLast ==> Caches(Restart(e).tables) == Caches(e.tables))
  {
    ActsKeep(s, ops);
    RestartBrings(Acts(s, ops));
  }

  function ForgetUnit<K, V>(s: Store<K, V>): Store<K, V> {
    s.(ignoreLast := false, unit := None)
  }

  function ForgetFrame<K, V>(s: Store<K, V>): Store<K, V> {
    s.(frames := if s.frames == [] then [] else s.frames[..|s.frames| - 1])
  }

  /** A recovery ends by taking back the unit and then one frame. */
  function EndRecovery<K, V>(s: Store<K, V>): Store<K, V> {
    ForgetFrame(ForgetUnit(s))
  }

  predicate RecordedTopIsInnermost<K, V>(s: Store<K, V>) {
    if s.open == [] then s.frames == [] else s.frames != [] && s.frames[|s.frames| - 1] == s.open[|s.open| - 1]
  }

  lemma TopIsInnermost<K, V>(s: Store<K, V>)
    requires StoreInv(s) && s.open != []
    ensures RecordedTopIsInnermost(s)
  {
    assert s.frames[|s.frames| - 1] == s.frames[|s.frames| - |s.open|..][|s.open| - 1];
  }

  lemma RecoverKeeps<K, V>(s: Store<K, V>, r: Store<K, V>)
    requires r == EndRecovery(Restart(s))
    ensures StoreInv(r) && r.open == []
  {
    RestartKeeps(s);
    assert r.tables == Restart(s).tables && r.snap == Restart(s).snap;
  }

  lemma FramesAfterRecovery<K, V>(s: Store<K, V>, r: Store<K, V>)
    requires r == EndRecovery(Restart(s))
    ensures RecordedTopIsInnermost(r) <==> |s.frames| <= 1
  {
  }

  lemma TopAfterActs<K, V>(r: Store<K, V>, ops: seq<Op<K, V>>)
    requires StoreInv(r) && LegalAll(r, ops)
    ensures Acts(r, ops).open != [] ==> RecordedTopIsInnermost(Acts(r, ops))
  {
    ActsKeep(r, ops);
    if Acts(r, ops).open != [] { TopIsInnermost(Acts(r, ops)); }
  }

  /** After recovering from a crash the recorded frames are those of the running process exactly when
      no two frames were nested at the crash; whatever happens then, the recorded top is the innermost
      open frame as long as one is open. */
  lemma NestedFramesLinger<K, V>(s: Store<K, V>, ops: seq<Op<K, V>>)
    requires LegalAll(EndRecovery(Restart(s)), ops)
    ensures RecordedTopIsInnermost(EndRecovery(Restart(s))) <==> |s.frames| <= 1
    ensures Acts(EndRecovery(Restart(s)), ops).open != [] ==> RecordedTopIsInnermost(Acts(EndRecovery(Restart(s)), ops))
  {
    var r := EndRecovery(Restart(s));
    RecoverKeeps(s, r);
    FramesAfterRecovery(s, r);
    TopAfterActs(r, ops);
  }
}
