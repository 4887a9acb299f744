/** The two persisted job tables inside the reliability store: what they hold for the rows of the units,
    what is read back, and the writes that make them. */
module JobRows {
  import opened Jobs
  import opened Reliability
  import opened Recovery

  // ---------------------------------------------------------------- the two job tables in the store

  datatype Key = TrigKey(unit: Unit) | SuspKey(unit: Unit, kind: Kind)
  datatype Val = TrigVal(data: TrigData) | SuspVal(attr: Attr)

  type JobStore = Store<Key, Val>
  type JobOp = Op<Key, Val>
  type Tables = map<string, map<Key, Val>>

  const JTRIGGER := "jtrigger"
  const JSUSPENDS := "jsuspends"

  /** A row is there exactly for a triggered job, and tells its kind and attributes. */
  ghost predicate TrigSays(m: map<Key, Val>, rows: Rows) {
    forall key ::
      && (key in m <==> key.TrigKey? && RowOf(rows, key.unit).trig.Some?)
      && (key in m ==> m[key] == TrigVal(RowOf(rows, key.unit).trig.value))
  }

  /** A row is there exactly for a pending job, and tells its attributes. */
  ghost predicate SuspSays(m: map<Key, Val>, rows: Rows) {
    forall key ::
      && (key in m <==> key.SuspKey? && key.kind in RowOf(rows, key.unit).susp)
      && (key in m ==> m[key] == SuspVal(RowOf(rows, key.unit).susp[key.kind]))
  }

  /** The two tables hold exactly these rows. */
  ghost predicate Says(c: Tables, rows: Rows) {
    c.Keys == {JTRIGGER, JSUSPENDS} && TrigSays(c[JTRIGGER], rows) && SuspSays(c[JSUSPENDS], rows)
  }

  function DataIn(m: map<Key, Val>, u: Unit): Option<TrigData> {
    if TrigKey(u) in m && m[TrigKey(u)].TrigVal? then Some(m[TrigKey(u)].data) else None
  }

  function AttrsIn(m: map<Key, Val>, u: Unit): map<Kind, Attr> {
    map key | key in m && key.SuspKey? && key.unit == u && m[key].SuspVal? :: key.kind := m[key].attr
  }

  function UnitsIn(m: map<Key, Val>): set<Unit> {
    set key | key in m :: key.unit
  }

  /** The rows that are read from the tables. */
  function RowsIn(c: Tables): Rows
    requires JTRIGGER in c && JSUSPENDS in c
  {
    map u | u in UnitsIn(c[JTRIGGER]) + UnitsIn(c[JSUSPENDS]) :: Row(DataIn(c[JTRIGGER], u), AttrsIn(c[JSUSPENDS], u))
  }

  lemma TrigRead(m: map<Key, Val>, rows: Rows, u: Unit)
    requires TrigSays(m, rows)
    ensures DataIn(m, u) == RowOf(rows, u).trig
    ensures u in UnitsIn(m) <==> RowOf(rows, u).trig.Some?
  {
    assert TrigKey(u).unit == u;
  }

  lemma AttrsHas(m: map<Key, Val>, u: Unit, k: Kind)
    requires SuspKey(u, k) in m ==> m[SuspKey(u, k)].SuspVal?
    ensures k in AttrsIn(m, u) <==> SuspKey(u, k) in m
    ensures SuspKey(u, k) in m ==> AttrsIn(m, u)[k] == m[SuspKey(u, k)].attr
  {
    if SuspKey(u, k) in m { assert SuspKey(u, k).kind == k; }
  }

  lemma SuspRead(m: map<Key, Val>, rows: Rows, u: Unit)
    requires SuspSays(m, rows)
    ensures AttrsIn(m, u) == RowOf(rows, u).susp
  {
    forall k: Kind
      ensures k in AttrsIn(m, u) <==> k in RowOf(rows, u).susp
      ensures k in RowOf(rows, u).susp ==> AttrsIn(m, u)[k] == RowOf(rows, u).susp[k]
    {
      assert SuspKey(u, k).unit == u;
      AttrsHas(m, u, k);
    }
  }

  lemma SuspUnits(m: map<Key, Val>, rows: Rows, u: Unit)
    requires SuspSays(m, rows)
    ensures u in UnitsIn(m) <==> RowOf(rows, u).susp != map[]
  {
    if RowOf(rows, u).susp != map[] {
      var k :| k in RowOf(rows, u).susp;
      assert SuspKey(u, k) in m && SuspKey(u, k).unit == u;
    }
    if u in UnitsIn(m) {
      var key :| key in m && key.unit == u;
      assert key.kind in RowOf(rows, u).susp;
    }
  }

  /** Reading gives the rows that the tables hold. */
  lemma ReadBack(c: Tables, rows: Rows)
    requires Says(c, rows)
    ensures SameRows(RowsIn(c), rows)
  {
    forall u: Unit
      ensures RowOf(RowsIn(c), u) == RowOf(rows, u)
    {
      TrigRead(c[JTRIGGER], rows, u);
      SuspRead(c[JSUSPENDS], rows, u);
      SuspUnits(c[JSUSPENDS], rows, u);
    }
  }

  /** The tables hold no more than the rows say. */
  lemma SaysSame(c: Tables, a: Rows, b: Rows)
    requires Says(c, a) && SameRows(a, b)
    ensures Says(c, b)
  {
    forall key: Key
      ensures RowOf(a, key.unit) == RowOf(b, key.unit)
    {
    }
  }

  // ---------------------------------------------------------------- tables for any rows

  function ValFor(rows: Rows, key: Key): Val {
    if key.TrigKey? then
      (if RowOf(rows, key.unit).trig.Some? then TrigVal(RowOf(rows, key.unit).trig.value) else TrigVal(TrigData(Kind.Nop, NO_ATTR)))
    else
      (if key.kind in RowOf(rows, key.unit).susp then SuspVal(RowOf(rows, key.unit).susp[key.kind]) else SuspVal(NO_ATTR))
  }

  const NO_ATTR := Attr(false, false, false, false)

  lemma {:induction false} Tabulate(rows: Rows, keys: set<Key>) returns (m: map<Key, Val>)
    ensures m.Keys == keys && forall key :: key in m ==> m[key] == ValFor(rows, key)
    decreases keys
  {
    if keys == {} {
      m := map[];
    } else {
      var key :| key in keys;
      m := Tabulate(rows, keys - {key});
      m := m[key := ValFor(rows, key)];
    }
  }

  lemma MakeTrig(rows: Rows) returns (m: map<Key, Val>)
    ensures TrigSays(m, rows)
  {
    var keys := set u | u in rows && rows[u].trig.Some? :: TrigKey(u);
    m := Tabulate(rows, keys);
    forall key: Key
      ensures key in m <==> key.TrigKey? && RowOf(rows, key.unit).trig.Some?
    {
      if key.TrigKey? && RowOf(rows, key.unit).trig.Some? { assert key == TrigKey(key.unit); }
    }
  }

  lemma MakeSusp(rows: Rows) returns (m: map<Key, Val>)
    ensures SuspSays(m, rows)
  {
    var keys := set u, k | u in rows && k in rows[u].susp :: SuspKey(u, k);
    m := Tabulate(rows, keys);
    forall key: Key
      ensures key in m <==> key.SuspKey? && key.kind in RowOf(rows, key.unit).susp
    {
      if key.SuspKey? && key.kind in RowOf(rows, key.unit).susp { assert key == SuspKey(key.unit, key.kind); }
    }
  }

  // ---------------------------------------------------------------- writing the tables

  /** The two job tables, both recording. */
  ghost predicate HasTables(s: JobStore) {
    s.tables.Keys == {JTRIGGER, JSUSPENDS} && !s.tables[JTRIGGER].ignore && !s.tables[JSUSPENDS].ignore
  }

  ghost predicate CanWrite(s: JobStore) {
    s.open != [] || s.ignoreLast
  }

  predicate IsWrite(op: JobOp) {
    op.Write? || op.Erase?
  }

  ghost predicate SameWords(s: JobStore, s': JobStore) {
    s'.frames == s.frames && s'.unit == s.unit && s'.ignoreLast == s.ignoreLast && s'.open == s.open && s'.snap == s.snap
  }

  /** Only one table has changed, and it shows this now. */
  ghost predicate Shows(s: JobStore, s': JobStore, n: string, m: map<Key, Val>) {
    && HasTables(s') && SameWords(s, s') && n in s'.tables && s'.tables[n].cache == m
    && forall x :: x in s.tables && x != n ==> x in s'.tables && s'.tables[x] == s.tables[x]
  }

  lemma ActsCons(s: JobStore, op: JobOp, ops: seq<JobOp>)
    requires Legal(s, op) && IsWrite(op) && LegalAll(Act(s, op), ops)
    ensures LegalAll(s, [op] + ops) && Acts(s, [op] + ops) == Acts(Act(s, op), ops)
  {
    assert ([op] + ops)[1..] == ops;
  }

  lemma {:induction false} ActsConcat(s: JobStore, a: seq<JobOp>, b: seq<JobOp>)
    requires LegalAll(s, a) && LegalAll(Acts(s, a), b)
    ensures LegalAll(s, a + b) && Acts(s, a + b) == Acts(Acts(s, a), b)
    decreases |a|
  {
    if a == [] {
      assert a + b == b;
    } else {
      ActsConcat(Act(s, a[0]), a[1..], b);
      assert (a + b)[1..] == a[1..] + b;
    }
  }

  lemma {:induction false} EraseKeys(s: JobStore, n: string, ks: set<Key>) returns (ops: seq<JobOp>)
    requires HasTables(s) && CanWrite(s) && n in s.tables
    ensures LegalAll(s, ops) && (forall op :: op in ops ==> IsWrite(op))
    ensures Shows(s, Acts(s, ops), n, s.tables[n].cache - ks)
    decreases ks
  {
    if ks == {} {
      ops := [];
    } else {
      var k :| k in ks;
      var s1 := Act(s, Erase(n, k));
      var rest := EraseKeys(s1, n, ks - {k});
      ActsCons(s, Erase(n, k), rest);
      ops := [Erase(n, k)] + rest;
      assert s.tables[n].cache - {k} - (ks - {k}) == s.tables[n].cache - ks;
    }
  }

  lemma OneThenRest(c: map<Key, Val>, m: map<Key, Val>, k: Key)
    requires k in m
    ensures c[k := m[k]] + (m - {k}) == c + m
  {
  }

  lemma {:induction false} WriteKeys(s: JobStore, n: string, m: map<Key, Val>) returns (ops: seq<JobOp>)
    requires HasTables(s) && CanWrite(s) && n in s.tables
    ensures LegalAll(s, ops) && (forall op :: op in ops ==> IsWrite(op))
    ensures Shows(s, Acts(s, ops), n, s.tables[n].cache + m)
    decreases m.Keys
  {
    if m.Keys == {} {
      ops := [];
      assert s.tables[n].cache + m == s.tables[n].cache;
    } else {
      var k :| k in m;
      var s1 := Act(s, Write(n, k, m[k]));
      var rest := WriteKeys(s1, n, m - {k});
      ActsCons(s, Write(n, k, m[k]), rest);
      ops := [Write(n, k, m[k])] + rest;
      OneThenRest(s.tables[n].cache, m, k);
    }
  }

  lemma MakeTable(s: JobStore, n: string, m: map<Key, Val>) returns (ops: seq<JobOp>)
    requires HasTables(s) && CanWrite(s) && n in s.tables
    ensures LegalAll(s, ops) && (forall op :: op in ops ==> IsWrite(op))
    ensures Shows(s, Acts(s, ops), n, m)
  {
    var a := EraseKeys(s, n, s.tables[n].cache.Keys);
    var s1 := Acts(s, a);
    var b := WriteKeys(s1, n, m);
    ActsConcat(s, a, b);
    ops := a + b;
    assert s.tables[n].cache - s.tables[n].cache.Keys + m == m;
  }

  /** These writes make the tables show these rows. */
  ghost predicate WritesMake(s: JobStore, ops: seq<JobOp>, rows: Rows) {
    && LegalAll(s, ops) && (forall op :: op in ops ==> IsWrite(op))
    && Says(Caches(Acts(s, ops).tables), rows)
  }

  /** Whatever the rows are to be, there are writes that make them. */
  lemma WritesExist(s: JobStore, rows: Rows) returns (ops: seq<JobOp>)
    requires HasTables(s) && CanWrite(s)
    ensures WritesMake(s, ops, rows)
  {
    var trig := MakeTrig(rows);
    var susp := MakeSusp(rows);
    var a := MakeTable(s, JTRIGGER, trig);
    var s1 := Acts(s, a);
    TwoTables();
    var b := MakeTable(s1, JSUSPENDS, susp);
    ActsConcat(s, a, b);
    ops := a + b;
    CachesAre(Acts(s, ops));
  }

  lemma TwoTables()
    ensures JTRIGGER != JSUSPENDS
  {
    assert |JTRIGGER| != |JSUSPENDS|;
  }

  lemma CachesAre(s: JobStore)
    requires HasTables(s)
    ensures Caches(s.tables) == map[JTRIGGER := s.tables[JTRIGGER].cache, JSUSPENDS := s.tables[JSUSPENDS].cache]
  {
  }

  /** Writes leave the last words and the disk alone. */
  lemma {:induction false} WritesKeep(s: JobStore, ops: seq<JobOp>)
    requires LegalAll(s, ops) && (forall op :: op in ops ==> IsWrite(op)) && HasTables(s)
    ensures SameWords(s, Acts(s, ops)) && HasTables(Acts(s, ops))
    ensures Acts(s, ops).closing ==> s.closing
    decreases |ops|
  {
    if ops != [] {
      assert IsWrite(ops[0]);
      var s1 := Act(s, ops[0]);
      WritesKeep(s1, ops[1..]);
    }
  }

  /** A commit changes nothing of what the process sees. */
  lemma CommitShows(s: JobStore)
    requires HasTables(s)
    ensures HasTables(Act(s, CommitAll)) && Caches(Act(s, CommitAll).tables) == Caches(s.tables)
    ensures Act(s, CommitAll).snap == Caches(s.tables)
  {
    var s' := Act(s, CommitAll);
    assert forall n :: n in s.tables ==> s'.tables[n].cache == s.tables[n].cache;
  }

  /** After a crash the process sees what is on disk. */
  lemma RestartShows(s: JobStore)
    requires StoreInv(s) && HasTables(s)
    ensures StoreInv(Reliability.Restart(s)) && HasTables(Reliability.Restart(s))
    ensures Caches(Reliability.Restart(s).tables) == s.snap && Reliability.Restart(s).snap == s.snap
  {
    RestartKeeps(s);
    var r := Reliability.Restart(s);
    assert forall n :: n in s.tables ==> r.tables[n].cache == s.tables[n].db;
    assert Caches(r.tables) == Disks(s.tables);
  }
}
