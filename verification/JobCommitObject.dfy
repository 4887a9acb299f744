/** Committing a transaction pass by pass: first every staged or flushed unit is merged, then every
    dirty unit is ordered, told to the queue and dropped if empty. Together the passes are the commit. */
module JobCommitObject {
  import opened Jobs
  import opened JobUnits
  import opened JobTables
  import opened JobTableLaws
  import opened JobStepLaws
  import opened JobRuns
  import opened JobTableObject

  type Staging = map<Unit, map<Kind, Job>>
  type Steps = map<Unit, UnitStep>

  // ---------------------------------------------------------------- the two halves of a unit's part

  function MergeHalf(s: UnitState, row: Row, o: map<Kind, Job>, iso: bool): UnitStep {
    var (s2, row2) := CommitMerge(s, row, o, iso);
    UnitStep(s2, row2, PendingRefs(o - Kept(s, o, iso).Keys), PendingRefs(Cancels(s, o, iso)))
  }

  function OrderHalf(s: UnitState, row: Row, active: bool): UnitStep
    requires !Conflict(s.suspends)
  {
    var (s3, row3) := if s.dirty then Reshuffle(s, row, active) else (s, row);
    UnitStep(if s.dirty then Synced(s3) else s, row3, {}, PendingRefs(s.suspends - s3.suspends.Keys))
  }

  lemma Halves(s: UnitState, row: Row, o: map<Kind, Job>, iso: bool, active: bool)
    requires (iso ==> o == map[]) && !Conflict(CommitMerge(s, row, o, iso).0.suspends)
    ensures !Conflict(MergeHalf(s, row, o, iso).s.suspends)
    ensures var a := MergeHalf(s, row, o, iso);
            var b := OrderHalf(a.s, a.row, active);
            CommitStep(s, row, o, iso, active) == UnitStep(b.s, b.row, a.adds, a.dels + b.dels)
  {
  }

  function Merges(t: Table, stage: Staging, iso: set<Unit>): Steps {
    map u | u in iso + stage.Keys :: MergeHalf(At(t, u), RowAt(t, u), StagedAt(stage, u), u in iso)
  }

  ghost predicate CanOrder(steps: Steps) {
    forall u :: u in steps ==> !Conflict(steps[u].s.suspends)
  }

  function Orders(steps: Steps, active: set<Unit>): Steps
    requires forall u :: u in steps ==> !Conflict(steps[u].s.suspends)
  {
    map u | u in steps :: OrderHalf(steps[u].s, steps[u].row, u in active)
  }

  predicate IsJoint(a: UnitStep, b: UnitStep, c: UnitStep) {
    c == UnitStep(b.s, b.row, a.adds, a.dels + b.dels)
  }

  ghost predicate Joined(a: Steps, b: Steps, c: Steps) {
    a.Keys == b.Keys == c.Keys && forall u :: u in c ==> IsJoint(a[u], b[u], c[u])
  }

  lemma HalvesTogether(t: Table, stage: Staging, iso: set<Unit>, active: set<Unit>, a: Steps, b: Steps, u: Unit)
    requires Mergeable(t, stage, iso) && u in iso + stage.Keys
    requires a == Merges(t, stage, iso) && CanOrder(a) && b == Orders(a, active)
    ensures IsJoint(a[u], b[u], CommitSteps(t, stage, iso, active)[u])
  {
    Halves(At(t, u), RowAt(t, u), StagedAt(stage, u), u in iso, u in active);
  }

  // ---------------------------------------------------------------- steps applied so far

  function States(steps: Steps): map<Unit, UnitState> {
    map u | u in steps :: steps[u].s
  }

  function Rows(steps: Steps): map<Unit, Row> {
    map u | u in steps :: steps[u].row
  }

  lemma DoneOneMore(steps: Steps, left: set<Unit>, u: Unit)
    requires u in left && u in steps
    ensures steps - (left - {u}) == (steps - left)[u := steps[u]] && u !in steps - left
  {
  }

  lemma StatesOneMore(data: map<Unit, UnitState>, done: Steps, u: Unit, st: UnitStep)
    requires u !in done
    ensures data + States(done[u := st]) == (data + States(done))[u := st.s]
  {
  }

  lemma RowsOneMore(rows: map<Unit, Row>, done: Steps, u: Unit, st: UnitStep)
    requires u !in done
    ensures rows + Rows(done[u := st]) == (rows + Rows(done))[u := st.row]
  {
  }

  lemma AddsOneMore(done: Steps, u: Unit, st: UnitStep)
    requires u !in done
    ensures Adds(done[u := st]) == Adds(done) + st.adds && Dels(done[u := st]) == Dels(done) + st.dels
  {
    var more := done[u := st];
    assert forall v :: v in done ==> v in more && more[v] == done[v];
    assert u in more && more[u] == st;
  }

  lemma EntryOneMore(data: map<Unit, UnitState>, done: Steps, u: Unit, st: UnitStep)
    requires u !in done
    ensures DataAfter(data, done[u := st]) == Entry(DataAfter(data, done), u, st.s)
  {
  }

  // ---------------------------------------------------------------- first pass

  /** The unit's entry is looked up, or made if there is none. */
  method MergeUnit(jobs: JobTable, u: Unit, o: map<Kind, Job>, iso: bool) returns (adds: set<Handle>, dels: set<Handle>)
    requires jobs.Linked() && (iso ==> o == map[])
    modifies jobs`data, jobs`rows
    ensures jobs.Linked() && jobs.ids == old(jobs.ids) && jobs.num == old(jobs.num)
    ensures var st := MergeHalf(At(old(jobs.View()), u), RowAt(old(jobs.View()), u), o, iso);
            && jobs.data == old(jobs.data)[u := st.s] && jobs.rows == old(jobs.rows)[u := st.row]
            && adds == st.adds && dels == st.dels
  {
    var s := if u in jobs.data then jobs.data[u] else NEW_UNIT;
    var row := jobs.RowFor(u);
    var st := MergeHalf(s, row, o, iso);
    MergeFrame(s, row, o, iso, st.s);
    MarkedSame(jobs.data, u, st.s);
    jobs.data := jobs.data[u := st.s];
    jobs.rows := jobs.rows[u := st.row];
    adds, dels := st.adds, st.dels;
  }

  /** What the table looks like when these steps have been made. */
  ghost predicate Merged(t: Table, done: Steps, now: Table, adds: set<Handle>, dels: set<Handle>) {
    && now.data == t.data + States(done) && now.rows == t.rows + Rows(done)
    && now.ids == t.ids && now.num == t.num
    && adds == Adds(done) && dels == Dels(done)
  }

  lemma MergedNone(t: Table, steps: Steps)
    ensures Merged(t, steps - steps.Keys, t, {}, {}) && steps - {} == steps
  {
    assert steps - steps.Keys == map[];
    assert t.data + States(map[]) == t.data && t.rows + Rows(map[]) == t.rows;
  }

  lemma MergedOneMore(t: Table, steps: Steps, left: set<Unit>, u: Unit, now: Table, adds: set<Handle>, dels: set<Handle>, now': Table)
    requires Merged(t, steps - left, now, adds, dels) && u in left && u in steps
    requires now'.data == now.data[u := steps[u].s] && now'.rows == now.rows[u := steps[u].row]
    requires now'.ids == now.ids && now'.num == now.num
    ensures Merged(t, steps - (left - {u}), now', adds + steps[u].adds, dels + steps[u].dels)
  {
    DoneOneMore(steps, left, u);
    StatesOneMore(t.data, steps - left, u, steps[u]);
    RowsOneMore(t.rows, steps - left, u, steps[u]);
    AddsOneMore(steps - left, u, steps[u]);
  }

  lemma NotMergedYet(t: Table, steps: Steps, left: set<Unit>, u: Unit, now: Table, adds: set<Handle>, dels: set<Handle>)
    requires Merged(t, steps - left, now, adds, dels) && u in left
    ensures At(now, u) == At(t, u) && RowAt(now, u) == RowAt(t, u)
  {
  }

  /** Every unit that is flushed or staged, in whatever order. */
  method MergePass(jobs: JobTable, stage: Staging, iso: set<Unit>) returns (adds: set<Handle>, dels: set<Handle>)
    requires jobs.Linked() && iso !! stage.Keys
    modifies jobs`data, jobs`rows, jobs`sync
    ensures jobs.Linked() && Merged(old(jobs.View()), Merges(old(jobs.View()), stage, iso), jobs.View(), adds, dels)
  {
    ghost var t := jobs.View();
    ghost var steps := Merges(t, stage, iso);
    var left := iso + stage.Keys;
    adds, dels := {}, {};
    jobs.sync := false;
    MergedNone(t, steps);
    while left != {}
      invariant left <= steps.Keys && jobs.Linked() && Merged(t, steps - left, jobs.View(), adds, dels)
      decreases left
    {
      var u :| u in left;
      ghost var now := jobs.View();
      NotMergedYet(t, steps, left, u, now, adds, dels);
      var a, d := MergeUnit(jobs, u, StagedAt(stage, u), u in iso);
      MergedOneMore(t, steps, left, u, now, adds, dels, jobs.View());
      adds, dels := adds + a, dels + d;
      left := left - {u};
    }
  }

  // ---------------------------------------------------------------- second pass

  /** Order the unit if it is dirty, tell the queue, and drop it if it is empty. */
  method OrderUnit(jobs: JobTable, u: Unit, active: bool) returns (merged: set<Handle>)
    requires jobs.Linked() && u in jobs.data && !Conflict(jobs.data[u].suspends)
    requires Settles(OrderHalf(jobs.data[u], RowAt(jobs.View(), u), active).s)
    modifies jobs`data, jobs`rows, jobs.queue
    ensures jobs.Linked() && jobs.ids == old(jobs.ids) && jobs.num == old(jobs.num)
    ensures var st := OrderHalf(old(jobs.data)[u], RowAt(old(jobs.View()), u), active);
            && jobs.data == Entry(old(jobs.data), u, st.s) && merged == st.dels
            && jobs.rows == if old(jobs.data)[u].dirty then old(jobs.rows)[u := st.row] else old(jobs.rows)
  {
    var s := jobs.data[u];
    merged := {};
    if s.dirty {
      var row := jobs.RowFor(u);
      var (s3, row3) := Reshuffle(s, row, active);
      merged := PendingRefs(s.suspends - s3.suspends.Keys);
      MarkedSame(jobs.data, u, s3);
      EntryTwice(jobs.data, u, s3, Synced(s3));
      EntryTwice(jobs.data, u, Synced(s3), s3);
      jobs.data := jobs.data[u := s3];
      jobs.rows := jobs.rows[u := row3];
      jobs.Sync(u);
    }
    jobs.Collect(u);
  }

  predicate Settles(s: UnitState) {
    IsEmpty(s) ==> !s.ready && !s.upReady
  }

  /** These steps are what ordering makes of the table; all other units have nothing to be done. */
  ghost predicate OrdersAll(mid: Table, steps: Steps, active: set<Unit>) {
    && (forall u :: u in steps ==>
          && u in mid.data && u in mid.rows && !Conflict(mid.data[u].suspends)
          && steps[u] == OrderHalf(mid.data[u], mid.rows[u], u in active) && Settles(steps[u].s))
    && (forall u :: u in mid.data && u !in steps ==> !mid.data[u].dirty && !IsEmpty(mid.data[u]) && !Conflict(mid.data[u].suspends))
  }

  ghost predicate Ordered(mid: Table, done: Steps, now: Table, dels: set<Handle>) {
    && now.data == DataAfter(mid.data, done) && now.rows == mid.rows + Rows(done)
    && now.ids == mid.ids && now.num == mid.num && dels == Dels(done)
  }

  lemma OrderedNone(mid: Table, steps: Steps)
    requires steps.Keys <= mid.data.Keys
    ensures Ordered(mid, steps - mid.data.Keys, mid, {}) && steps - {} == steps
  {
    assert steps - mid.data.Keys == map[];
    assert DataAfter(mid.data, map[]) == mid.data && mid.rows + Rows(map[]) == mid.rows;
  }

  lemma NotOrderedYet(mid: Table, steps: Steps, left: set<Unit>, u: Unit, now: Table, dels: set<Handle>)
    requires Ordered(mid, steps - left, now, dels) && u in left && u in mid.data
    ensures u in now.data && now.data[u] == mid.data[u] && RowAt(now, u) == RowAt(mid, u)
  {
  }

  lemma OrderedOneMore(mid: Table, steps: Steps, active: set<Unit>, left: set<Unit>, u: Unit, now: Table, dels: set<Handle>, now': Table)
    requires OrdersAll(mid, steps, active) && Ordered(mid, steps - left, now, dels) && u in left && u in steps && u in now.data
    requires now'.data == Entry(now.data, u, steps[u].s)
    requires now'.rows == if mid.data[u].dirty then now.rows[u := steps[u].row] else now.rows
    requires now'.ids == now.ids && now'.num == now.num
    ensures Ordered(mid, steps - (left - {u}), now', dels + steps[u].dels)
  {
    DoneOneMore(steps, left, u);
    EntryOneMore(mid.data, steps - left, u, steps[u]);
    RowsOneMore(mid.rows, steps - left, u, steps[u]);
    AddsOneMore(steps - left, u, steps[u]);
    if !mid.data[u].dirty {
      assert now.rows[u := steps[u].row] == now.rows;
    }
  }

  lemma OrderedSkip(mid: Table, steps: Steps, active: set<Unit>, left: set<Unit>, u: Unit, now: Table, dels: set<Handle>)
    requires OrdersAll(mid, steps, active) && Ordered(mid, steps - left, now, dels) && u in left && u in mid.data && u !in steps
    requires u in now.data && now.data[u] == mid.data[u]
    ensures steps - left == steps - (left - {u})
    ensures !Conflict(now.data[u].suspends) && OrderHalf(now.data[u], RowAt(now, u), u in active).s == now.data[u]
    ensures OrderHalf(now.data[u], RowAt(now, u), u in active).dels == {}
    ensures Settles(now.data[u]) && Entry(now.data, u, now.data[u]) == now.data
  {
    assert now.data[u].suspends - now.data[u].suspends.Keys == map[];
  }

  /** Every unit of the table, in whatever order. */
  method OrderPass(jobs: JobTable, active: set<Unit>, ghost steps: Steps) returns (dels: set<Handle>)
    requires jobs.Linked() && OrdersAll(jobs.View(), steps, active)
    modifies jobs`data, jobs`rows, jobs`sync, jobs.queue
    ensures jobs.sync && jobs.Linked() && Ordered(old(jobs.View()), steps, jobs.View(), dels)
  {
    ghost var mid := jobs.View();
    var left := jobs.data.Keys;
    dels := {};
    OrderedNone(mid, steps);
    while left != {}
      invariant left <= mid.data.Keys && jobs.Linked() && Ordered(mid, steps - left, jobs.View(), dels)
      decreases left
    {
      var u :| u in left;
      ghost var now := jobs.View();
      NotOrderedYet(mid, steps, left, u, now, dels);
      if u !in steps { OrderedSkip(mid, steps, active, left, u, now, dels); }
      var d := OrderUnit(jobs, u, u in active);
      if u in steps { OrderedOneMore(mid, steps, active, left, u, now, dels, jobs.View()); }
      dels := dels + d;
      left := left - {u};
    }
    jobs.sync := true;
  }

  // ---------------------------------------------------------------- the commit

  lemma StepsTogether(t: Table, stage: Staging, iso: set<Unit>, active: set<Unit>, a: Steps, b: Steps, c: Steps)
    requires Mergeable(t, stage, iso) && a == Merges(t, stage, iso) && CanOrder(a) && b == Orders(a, active)
    requires c == CommitSteps(t, stage, iso, active)
    ensures Joined(a, b, c)
  {
    forall u | u in c
      ensures IsJoint(a[u], b[u], c[u])
    {
      HalvesTogether(t, stage, iso, active, a, b, u);
    }
  }

  lemma RefsTogether(a: Steps, b: Steps, c: Steps)
    requires Joined(a, b, c)
    ensures Adds(c) == Adds(a) && Dels(c) == Dels(a) + Dels(b)
  {
    forall h | h in Dels(c)
      ensures h in Dels(a) + Dels(b)
    {
      var u :| u in c && h in c[u].dels;
      assert u in a && u in b;
    }
    forall h | h in Dels(a) + Dels(b)
      ensures h in Dels(c)
    {
      if h in Dels(a) {
        var u :| u in a && h in a[u].dels;
        assert u in c && h in c[u].dels;
      } else {
        var u :| u in b && h in b[u].dels;
        assert u in c && h in c[u].dels;
      }
    }
    forall h | h in Adds(c) ensures h in Adds(a) {
      var u :| u in c && h in c[u].adds;
      assert u in a && h in a[u].adds;
    }
    forall h | h in Adds(a) ensures h in Adds(c) {
      var u :| u in a && h in a[u].adds;
      assert u in c && h in c[u].adds;
    }
  }

  lemma StatesTogether(data: map<Unit, UnitState>, a: Steps, b: Steps, c: Steps)
    requires Joined(a, b, c)
    ensures DataAfter(data + States(a), b) == DataAfter(data, c)
  {
  }

  lemma RowsTogether(rows: map<Unit, Row>, a: Steps, b: Steps, c: Steps)
    requires Joined(a, b, c)
    ensures rows + Rows(a) + Rows(b) == rows + Rows(c)
  {
  }

  lemma DataTogether(data: map<Unit, UnitState>, rows: map<Unit, Row>, a: Steps, b: Steps, c: Steps)
    requires Joined(a, b, c)
    ensures DataAfter(data + States(a), b) == DataAfter(data, c)
    ensures rows + Rows(a) + Rows(b) == rows + Rows(c)
  {
    StatesTogether(data, a, b, c);
    RowsTogether(rows, a, b, c);
  }

  lemma TouchedSettle(t: Table, c: Steps, u: Unit)
    requires StepsOk(t, c) && u in c
    ensures Settles(c[u].s)
  {
    assert StepOk(t, u, c[u]);
    if IsEmpty(c[u].s) { NotReadyIfEmpty(u, c[u].s); }
  }

  lemma AllSettle(t: Table, a: Steps, b: Steps, c: Steps)
    requires StepsOk(t, c) && Joined(a, b, c)
    ensures forall u :: u in b ==> Settles(b[u].s)
  {
    forall u | u in b
      ensures Settles(b[u].s)
    {
      TouchedSettle(t, c, u);
    }
  }

  lemma MergedOrders(t: Table, a: Steps, b: Steps, active: set<Unit>, mid: Table, adds: set<Handle>, dels: set<Handle>)
    requires UnitsClean(t) && Merged(t, a, mid, adds, dels)
    requires CanOrder(a) && b == Orders(a, active) && forall u :: u in b ==> Settles(b[u].s)
    ensures OrdersAll(mid, b, active)
  {
    assert forall u :: u in mid.data && u !in b ==> u in t.data && mid.data[u] == t.data[u];
  }

  lemma ApplyIs(t: Table, c: Steps)
    ensures Apply(t, c) == Table(DataAfter(t.data, c), t.rows + Rows(c), t.ids + Adds(c) - Dels(c),
                                 ReadyUnits(DataAfter(t.data, c)), NumAfter(t.num, Adds(c), Dels(c)))
  {
    assert (map u | u in c :: c[u].row) == Rows(c);
  }

  lemma PassesAreApply(t: Table, a: Steps, b: Steps, c: Steps, mid: Table, end: Table, adds: set<Handle>, d1: set<Handle>, d2: set<Handle>)
    requires Joined(a, b, c)
    requires Merged(t, a, mid, adds, d1) && Ordered(mid, b, end.(ids := t.ids, num := t.num), d2)
    requires end.ids == t.ids + adds - (d1 + d2) && end.num == NumAfter(t.num, adds, d1 + d2)
    requires end.ready == ReadyUnits(end.data)
    ensures end == Apply(t, c)
  {
    RefsTogether(a, b, c);
    DataTogether(t.data, t.rows, a, b, c);
    ApplyIs(t, c);
  }

  lemma FlushedUnits(t: Table, stage: Staging, iso: set<Unit>, u: Unit)
    requires TableInv(t) && u in iso + stage.Keys
    ensures Merges(t, stage, iso)[u].dels != {} <==> u in Flushed(t, stage, iso)
    ensures forall h :: h in Merges(t, stage, iso)[u].dels ==> h.unit == u
  {
    var m := Cancels(At(t, u), StagedAt(stage, u), u in iso);
    CleanAt(t, u);
    RefsOfUnit(u, At(t, u));
    if m != map[] {
      var k :| k in m;
      assert Ref(m[k]) in PendingRefs(m);
    }
  }

  function UnitsOf(hs: set<Handle>): set<Unit> {
    set h | h in hs :: h.unit
  }

  lemma FlushedAre(t: Table, stage: Staging, iso: set<Unit>, a: Steps)
    requires TableInv(t) && a == Merges(t, stage, iso)
    ensures UnitsOf(Dels(a)) == Flushed(t, stage, iso)
  {
    forall u | u in a
      ensures a[u].dels != {} <==> u in Flushed(t, stage, iso)
      ensures forall h :: h in a[u].dels ==> h.unit == u
    {
      FlushedUnits(t, stage, iso, u);
    }
    forall u | u in Flushed(t, stage, iso)
      ensures u in UnitsOf(Dels(a))
    {
      var h :| h in a[u].dels;
      assert h in Dels(a);
    }
    forall u | u in UnitsOf(Dels(a))
      ensures u in Flushed(t, stage, iso)
    {
      var h :| h in Dels(a) && h.unit == u;
      var v :| v in a && h in a[v].dels;
    }
  }

  /** Both passes, the index and the counters. */
  method Passes(jobs: JobTable, stage: Staging, iso: set<Unit>, active: set<Unit>) returns (flushed: set<Unit>)
    requires jobs.Valid() && StageOk(jobs.View(), stage) && IsoOk(jobs.View(), stage, iso) && Mergeable(jobs.View(), stage, iso)
    modifies jobs, jobs.queue
    ensures jobs.View() == Apply(old(jobs.View()), CommitSteps(old(jobs.View()), stage, iso, active)) && jobs.Valid()
    ensures flushed == Flushed(old(jobs.View()), stage, iso)
  {
    ghost var t := jobs.View();
    ghost var a, c := Merges(t, stage, iso), CommitSteps(t, stage, iso, active);
    AllCanOrder(t, stage, iso);
    ghost var b := Orders(a, active);
    StepsTogether(t, stage, iso, active, a, b, c);
    CommitStepsOk(t, stage, iso, active, c);
    CommitApplied(t, stage, iso, active, Apply(t, c));
    FlushedAre(t, stage, iso, a);
    var adds, d1 := MergePass(jobs, stage, iso);
    ghost var mid := jobs.View();
    AllSettle(t, a, b, c);
    MergedOrders(t, a, b, active, mid, adds, d1);
    var d2 := OrderPass(jobs, active, b);
    jobs.ids := jobs.ids + adds - (d1 + d2);
    jobs.num := NumAfter(jobs.num, adds, d1 + d2);
    EndsReady(t, a, b, c, mid, jobs.View());
    PassesAreApply(t, a, b, c, mid, jobs.View(), adds, d1, d2);
    flushed := UnitsOf(d1);
  }

  lemma AllCanOrder(t: Table, stage: Staging, iso: set<Unit>)
    requires Mergeable(t, stage, iso)
    ensures CanOrder(Merges(t, stage, iso))
  {
    forall u | u in iso + stage.Keys
      ensures !Conflict(Merges(t, stage, iso)[u].s.suspends)
    {
      Halves(At(t, u), RowAt(t, u), StagedAt(stage, u), u in iso, false);
    }
  }

  lemma EndsReady(t: Table, a: Steps, b: Steps, c: Steps, mid: Table, end: Table)
    requires Joined(a, b, c)
    requires mid.data == t.data + States(a) && end.data == DataAfter(mid.data, b)
    requires UnitsClean(Apply(t, c)) && end.ready == UpReady(end.data)
    ensures end.ready == ReadyUnits(end.data)
  {
    DataTogether(t.data, t.rows, a, b, c);
    ReadyIsUp(Apply(t, c));
  }

  /** The transaction is merged into the table, and the order neighbours of the units that lost a
      pending job are resumed. */
  method CommitStage(jobs: JobTable, stage: Staging, iso: set<Unit>, active: set<Unit>, g: Graph)
    requires jobs.Valid() && StageOk(jobs.View(), stage) && IsoOk(jobs.View(), stage, iso)
    modifies jobs, jobs.queue
    ensures Mergeable(old(jobs.View()), stage, iso)
    ensures jobs.View() == Commit(old(jobs.View()), stage, iso, active, g) && jobs.Valid()
  {
    CommitMergeable(jobs.View(), stage, iso);
    var flushed := Passes(jobs, stage, iso, active);
    jobs.ResumeEach(AllNeighbours(g, flushed));
  }
}
