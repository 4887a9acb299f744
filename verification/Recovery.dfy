/** Rebuilding the jobs after a crash from what was persisted at the last commit. */
module Recovery {
  import opened Jobs
  import opened JobUnits
  import opened JobUnitLaws
  import opened JobTables
  import opened JobTableLaws
  import opened JobStepLaws
  import opened JobRuns

  type Rows = map<Unit, Row>

  function RowOf(rows: Rows, u: Unit): Row {
    if u in rows then rows[u] else EMPTY_ROW
  }

  /** The rows say the same, whether or not a unit without jobs has a row. */
  ghost predicate SameRows(a: Rows, b: Rows) {
    forall u: Unit :: RowOf(a, u) == RowOf(b, u)
  }

  // ---------------------------------------------------------------- compensation

  /** The persisted trigger of a unit is made one that may be run again. */
  function MergeTrigger(row: Row, force: bool): Row {
    var was := if row.trig.Some? then row.trig.value else TrigData(Restart, Attr(true, true, force, true));
    row.(trig := Some(TrigData(MergeTriggerKind(was.kind),
                               Or(Attr(true, true, force, !TriggerIsKept(was.kind)), was.attr))))
  }

  function CompensateHistory(rows: Rows): Rows {
    map u | u in rows :: if rows[u].trig.Some? then MergeTrigger(rows[u], false) else rows[u]
  }

  /** `last` is the unit that was being acted on, if the last words tell. */
  function CompensateLast(rows: Rows, last: Option<Unit>): Rows {
    if last.Some? then rows[last.value := MergeTrigger(RowOf(rows, last.value), true)] else rows
  }

  function Compensate(rows: Rows, last: Option<Unit>): Rows {
    CompensateLast(CompensateHistory(rows), last)
  }

  lemma MergeTriggerAgain(row: Row, force: bool)
    ensures MergeTrigger(MergeTrigger(row, force), force) == MergeTrigger(row, force)
    ensures MergeTrigger(MergeTrigger(row, force), false) == MergeTrigger(row, force)
  {
  }

  lemma CompensateTwice(rows: Rows, last: Option<Unit>)
    ensures Compensate(Compensate(rows, last), last) == Compensate(rows, last)
  {
    var once := Compensate(rows, last);
    forall u | u in once
      ensures u in CompensateHistory(once) && CompensateHistory(once)[u] == once[u]
    {
      MergeTriggerAgain(RowOf(rows, u), false);
      MergeTriggerAgain(RowOf(CompensateHistory(rows), u), true);
    }
    assert CompensateHistory(once) == once;
    if last.Some? {
      MergeTriggerAgain(RowOf(CompensateHistory(rows), last.value), true);
    }
  }

  // ---------------------------------------------------------------- one unit

  function TriggerJob(u: Unit, d: TrigData, id: nat): Job {
    Job(id, u, d.kind, d.attr, FirstRunKind(d.kind), Running)
  }

  function WaitingJob(u: Unit, k: Kind, a: Attr, id: nat): Job {
    Job(id, u, k, a, FirstRunKind(k), Wait)
  }

  function WaitingJobs(u: Unit, susp: map<Kind, Attr>, ids: map<Kind, nat>): map<Kind, Job>
    requires susp.Keys <= ids.Keys
  {
    map k | k in susp :: WaitingJob(u, k, susp[k], ids[k])
  }

  ghost predicate Insertable(s: UnitState, js: seq<Job>) {
    && (forall a :: 0 <= a < |js| ==>
          IsBasic(js[a].kind) && (s.trigger.Some? ==> s.trigger.value.id != js[a].id) && js[a].kind !in s.suspends)
    && (forall a, b :: 0 <= a < b < |js| ==> js[a].kind != js[b].kind)
  }

  /** Inserting the waiting jobs one after the other. */
  ghost function InsertAll(s: UnitState, row: Row, js: seq<Job>): UnitState
    requires Insertable(s, js)
    decreases |js|
  {
    if js == [] then s else InsertAll(InsertSuspend(s, row, js[0], false).0, row, js[1..])
  }

  lemma InsertOne(s: UnitState, row: Row, j: Job)
    requires IsBasic(j.kind) && (s.trigger.Some? ==> s.trigger.value.id != j.id) && j.kind !in s.suspends
    ensures InsertSuspend(s, row, j, false).0
         == s.(suspends := s.suspends[j.kind := j], order := false, dirty := true, ready := false)
  {
  }

  function ByKind(js: seq<Job>): map<Kind, Job> {
    if js == [] then map[] else ByKind(js[1..])[js[0].kind := js[0]]
  }

  lemma {:induction false} ByKindKeys(js: seq<Job>, k: Kind)
    ensures k in ByKind(js) <==> exists j :: j in js && j.kind == k
    ensures k in ByKind(js) ==> ByKind(js)[k] in js && ByKind(js)[k].kind == k
  {
    if js != [] {
      ByKindKeys(js[1..], k);
      assert js == [js[0]] + js[1..];
    }
  }

  lemma {:induction false} InsertAllIs(s: UnitState, row: Row, js: seq<Job>)
    requires Insertable(s, js) && js != []
    ensures InsertAll(s, row, js) == s.(suspends := s.suspends + ByKind(js), order := false, dirty := true, ready := false)
    decreases |js|
  {
    var s1, rest := InsertSuspend(s, row, js[0], false).0, js[1..];
    InsertOne(s, row, js[0]);
    if rest == [] {
      assert ByKind(rest) == map[];
      assert s1.suspends == s.suspends + ByKind(js);
    } else {
      InsertAllIs(s1, row, rest);
      NotAgain(js);
      assert s1.suspends + ByKind(rest) == s.suspends + ByKind(js);
    }
  }

  lemma NotAgain(js: seq<Job>)
    requires js != [] && forall a, b :: 0 <= a < b < |js| ==> js[a].kind != js[b].kind
    ensures js[0].kind !in ByKind(js[1..])
  {
    ByKindKeys(js[1..], js[0].kind);
  }

  function Recovered(u: Unit, row: Row, id: nat, ids: map<Kind, nat>): UnitState
    requires row.susp.Keys <= ids.Keys && (row.trig.Some? ==> IsBasic(row.trig.value.kind))
  {
    var s := if row.trig.Some? then InsertTrigger(NEW_UNIT, TriggerJob(u, row.trig.value, id)) else NEW_UNIT;
    if row.susp == map[] then s
    else s.(suspends := WaitingJobs(u, row.susp, ids), order := false, dirty := true, ready := false)
  }

  /** In whatever order the persisted rows are read, inserting them one by one rebuilds this state. */
  lemma InsertedInAnyOrder(u: Unit, row: Row, id: nat, ids: map<Kind, nat>, s: UnitState, js: seq<Job>)
    requires row.susp.Keys <= ids.Keys && (row.trig.Some? ==> IsBasic(row.trig.value.kind))
    requires IdsApart(id, ids) && forall k :: k in row.susp ==> IsBasic(k)
    requires s == if row.trig.Some? then InsertTrigger(NEW_UNIT, TriggerJob(u, row.trig.value, id)) else NEW_UNIT
    requires Insertable(s, js)
    requires forall j :: j in js <==> j.kind in row.susp && j.kind in ids && j == WaitingJob(u, j.kind, row.susp[j.kind], ids[j.kind])
    ensures InsertAll(s, row, js) == Recovered(u, row, id, ids)
  {
    var m := WaitingJobs(u, row.susp, ids);
    assert s.suspends == map[];
    forall k: Kind
      ensures k in ByKind(js) <==> k in m
      ensures k in m ==> ByKind(js)[k] == m[k]
    {
      ByKindKeys(js, k);
      if k in m { assert m[k] in js; }
    }
    assert s.suspends + ByKind(js) == m;
    if js == [] {
      assert m == map[];
      assert row.susp.Keys == m.Keys;
    } else {
      assert js[0] in js;
      InsertAllIs(s, row, js);
    }
  }

  /** The unit after reordering, which writes nothing because the tables ignore writes meanwhile. */
  function RecoverUnit(u: Unit, row: Row, id: nat, ids: map<Kind, nat>, active: bool): UnitState
    requires row.susp.Keys <= ids.Keys && (row.trig.Some? ==> IsBasic(row.trig.value.kind))
    requires !Conflict(Recovered(u, row, id, ids).suspends)
  {
    Synced(Reshuffle(Recovered(u, row, id, ids), row, active).0)
  }

  /** The rows can come from a unit in order. */
  ghost predicate RowOk(row: Row) {
    && (row.trig.Some? ==> IsBasic(row.trig.value.kind))
    && (forall k :: k in row.susp ==> IsBasic(k))
    && (Stop in row.susp ==> forall k :: k in row.susp ==> k.Stop? || k.Nop?)
    && (Restart in row.susp ==> Start !in row.susp && Reload !in row.susp)
    && (Start in row.susp ==> Reload !in row.susp)
  }

  lemma MirrorRowOk(u: Unit, s: UnitState, row: Row)
    requires CleanUnit(u, s) && Mirror(s, row)
    ensures RowOk(row)
  {
    forall k | k in row.susp
      ensures IsBasic(k) && (Stop in row.susp ==> k.Stop? || k.Nop?)
    {
      assert PendingOk(u, k, s.suspends[k]);
    }
  }

  lemma RecoveredInOrder(u: Unit, row: Row, id: nat, ids: map<Kind, nat>, s: UnitState)
    requires RowOk(row) && row.susp.Keys <= ids.Keys && s == Recovered(u, row, id, ids)
    ensures UnitInv(u, s) && Mirror(s, row) && !Conflict(s.suspends) && AtMostOneMut(s.suspends) && !s.interrupt
    ensures s.suspends.Keys == row.susp.Keys
  {
    assert forall k :: k in s.suspends <==> k in row.susp;
    if row.susp == map[] {
      assert s.suspends == map[];
      assert Canon(map[]) == [] by { CanonShape(map[]); }
    }
  }

  ghost predicate IdsApart(id: nat, ids: map<Kind, nat>) {
    forall k :: k in ids ==> ids[k] != id
  }

  /** Rebuilding merges nothing away: the unit waits with exactly the persisted jobs, its rows mirror
      it without having been touched, and a triggered job is due to run again. */
  lemma RecoverUnitOk(u: Unit, row: Row, id: nat, ids: map<Kind, nat>, active: bool)
    requires RowOk(row) && row.susp.Keys <= ids.Keys && IdsApart(id, ids)
    ensures !Conflict(Recovered(u, row, id, ids).suspends)
    ensures CleanUnit(u, RecoverUnit(u, row, id, ids, active)) && Mirror(RecoverUnit(u, row, id, ids, active), row)
    ensures RecoverUnit(u, row, id, ids, active).suspends == WaitingJobs(u, row.susp, ids)
    ensures RecoverUnit(u, row, id, ids, active).trigger == if row.trig.Some? then Some(TriggerJob(u, row.trig.value, id)) else None
    ensures row.trig.Some? ==> RecoverUnit(u, row, id, ids, active).retrigger && RecoverUnit(u, row, id, ids, active).ready
  {
    var s := Recovered(u, row, id, ids);
    RecoveredInOrder(u, row, id, ids, s);
    var (s', row') := Reshuffle(s, row, active);
    OrderedHasNothingToMerge(s.suspends, s.suspends, active);
    assert s'.suspends == s.suspends - {} == s.suspends;
    ReshuffleExact(u, s, row, active, s');
    ReshuffleMirror(s, row, active, s', row');
    RecoveredApart(u, row, id, ids, s);
    CleanAgain(u, s');
    if row.susp == map[] { assert s.suspends == WaitingJobs(u, row.susp, ids); }
  }

  lemma RecoveredApart(u: Unit, row: Row, id: nat, ids: map<Kind, nat>, s: UnitState)
    requires row.susp.Keys <= ids.Keys && (row.trig.Some? ==> IsBasic(row.trig.value.kind))
    requires s == Recovered(u, row, id, ids) && IdsApart(id, ids)
    ensures Apart(s)
  {
  }

  // ---------------------------------------------------------------- the whole table

  /** The identifiers given out while rebuilding: for the trigger and for each pending kind of a unit. */
  datatype NewIds = NewIds(trig: map<Unit, nat>, susp: map<Unit, map<Kind, nat>>)

  ghost predicate NewIdsOk(rows: Rows, n: NewIds) {
    && (forall u :: u in rows ==> u in n.trig && u in n.susp && rows[u].susp.Keys <= n.susp[u].Keys)
    && (forall u, v :: u in rows && v in rows && n.trig[u] == n.trig[v] ==> u == v)
    && (forall u, v, k :: u in rows && v in rows && k in n.susp[v] ==> n.trig[u] != n.susp[v][k])
    && (forall u, v, k, l :: u in rows && v in rows && k in n.susp[u] && l in n.susp[v] && n.susp[u][k] == n.susp[v][l]
                             ==> u == v && k == l)
  }

  ghost predicate RowsOk(rows: Rows) {
    forall u :: u in rows ==> RowOk(rows[u])
  }

  ghost function RecoverStep(rows: Rows, n: NewIds, active: set<Unit>, u: Unit): UnitStep
    requires RowsOk(rows) && NewIdsOk(rows, n) && u in rows
  {
    RecoverUnitOk(u, rows[u], n.trig[u], n.susp[u], u in active);
    var s := RecoverUnit(u, rows[u], n.trig[u], n.susp[u], u in active);
    UnitStep(s, rows[u], UnitRefs(s), {})
  }

  ghost function RecoverSteps(rows: Rows, n: NewIds, active: set<Unit>): map<Unit, UnitStep>
    requires RowsOk(rows) && NewIdsOk(rows, n)
  {
    map u | u in rows :: RecoverStep(rows, n, active, u)
  }

  ghost function RecoverTable(rows: Rows, n: NewIds, active: set<Unit>): Table
    requires RowsOk(rows) && NewIdsOk(rows, n)
  {
    Apply(EMPTY_TABLE, RecoverSteps(rows, n, active))
  }

  lemma FromNothing(u: Unit, s: UnitState, row: Row)
    requires CleanUnit(u, s) && Mirror(s, row)
    ensures StepOk(EMPTY_TABLE, u, UnitStep(s, row, UnitRefs(s), {}))
  {
    RefsOfUnit(u, s);
    assert UnitRefs(NEW_UNIT) == {};
  }

  lemma RecoverStepSound(rows: Rows, n: NewIds, active: set<Unit>, u: Unit)
    requires RowsOk(rows) && NewIdsOk(rows, n) && u in rows
    ensures StepOk(EMPTY_TABLE, u, RecoverStep(rows, n, active, u))
  {
    RecoverUnitOk(u, rows[u], n.trig[u], n.susp[u], u in active);
    FromNothing(u, RecoverUnit(u, rows[u], n.trig[u], n.susp[u], u in active), rows[u]);
  }

  /** The job is one that was rebuilt, with the identifier given to it. */
  ghost predicate Given(rows: Rows, n: NewIds, h: Handle)
    requires NewIdsOk(rows, n)
  {
    && h.unit in rows
    && (|| (h.id == n.trig[h.unit] && rows[h.unit].trig.Some? && h.kind == rows[h.unit].trig.value.kind)
        || (h.kind in n.susp[h.unit] && h.id == n.susp[h.unit][h.kind]))
  }

  lemma RecoveredGiven(rows: Rows, n: NewIds, active: set<Unit>, u: Unit, h: Handle)
    requires RowsOk(rows) && NewIdsOk(rows, n) && u in rows && h in RecoverStep(rows, n, active, u).adds
    ensures Given(rows, n, h)
  {
    RecoverUnitOk(u, rows[u], n.trig[u], n.susp[u], u in active);
    var s := RecoverUnit(u, rows[u], n.trig[u], n.susp[u], u in active);
    if h in PendingRefs(s.suspends) {
      var k :| k in s.suspends && h == Ref(s.suspends[k]);
    }
  }

  lemma GivenOnce(rows: Rows, n: NewIds, h: Handle, i: Handle)
    requires NewIdsOk(rows, n) && Given(rows, n, h) && Given(rows, n, i) && h.id == i.id
    ensures h == i
  {
  }

  lemma RecoverIdsFresh(rows: Rows, n: NewIds, active: set<Unit>, steps: map<Unit, UnitStep>)
    requires RowsOk(rows) && NewIdsOk(rows, n) && steps == RecoverSteps(rows, n, active)
    ensures FreshIds({}, Adds(steps))
  {
    forall h | h in Adds(steps)
      ensures Given(rows, n, h)
    {
      var u :| u in steps && h in steps[u].adds;
      RecoveredGiven(rows, n, active, u, h);
    }
    forall h, i | h in Adds(steps) && i in Adds(steps) && h.id == i.id
      ensures h == i
    {
      GivenOnce(rows, n, h, i);
    }
  }

  /** The rebuilt table is in full agreement, so the engine goes on from it like from any other. */
  lemma RecoverTableOk(rows: Rows, n: NewIds, active: set<Unit>)
    requires RowsOk(rows) && NewIdsOk(rows, n)
    ensures TableInv(RecoverTable(rows, n, active))
  {
    InitOk(Graph({}));
    var steps := RecoverSteps(rows, n, active);
    forall u | u in steps
      ensures StepOk(EMPTY_TABLE, u, steps[u])
    {
      RecoverStepSound(rows, n, active, u);
    }
    RecoverIdsFresh(rows, n, active, steps);
    ApplyKeeps(EMPTY_TABLE, steps, RecoverTable(rows, n, active));
  }

  // ---------------------------------------------------------------- end to end

  /** How a triggered job comes back: stop, verify and nop as they were, anything else as a restart;
      ignoring order, irreversible, and forced if the unit was being acted on. */
  function Again(d: TrigData, isLast: bool): TrigData {
    if d.kind.Stop? || d.kind.Verify? || d.kind.Nop? then TrigData(d.kind, Attr(true, true, d.attr.force || isLast, d.attr.noRelevancy))
    else TrigData(Restart, Attr(true, true, d.attr.force || isLast, true))
  }

  lemma CompensatedRow(rows: Rows, last: Option<Unit>, u: Unit)
    requires RowOk(RowOf(rows, u))
    ensures RowOk(RowOf(Compensate(rows, last), u)) && RowOf(Compensate(rows, last), u).susp == RowOf(rows, u).susp
    ensures RowOf(rows, u).trig.Some? ==>
              && RowOf(Compensate(rows, last), u).trig.Some?
              && RowOf(Compensate(rows, last), u).trig.value == Again(RowOf(rows, u).trig.value, last == Some(u))
    ensures RowOf(rows, u).trig.None? ==>
              RowOf(Compensate(rows, last), u).trig
              == if last == Some(u) then Some(TrigData(Restart, Attr(true, true, true, true))) else None
  {
    MergeTriggerAgain(RowOf(rows, u), false);
  }

  /** What comes back of a unit: every pending job with its attributes; a triggered stop, verify or
      nop as itself and any other triggered job as a restart, due to run again; and nothing else,
      except a restart of the unit that was being acted on. */
  ghost predicate ComesBack(s: UnitState, s': UnitState, isLast: bool) {
    && s'.suspends.Keys == s.suspends.Keys
    && (forall k :: k in s.suspends ==> s'.suspends[k].stage.Wait? && s'.suspends[k].attr == s.suspends[k].attr)
    && (s.trigger.Some? ==>
          && s'.trigger.Some? && s'.retrigger && s'.ready
          && TrigData(s'.trigger.value.kind, s'.trigger.value.attr)
             == Again(TrigData(s.trigger.value.kind, s.trigger.value.attr), isLast))
    && (s.trigger.None? && !isLast ==> s'.trigger.None?)
    && (s.trigger.None? && isLast ==> s'.trigger.Some? && s'.retrigger && s'.trigger.value.kind.Restart?)
  }

  lemma AppliedAt(steps: map<Unit, UnitStep>, u: Unit)
    ensures At(Apply(EMPTY_TABLE, steps), u) == if u in steps && !IsEmpty(steps[u].s) then steps[u].s else NEW_UNIT
  {
  }

  lemma RowComesBack(u: Unit, s: UnitState, row: Row, row': Row, s': UnitState, isLast: bool)
    requires Mirror(s, row) && Mirror(s', row') && JobsOk(u, s') && row'.susp == row.susp
    requires row.trig.Some? ==> row'.trig == Some(Again(row.trig.value, isLast))
    requires row.trig.None? ==>
               row'.trig == if isLast then Some(TrigData(Restart, Attr(true, true, true, true))) else None
    requires s'.trigger.Some? ==> s'.retrigger && s'.ready
    ensures ComesBack(s, s', isLast)
  {
    forall k | k in s.suspends
      ensures s'.suspends[k].stage.Wait? && s'.suspends[k].attr == s.suspends[k].attr
    {
      assert PendingOk(u, k, s'.suspends[k]);
    }
  }

  lemma Retriggered(rows: Rows, n: NewIds, active: set<Unit>, u: Unit)
    requires RowsOk(rows) && NewIdsOk(rows, n)
    ensures RowAt(RecoverTable(rows, n, active), u) == RowOf(rows, u)
    ensures At(RecoverTable(rows, n, active), u).trigger.Some? ==>
              At(RecoverTable(rows, n, active), u).retrigger && At(RecoverTable(rows, n, active), u).ready
  {
    AppliedAt(RecoverSteps(rows, n, active), u);
    if u in rows {
      RecoverUnitOk(u, rows[u], n.trig[u], n.susp[u], u in active);
    }
  }

  ghost predicate UnitBack(at: Table, t': Table, last: Option<Unit>, u: Unit) {
    ComesBack(At(at, u), At(t', u), last == Some(u))
  }

  lemma UnitComesBack(at: Table, last: Option<Unit>, n: NewIds, active: set<Unit>, rows: Rows, t': Table, u: Unit)
    requires TableInv(at) && SameRows(rows, Compensate(at.rows, last))
    requires RowsOk(rows) && NewIdsOk(rows, n) && t' == RecoverTable(rows, n, active)
    ensures UnitBack(at, t', last, u)
  {
    CleanAt(at, u);
    MirrorRowOk(u, At(at, u), RowAt(at, u));
    CompensatedRow(at.rows, last, u);
    assert RowOf(rows, u) == RowOf(Compensate(at.rows, last), u);
    RecoverTableOk(rows, n, active);
    CleanAt(t', u);
    Retriggered(rows, n, active, u);
    RowComesBack(u, At(at, u), RowAt(at, u), RowAt(t', u), At(t', u), last == Some(u));
  }

  lemma CompensatedRowsOk(at: Table, last: Option<Unit>, rows: Rows)
    requires TableInv(at) && SameRows(rows, Compensate(at.rows, last))
    ensures RowsOk(rows)
  {
    forall u | u in rows
      ensures RowOk(rows[u])
    {
      CleanAt(at, u);
      MirrorRowOk(u, At(at, u), RowAt(at, u));
      CompensatedRow(at.rows, last, u);
      assert RowOf(rows, u) == RowOf(Compensate(at.rows, last), u);
    }
  }

  ghost predicate JobsComeBack(at: Table, t': Table, last: Option<Unit>) {
    forall u: Unit :: UnitBack(at, t', last, u)
  }

  lemma DiskComesBack(at: Table, last: Option<Unit>, n: NewIds, active: set<Unit>, rows: Rows, t': Table)
    requires TableInv(at) && SameRows(rows, Compensate(at.rows, last)) && NewIdsOk(rows, n)
    requires RowsOk(rows) && t' == RecoverTable(rows, n, active)
    ensures JobsComeBack(at, t', last)
  {
    forall u: Unit
      ensures UnitBack(at, t', last, u)
    {
      UnitComesBack(at, last, n, active, rows, t', u);
    }
  }

  // ---------------------------------------------------------------- exactly the jobs that were there

  /** Every unit has a triggered job if and only if it had one. */
  ghost predicate NothingInvented(at: Table, t': Table) {
    forall u: Unit :: At(t', u).trigger.Some? <==> At(at, u).trigger.Some?
  }

  /** Recovery invents no job if and only if the unit that was being acted on, if any is recorded, has a
      persisted triggered job. */
  lemma InventedExact(at: Table, last: Option<Unit>, t': Table)
    requires JobsComeBack(at, t', last)
    ensures NothingInvented(at, t') <==> last.None? || At(at, last.value).trigger.Some?
  {
    forall u: Unit
      ensures At(t', u).trigger.Some? <==> At(at, u).trigger.Some? || last == Some(u)
    {
      assert UnitBack(at, t', last, u);
    }
    if last.Some? { assert At(t', last.value).trigger.Some?; }
  }
}
