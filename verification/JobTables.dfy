/** The live table: every unit's jobs, the index of job identifiers, the ready units, the persisted
    rows and the counters, and the operations that change them together. */
module JobTables {
  import opened Jobs
  import opened JobUnits

  /** `(u, v) in before` says that u is ordered before v, which is the same as v after u. */
  datatype Graph = Graph(before: set<(Unit, Unit)>)

  function Later(g: Graph, u: Unit): set<Unit> {
    set p | p in g.before && p.0 == u :: p.1
  }

  function Earlier(g: Graph, u: Unit): set<Unit> {
    set p | p in g.before && p.1 == u :: p.0
  }

  function Neighbours(g: Graph, u: Unit): set<Unit> {
    Later(g, u) + Earlier(g, u)
  }

  /** `ids` is the graph of the index from job identifiers to jobs. */
  datatype Table = Table(
    data: map<Unit, UnitState>,
    rows: map<Unit, Row>,
    ids: set<Handle>,
    ready: set<Unit>,
    num: map<Kind, int>)

  function At(t: Table, u: Unit): UnitState {
    if u in t.data then t.data[u] else NEW_UNIT
  }

  function RowAt(t: Table, u: Unit): Row {
    if u in t.rows then t.rows[u] else EMPTY_ROW
  }

  function PendingRefs(m: map<Kind, Job>): set<Handle> {
    set k | k in m :: Ref(m[k])
  }

  function UnitRefs(s: UnitState): set<Handle> {
    PendingRefs(s.suspends) + if s.trigger.Some? then {Ref(s.trigger.value)} else {}
  }

  function OfKind(hs: set<Handle>, k: Kind): set<Handle> {
    set h | h in hs && h.kind == k
  }

  // ---------------------------------------------------------------- one unit's part of an operation

  /** The new state and rows of a unit, and the jobs reported as added and deleted. */
  datatype UnitStep = UnitStep(s: UnitState, row: Row, adds: set<Handle>, dels: set<Handle>)

  /** The unit's readiness is made known to the ready queue and the unit is clean. */
  function Synced(s: UnitState): UnitState {
    s.(dirty := false, upReady := s.ready)
  }

  function Adds(steps: map<Unit, UnitStep>): set<Handle> {
    set u, h | u in steps && h in steps[u].adds :: h
  }

  function Dels(steps: map<Unit, UnitStep>): set<Handle> {
    set u, h | u in steps && h in steps[u].dels :: h
  }

  function NumAfter(num: map<Kind, int>, adds: set<Handle>, dels: set<Handle>): map<Kind, int> {
    map k | k in num :: num[k] + |OfKind(adds, k)| - |OfKind(dels, k)|
  }

  function DataAfter(data: map<Unit, UnitState>, steps: map<Unit, UnitStep>): map<Unit, UnitState> {
    map u | u in data.Keys + steps.Keys && (u in steps ==> !IsEmpty(steps[u].s)) ::
      if u in steps then steps[u].s else data[u]
  }

  function ReadyUnits(data: map<Unit, UnitState>): set<Unit> {
    set u | u in data && data[u].ready
  }

  /** Units left without a job are dropped from the table. */
  function Apply(t: Table, steps: map<Unit, UnitStep>): Table {
    var data := DataAfter(t.data, steps);
    Table(
      data,
      t.rows + (map u | u in steps :: steps[u].row),
      t.ids + Adds(steps) - Dels(steps),
      ReadyUnits(data),
      NumAfter(t.num, Adds(steps), Dels(steps)))
  }

  // ---------------------------------------------------------------- the invariant

  /** The triggered job is not also a pending one. */
  ghost predicate Apart(s: UnitState) {
    s.trigger.Some? ==> Ref(s.trigger.value) !in PendingRefs(s.suspends)
  }

  ghost predicate CleanUnit(u: Unit, s: UnitState) {
    UnitInv(u, s) && Apart(s) && s.order && !s.dirty && s.upReady == s.ready
  }

  /** The index holds exactly the jobs of the table, and no identifier twice. */
  ghost predicate IdsExact(data: map<Unit, UnitState>, ids: set<Handle>) {
    && (forall h :: h in ids <==> h.unit in data && h in UnitRefs(data[h.unit]))
    && (forall h, i :: h in ids && i in ids && h.id == i.id ==> h == i)
  }

  ghost predicate NumExact(num: map<Kind, int>, ids: set<Handle>) {
    && (forall k :: IsBasic(k) <==> k in num)
    && (forall k :: k in num ==> num[k] == |OfKind(ids, k)|)
  }

  ghost predicate UnitsClean(t: Table) {
    forall u :: u in t.data ==> CleanUnit(u, t.data[u]) && !IsEmpty(t.data[u])
  }

  ghost predicate RowsMirror(t: Table) {
    forall u :: Mirror(At(t, u), RowAt(t, u))
  }

  ghost predicate QueueExact(t: Table) {
    t.ready == ReadyUnits(t.data)
  }

  ghost predicate TableInv(t: Table) {
    UnitsClean(t) && RowsMirror(t) && QueueExact(t) && IdsExact(t.data, t.ids) && NumExact(t.num, t.ids)
  }

  // ---------------------------------------------------------------- operations

  function ResumeStep(s: UnitState, row: Row): UnitStep
    requires s.order
  {
    UnitStep(Synced(Resume(s)), row, {}, {})
  }

  function ResumeSteps(t: Table, us: set<Unit>): map<Unit, UnitStep> {
    map u | u in us && u in t.data && t.data[u].pause && t.data[u].order :: ResumeStep(t.data[u], RowAt(t, u))
  }

  /** Resume those of the units that are paused. */
  function ResumeAll(t: Table, us: set<Unit>): Table {
    Apply(t, ResumeSteps(t, us))
  }

  function CommitMerge(s: UnitState, row: Row, o: map<Kind, Job>, iso: bool): (UnitState, Row) {
    if iso then FlushSuspends(s, row) else MergeSuspends(s, row, o)
  }

  /** The pending jobs that the commit cancels in this unit. */
  function Cancels(s: UnitState, o: map<Kind, Job>, iso: bool): map<Kind, Job> {
    if iso || ConflictWith(s.suspends, o) then s.suspends else map[]
  }

  /** The pending jobs that stay. */
  function Kept(s: UnitState, o: map<Kind, Job>, iso: bool): map<Kind, Job> {
    s.suspends - Cancels(s, o, iso).Keys
  }

  function CommitStep(s: UnitState, row: Row, o: map<Kind, Job>, iso: bool, active: bool): UnitStep
    requires iso ==> o == map[]
    requires !Conflict(CommitMerge(s, row, o, iso).0.suspends)
  {
    var (s2, row2) := CommitMerge(s, row, o, iso);
    var (s3, row3) := if s2.dirty then Reshuffle(s2, row2, active) else (s2, row2);
    UnitStep(if s2.dirty then Synced(s3) else s2, row3,
             PendingRefs(o - Kept(s, o, iso).Keys),
             PendingRefs(Cancels(s, o, iso)) + PendingRefs(s2.suspends - s3.suspends.Keys))
  }

  function Kinds(k1: Kind, k2: Option<Kind>): set<Kind> {
    if k2.Some? then {k1, k2.value} else {k1}
  }

  /** Removing the pending jobs of the given kinds and ordering the rest. What ordering merges away
      is not reported. */
  function RemoveStep(s: UnitState, row: Row, ks: set<Kind>, active: bool): UnitStep
    requires !Conflict(RemoveKinds(s, row, ks).0.suspends)
  {
    var (s2, row2) := RemoveKinds(s, row, ks);
    var (s3, row3) := Reshuffle(s2, row2, active);
    UnitStep(Synced(s3), row3, {}, PendingRefs(s.suspends - s2.suspends.Keys))
  }

  function TriggerStep(s: UnitState, row: Row, answer: Answer): UnitStep
    requires CalcReady(s).Some? && HasNext(s) && TriggerStages(s)
  {
    var (s', row') := DoTrigger(s, row, answer);
    UnitStep(Synced(s'), row', {}, if Interrupted(s).Some? then {Ref(Interrupted(s).value)} else {})
  }

  function PauseStep(s: UnitState, row: Row): UnitStep
    requires s.order
  {
    UnitStep(Synced(Pause(s)), row, {}, {})
  }

  function FinishStep(s: UnitState, row: Row, result: JobResult): UnitStep
    requires s.trigger.Some? && s.order && s.trigger.value.stage.Running?
  {
    var (s', row', del) := FinishTrigger(s, row, result);
    UnitStep(Synced(s'), row', {}, if del.Some? then {Ref(del.value)} else {})
  }

  // ---------------------------------------------------------------- operations on the table

  function StageRefs(stage: map<Unit, map<Kind, Job>>): set<Handle> {
    set u, k | u in stage && k in stage[u] :: Ref(stage[u][k])
  }

  ghost predicate FreshIds(ids: set<Handle>, adds: set<Handle>) {
    && (forall h, i :: h in adds && i in adds && h.id == i.id ==> h == i)
    && (forall h, i :: h in adds && i in ids ==> h.id != i.id)
  }

  ghost predicate StageOk(t: Table, stage: map<Unit, map<Kind, Job>>) {
    && (forall u :: u in stage ==> StagedOk(u, stage[u]) && stage[u] != map[])
    && FreshIds(t.ids, StageRefs(stage))
  }

  function StagedAt(stage: map<Unit, map<Kind, Job>>, u: Unit): map<Kind, Job> {
    if u in stage then stage[u] else map[]
  }

  /** No unit that is flushed has a pending job that is about to interrupt its triggered one. */
  ghost predicate IsoOk(t: Table, stage: map<Unit, map<Kind, Job>>, iso: set<Unit>) {
    && iso !! stage.Keys
    && forall u :: u in iso ==> u in t.data && !t.data[u].interrupt
  }

  ghost predicate Mergeable(t: Table, stage: map<Unit, map<Kind, Job>>, iso: set<Unit>) {
    && iso !! stage.Keys
    && forall u :: u in iso + stage.Keys ==>
         !Conflict(CommitMerge(At(t, u), RowAt(t, u), StagedAt(stage, u), u in iso).0.suspends)
  }

  function CommitSteps(t: Table, stage: map<Unit, map<Kind, Job>>, iso: set<Unit>, active: set<Unit>): map<Unit, UnitStep>
    requires Mergeable(t, stage, iso)
  {
    map u | u in iso + stage.Keys ::
      CommitStep(At(t, u), RowAt(t, u), StagedAt(stage, u), u in iso, u in active)
  }

  function Flushed(t: Table, stage: map<Unit, map<Kind, Job>>, iso: set<Unit>): set<Unit> {
    set u | u in iso + stage.Keys && Cancels(At(t, u), StagedAt(stage, u), u in iso) != map[]
  }

  function AllNeighbours(g: Graph, us: set<Unit>): set<Unit> {
    set u, v | u in us && v in Neighbours(g, u) :: v
  }

  /** Merge a staged transaction into the table; `iso` are the units whose pending jobs are flushed
      because the mode is flush or isolate. The order neighbours of units that lost a pending job by
      flushing are resumed. */
  function Commit(t: Table, stage: map<Unit, map<Kind, Job>>, iso: set<Unit>, active: set<Unit>, g: Graph): Table
    requires Mergeable(t, stage, iso)
  {
    ResumeAll(Apply(t, CommitSteps(t, stage, iso, active)), AllNeighbours(g, Flushed(t, stage, iso)))
  }

  ghost predicate Removable(s: UnitState, row: Row, ks: set<Kind>) {
    !Conflict(RemoveKinds(s, row, ks).0.suspends)
  }

  /** Remove pending jobs with a result other than done; the order neighbours are resumed if there
      were any. */
  function RemoveSuspends(t: Table, u: Unit, ks: set<Kind>, active: bool, g: Graph): Table
    requires u in t.data ==> Removable(t.data[u], RowAt(t, u), ks)
  {
    if u !in t.data then t else ApplyThenWake(t, u, RemoveStep(t.data[u], RowAt(t, u), ks, active), g)
  }

  function ApplyThenWake(t: Table, u: Unit, st: UnitStep, g: Graph): Table {
    var t1 := Apply(t, map[u := st]);
    if st.dels == {} then t1 else ResumeAll(t1, Neighbours(g, u))
  }

  ghost predicate Finishable(s: UnitState) {
    s.trigger.Some? && s.order && s.trigger.value.stage.Running?
  }

  /** The order neighbours are resumed whether or not the job is deleted. */
  function Finish(t: Table, u: Unit, result: JobResult, g: Graph): Table
    requires u in t.data && Finishable(t.data[u])
  {
    ResumeAll(Apply(t, map[u := FinishStep(t.data[u], RowAt(t, u), result)]), Neighbours(g, u))
  }

  /** Does `next` have to wait for a job of unit v that stands in relation `atom`? */
  predicate BlockedBy(next: Job, s: UnitState, atom: Atom) {
    || (exists k :: k in s.suspends && MustWait(next, s.suspends[k], atom))
    || (s.trigger.Some? && MustWait(next, s.trigger.value, atom))
  }

  predicate Runnable(t: Table, g: Graph, u: Unit)
    requires u in t.data && HasNext(t.data[u])
  {
    var next := Next(t.data[u]);
    || next.attr.ignoreOrder
    || next.kind.Nop?
    || (&& (forall v :: v in Earlier(g, u) && v in t.data ==> !BlockedBy(next, t.data[v], After))
        && (forall v :: v in Later(g, u) && v in t.data ==> !BlockedBy(next, t.data[v], Before)))
  }

  ghost predicate Triggerable(s: UnitState) {
    CalcReady(s).Some? && HasNext(s) && TriggerStages(s) && s.order
  }

  /** Trigger a unit taken from the ready queue, or pause it when ordering does not allow its next job. */
  function TryTrigger(t: Table, u: Unit, answer: Answer, g: Graph): Table
    requires u in t.data && Triggerable(t.data[u])
  {
    if Runnable(t, g, u) then
      Apply(t, map[u := TriggerStep(t.data[u], RowAt(t, u), answer)])
    else
      Apply(t, map[u := PauseStep(t.data[u], RowAt(t, u))])
  }
}
