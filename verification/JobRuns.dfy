/** Whole runs of the job engine: any sequence of transactions, triggers, finishes, removals and
    resumptions keeps the table in agreement and never loses a wake-up. */
module JobRuns {
  import opened Jobs
  import opened JobUnits
  import opened JobUnitLaws
  import opened JobTables
  import opened JobTableLaws
  import opened JobStepLaws

  /** `waiting` is a history: the units that were paused because of ordering and not resumed since. */
  datatype Sched = Sched(t: Table, waiting: set<Unit>)

  datatype Event =
    | Transact(stage: map<Unit, map<Kind, Job>>, iso: set<Unit>, active: set<Unit>)
    | Pop(unit: Unit, answer: Answer)
    | End(unit: Unit, result: JobResult)
    | Drop(unit: Unit, kinds: set<Kind>, isActive: bool)
    | Notify(unit: Unit)

  const EMPTY_TABLE := Table(map[], map[], {}, {}, map[Start := 0, Stop := 0, Reload := 0, Restart := 0, Verify := 0, Nop := 0])
  const INIT := Sched(EMPTY_TABLE, {})

  ghost predicate Enabled(sc: Sched, e: Event) {
    match e
    case Transact(stage, iso, active) => StageOk(sc.t, stage) && IsoOk(sc.t, stage, iso)
    case Pop(u, answer) => u in sc.t.ready
    case End(u, result) => u in sc.t.data && sc.t.data[u].trigger.Some?
    case Drop(u, ks, active) => u in sc.t.data ==> KeepsInterrupter(sc.t.data[u], ks)
    case Notify(u) => true
  }

  lemma Ready(sc: Sched, e: Event)
    requires TableInv(sc.t) && Enabled(sc, e)
    ensures e.Transact? ==> Mergeable(sc.t, e.stage, e.iso)
    ensures e.Pop? ==> e.unit in sc.t.data && Triggerable(sc.t.data[e.unit])
    ensures e.End? ==> Finishable(sc.t.data[e.unit])
    ensures e.Drop? && e.unit in sc.t.data ==> Removable(sc.t.data[e.unit], RowAt(sc.t, e.unit), e.kinds)
  {
    match e
    case Transact(stage, iso, active) => CommitMergeable(sc.t, stage, iso);
    case Pop(u, answer) => TriggerStepAt(sc.t, u, answer);
    case End(u, result) => FinishKeepsTable(sc.t, u, result, Graph({}));
    case Drop(u, ks, active) => if u in sc.t.data { RemoveCanOrder(sc.t, u, ks); }
    case Notify(u) =>
  }

  ghost function NextTable(sc: Sched, e: Event, g: Graph): Table
    requires TableInv(sc.t) && Enabled(sc, e)
  {
    Ready(sc, e);
    match e
    case Transact(stage, iso, active) => Commit(sc.t, stage, iso, active, g)
    case Pop(u, answer) => TryTrigger(sc.t, u, answer, g)
    case End(u, result) => Finish(sc.t, u, result, g)
    case Drop(u, ks, active) => RemoveSuspends(sc.t, u, ks, active, g)
    case Notify(u) => ResumeAll(sc.t, {u})
  }

  function Carry(waiting: set<Unit>, t: Table): set<Unit> {
    set u | u in waiting && u in t.data && t.data[u].pause
  }

  predicate Held(sc: Sched, e: Event, g: Graph) {
    e.Pop? && e.unit in sc.t.data && HasNext(sc.t.data[e.unit]) && !Runnable(sc.t, g, e.unit)
  }

  ghost function Step(sc: Sched, e: Event, g: Graph): Sched
    requires TableInv(sc.t) && Enabled(sc, e)
  {
    var t' := NextTable(sc, e, g);
    Sched(t', if Held(sc, e, g) then Carry(sc.waiting, t') + {e.unit} else Carry(sc.waiting, t'))
  }

  // ---------------------------------------------------------------- no lost wake-up

  /** A unit that waits because of ordering has an order neighbour that still holds a job. */
  ghost predicate WakeOk(g: Graph, waiting: set<Unit>, t: Table) {
    forall u :: u in waiting ==> u in t.data && t.data[u].pause && HasNeighbour(g, t, u)
  }

  ghost predicate HasNeighbour(g: Graph, t: Table, u: Unit) {
    exists v :: v in Neighbours(g, u) && v in t.data
  }

  /** Every unit that left the table has woken its order neighbours. */
  ghost predicate LeaversWake(g: Graph, t: Table, t': Table) {
    forall v, w :: v in t.data && v !in t'.data && w in Neighbours(g, v) && w in t'.data ==> !t'.data[w].pause
  }

  lemma NeighboursSymmetric(g: Graph, u: Unit, v: Unit)
    ensures v in Neighbours(g, u) <==> u in Neighbours(g, v)
  {
    assert v in Later(g, u) <==> (u, v) in g.before;
    assert u in Later(g, v) <==> (v, u) in g.before;
    assert v in Earlier(g, u) <==> (v, u) in g.before;
    assert u in Earlier(g, v) <==> (u, v) in g.before;
  }

  lemma WakeKept(g: Graph, waiting: set<Unit>, t: Table, t': Table)
    requires WakeOk(g, waiting, t) && LeaversWake(g, t, t')
    ensures WakeOk(g, Carry(waiting, t'), t')
  {
    forall u | u in Carry(waiting, t')
      ensures HasNeighbour(g, t', u)
    {
      assert HasNeighbour(g, t, u);
      var v :| v in Neighbours(g, u) && v in t.data;
      NeighboursSymmetric(g, u, v);
      assert v in t'.data;
    }
  }

  function Resumed(s: UnitState, named: bool): UnitState
    requires s.order
  {
    if named && s.pause then Synced(Resume(s)) else s
  }

  lemma ResumeOneFrame(t: Table, us: set<Unit>, t': Table, u: Unit)
    requires TableInv(t) && t' == ResumeAll(t, us)
    ensures u in t'.data <==> u in t.data
    ensures u in t.data ==> t.data[u].order && t'.data[u] == Resumed(t.data[u], u in us)
  {
    CleanAt(t, u);
    var steps := ResumeSteps(t, us);
    assert u in steps ==> !IsEmpty(steps[u].s);
  }

  /** Resuming drops nobody and clears the pause of exactly the units named. */
  lemma ResumeAllFrame(t: Table, us: set<Unit>, t': Table)
    requires TableInv(t) && t' == ResumeAll(t, us)
    ensures forall u :: u in t'.data <==> u in t.data
    ensures forall u :: u in t.data ==> t.data[u].order && t'.data[u] == Resumed(t.data[u], u in us)
  {
    forall u
      ensures u in t'.data <==> u in t.data
      ensures u in t.data ==> t.data[u].order && t'.data[u] == Resumed(t.data[u], u in us)
    {
      ResumeOneFrame(t, us, t', u);
    }
  }

  lemma SingleFrame(t: Table, u: Unit, st: UnitStep, t': Table)
    requires t' == Apply(t, map[u := st])
    ensures forall v :: v != u ==> (v in t'.data <==> v in t.data) && (v in t.data ==> t'.data[v] == t.data[v])
    ensures u in t'.data <==> !IsEmpty(st.s)
    ensures u in t'.data ==> t'.data[u] == st.s
  {
  }

  lemma ResumingWakes(g: Graph, t: Table, t1: Table, us: set<Unit>, t': Table)
    requires TableInv(t1) && t' == ResumeAll(t1, us)
    requires forall v, w :: v in t.data && v !in t1.data && w in Neighbours(g, v) ==> w in us
    ensures LeaversWake(g, t, t')
  {
    ResumeAllFrame(t1, us, t');
  }

  lemma FinishWakes(g: Graph, t: Table, u: Unit, result: JobResult, t': Table)
    requires TableInv(t) && u in t.data && Finishable(t.data[u]) && t' == Finish(t, u, result, g)
    ensures LeaversWake(g, t, t')
  {
    CleanAt(t, u);
    FinishStepSound(u, t.data[u], RowAt(t, u), result);
    var st := FinishStep(t.data[u], RowAt(t, u), result);
    var t1 := Apply(t, map[u := st]);
    SingleKeeps(t, u, st, t1);
    SingleFrame(t, u, st, t1);
    ResumingWakes(g, t, t1, Neighbours(g, u), t');
  }

  lemma SameRefsNotEmpty(u: Unit, s: UnitState, st: UnitStep)
    requires CleanUnit(u, s) && Sound(u, s, st) && st.adds == {} && st.dels == {} && !IsEmpty(s)
    ensures !IsEmpty(st.s)
  {
    RefsOfUnit(u, s);
    RefsOfUnit(u, st.s);
  }

  lemma RemoveWakes(g: Graph, t: Table, u: Unit, ks: set<Kind>, active: bool)
    requires TableInv(t) && u in t.data && KeepsInterrupter(t.data[u], ks) && Removable(t.data[u], RowAt(t, u), ks)
    ensures LeaversWake(g, t, RemoveSuspends(t, u, ks, active, g))
  {
    var st := RemoveStep(t.data[u], RowAt(t, u), ks, active);
    RemoveStepAt(t, u, ks, active, st);
    SingleWakes(g, t, u, st, Apply(t, map[u := st]), ApplyThenWake(t, u, st, g));
  }

  lemma SingleWakes(g: Graph, t: Table, u: Unit, st: UnitStep, t1: Table, t': Table)
    requires TableInv(t) && u in t.data && StepOk(t, u, st) && st.adds == {} && t1 == Apply(t, map[u := st])
    requires t' == if st.dels == {} then t1 else ResumeAll(t1, Neighbours(g, u))
    ensures LeaversWake(g, t, t')
  {
    SingleFrame(t, u, st, t1);
    if st.dels == {} {
      CleanAt(t, u);
      SameRefsNotEmpty(u, t.data[u], st);
    } else {
      SingleKeeps(t, u, st, t1);
      ResumingWakes(g, t, t1, Neighbours(g, u), t');
    }
  }

  lemma PoppedStays(g: Graph, t: Table, u: Unit, answer: Answer, t': Table)
    requires TableInv(t) && u in t.ready && u in t.data && Triggerable(t.data[u]) && t' == TryTrigger(t, u, answer, g)
    ensures forall v :: v in t'.data <==> v in t.data
    ensures !Runnable(t, g, u) ==> t'.data[u].pause
  {
    CleanAt(t, u);
    if Runnable(t, g, u) {
      DoTriggerKeeps(u, t.data[u], RowAt(t, u), answer);
      SingleFrame(t, u, TriggerStep(t.data[u], RowAt(t, u), answer), t');
    } else {
      SingleFrame(t, u, PauseStep(t.data[u], RowAt(t, u)), t');
    }
  }

  lemma LeaverWasFlushed(t: Table, stage: map<Unit, map<Kind, Job>>, iso: set<Unit>, active: set<Unit>, t1: Table, v: Unit)
    requires TableInv(t) && StageOk(t, stage) && IsoOk(t, stage, iso) && Mergeable(t, stage, iso)
    requires t1 == Apply(t, CommitSteps(t, stage, iso, active)) && v in t.data && v !in t1.data
    ensures v in Flushed(t, stage, iso)
  {
    var steps := CommitSteps(t, stage, iso, active);
    assert v in steps && IsEmpty(steps[v].s);
    EmptiedWasFlushed(t, stage, iso, active, v);
  }

  lemma CommitApplied(t: Table, stage: map<Unit, map<Kind, Job>>, iso: set<Unit>, active: set<Unit>, t1: Table)
    requires TableInv(t) && StageOk(t, stage) && IsoOk(t, stage, iso) && Mergeable(t, stage, iso)
    requires t1 == Apply(t, CommitSteps(t, stage, iso, active))
    ensures TableInv(t1)
  {
    var steps := CommitSteps(t, stage, iso, active);
    CommitStepsOk(t, stage, iso, active, steps);
    ApplyKeeps(t, steps, t1);
  }

  lemma LeaversNeighbours(g: Graph, t: Table, stage: map<Unit, map<Kind, Job>>, iso: set<Unit>, active: set<Unit>, t1: Table)
    requires TableInv(t) && StageOk(t, stage) && IsoOk(t, stage, iso) && Mergeable(t, stage, iso)
    requires t1 == Apply(t, CommitSteps(t, stage, iso, active))
    ensures forall v, w :: v in t.data && v !in t1.data && w in Neighbours(g, v) ==> w in AllNeighbours(g, Flushed(t, stage, iso))
  {
    forall v | v in t.data && v !in t1.data
      ensures v in Flushed(t, stage, iso)
    {
      LeaverWasFlushed(t, stage, iso, active, t1, v);
    }
    NeighboursOfAll(g, t.data.Keys - t1.data.Keys, Flushed(t, stage, iso));
  }

  lemma NeighboursOfAll(g: Graph, vs: set<Unit>, us: set<Unit>)
    requires vs <= us
    ensures forall v, w :: v in vs && w in Neighbours(g, v) ==> w in AllNeighbours(g, us)
  {
  }

  lemma CommitWakes(g: Graph, t: Table, stage: map<Unit, map<Kind, Job>>, iso: set<Unit>, active: set<Unit>, t': Table)
    requires TableInv(t) && StageOk(t, stage) && IsoOk(t, stage, iso) && Mergeable(t, stage, iso)
    requires t' == Commit(t, stage, iso, active, g)
    ensures LeaversWake(g, t, t')
  {
    var t1 := Apply(t, CommitSteps(t, stage, iso, active));
    CommitApplied(t, stage, iso, active, t1);
    LeaversNeighbours(g, t, stage, iso, active, t1);
    ResumingWakes(g, t, t1, AllNeighbours(g, Flushed(t, stage, iso)), t');
  }

  lemma EmptiedWasFlushed(t: Table, stage: map<Unit, map<Kind, Job>>, iso: set<Unit>, active: set<Unit>, u: Unit)
    requires TableInv(t) && StageOk(t, stage) && IsoOk(t, stage, iso) && u in iso + stage.Keys && u in t.data
    requires Mergeable(t, stage, iso)
    requires IsEmpty(CommitStep(At(t, u), RowAt(t, u), StagedAt(stage, u), u in iso, u in active).s)
    ensures u in Flushed(t, stage, iso)
  {
    var s, row, o := At(t, u), RowAt(t, u), StagedAt(stage, u);
    var st := CommitStep(s, row, o, u in iso, u in active);
    if Cancels(s, o, u in iso) == map[] {
      var (s2, row2) := CommitMerge(s, row, o, u in iso);
      MergeFrame(s, row, o, u in iso, s2);
      assert s2.trigger == s.trigger;
      assert s.suspends != map[];
      var k :| k in s.suspends;
      assert k in s2.suspends;
      MergedLeavesOneMut(s2.suspends, u in active, s2.suspends - MergedKinds(s2.suspends, u in active));
      assert false;
    }
  }

  // ---------------------------------------------------------------- every run

  lemma OnlyPopped(sc: Sched, e: Event, g: Graph, t': Table, u: Unit)
    requires TableInv(sc.t) && Enabled(sc, e) && e.Pop? && e.unit != u && t' == NextTable(sc, e, g)
    ensures (u in t'.data <==> u in sc.t.data) && (u in sc.t.data ==> t'.data[u] == sc.t.data[u])
  {
    Ready(sc, e);
    var t, w := sc.t, e.unit;
    if Runnable(t, g, w) {
      SingleFrame(t, w, TriggerStep(t.data[w], RowAt(t, w), e.answer), t');
    } else {
      SingleFrame(t, w, PauseStep(t.data[w], RowAt(t, w)), t');
    }
  }

  ghost predicate RunInv(sc: Sched, g: Graph) {
    TableInv(sc.t) && WakeOk(g, sc.waiting, sc.t)
  }

  lemma NextTableKeeps(sc: Sched, e: Event, g: Graph, t': Table)
    requires TableInv(sc.t) && Enabled(sc, e) && t' == NextTable(sc, e, g)
    ensures TableInv(t')
  {
    match e
    case Transact(stage, iso, active) => CommitKeepsTable(sc.t, stage, iso, active, g);
    case Pop(u, answer) => TryTriggerKeepsTable(sc.t, u, answer, g);
    case End(u, result) => FinishKeepsTable(sc.t, u, result, g);
    case Drop(u, ks, active) => RemoveKeepsTable(sc.t, u, ks, active, g);
    case Notify(u) => ResumeAllKeeps(sc.t, {u});
  }

  lemma NextTableWakes(sc: Sched, e: Event, g: Graph, t': Table)
    requires TableInv(sc.t) && Enabled(sc, e) && t' == NextTable(sc, e, g)
    ensures LeaversWake(g, sc.t, t')
  {
    Ready(sc, e);
    match e
    case Transact(stage, iso, active) => CommitWakes(g, sc.t, stage, iso, active, t');
    case Pop(u, answer) => PoppedStays(g, sc.t, u, answer, t');
    case End(u, result) => FinishWakes(g, sc.t, u, result, t');
    case Drop(u, ks, active) =>
      if u in sc.t.data {
        RemoveWakes(g, sc.t, u, ks, active);
      }
    case Notify(u) => ResumeAllFrame(sc.t, {u}, t');
  }

  lemma BlockedHasNeighbour(t: Table, g: Graph, u: Unit)
    requires u in t.data && HasNext(t.data[u]) && !Runnable(t, g, u)
    ensures HasNeighbour(g, t, u)
  {
  }

  lemma WakeAdd(g: Graph, waiting: set<Unit>, t: Table, u: Unit)
    requires WakeOk(g, waiting, t) && u in t.data && t.data[u].pause && HasNeighbour(g, t, u)
    ensures WakeOk(g, waiting + {u}, t)
  {
  }

  lemma HeldWaits(sc: Sched, e: Event, g: Graph, t': Table)
    requires TableInv(sc.t) && Enabled(sc, e) && t' == NextTable(sc, e, g) && Held(sc, e, g)
    ensures e.unit in t'.data && t'.data[e.unit].pause && HasNeighbour(g, t', e.unit)
  {
    Ready(sc, e);
    PoppedStays(g, sc.t, e.unit, e.answer, t');
    BlockedHasNeighbour(sc.t, g, e.unit);
    var v :| v in Neighbours(g, e.unit) && v in sc.t.data;
    assert v in t'.data;
  }

  lemma StepKeeps(sc: Sched, e: Event, g: Graph, sc': Sched)
    requires RunInv(sc, g) && Enabled(sc, e) && sc' == Step(sc, e, g)
    ensures RunInv(sc', g)
  {
    var t' := NextTable(sc, e, g);
    NextTableKeeps(sc, e, g, t');
    NextTableWakes(sc, e, g, t');
    WakeKept(g, sc.waiting, sc.t, t');
    if Held(sc, e, g) {
      HeldWaits(sc, e, g, t');
      WakeAdd(g, Carry(sc.waiting, t'), t', e.unit);
    } else {
      assert sc'.waiting == Carry(sc.waiting, t');
    }
  }

  lemma InitOk(g: Graph)
    ensures RunInv(INIT, g)
  {
    var t := INIT.t;
    assert forall u :: At(t, u) == NEW_UNIT && RowAt(t, u) == EMPTY_ROW;
    assert forall k :: OfKind({}, k) == {};
  }

  ghost predicate EnabledAll(sc: Sched, es: seq<Event>, g: Graph)
    requires RunInv(sc, g)
    decreases |es|
  {
    es != [] ==>
      && Enabled(sc, es[0])
      && (StepKeeps(sc, es[0], g, Step(sc, es[0], g)); EnabledAll(Step(sc, es[0], g), es[1..], g))
  }

  /** The state after a run of events. */
  ghost function Run(sc: Sched, es: seq<Event>, g: Graph): (sc': Sched)
    requires RunInv(sc, g) && EnabledAll(sc, es, g)
    ensures RunInv(sc', g)
    decreases |es|
  {
    if es == [] then sc
    else
      StepKeeps(sc, es[0], g, Step(sc, es[0], g));
      Run(Step(sc, es[0], g), es[1..], g)
  }

  lemma RunFirst(sc: Sched, e: Event, es: seq<Event>, g: Graph, next: Sched, all: seq<Event>)
    requires RunInv(sc, g) && Enabled(sc, e) && next == Step(sc, e, g) && RunInv(next, g) && EnabledAll(next, es, g)
    requires all == [e] + es
    ensures EnabledAll(sc, all, g) && Run(sc, all, g) == Run(next, es, g)
  {
    assert all[0] == e && all[1..] == es;
  }

  /** After any run from the empty table: the persisted rows mirror the jobs in memory, the index and
      the counters are those of exactly these jobs, and whoever waits for ordering will be woken. */
  lemma EveryRunAgrees(es: seq<Event>, g: Graph)
    requires RunInv(INIT, g) && EnabledAll(INIT, es, g)
    ensures var sc := Run(INIT, es, g);
            && (forall u :: Mirror(At(sc.t, u), RowAt(sc.t, u)))
            && (forall h :: h in sc.t.ids <==> h.unit in sc.t.data && h in UnitRefs(sc.t.data[h.unit]))
            && (forall k :: k in sc.t.num ==> sc.t.num[k] == |OfKind(sc.t.ids, k)|)
            && (forall u :: u in sc.t.data ==> (u in sc.t.ready <==> CalcReady(sc.t.data[u]).Some?))
            && (forall u :: u in sc.waiting ==> HasNeighbour(g, sc.t, u))
  {
  }
}
