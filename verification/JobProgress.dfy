/** When nothing runs and nothing is ready, nothing is left to do: ordering holds a unit back only as
    long as there is a reason for it. */
module JobProgress {
  import opened Jobs
  import opened JobUnits
  import opened JobUnitLaws
  import opened JobTables
  import opened JobTableLaws
  import opened JobStepLaws
  import opened JobOrder
  import opened JobRuns

  /** Whoever waits has a reason now, not only when it was paused. */
  ghost predicate ReasonsHold(sc: Sched, g: Graph) {
    forall w :: w in sc.waiting ==> Waits(sc.t, g, w)
  }

  /** A unit is paused only for ordering or until it is notified to run its triggered job again. */
  ghost predicate PausesExplained(t: Table, waiting: set<Unit>) {
    forall u :: u in t.data && t.data[u].pause ==> u in waiting || Again(t.data[u])
  }

  predicate Again(s: UnitState) {
    s.trigger.Some? && s.retrigger
  }

  ghost predicate ProgInv(sc: Sched, g: Graph) {
    RunInv(sc, g) && ReasonsHold(sc, g) && PausesExplained(sc.t, sc.waiting)
  }

  /** A restart whose stop is done goes on with its start. */
  predicate Retries(j: Job, result: JobResult) {
    result.Done? && j.kind.Restart? && j.runKind.Stop?
  }

  /** Will the unit hold a job that stops it, once the staged jobs are merged into it? */
  predicate StopAfter(s: UnitState, o: map<Kind, Job>, iso: bool) {
    || (s.trigger.Some? && s.trigger.value.runKind.Stop?)
    || (exists k :: k in Kept(s, o, iso) && StopLike(k))
    || (exists k :: k in o && StopLike(k))
  }

  ghost predicate StopLater(t: Table, e: Event, g: Graph, w: Unit)
    requires e.Transact?
  {
    exists v :: v in Later(g, w) && StopAfter(At(t, v), StagedAt(e.stage, v), v in e.iso)
  }

  /** The transaction gives a stop to a unit that had none, and does not resume it. */
  predicate StopsSilently(t: Table, e: Event, g: Graph, w: Unit)
    requires e.Transact?
  {
    && !HoldsStop(At(t, w))
    && StopAfter(At(t, w), StagedAt(e.stage, w), w in e.iso)
    && w !in AllNeighbours(g, Flushed(t, e.stage, e.iso))
  }

  /** What the claim excludes: a transaction that gives a stop to a unit which waits for earlier
      units, when that stop has nothing to wait for; and ending the triggered job of a unit that is
      paused to run it again while others are pending. */
  ghost predicate Careful(sc: Sched, e: Event, g: Graph) {
    match e
    case Transact(stage, iso, active) =>
      forall w :: w in sc.waiting && StopsSilently(sc.t, e, g, w) ==> StopLater(sc.t, e, g, w)
    case End(u, result) =>
      u in sc.t.data && sc.t.data[u].trigger.Some? && sc.t.data[u].pause && u !in sc.waiting ==>
        sc.t.data[u].suspends == map[] || Retries(sc.t.data[u].trigger.value, result)
    case _ => true
  }

  // ---------------------------------------------------------------- reasons persist

  predicate KeepsBlocking(s: UnitState, s': UnitState) {
    (HoldsStop(s) ==> HoldsStop(s')) && (Busy(s) ==> Busy(s'))
  }

  /** A unit that loses a job another one may wait for has woken its order neighbours. */
  ghost predicate Calm(g: Graph, t: Table, t': Table) {
    forall v, w :: v in t.data && w in Neighbours(g, v) && w in t'.data && t'.data[w].pause ==>
      v in t'.data && KeepsBlocking(t.data[v], t'.data[v])
  }

  ghost predicate NoNewStop(waiting: set<Unit>, t: Table, t': Table) {
    forall w :: w in waiting && w in t.data && w in t'.data && HoldsStop(t'.data[w]) ==> HoldsStop(t.data[w])
  }

  lemma WaitsKept(g: Graph, t: Table, t': Table, w: Unit)
    requires Waits(t, g, w) && Calm(g, t, t') && w in t.data && w in t'.data && t'.data[w].pause
    requires HoldsStop(t'.data[w]) ==> HoldsStop(t.data[w])
    ensures Waits(t', g, w)
  {
    if StopAhead(t, g, w) {
      var v :| v in StoppingUnits(t) && v in Later(g, w);
      NeighboursSymmetric(g, v, w);
      assert v in StoppingUnits(t');
    } else {
      var v :| v in BusyUnits(t) && v in Earlier(g, w);
      NeighboursSymmetric(g, v, w);
      assert v in BusyUnits(t');
    }
  }

  lemma ReasonsKept(g: Graph, sc: Sched, t': Table)
    requires RunInv(sc, g) && ReasonsHold(sc, g) && Calm(g, sc.t, t') && NoNewStop(sc.waiting, sc.t, t')
    ensures forall w :: w in Carry(sc.waiting, t') ==> Waits(t', g, w)
  {
    forall w | w in Carry(sc.waiting, t')
      ensures Waits(t', g, w)
    {
      WaitsKept(g, sc.t, t', w);
    }
  }

  // ---------------------------------------------------------------- operations on one unit

  lemma ResumedSame(s: UnitState, named: bool)
    requires s.order
    ensures var s' := Resumed(s, named);
            s'.suspends == s.suspends && s'.trigger == s.trigger && s'.retrigger == s.retrigger
            && s'.pause == (s.pause && !named)
    ensures HoldsStop(Resumed(s, named)) == HoldsStop(s) && Busy(Resumed(s, named)) == Busy(s)
  {
  }

  /** One unit changes, and the units in `us` are resumed. */
  ghost predicate OneChanges(t: Table, u: Unit, s': UnitState, us: set<Unit>, t': Table) {
    && (forall v :: v != u ==> (v in t'.data <==> v in t.data))
    && (forall v :: v != u && v in t.data ==> t.data[v].order && t'.data[v] == Resumed(t.data[v], v in us))
    && (u in t'.data <==> !IsEmpty(s'))
    && (u in t'.data ==> s'.order && t'.data[u] == Resumed(s', u in us))
  }

  lemma OneChangesIs(t: Table, u: Unit, st: UnitStep, us: set<Unit>, t1: Table, t': Table)
    requires TableInv(t) && StepOk(t, u, st) && st.adds == {}
    requires t1 == Apply(t, map[u := st]) && t' == ResumeAll(t1, us)
    ensures OneChanges(t, u, st.s, us, t')
  {
    SingleKeeps(t, u, st, t1);
    SingleFrame(t, u, st, t1);
    ResumeAllFrame(t1, us, t');
  }

  lemma AllOrdered(t: Table)
    requires TableInv(t)
    ensures forall v :: v in t.data ==> t.data[v].order
  {
  }

  lemma OneChangesAlone(t: Table, u: Unit, st: UnitStep, t': Table)
    requires (forall v :: v in t.data ==> t.data[v].order) && st.s.order && t' == Apply(t, map[u := st])
    ensures OneChanges(t, u, st.s, {}, t')
  {
    SingleFrame(t, u, st, t');
  }

  lemma OneChangesCalm(g: Graph, t: Table, u: Unit, s': UnitState, us: set<Unit>, t': Table)
    requires OneChanges(t, u, s', us, t') && u in t.data
    requires Neighbours(g, u) <= us || (!IsEmpty(s') && KeepsBlocking(t.data[u], s'))
    ensures Calm(g, t, t')
  {
    forall v, w | v in t.data && w in Neighbours(g, v) && w in t'.data && t'.data[w].pause
      ensures v in t'.data && KeepsBlocking(t.data[v], t'.data[v])
    {
      if v != u {
        ResumedSame(t.data[v], v in us);
      } else {
        var x := if w == u then s' else t.data[w];
        ResumedSame(x, w in us);
        ResumedSame(s', u in us);
      }
    }
  }

  lemma OneChangesNoNewStop(t: Table, u: Unit, s': UnitState, us: set<Unit>, t': Table, waiting: set<Unit>)
    requires OneChanges(t, u, s', us, t')
    requires u in waiting && u in t.data && HoldsStop(s') ==> HoldsStop(t.data[u])
    ensures NoNewStop(waiting, t, t')
  {
    forall w | w in waiting && w in t.data && w in t'.data && HoldsStop(t'.data[w])
      ensures HoldsStop(t.data[w])
    {
      ResumedSame(if w == u then s' else t.data[w], w in us);
    }
  }

  lemma OneChangesPauses(t: Table, u: Unit, s': UnitState, us: set<Unit>, t': Table, waiting: set<Unit>, waiting': set<Unit>)
    requires OneChanges(t, u, s', us, t') && PausesExplained(t, waiting)
    requires Carry(waiting, t') <= waiting'
    requires u in t'.data && s'.pause ==> u in waiting' || Again(s') || (u in t.data && t.data[u].pause && u in waiting)
    ensures PausesExplained(t', waiting')
  {
    forall v | v in t'.data && t'.data[v].pause
      ensures v in waiting' || Again(t'.data[v])
    {
      ResumedSame(if v == u then s' else t.data[v], v in us);
    }
  }

  // ---------------------------------------------------------------- what each operation does to blocking

  lemma TriggerKeepsBlocking(u: Unit, s: UnitState, row: Row, answer: Answer, s': UnitState)
    requires CleanUnit(u, s) && Mirror(s, row) && Triggerable(s) && s' == TriggerStep(s, row, answer).s
    ensures KeepsBlocking(s, s') && !IsEmpty(s') && (s'.pause ==> Again(s'))
  {
    var s1, d := DoNextTrigger(s), DoTrigger(s, row, answer).0;
    DoNextTriggerKeeps(u, s, s1);
    DoTriggerFrame(u, s, row, answer, s1, d);
    StopIsNext(u, s);
  }

  lemma FewerJobsNoNewStop(u: Unit, s: UnitState, s': UnitState)
    requires JobsOk(u, s) && s'.suspends.Keys <= s.suspends.Keys
    requires s'.trigger.Some? ==> s.trigger.Some? && (s'.trigger.value.runKind.Stop? ==> s.trigger.value.runKind.Stop?)
    ensures HoldsStop(s') ==> HoldsStop(s)
  {
  }

  lemma FinishOutcome(u: Unit, s: UnitState, row: Row, result: JobResult, s': UnitState)
    requires CleanUnit(u, s) && s.trigger.Some? && Finishable(s) && s' == FinishStep(s, row, result).s
    ensures HoldsStop(s') ==> HoldsStop(s)
    ensures s'.pause == s.pause && s'.suspends == s.suspends
    ensures Again(s') <==> Retries(s.trigger.value, result)
    ensures IsEmpty(s') <==> s.suspends == map[] && !Retries(s.trigger.value, result)
  {
    var (a, b, del) := FinishTrigger(s, row, result);
    FinishTriggerFrame(u, s, row, result, a, b, del);
    FewerJobsNoNewStop(u, s, s');
  }

  lemma CommitOutcome(u: Unit, s: UnitState, row: Row, o: map<Kind, Job>, iso: bool, active: bool, s': UnitState)
    requires CleanUnit(u, s) && (iso ==> o == map[]) && !Conflict(CommitMerge(s, row, o, iso).0.suspends)
    requires s' == CommitStep(s, row, o, iso, active).s
    ensures s'.trigger == s.trigger && s'.retrigger == s.retrigger && s'.pause == s.pause
    ensures Cancels(s, o, iso) == map[] ==> KeepsBlocking(s, s')
  {
    var (s2, row2) := CommitMerge(s, row, o, iso);
    MergeFrame(s, row, o, iso, s2);
    if Cancels(s, o, iso) == map[] {
      assert s.suspends.Keys <= s2.suspends.Keys;
      MergedKeepsBlocking(s2.suspends, active, s2.suspends - MergedKinds(s2.suspends, active));
    }
  }

  lemma MergedKeepsBlocking(m: map<Kind, Job>, active: bool, n: map<Kind, Job>)
    requires n == m - MergedKinds(m, active)
    ensures (exists k :: k in m && StopLike(k)) ==> exists k :: k in n && StopLike(k)
    ensures (exists k :: k in m && !k.Nop?) ==> exists k :: k in n && !k.Nop?
  {
    if k :| k in m && StopLike(k) { assert k in n; }
    if k :| k in m && !k.Nop? { assert k in n || Restart in n || Start in n || Reload in n; }
  }

  // ---------------------------------------------------------------- each event

  lemma RunProgress(t: Table, u: Unit, st: UnitStep, g: Graph, t': Table, waiting: set<Unit>, waiting': set<Unit>)
    requires TableInv(t) && u in t.data && !t.data[u].pause && st.s.order && t' == Apply(t, map[u := st])
    requires KeepsBlocking(t.data[u], st.s) && !IsEmpty(st.s) && (st.s.pause ==> Again(st.s) || u in waiting')
    requires u !in waiting && PausesExplained(t, waiting) && Carry(waiting, t') <= waiting'
    ensures Calm(g, t, t') && NoNewStop(waiting, t, t') && PausesExplained(t', waiting')
  {
    AllOrdered(t);
    OneChangesAlone(t, u, st, t');
    OneChangesCalm(g, t, u, st.s, {}, t');
    OneChangesNoNewStop(t, u, st.s, {}, t', waiting);
    OneChangesPauses(t, u, st.s, {}, t', waiting, waiting');
  }

  lemma PopProgress(sc: Sched, e: Event, g: Graph, sc': Sched)
    requires ProgInv(sc, g) && Enabled(sc, e) && e.Pop? && sc' == Step(sc, e, g)
    ensures Calm(g, sc.t, sc'.t) && NoNewStop(sc.waiting, sc.t, sc'.t) && PausesExplained(sc'.t, sc'.waiting)
  {
    var t, u, s, row := sc.t, e.unit, At(sc.t, e.unit), RowAt(sc.t, e.unit);
    Ready(sc, e);
    CleanAt(t, u);
    if Runnable(t, g, u) {
      DoTriggerKeeps(u, s, row, e.answer);
      var st := TriggerStep(s, row, e.answer);
      TriggerKeepsBlocking(u, s, row, e.answer, st.s);
      RunProgress(t, u, st, g, sc'.t, sc.waiting, sc'.waiting);
    } else {
      RunProgress(t, u, PauseStep(s, row), g, sc'.t, sc.waiting, sc'.waiting);
    }
  }

  lemma EndProgress(sc: Sched, e: Event, g: Graph, sc': Sched)
    requires ProgInv(sc, g) && Enabled(sc, e) && e.End? && Careful(sc, e, g) && sc' == Step(sc, e, g)
    ensures Calm(g, sc.t, sc'.t) && NoNewStop(sc.waiting, sc.t, sc'.t) && PausesExplained(sc'.t, sc'.waiting)
  {
    var t, u := sc.t, e.unit;
    CleanAt(t, u);
    FinishStepSound(u, t.data[u], RowAt(t, u), e.result);
    var st := FinishStep(t.data[u], RowAt(t, u), e.result);
    var us := Neighbours(g, u);
    OneChangesIs(t, u, st, us, Apply(t, map[u := st]), sc'.t);
    FinishOutcome(u, t.data[u], RowAt(t, u), e.result, st.s);
    OneChangesCalm(g, t, u, st.s, us, sc'.t);
    OneChangesNoNewStop(t, u, st.s, us, sc'.t, sc.waiting);
    OneChangesPauses(t, u, st.s, us, sc'.t, sc.waiting, sc'.waiting);
  }

  lemma CarelessEnd(sc: Sched, e: Event, g: Graph, sc': Sched, s': UnitState)
    requires Enabled(sc, e) && e.End? && (e.unit, e.unit) !in g.before && !Careful(sc, e, g)
    requires OneChanges(sc.t, e.unit, s', Neighbours(g, e.unit), sc'.t) && sc'.waiting == Carry(sc.waiting, sc'.t)
    requires s'.pause && !IsEmpty(s') && !Again(s')
    ensures !PausesExplained(sc'.t, sc'.waiting)
  {
    assert e.unit in sc'.t.data && sc'.t.data[e.unit] == s';
    assert e.unit !in sc'.waiting;
  }

  lemma EndChanges(t: Table, u: Unit, result: JobResult, g: Graph, t': Table) returns (s': UnitState)
    requires TableInv(t) && u in t.data && t.data[u].trigger.Some? && Finishable(t.data[u]) && t' == Finish(t, u, result, g)
    ensures OneChanges(t, u, s', Neighbours(g, u), t')
    ensures s'.pause == t.data[u].pause
    ensures Again(s') <==> Retries(t.data[u].trigger.value, result)
    ensures IsEmpty(s') <==> t.data[u].suspends == map[] && !Retries(t.data[u].trigger.value, result)
  {
    CleanAt(t, u);
    FinishStepSound(u, t.data[u], RowAt(t, u), result);
    var st := FinishStep(t.data[u], RowAt(t, u), result);
    OneChangesIs(t, u, st, Neighbours(g, u), Apply(t, map[u := st]), t');
    s' := st.s;
    FinishOutcome(u, t.data[u], RowAt(t, u), result, s');
  }

  lemma StepOfEnd(sc: Sched, e: Event, g: Graph, sc': Sched)
    requires TableInv(sc.t) && Enabled(sc, e) && e.End? && sc' == Step(sc, e, g)
    ensures e.unit in sc.t.data && sc.t.data[e.unit].trigger.Some? && Finishable(sc.t.data[e.unit])
    ensures sc'.t == Finish(sc.t, e.unit, e.result, g) && sc'.waiting == Carry(sc.waiting, sc'.t)
  {
    Ready(sc, e);
  }

  lemma CarelessEndExplainsNothing(sc: Sched, e: Event, g: Graph, sc': Sched)
    requires TableInv(sc.t) && Enabled(sc, e) && e.End? && (e.unit, e.unit) !in g.before && sc' == Step(sc, e, g)
    requires !Careful(sc, e, g)
    ensures !PausesExplained(sc'.t, sc'.waiting)
  {
    StepOfEnd(sc, e, g, sc');
    var s' := EndChanges(sc.t, e.unit, e.result, g, sc'.t);
    CarelessEnd(sc, e, g, sc', s');
  }

  /** Ending a job is the only thing that can leave an unexplained pause behind, and does so exactly
      when it is not careful: nobody will resume that unit. */
  lemma EndExact(sc: Sched, e: Event, g: Graph, sc': Sched)
    requires ProgInv(sc, g) && Enabled(sc, e) && e.End? && (e.unit, e.unit) !in g.before && sc' == Step(sc, e, g)
    ensures PausesExplained(sc'.t, sc'.waiting) <==> Careful(sc, e, g)
  {
    if Careful(sc, e, g) {
      EndProgress(sc, e, g, sc');
    } else {
      CarelessEndExplainsNothing(sc, e, g, sc');
    }
  }

  lemma DropProgress(sc: Sched, e: Event, g: Graph, sc': Sched)
    requires ProgInv(sc, g) && Enabled(sc, e) && e.Drop? && e.unit in sc.t.data && sc' == Step(sc, e, g)
    ensures Calm(g, sc.t, sc'.t) && NoNewStop(sc.waiting, sc.t, sc'.t) && PausesExplained(sc'.t, sc'.waiting)
  {
    var t, u, s := sc.t, e.unit, sc.t.data[e.unit];
    Ready(sc, e);
    CleanAt(t, u);
    var st := RemoveStep(s, RowAt(t, u), e.kinds, e.isActive);
    RemoveStepAt(t, u, e.kinds, e.isActive, st);
    var us := if st.dels == {} then {} else Neighbours(g, u);
    if st.dels == {} {
      AllOrdered(t);
      OneChangesAlone(t, u, st, sc'.t);
      SameRefsNotEmpty(u, s, st);
      DropNothing(u, s, st, e.kinds);
    } else {
      OneChangesIs(t, u, st, us, Apply(t, map[u := st]), sc'.t);
    }
    OneChangesCalm(g, t, u, st.s, us, sc'.t);
    FewerJobsNoNewStop(u, s, st.s);
    OneChangesNoNewStop(t, u, st.s, us, sc'.t, sc.waiting);
    OneChangesPauses(t, u, st.s, us, sc'.t, sc.waiting, sc'.waiting);
  }

  lemma DropNothing(u: Unit, s: UnitState, st: UnitStep, ks: set<Kind>)
    requires CleanUnit(u, s) && st.s.suspends == s.suspends - ks && st.s.trigger == s.trigger
    requires Sound(u, s, st) && st.dels == {} && st.adds == {}
    ensures st.s.suspends == s.suspends && KeepsBlocking(s, st.s)
  {
    KeyedPending(u, s);
    RefsMember(s.suspends);
    KeyedPending(u, st.s);
    RefsMember(st.s.suspends);
    forall k | k in s.suspends
      ensures k in st.s.suspends
    {
      var h := Ref(s.suspends[k]);
      assert h in UnitRefs(s) && h in UnitRefs(st.s);
    }
  }

  lemma NotifyProgress(sc: Sched, e: Event, g: Graph, sc': Sched)
    requires ProgInv(sc, g) && Enabled(sc, e) && e.Notify? && sc' == Step(sc, e, g)
    ensures Calm(g, sc.t, sc'.t) && NoNewStop(sc.waiting, sc.t, sc'.t) && PausesExplained(sc'.t, sc'.waiting)
  {
    var t, t' := sc.t, sc'.t;
    ResumeAllFrame(t, {e.unit}, t');
    forall v | v in t.data
      ensures v in t'.data && KeepsBlocking(t.data[v], t'.data[v]) && (HoldsStop(t'.data[v]) ==> HoldsStop(t.data[v]))
      ensures t'.data[v].pause ==> t.data[v].pause && Again(t'.data[v]) == Again(t.data[v])
    {
      ResumedSame(t.data[v], v in {e.unit});
    }
  }

  lemma TransactUnit(t: Table, e: Event, g: Graph, t1: Table, t': Table, us: set<Unit>, v: Unit)
    requires TableInv(t) && e.Transact? && StageOk(t, e.stage) && IsoOk(t, e.stage, e.iso) && Mergeable(t, e.stage, e.iso)
    requires t1 == Apply(t, CommitSteps(t, e.stage, e.iso, e.active)) && t' == ResumeAll(t1, us) && v in t1.data
    ensures v in t'.data
    ensures t'.data[v].pause ==> v in t.data && t.data[v].pause && v !in us
    ensures v in t.data ==> t'.data[v].trigger == t.data[v].trigger && t'.data[v].retrigger == t.data[v].retrigger
    ensures v in t.data && v !in Flushed(t, e.stage, e.iso) ==> KeepsBlocking(t.data[v], t'.data[v])
    ensures v !in e.stage.Keys + e.iso ==> v in t.data && HoldsStop(t'.data[v]) == HoldsStop(t.data[v])
  {
    CommitApplied(t, e.stage, e.iso, e.active, t1);
    ResumeOneFrame(t1, us, t', v);
    ResumedSame(t1.data[v], v in us);
    CleanAt(t, v);
    if v in e.stage.Keys + e.iso {
      CommitOutcome(v, At(t, v), RowAt(t, v), StagedAt(e.stage, v), v in e.iso, v in e.active, t1.data[v]);
    }
  }

  lemma TransactPair(sc: Sched, e: Event, g: Graph, t1: Table, us: set<Unit>, t': Table, v: Unit, w: Unit)
    requires ProgInv(sc, g) && Enabled(sc, e) && e.Transact? && Mergeable(sc.t, e.stage, e.iso)
    requires t1 == Apply(sc.t, CommitSteps(sc.t, e.stage, e.iso, e.active)) && t' == ResumeAll(t1, us)
    requires us == AllNeighbours(g, Flushed(sc.t, e.stage, e.iso)) && LeaversWake(g, sc.t, t')
    requires v in sc.t.data && w in Neighbours(g, v) && w in t'.data && t'.data[w].pause
    ensures v in t'.data && KeepsBlocking(sc.t.data[v], t'.data[v])
  {
    CommitApplied(sc.t, e.stage, e.iso, e.active, t1);
    ResumeOneFrame(t1, us, t', w);
    TransactUnit(sc.t, e, g, t1, t', us, w);
    NotWoken(g, Flushed(sc.t, e.stage, e.iso), v, w);
    assert v in t'.data;
    ResumeOneFrame(t1, us, t', v);
    TransactUnit(sc.t, e, g, t1, t', us, v);
  }

  lemma NotWoken(g: Graph, us: set<Unit>, v: Unit, w: Unit)
    requires w in Neighbours(g, v) && w !in AllNeighbours(g, us)
    ensures v !in us
  {
  }

  lemma TransactCalm(sc: Sched, e: Event, g: Graph, t': Table)
    requires ProgInv(sc, g) && Enabled(sc, e) && e.Transact? && Mergeable(sc.t, e.stage, e.iso)
    requires t' == Commit(sc.t, e.stage, e.iso, e.active, g)
    ensures Calm(g, sc.t, t')
  {
    var t1 := Apply(sc.t, CommitSteps(sc.t, e.stage, e.iso, e.active));
    CommitWakes(g, sc.t, e.stage, e.iso, e.active, t');
    forall v, w | v in sc.t.data && w in Neighbours(g, v) && w in t'.data && t'.data[w].pause
      ensures v in t'.data && KeepsBlocking(sc.t.data[v], t'.data[v])
    {
      TransactPair(sc, e, g, t1, AllNeighbours(g, Flushed(sc.t, e.stage, e.iso)), t', v, w);
    }
  }

  lemma CommitLeaves(s: UnitState, row: Row, o: map<Kind, Job>, iso: bool, active: bool, s2: UnitState, s': UnitState)
    requires (iso ==> o == map[]) && s2 == CommitMerge(s, row, o, iso).0 && !Conflict(s2.suspends)
    requires s' == CommitStep(s, row, o, iso, active).s
    ensures s'.trigger == s.trigger
    ensures s'.suspends.Keys <= s2.suspends.Keys
    ensures s2.suspends.Keys <= s'.suspends.Keys + {Start, Reload}
  {
    MergeFrame(s, row, o, iso, s2);
    assert MergedKinds(s2.suspends, active) <= {Start, Reload};
  }

  lemma StopsStay(s: UnitState, o: map<Kind, Job>, iso: bool, m: map<Kind, Job>, s': UnitState)
    requires m.Keys == Kept(s, o, iso).Keys + o.Keys && s'.trigger == s.trigger
    requires s'.suspends.Keys <= m.Keys <= s'.suspends.Keys + {Start, Reload}
    ensures HoldsStop(s') <==> StopAfter(s, o, iso)
  {
    forall k | StopLike(k)
      ensures k in s'.suspends <==> k in Kept(s, o, iso) || k in o
    {
      assert k in m <==> k in Kept(s, o, iso) || k in o;
    }
  }

  lemma CommitStops(s: UnitState, row: Row, o: map<Kind, Job>, iso: bool, active: bool, s': UnitState)
    requires (iso ==> o == map[]) && !Conflict(CommitMerge(s, row, o, iso).0.suspends)
    requires s' == CommitStep(s, row, o, iso, active).s
    ensures HoldsStop(s') <==> StopAfter(s, o, iso)
  {
    var s2 := CommitMerge(s, row, o, iso).0;
    MergeFrame(s, row, o, iso, s2);
    CommitLeaves(s, row, o, iso, active, s2, s');
    StopsStay(s, o, iso, s2.suspends, s');
  }

  lemma UntouchedStops(u: Unit, s: UnitState)
    requires CleanUnit(u, s)
    ensures HoldsStop(s) <==> StopAfter(s, map[], false)
  {
    assert Kept(s, map[], false) == s.suspends;
  }

  lemma AppliedStops(t: Table, steps: map<Unit, UnitStep>, v: Unit)
    ensures v in StoppingUnits(Apply(t, steps)) <==> if v in steps then HoldsStop(steps[v].s) else v in StoppingUnits(t)
  {
  }

  lemma CommittedAt(t: Table, e: Event, steps: map<Unit, UnitStep>, v: Unit)
    requires TableInv(t) && e.Transact? && Mergeable(t, e.stage, e.iso)
    requires steps == CommitSteps(t, e.stage, e.iso, e.active)
    ensures v in StoppingUnits(Apply(t, steps)) <==> StopAfter(At(t, v), StagedAt(e.stage, v), v in e.iso)
  {
    CleanAt(t, v);
    AppliedStops(t, steps, v);
    if v in steps {
      CommitStops(At(t, v), RowAt(t, v), StagedAt(e.stage, v), v in e.iso, v in e.active, steps[v].s);
    } else {
      UntouchedStops(v, At(t, v));
    }
  }

  lemma StopAfterIs(t: Table, e: Event, t1: Table, us: set<Unit>, t': Table, v: Unit)
    requires TableInv(t) && e.Transact? && StageOk(t, e.stage) && IsoOk(t, e.stage, e.iso) && Mergeable(t, e.stage, e.iso)
    requires t1 == Apply(t, CommitSteps(t, e.stage, e.iso, e.active)) && t' == ResumeAll(t1, us)
    ensures v in StoppingUnits(t') <==> StopAfter(At(t, v), StagedAt(e.stage, v), v in e.iso)
  {
    CommittedAt(t, e, CommitSteps(t, e.stage, e.iso, e.active), v);
    CommitApplied(t, e.stage, e.iso, e.active, t1);
    ResumeOneFrame(t1, us, t', v);
    if v in t1.data { ResumedSame(t1.data[v], v in us); }
  }

  lemma StopLaterIs(t: Table, e: Event, g: Graph, t1: Table, us: set<Unit>, t': Table, w: Unit)
    requires TableInv(t) && e.Transact? && StageOk(t, e.stage) && IsoOk(t, e.stage, e.iso) && Mergeable(t, e.stage, e.iso)
    requires t1 == Apply(t, CommitSteps(t, e.stage, e.iso, e.active)) && t' == ResumeAll(t1, us)
    ensures StopAhead(t', g, w) <==> StopLater(t, e, g, w)
  {
    forall v | v in Later(g, w)
      ensures v in StoppingUnits(t') <==> StopAfter(At(t, v), StagedAt(e.stage, v), v in e.iso)
    {
      StopAfterIs(t, e, t1, us, t', v);
    }
  }

  lemma TransactStays(sc: Sched, e: Event, g: Graph, t1: Table, us: set<Unit>, sc': Sched, w: Unit)
    requires ProgInv(sc, g) && Enabled(sc, e) && e.Transact? && Mergeable(sc.t, e.stage, e.iso) && sc' == Step(sc, e, g)
    requires t1 == Apply(sc.t, CommitSteps(sc.t, e.stage, e.iso, e.active)) && sc'.t == ResumeAll(t1, us)
    requires us == AllNeighbours(g, Flushed(sc.t, e.stage, e.iso))
    requires w in sc.waiting && StopsSilently(sc.t, e, g, w)
    ensures w in sc'.waiting && w in StoppingUnits(sc'.t)
  {
    StopAfterIs(sc.t, e, t1, us, sc'.t, w);
    CommitApplied(sc.t, e.stage, e.iso, e.active, t1);
    ResumeOneFrame(t1, us, sc'.t, w);
    ResumedSame(t1.data[w], w in us);
    CleanAt(sc.t, w);
    if w in e.stage.Keys + e.iso {
      CommitOutcome(w, At(sc.t, w), RowAt(sc.t, w), StagedAt(e.stage, w), w in e.iso, w in e.active, t1.data[w]);
    }
  }

  lemma TransactReason(sc: Sched, e: Event, g: Graph, t1: Table, us: set<Unit>, sc': Sched, w: Unit)
    requires ProgInv(sc, g) && Enabled(sc, e) && e.Transact? && Mergeable(sc.t, e.stage, e.iso) && sc' == Step(sc, e, g)
    requires t1 == Apply(sc.t, CommitSteps(sc.t, e.stage, e.iso, e.active)) && sc'.t == ResumeAll(t1, us)
    requires us == AllNeighbours(g, Flushed(sc.t, e.stage, e.iso)) && Calm(g, sc.t, sc'.t)
    requires w in sc'.waiting && (StopsSilently(sc.t, e, g, w) ==> StopLater(sc.t, e, g, w))
    ensures Waits(sc'.t, g, w)
  {
    StopAfterIs(sc.t, e, t1, us, sc'.t, w);
    CommitApplied(sc.t, e.stage, e.iso, e.active, t1);
    ResumeOneFrame(t1, us, sc'.t, w);
    TransactUnit(sc.t, e, g, t1, sc'.t, us, w);
    if HoldsStop(sc'.t.data[w]) && !HoldsStop(sc.t.data[w]) {
      StopLaterIs(sc.t, e, g, t1, us, sc'.t, w);
    } else {
      WaitsKept(g, sc.t, sc'.t, w);
    }
  }

  lemma TransactPauses(sc: Sched, e: Event, g: Graph, t1: Table, us: set<Unit>, sc': Sched)
    requires ProgInv(sc, g) && Enabled(sc, e) && e.Transact? && Mergeable(sc.t, e.stage, e.iso) && sc' == Step(sc, e, g)
    requires t1 == Apply(sc.t, CommitSteps(sc.t, e.stage, e.iso, e.active)) && sc'.t == ResumeAll(t1, us)
    ensures PausesExplained(sc'.t, sc'.waiting)
  {
    CommitApplied(sc.t, e.stage, e.iso, e.active, t1);
    ResumeAllFrame(t1, us, sc'.t);
    forall v | v in sc'.t.data
      ensures sc'.t.data[v].pause ==> v in sc'.waiting || Again(sc'.t.data[v])
    {
      TransactUnit(sc.t, e, g, t1, sc'.t, us, v);
    }
  }

  /** A transaction keeps every reason to wait exactly when it is careful. */
  lemma TransactExact(sc: Sched, e: Event, g: Graph, sc': Sched)
    requires ProgInv(sc, g) && Enabled(sc, e) && e.Transact? && sc' == Step(sc, e, g)
    ensures PausesExplained(sc'.t, sc'.waiting)
    ensures ReasonsHold(sc', g) <==> Careful(sc, e, g)
  {
    var us := AllNeighbours(g, Flushed(sc.t, e.stage, e.iso));
    Ready(sc, e);
    var t1 := Apply(sc.t, CommitSteps(sc.t, e.stage, e.iso, e.active));
    TransactPauses(sc, e, g, t1, us, sc');
    TransactCalm(sc, e, g, sc'.t);
    if Careful(sc, e, g) {
      forall w | w in sc'.waiting
        ensures Waits(sc'.t, g, w)
      {
        TransactReason(sc, e, g, t1, us, sc', w);
      }
    } else {
      var w :| w in sc.waiting && StopsSilently(sc.t, e, g, w) && !StopLater(sc.t, e, g, w);
      TransactStays(sc, e, g, t1, us, sc', w);
      StopLaterIs(sc.t, e, g, t1, us, sc'.t, w);
      assert !Waits(sc'.t, g, w);
    }
  }

  // ---------------------------------------------------------------- every careful run

  lemma StepProgress(sc: Sched, e: Event, g: Graph, sc': Sched)
    requires ProgInv(sc, g) && Enabled(sc, e) && !e.Transact? && Careful(sc, e, g) && sc' == Step(sc, e, g)
    ensures Calm(g, sc.t, sc'.t) && NoNewStop(sc.waiting, sc.t, sc'.t) && PausesExplained(sc'.t, sc'.waiting)
  {
    match e
    case Pop(_, _) => PopProgress(sc, e, g, sc');
    case End(_, _) => EndProgress(sc, e, g, sc');
    case Drop(_, _, _) => if e.unit in sc.t.data { DropProgress(sc, e, g, sc'); }
    case Notify(_) => NotifyProgress(sc, e, g, sc');
  }

  lemma HeldHasReason(sc: Sched, e: Event, g: Graph, sc': Sched)
    requires ProgInv(sc, g) && Enabled(sc, e) && Held(sc, e, g) && sc' == Step(sc, e, g)
    requires Calm(g, sc.t, sc'.t)
    ensures Waits(sc'.t, g, e.unit)
  {
    var t, u := sc.t, e.unit;
    Ready(sc, e);
    HeldBackWaits(t, g, u);
    SingleFrame(t, u, PauseStep(t.data[u], RowAt(t, u)), sc'.t);
    WaitsKept(g, t, sc'.t, u);
  }

  lemma CarefulStepKeeps(sc: Sched, e: Event, g: Graph, sc': Sched)
    requires ProgInv(sc, g) && Enabled(sc, e) && Careful(sc, e, g) && sc' == Step(sc, e, g)
    ensures ProgInv(sc', g)
  {
    StepKeeps(sc, e, g, sc');
    if e.Transact? {
      TransactExact(sc, e, g, sc');
    } else {
      StepProgress(sc, e, g, sc');
      ReasonsKept(g, sc, sc'.t);
      if Held(sc, e, g) { HeldHasReason(sc, e, g, sc'); }
    }
  }

  /** Being careful is exactly what it takes for nobody to be left waiting without a reason. */
  lemma CarefulIsExact(sc: Sched, e: Event, g: Graph, sc': Sched)
    requires ProgInv(sc, g) && Enabled(sc, e) && sc' == Step(sc, e, g) && forall u :: (u, u) !in g.before
    ensures ProgInv(sc', g) <==> Careful(sc, e, g)
  {
    if Careful(sc, e, g) {
      CarefulStepKeeps(sc, e, g, sc');
    } else if e.Transact? {
      TransactExact(sc, e, g, sc');
    } else {
      EndExact(sc, e, g, sc');
    }
  }

  lemma NothingRunningGoesOn(u: Unit, s: UnitState)
    requires CleanUnit(u, s) && s.trigger.None? && Busy(s)
    ensures NaturalReady(s).Some?
  {
    KeyedPending(u, s);
    CanonShape(s.suspends);
  }

  lemma NotReadyWaits(sc: Sched, g: Graph, u: Unit)
    requires ProgInv(sc, g) && u in sc.t.data && u !in sc.t.ready
    requires sc.t.data[u].trigger.None? && NaturalReady(sc.t.data[u]).Some?
    ensures Waits(sc.t, g, u)
  {
    CleanAt(sc.t, u);
    assert sc.t.data[u].pause;
  }

  ghost predicate Quiescent(t: Table) {
    t.ready == {} && forall u :: u in t.data ==> t.data[u].trigger.None?
  }

  lemma NobodyIsBusy(sc: Sched, g: Graph)
    requires ProgInv(sc, g) && Acyclic(g.before) && Quiescent(sc.t)
    ensures BusyUnits(sc.t) == {}
  {
    if BusyUnits(sc.t) != {} {
      var u := SomebodyIsFree(sc.t, g);
      CleanAt(sc.t, u);
      NothingRunningGoesOn(u, sc.t.data[u]);
      NotReadyWaits(sc, g, u);
      assert false;
    }
  }

  /** A nop is held, queued nowhere, and not because the unit is paused. */
  predicate OnlyNopHeld(s: UnitState) {
    s.trigger.None? && s.suspends.Keys == {Nop} && s.sq == [] && !s.pause
  }

  lemma IdleHoldsNop(t: Table, u: Unit)
    requires TableInv(t) && u in t.data && t.data[u].trigger.None? && !Busy(t.data[u]) && u !in t.ready && !t.data[u].pause
    ensures OnlyNopHeld(t.data[u])
  {
    CleanAt(t, u);
    var s := t.data[u];
    var k :| k in s.suspends;
    assert k.Nop? && forall l :: l in s.suspends ==> l.Nop?;
  }

  lemma NobodyWaits(t: Table, g: Graph, u: Unit)
    requires BusyUnits(t) == {}
    ensures !Waits(t, g, u)
  {
    assert StoppingUnits(t) <= BusyUnits(t);
  }

  /** Nothing is triggered and nothing is ready: then all that is left are nops that are queued nowhere. */
  lemma QuiescentIsDone(sc: Sched, g: Graph)
    requires ProgInv(sc, g) && Acyclic(g.before) && Quiescent(sc.t)
    ensures forall u :: u in sc.t.data ==> OnlyNopHeld(sc.t.data[u])
  {
    NobodyIsBusy(sc, g);
    forall u | u in sc.t.data
      ensures OnlyNopHeld(sc.t.data[u])
    {
      NobodyWaits(sc.t, g, u);
      assert u !in BusyUnits(sc.t);
      IdleHoldsNop(sc.t, u);
    }
  }

  ghost predicate CarefulAll(sc: Sched, es: seq<Event>, g: Graph)
    requires ProgInv(sc, g)
    decreases |es|
  {
    es != [] ==>
      && Enabled(sc, es[0]) && Careful(sc, es[0], g)
      && (CarefulStepKeeps(sc, es[0], g, Step(sc, es[0], g)); CarefulAll(Step(sc, es[0], g), es[1..], g))
  }

  ghost function CarefulRun(sc: Sched, es: seq<Event>, g: Graph): (sc': Sched)
    requires ProgInv(sc, g) && CarefulAll(sc, es, g)
    ensures ProgInv(sc', g)
    decreases |es|
  {
    if es == [] then sc
    else
      CarefulStepKeeps(sc, es[0], g, Step(sc, es[0], g));
      CarefulRun(Step(sc, es[0], g), es[1..], g)
  }

  /** In every careful run over an acyclic order, whenever the queue is empty and no job runs, every job
      has been dealt with but for nops that were left behind a stop. */
  lemma EveryCarefulRunDrains(es: seq<Event>, g: Graph, t: Table)
    requires Acyclic(g.before) && ProgInv(INIT, g) && CarefulAll(INIT, es, g) && t == CarefulRun(INIT, es, g).t
    requires Quiescent(t)
    ensures forall u :: u in t.data ==> OnlyNopHeld(t.data[u])
  {
    QuiescentIsDone(CarefulRun(INIT, es, g), g);
  }
}
