/** Each operation's effect on one unit is sound, and so each operation keeps the table in agreement. */
module JobStepLaws {
  import opened Jobs
  import opened JobUnits
  import opened JobUnitLaws
  import opened JobTables
  import opened JobTableLaws

  // ---------------------------------------------------------------- handles of pending jobs

  lemma RefsMember(m: map<Kind, Job>)
    requires Keyed(m)
    ensures forall h :: h in PendingRefs(m) <==> h.kind in m && Ref(m[h.kind]) == h
  {
  }

  lemma RefsSplit(m: map<Kind, Job>, n: map<Kind, Job>)
    requires Keyed(m) && n.Keys <= m.Keys
    requires forall k :: k in n ==> n[k] == m[k]
    ensures PendingRefs(n) == PendingRefs(m) - PendingRefs(m - n.Keys)
    ensures PendingRefs(m - n.Keys) <= PendingRefs(m)
  {
    RefsMember(m);
    RefsMember(n);
    RefsMember(m - n.Keys);
  }

  lemma RefsUnion(m: map<Kind, Job>, o: map<Kind, Job>, n: map<Kind, Job>)
    requires n == UnionSuspends(m, o) && Keyed(m) && Keyed(o)
    ensures PendingRefs(n) == PendingRefs(m) + PendingRefs(o - m.Keys)
    ensures PendingRefs(o - m.Keys) <= PendingRefs(o)
  {
    RefsMember(m);
    RefsMember(n);
    RefsMember(o);
    RefsMember(o - m.Keys);
  }

  lemma KeyedPending(u: Unit, s: UnitState)
    requires JobsOk(u, s)
    ensures Keyed(s.suspends)
  {
  }

  function TriggerRefs(s: UnitState): set<Handle> {
    if s.trigger.Some? then {Ref(s.trigger.value)} else {}
  }

  lemma RefsBalance(P: set<Handle>, T: set<Handle>, G: set<Handle>, A: set<Handle>, P2: set<Handle>, M: set<Handle>)
    requires P2 == P - G + A && G <= P && M <= P2 && T !! P && A !! P + T
    ensures (P2 - M) + T == (P + T) + A - (G + M)
    ensures G + M <= (P + T) + A
  {
  }

  // ---------------------------------------------------------------- ordering at the end of a step

  lemma CleanAgain(u: Unit, s: UnitState)
    requires UnitInv(u, s) && s.order && Apart(s)
    ensures CleanUnit(u, Synced(s))
  {
  }

  lemma OrderKeeps(u: Unit, s2: UnitState, row2: Row, active: bool, s3: UnitState, row3: Row)
    requires UnitInv(u, s2) && Mirror(s2, row2) && !Conflict(s2.suspends) && Apart(s2)
    requires s2.interrupt ==> s2.suspends != map[]
    requires (s3, row3) == Reshuffle(s2, row2, active)
    ensures CleanUnit(u, Synced(s3)) && Mirror(Synced(s3), row3)
  {
    ReshuffleExact(u, s2, row2, active, s3);
    ReshuffleMirror(s2, row2, active, s3, row3);
    KeyedPending(u, s2);
    RefsSplit(s2.suspends, s3.suspends);
    CleanAgain(u, s3);
  }

  // ---------------------------------------------------------------- committing

  /** The staged identifiers are not in use by the unit. */
  ghost predicate Fresh(s: UnitState, o: map<Kind, Job>) {
    PendingRefs(o) !! UnitRefs(s)
  }

  lemma MergeFrame(s: UnitState, row: Row, o: map<Kind, Job>, iso: bool, s2: UnitState)
    requires (iso ==> o == map[]) && s2 == CommitMerge(s, row, o, iso).0
    ensures s2.suspends == UnionSuspends(Kept(s, o, iso), o)
    ensures s2 == s.(suspends := s2.suspends, order := s2.order, dirty := s2.dirty, ready := s2.ready)
  {
    if !iso && !ConflictWith(s.suspends, o) {
      assert Kept(s, o, iso) == s.suspends;
    } else {
      assert Kept(s, o, iso) == map[];
    }
  }

  lemma MergeRefs(u: Unit, s: UnitState, o: map<Kind, Job>, iso: bool)
    requires JobsOk(u, s) && Keyed(o)
    ensures PendingRefs(UnionSuspends(Kept(s, o, iso), o))
         == PendingRefs(s.suspends) - PendingRefs(Cancels(s, o, iso)) + PendingRefs(o - Kept(s, o, iso).Keys)
    ensures PendingRefs(Cancels(s, o, iso)) <= PendingRefs(s.suspends)
    ensures PendingRefs(o - Kept(s, o, iso).Keys) <= PendingRefs(o)
  {
    var base := Kept(s, o, iso);
    KeyedPending(u, s);
    RefsSplit(s.suspends, base);
    assert s.suspends - base.Keys == Cancels(s, o, iso);
    RefsUnion(base, o, UnionSuspends(base, o));
  }

  lemma CommitMergeKeeps(u: Unit, s: UnitState, row: Row, o: map<Kind, Job>, iso: bool, s2: UnitState, row2: Row)
    requires CleanUnit(u, s) && Mirror(s, row) && StagedOk(u, o)
    requires (s2, row2) == CommitMerge(s, row, o, iso)
    ensures UnitInv(u, s2) && Mirror(s2, row2) && !Conflict(s2.suspends)
    ensures !s2.dirty ==> s2.order && s2.ready == s.ready
  {
    if iso {
      FlushKeeps(u, s, row, s2, row2);
    } else {
      MergeKeeps(u, s, row, o, s2, row2);
    }
  }

  lemma CommitStepClean(u: Unit, s: UnitState, row: Row, o: map<Kind, Job>, iso: bool, active: bool)
    requires CleanUnit(u, s) && Mirror(s, row) && StagedOk(u, o) && Fresh(s, o)
    requires if iso then o == map[] && !s.interrupt else o != map[]
    ensures !Conflict(CommitMerge(s, row, o, iso).0.suspends)
    ensures CleanUnit(u, CommitStep(s, row, o, iso, active).s)
    ensures Mirror(CommitStep(s, row, o, iso, active).s, CommitStep(s, row, o, iso, active).row)
  {
    var (s2, row2) := CommitMerge(s, row, o, iso);
    CommitMergeKeeps(u, s, row, o, iso, s2, row2);
    MergeFrame(s, row, o, iso, s2);
    MergeRefs(u, s, o, iso);
    assert Apart(s2);
    assert s2.interrupt ==> s2.suspends != map[] by {
      assert o.Keys <= s2.suspends.Keys;
    }
    if s2.dirty {
      var (s3, row3) := Reshuffle(s2, row2, active);
      OrderKeeps(u, s2, row2, active, s3, row3);
    }
  }

  lemma CommitStepRefs(u: Unit, s: UnitState, row: Row, o: map<Kind, Job>, iso: bool, active: bool, st: UnitStep)
    requires CleanUnit(u, s) && Mirror(s, row) && StagedOk(u, o) && Fresh(s, o) && (iso ==> o == map[])
    requires !Conflict(CommitMerge(s, row, o, iso).0.suspends) && st == CommitStep(s, row, o, iso, active)
    ensures st.dels <= UnitRefs(s) + st.adds && UnitRefs(st.s) == UnitRefs(s) + st.adds - st.dels
    ensures st.adds <= PendingRefs(o)
  {
    var (s2, row2) := CommitMerge(s, row, o, iso);
    CommitMergeKeeps(u, s, row, o, iso, s2, row2);
    MergeFrame(s, row, o, iso, s2);
    MergeRefs(u, s, o, iso);
    KeyedPending(u, s2);
    RefsSplit(s2.suspends, st.s.suspends);
    RefsBalance(PendingRefs(s.suspends), TriggerRefs(s), PendingRefs(Cancels(s, o, iso)), st.adds,
                PendingRefs(s2.suspends), PendingRefs(s2.suspends - st.s.suspends.Keys));
  }

  lemma StagedRefs(u: Unit, o: map<Kind, Job>)
    requires StagedOk(u, o)
    ensures forall h :: h in PendingRefs(o) ==> h.unit == u && IsBasic(h.kind)
  {
  }

  lemma CommitStepSound(u: Unit, s: UnitState, row: Row, o: map<Kind, Job>, iso: bool, active: bool)
    requires CleanUnit(u, s) && Mirror(s, row) && StagedOk(u, o) && Fresh(s, o)
    requires if iso then o == map[] && !s.interrupt else o != map[]
    ensures !Conflict(CommitMerge(s, row, o, iso).0.suspends)
    ensures Sound(u, s, CommitStep(s, row, o, iso, active))
    ensures CommitStep(s, row, o, iso, active).adds <= PendingRefs(o)
  {
    CommitStepClean(u, s, row, o, iso, active);
    CommitStepRefs(u, s, row, o, iso, active, CommitStep(s, row, o, iso, active));
    StagedRefs(u, o);
  }

  lemma StagedAtFresh(t: Table, stage: map<Unit, map<Kind, Job>>, u: Unit)
    requires TableInv(t) && StageOk(t, stage)
    ensures StagedOk(u, StagedAt(stage, u)) && Fresh(At(t, u), StagedAt(stage, u))
    ensures PendingRefs(StagedAt(stage, u)) <= StageRefs(stage)
  {
    var o := StagedAt(stage, u);
    RefsAt(t, u);
    forall h | h in PendingRefs(o)
      ensures h in StageRefs(stage) && h !in UnitRefs(At(t, u))
    {
      var k :| k in o && h == Ref(o[k]);
      assert h == Ref(stage[u][k]);
    }
  }

  lemma CleanAt(t: Table, u: Unit)
    requires TableInv(t)
    ensures CleanUnit(u, At(t, u)) && Mirror(At(t, u), RowAt(t, u))
  {
  }

  lemma CommitStepAt(t: Table, stage: map<Unit, map<Kind, Job>>, iso: set<Unit>, active: set<Unit>, u: Unit)
    requires TableInv(t) && StageOk(t, stage) && IsoOk(t, stage, iso) && u in iso + stage.Keys
    ensures !Conflict(CommitMerge(At(t, u), RowAt(t, u), StagedAt(stage, u), u in iso).0.suspends)
    ensures var st := CommitStep(At(t, u), RowAt(t, u), StagedAt(stage, u), u in iso, u in active);
            StepOk(t, u, st) && st.adds <= StageRefs(stage)
  {
    StagedAtFresh(t, stage, u);
    CleanAt(t, u);
    CommitStepSound(u, At(t, u), RowAt(t, u), StagedAt(stage, u), u in iso, u in active);
  }

  lemma CommitMergeable(t: Table, stage: map<Unit, map<Kind, Job>>, iso: set<Unit>)
    requires TableInv(t) && StageOk(t, stage) && IsoOk(t, stage, iso)
    ensures Mergeable(t, stage, iso)
  {
    forall u | u in iso + stage.Keys
      ensures !Conflict(CommitMerge(At(t, u), RowAt(t, u), StagedAt(stage, u), u in iso).0.suspends)
    {
      CommitStepAt(t, stage, iso, {}, u);
    }
  }

  lemma StepsWithin(t: Table, stage: map<Unit, map<Kind, Job>>, steps: map<Unit, UnitStep>)
    requires FreshIds(t.ids, StageRefs(stage))
    requires forall u :: u in steps ==> StepOk(t, u, steps[u]) && steps[u].adds <= StageRefs(stage)
    ensures StepsOk(t, steps)
  {
    assert Adds(steps) <= StageRefs(stage);
  }

  lemma CommitStepsOk(t: Table, stage: map<Unit, map<Kind, Job>>, iso: set<Unit>, active: set<Unit>, steps: map<Unit, UnitStep>)
    requires TableInv(t) && StageOk(t, stage) && IsoOk(t, stage, iso)
    requires Mergeable(t, stage, iso) && steps == CommitSteps(t, stage, iso, active)
    ensures StepsOk(t, steps)
  {
    forall u | u in steps
      ensures StepOk(t, u, steps[u]) && steps[u].adds <= StageRefs(stage)
    {
      CommitStepAt(t, stage, iso, active, u);
    }
    StepsWithin(t, stage, steps);
  }

  /** Committing a transaction keeps the table in agreement. */
  lemma CommitKeepsTable(t: Table, stage: map<Unit, map<Kind, Job>>, iso: set<Unit>, active: set<Unit>, g: Graph)
    requires TableInv(t) && StageOk(t, stage) && IsoOk(t, stage, iso)
    ensures Mergeable(t, stage, iso)
    ensures TableInv(Commit(t, stage, iso, active, g))
  {
    CommitMergeable(t, stage, iso);
    var steps := CommitSteps(t, stage, iso, active);
    CommitStepsOk(t, stage, iso, active, steps);
    var t1 := Apply(t, steps);
    ApplyKeeps(t, steps, t1);
    ResumeAllKeeps(t1, AllNeighbours(g, Flushed(t, stage, iso)));
  }

  // ---------------------------------------------------------------- resuming

  lemma ResumeStepSound(u: Unit, s: UnitState, row: Row)
    requires CleanUnit(u, s) && Mirror(s, row)
    ensures Sound(u, s, ResumeStep(s, row))
  {
    PauseResumeKeep(u, s);
  }

  lemma ResumeAllKeeps(t: Table, us: set<Unit>)
    requires TableInv(t)
    ensures StepsOk(t, ResumeSteps(t, us))
    ensures TableInv(ResumeAll(t, us))
  {
    var steps := ResumeSteps(t, us);
    forall u | u in steps
      ensures StepOk(t, u, steps[u])
    {
      CleanAt(t, u);
      ResumeStepSound(u, At(t, u), RowAt(t, u));
    }
    assert Adds(steps) == {};
    ApplyKeeps(t, steps, ResumeAll(t, us));
  }

  // ---------------------------------------------------------------- removing, finishing, triggering

  /** The removal does not take away everything that the triggered job is interrupted for. */
  predicate KeepsInterrupter(s: UnitState, ks: set<Kind>) {
    s.interrupt ==> !(s.suspends.Keys <= ks)
  }

  lemma RemoveThenOrder(u: Unit, s: UnitState, s2: UnitState, row2: Row, ks: set<Kind>, active: bool, s3: UnitState, row3: Row)
    requires CleanUnit(u, s) && UnitInv(u, s2) && Mirror(s2, row2) && !Conflict(s2.suspends)
    requires s2 == s.(suspends := s.suspends - ks, order := false, dirty := true, ready := false)
    requires KeepsInterrupter(s, ks)
    requires (s3, row3) == Reshuffle(s2, row2, active)
    ensures CleanUnit(u, Synced(s3)) && Mirror(Synced(s3), row3)
    ensures s3.suspends == s.suspends - ks && s3.trigger == s.trigger
  {
    KeyedPending(u, s);
    RefsSplit(s.suspends, s2.suspends);
    assert s2.interrupt ==> s2.suspends != map[] by {
      if s.interrupt {
        var k :| k in s.suspends && k !in ks;
        assert k in s2.suspends;
      }
    }
    OrderKeeps(u, s2, row2, active, s3, row3);
    OrderedHasNothingToMerge(s.suspends, s2.suspends, active);
    assert s3.suspends == s2.suspends - {};
  }

  lemma RemoveStepSound(u: Unit, s: UnitState, row: Row, ks: set<Kind>, active: bool, s2: UnitState, row2: Row, st: UnitStep)
    requires CleanUnit(u, s) && Mirror(s, row) && KeepsInterrupter(s, ks)
    requires (s2, row2) == RemoveKinds(s, row, ks) && !Conflict(s2.suspends) && st == RemoveStep(s, row, ks, active)
    ensures Sound(u, s, st) && st.adds == {}
    ensures st.s.suspends == s.suspends - ks && st.s.trigger == s.trigger
    ensures st.dels == PendingRefs(s.suspends - st.s.suspends.Keys)
  {
    RemoveKeeps(u, s, row, ks, s2, row2);
    var (s3, row3) := Reshuffle(s2, row2, active);
    RemoveThenOrder(u, s, s2, row2, ks, active, s3, row3);
    KeyedPending(u, s);
    RefsSplit(s.suspends, s3.suspends);
    RefsBalance(PendingRefs(s.suspends), TriggerRefs(s), st.dels, {}, PendingRefs(s3.suspends), {});
  }

  lemma FinishStepSound(u: Unit, s: UnitState, row: Row, result: JobResult)
    requires CleanUnit(u, s) && Mirror(s, row) && s.trigger.Some?
    ensures Finishable(s) && Sound(u, s, FinishStep(s, row, result))
  {
    var (s', row', del) := FinishTrigger(s, row, result);
    FinishTriggerFrame(u, s, row, result, s', row', del);
    FinishTriggerKeeps(u, s, row, result, s', row', del);
    CleanAgain(u, s');
  }

  lemma PauseStepSound(u: Unit, s: UnitState, row: Row)
    requires CleanUnit(u, s) && Mirror(s, row)
    ensures Sound(u, s, PauseStep(s, row))
  {
    PauseResumeKeep(u, s);
  }

  lemma NextRefs(s: UnitState, m: map<Kind, Job>, next: Job)
    requires Keyed(s.suspends) && next.kind in s.suspends && next == s.suspends[next.kind]
    requires m == s.suspends - {next.kind}
    ensures PendingRefs(s.suspends) == PendingRefs(m) + {Ref(next)} && Ref(next) !in PendingRefs(m)
  {
    RefsMember(s.suspends);
    RefsMember(m);
  }

  lemma TriggerStepSound(u: Unit, s: UnitState, row: Row, answer: Answer)
    requires CleanUnit(u, s) && Mirror(s, row) && CalcReady(s).Some?
    ensures Triggerable(s)
    ensures Sound(u, s, TriggerStep(s, row, answer))
  {
    DoTriggerKeeps(u, s, row, answer);
    var s1, s' := DoNextTrigger(s), DoTrigger(s, row, answer).0;
    DoNextTriggerKeeps(u, s, s1);
    DoTriggerFrame(u, s, row, answer, s1, s');
    if CalcReady(s).value {
      KeyedPending(u, s);
      NextRefs(s, s'.suspends, Next(s));
    }
    CleanAgain(u, s');
  }

  lemma SingleRefs(u: Unit, st: UnitStep)
    ensures Adds(map[u := st]) == st.adds && Dels(map[u := st]) == st.dels
  {
    var steps := map[u := st];
    assert steps[u] == st;
    assert forall h :: h in st.adds ==> u in steps && h in steps[u].adds;
    assert forall h :: h in st.dels ==> u in steps && h in steps[u].dels;
  }

  lemma SingleKeeps(t: Table, u: Unit, st: UnitStep, t': Table)
    requires TableInv(t) && StepOk(t, u, st) && st.adds == {} && t' == Apply(t, map[u := st])
    ensures TableInv(t')
  {
    SingleRefs(u, st);
    ApplyKeeps(t, map[u := st], t');
  }

  lemma RemoveCanOrder(t: Table, u: Unit, ks: set<Kind>)
    requires TableInv(t) && u in t.data
    ensures Removable(t.data[u], RowAt(t, u), ks)
  {
    CleanAt(t, u);
    var (s2, row2) := RemoveKinds(t.data[u], RowAt(t, u), ks);
    RemoveKeeps(u, t.data[u], RowAt(t, u), ks, s2, row2);
  }

  lemma RemoveStepAt(t: Table, u: Unit, ks: set<Kind>, active: bool, st: UnitStep)
    requires TableInv(t) && u in t.data && KeepsInterrupter(t.data[u], ks)
    requires Removable(t.data[u], RowAt(t, u), ks) && st == RemoveStep(t.data[u], RowAt(t, u), ks, active)
    ensures StepOk(t, u, st) && st.adds == {}
    ensures st.s.suspends == t.data[u].suspends - ks && st.s.trigger == t.data[u].trigger
  {
    CleanAt(t, u);
    var (s2, row2) := RemoveKinds(t.data[u], RowAt(t, u), ks);
    RemoveStepSound(u, t.data[u], RowAt(t, u), ks, active, s2, row2, st);
  }

  lemma WakeKeeps(t: Table, u: Unit, st: UnitStep, g: Graph)
    requires TableInv(t) && StepOk(t, u, st) && st.adds == {}
    ensures TableInv(ApplyThenWake(t, u, st, g))
  {
    var t1 := Apply(t, map[u := st]);
    SingleKeeps(t, u, st, t1);
    ResumeAllKeeps(t1, Neighbours(g, u));
  }

  /** Removing pending jobs keeps the table in agreement when it leaves something to interrupt for. */
  lemma RemoveKeepsTable(t: Table, u: Unit, ks: set<Kind>, active: bool, g: Graph)
    requires TableInv(t)
    requires u in t.data ==> KeepsInterrupter(t.data[u], ks)
    ensures u in t.data ==> Removable(t.data[u], RowAt(t, u), ks)
    ensures TableInv(RemoveSuspends(t, u, ks, active, g))
  {
    if u in t.data {
      RemoveCanOrder(t, u, ks);
      var st := RemoveStep(t.data[u], RowAt(t, u), ks, active);
      RemoveStepAt(t, u, ks, active, st);
      WakeKeeps(t, u, st, g);
    }
  }

  lemma FinishedKeeps(t: Table, u: Unit, st: UnitStep, g: Graph)
    requires TableInv(t) && StepOk(t, u, st) && st.adds == {}
    ensures TableInv(ResumeAll(Apply(t, map[u := st]), Neighbours(g, u)))
  {
    var t1 := Apply(t, map[u := st]);
    SingleKeeps(t, u, st, t1);
    ResumeAllKeeps(t1, Neighbours(g, u));
  }

  lemma FinishKeepsTable(t: Table, u: Unit, result: JobResult, g: Graph)
    requires TableInv(t) && u in t.data && t.data[u].trigger.Some?
    ensures Finishable(t.data[u]) && TableInv(Finish(t, u, result, g))
  {
    CleanAt(t, u);
    FinishStepSound(u, t.data[u], RowAt(t, u), result);
    FinishedKeeps(t, u, FinishStep(t.data[u], RowAt(t, u), result), g);
  }

  lemma TriggerStepAt(t: Table, u: Unit, answer: Answer)
    requires TableInv(t) && u in t.ready
    ensures u in t.data && Triggerable(t.data[u])
    ensures StepOk(t, u, TriggerStep(t.data[u], RowAt(t, u), answer))
    ensures StepOk(t, u, PauseStep(t.data[u], RowAt(t, u)))
    ensures !TriggerStep(t.data[u], RowAt(t, u), answer).s.ready && !PauseStep(t.data[u], RowAt(t, u)).s.ready
  {
    CleanAt(t, u);
    TriggerStepSound(u, t.data[u], RowAt(t, u), answer);
    PauseStepSound(u, t.data[u], RowAt(t, u));
    DoTriggerKeeps(u, t.data[u], RowAt(t, u), answer);
  }

  lemma SingleNotReady(t: Table, u: Unit, st: UnitStep)
    requires !st.s.ready
    ensures u !in Apply(t, map[u := st]).ready
  {
  }

  /** A ready unit is still there to be triggered, and it is not ready afterwards. */
  lemma TryTriggerKeepsTable(t: Table, u: Unit, answer: Answer, g: Graph)
    requires TableInv(t) && u in t.ready
    ensures u in t.data && Triggerable(t.data[u])
    ensures TableInv(TryTrigger(t, u, answer, g)) && u !in TryTrigger(t, u, answer, g).ready
  {
    TriggerStepAt(t, u, answer);
    var st := if Runnable(t, g, u) then TriggerStep(t.data[u], RowAt(t, u), answer) else PauseStep(t.data[u], RowAt(t, u));
    SingleKeeps(t, u, st, Apply(t, map[u := st]));
    SingleNotReady(t, u, st);
  }
}
