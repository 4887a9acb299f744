/** Exactly when cancelling pending jobs breaks the table: when it takes away all a unit has pending
    while its triggered job is about to be interrupted. */
module JobTableExact {
  import opened Jobs
  import opened JobUnits
  import opened JobUnitLaws
  import opened JobTables
  import opened JobStepLaws

  /** The unit claims that something is about to interrupt its triggered job, and nothing is. */
  predicate Dangling(s: UnitState) {
    s.order && s.interrupt && s.sq == []
  }

  lemma DanglingIsBroken(t: Table, u: Unit)
    requires u in t.data && Dangling(t.data[u])
    ensures !TableInv(t)
  {
  }

  lemma NothingToOrder(s: UnitState, row: Row, active: bool)
    requires s.suspends == map[] && !s.order && s.interrupt
    ensures !Conflict(s.suspends) && Dangling(Synced(Reshuffle(s, row, active).0))
    ensures Reshuffle(s, row, active).0.trigger == s.trigger
  {
    assert Leftover(s, active) == map[];
    CanonShape(map[]);
  }

  lemma AppliedDangles(t: Table, steps: map<Unit, UnitStep>, u: Unit)
    requires u in steps && Dangling(steps[u].s) && steps[u].s.trigger.Some?
    ensures u in Apply(t, steps).data && Apply(t, steps).data[u] == steps[u].s
  {
  }

  lemma ResumedDangles(t: Table, us: set<Unit>, u: Unit)
    requires u in t.data && Dangling(t.data[u]) && t.data[u].trigger.Some?
    ensures !TableInv(ResumeAll(t, us))
  {
    var steps := ResumeSteps(t, us);
    if u in steps {
      AppliedDangles(t, steps, u);
    }
    DanglingIsBroken(ResumeAll(t, us), u);
  }

  lemma RemoveDangles(u: Unit, s: UnitState, row: Row, ks: set<Kind>, active: bool)
    requires CleanUnit(u, s) && !KeepsInterrupter(s, ks) && Removable(s, row, ks)
    ensures Dangling(RemoveStep(s, row, ks, active).s) && RemoveStep(s, row, ks, active).s.trigger.Some?
  {
    var (s2, row2) := RemoveKinds(s, row, ks);
    assert s2.suspends == map[];
    NothingToOrder(s2, row2, active);
  }

  lemma RemoveBreaks(t: Table, u: Unit, st: UnitStep, g: Graph)
    requires Dangling(st.s) && st.s.trigger.Some?
    ensures !TableInv(ApplyThenWake(t, u, st, g))
  {
    var t1 := Apply(t, map[u := st]);
    AppliedDangles(t, map[u := st], u);
    DanglingIsBroken(t1, u);
    ResumedDangles(t1, Neighbours(g, u), u);
  }

  /** Removing pending jobs keeps the table in agreement if and only if the triggered job is not about
      to be interrupted or some pending job stays. */
  lemma RemoveExact(t: Table, u: Unit, ks: set<Kind>, active: bool, g: Graph)
    requires TableInv(t) && u in t.data
    ensures Removable(t.data[u], RowAt(t, u), ks)
    ensures TableInv(RemoveSuspends(t, u, ks, active, g)) <==> KeepsInterrupter(t.data[u], ks)
  {
    RemoveCanOrder(t, u, ks);
    if KeepsInterrupter(t.data[u], ks) {
      RemoveKeepsTable(t, u, ks, active, g);
    } else {
      CleanAt(t, u);
      RemoveDangles(u, t.data[u], RowAt(t, u), ks, active);
      RemoveBreaks(t, u, RemoveStep(t.data[u], RowAt(t, u), ks, active), g);
    }
  }

  ghost predicate NoneInterrupting(t: Table, iso: set<Unit>)
    requires iso <= t.data.Keys
  {
    forall u :: u in iso ==> !t.data[u].interrupt
  }

  lemma FlushDangles(u: Unit, s: UnitState, row: Row, active: bool)
    requires CleanUnit(u, s) && s.interrupt
    ensures !Conflict(CommitMerge(s, row, map[], true).0.suspends)
    ensures Dangling(CommitStep(s, row, map[], true, active).s)
    ensures CommitStep(s, row, map[], true, active).s.trigger.Some?
  {
    var (s2, row2) := CommitMerge(s, row, map[], true);
    NothingToOrder(s2, row2, active);
  }

  lemma CanMergeAll(t: Table, stage: map<Unit, map<Kind, Job>>, iso: set<Unit>)
    requires TableInv(t) && StageOk(t, stage) && iso !! stage.Keys && iso <= t.data.Keys
    ensures Mergeable(t, stage, iso)
  {
    forall u | u in iso + stage.Keys
      ensures !Conflict(CommitMerge(At(t, u), RowAt(t, u), StagedAt(stage, u), u in iso).0.suspends)
    {
      CleanAt(t, u);
      StagedAtFresh(t, stage, u);
      var (s2, row2) := CommitMerge(At(t, u), RowAt(t, u), StagedAt(stage, u), u in iso);
      CommitMergeKeeps(u, At(t, u), RowAt(t, u), StagedAt(stage, u), u in iso, s2, row2);
    }
  }

  lemma CommitBreaks(t: Table, stage: map<Unit, map<Kind, Job>>, iso: set<Unit>, active: set<Unit>, g: Graph, u: Unit)
    requires TableInv(t) && Mergeable(t, stage, iso) && u in iso && u in t.data && t.data[u].interrupt
    ensures !TableInv(Commit(t, stage, iso, active, g))
  {
    CleanAt(t, u);
    FlushDangles(u, At(t, u), RowAt(t, u), u in active);
    var steps := CommitSteps(t, stage, iso, active);
    AppliedDangles(t, steps, u);
    ResumedDangles(Apply(t, steps), AllNeighbours(g, Flushed(t, stage, iso)), u);
  }

  /** A commit that flushes units keeps the table in agreement if and only if none of these is about to
      interrupt its triggered job. */
  lemma CommitExact(t: Table, stage: map<Unit, map<Kind, Job>>, iso: set<Unit>, active: set<Unit>, g: Graph)
    requires TableInv(t) && StageOk(t, stage) && iso !! stage.Keys && iso <= t.data.Keys
    ensures Mergeable(t, stage, iso)
    ensures TableInv(Commit(t, stage, iso, active, g)) <==> NoneInterrupting(t, iso)
  {
    CanMergeAll(t, stage, iso);
    if NoneInterrupting(t, iso) {
      CommitKeepsTable(t, stage, iso, active, g);
    } else {
      var u :| u in iso && t.data[u].interrupt;
      CommitBreaks(t, stage, iso, active, g, u);
    }
  }
}
