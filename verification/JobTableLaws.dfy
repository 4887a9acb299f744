/** Every operation on the live table keeps its parts in agreement. */
module JobTableLaws {
  import opened Jobs
  import opened JobUnits
  import opened JobTables

  // ---------------------------------------------------------------- one unit at a time is enough

  /** A unit's part of an operation is sound: the unit is consistent, clean and mirrored by its rows,
      and its jobs are the old ones with the reported additions and deletions. */
  ghost predicate Sound(u: Unit, s: UnitState, st: UnitStep) {
    && CleanUnit(u, st.s)
    && Mirror(st.s, st.row)
    && st.dels <= UnitRefs(s) + st.adds
    && UnitRefs(st.s) == UnitRefs(s) + st.adds - st.dels
    && forall h :: h in st.adds ==> h.unit == u && IsBasic(h.kind)
  }

  ghost predicate StepOk(t: Table, u: Unit, st: UnitStep) {
    Sound(u, At(t, u), st)
  }

  ghost predicate StepsOk(t: Table, steps: map<Unit, UnitStep>) {
    && (forall u :: u in steps ==> StepOk(t, u, steps[u]))
    && FreshIds(t.ids, Adds(steps))
  }

  lemma RefsOfUnit(u: Unit, s: UnitState)
    requires JobsOk(u, s)
    ensures forall h :: h in UnitRefs(s) ==> h.unit == u && IsBasic(h.kind)
    ensures IsEmpty(s) <==> UnitRefs(s) == {}
  {
    if s.suspends != map[] {
      var k :| k in s.suspends;
      assert Ref(s.suspends[k]) in UnitRefs(s);
    }
  }

  lemma RefsAt(t: Table, u: Unit)
    requires TableInv(t)
    ensures forall h :: h in UnitRefs(At(t, u)) ==> h.unit == u && IsBasic(h.kind)
    ensures forall h: Handle :: h.unit == u ==> (h in t.ids <==> h in UnitRefs(At(t, u)))
  {
    RefsOfUnit(u, At(t, u));
  }

  lemma StepRefs(t: Table, steps: map<Unit, UnitStep>, h: Handle)
    requires TableInv(t) && StepsOk(t, steps)
    ensures h in Adds(steps) <==> h.unit in steps && h in steps[h.unit].adds
    ensures h in Dels(steps) <==> h.unit in steps && h in steps[h.unit].dels
  {
    if h in Adds(steps) {
      var u :| u in steps && h in steps[u].adds;
      assert StepOk(t, u, steps[u]);
    }
    if h in Dels(steps) {
      var u :| u in steps && h in steps[u].dels;
      assert StepOk(t, u, steps[u]);
      RefsAt(t, u);
    }
  }

  lemma ApplyKeepsIndex(t: Table, steps: map<Unit, UnitStep>, t': Table, h: Handle)
    requires TableInv(t) && StepsOk(t, steps) && t' == Apply(t, steps)
    ensures h in t'.ids <==> h.unit in t'.data && h in UnitRefs(t'.data[h.unit])
  {
    StepRefs(t, steps, h);
    RefsAt(t, h.unit);
    if h.unit in steps {
      assert StepOk(t, h.unit, steps[h.unit]);
      RefsOfUnit(h.unit, steps[h.unit].s);
    }
  }

  lemma DelsAreLive(t: Table, steps: map<Unit, UnitStep>)
    requires TableInv(t) && StepsOk(t, steps)
    ensures Dels(steps) <= t.ids + Adds(steps)
    ensures Adds(steps) !! t.ids
    ensures forall h :: h in Adds(steps) ==> IsBasic(h.kind)
  {
    forall h | h in Dels(steps)
      ensures h in t.ids + Adds(steps)
    {
      StepRefs(t, steps, h);
      assert StepOk(t, h.unit, steps[h.unit]);
      RefsAt(t, h.unit);
    }
    forall h | h in Adds(steps)
      ensures IsBasic(h.kind)
    {
      StepRefs(t, steps, h);
      assert StepOk(t, h.unit, steps[h.unit]);
    }
  }

  lemma OfKindParts(ids: set<Handle>, adds: set<Handle>, dels: set<Handle>, k: Kind)
    ensures OfKind(ids + adds - dels, k) == (OfKind(ids, k) + OfKind(adds, k)) - OfKind(dels, k)
  {
  }

  lemma CountParts(i: set<Handle>, a: set<Handle>, d: set<Handle>)
    requires i !! a && d <= i + a
    ensures |(i + a) - d| == |i| + |a| - |d| && |d| <= |i| + |a|
  {
    assert ((i + a) - d) + d == i + a;
  }

  /** Additions and deletions are counted exactly, and no counter goes below zero on the way. */
  lemma CountsConserved(ids: set<Handle>, adds: set<Handle>, dels: set<Handle>, k: Kind)
    requires adds !! ids && dels <= ids + adds
    ensures |OfKind(ids + adds - dels, k)| == |OfKind(ids, k)| + |OfKind(adds, k)| - |OfKind(dels, k)|
    ensures |OfKind(dels, k)| <= |OfKind(ids, k)| + |OfKind(adds, k)|
  {
    OfKindParts(ids, adds, dels, k);
    CountParts(OfKind(ids, k), OfKind(adds, k), OfKind(dels, k));
  }

  lemma ApplyKeepsCounts(t: Table, steps: map<Unit, UnitStep>, t': Table)
    requires TableInv(t) && StepsOk(t, steps) && t' == Apply(t, steps)
    ensures NumExact(t'.num, t'.ids)
  {
    DelsAreLive(t, steps);
    forall k | k in t'.num
      ensures t'.num[k] == |OfKind(t'.ids, k)|
    {
      CountsConserved(t.ids, Adds(steps), Dels(steps), k);
    }
  }

  lemma ApplyKeepsUnits(t: Table, steps: map<Unit, UnitStep>, t': Table, u: Unit)
    requires TableInv(t) && StepsOk(t, steps) && t' == Apply(t, steps)
    ensures u in t'.data ==> CleanUnit(u, t'.data[u]) && !IsEmpty(t'.data[u])
    ensures Mirror(At(t', u), RowAt(t', u))
  {
    if u in steps {
      assert StepOk(t, u, steps[u]);
      assert IsEmpty(steps[u].s) ==> Mirror(NEW_UNIT, steps[u].row);
    } else {
      assert Mirror(At(t, u), RowAt(t, u));
    }
  }

  lemma ApplyKeepsIds(t: Table, steps: map<Unit, UnitStep>, t': Table)
    requires TableInv(t) && StepsOk(t, steps) && t' == Apply(t, steps)
    ensures IdsExact(t'.data, t'.ids)
  {
    forall h: Handle
      ensures h in t'.ids <==> h.unit in t'.data && h in UnitRefs(t'.data[h.unit])
    {
      ApplyKeepsIndex(t, steps, t', h);
    }
  }

  /** An operation made of sound steps keeps the whole table in agreement: units, persisted rows,
      ready set, identifier index and counters. */
  lemma ApplyKeeps(t: Table, steps: map<Unit, UnitStep>, t': Table)
    requires TableInv(t) && StepsOk(t, steps) && t' == Apply(t, steps)
    ensures TableInv(t')
  {
    assert UnitsClean(t') by {
      forall u | u in t'.data { ApplyKeepsUnits(t, steps, t', u); }
    }
    assert RowsMirror(t') by {
      forall u { ApplyKeepsUnits(t, steps, t', u); }
    }
    ApplyKeepsIds(t, steps, t');
    ApplyKeepsCounts(t, steps, t');
  }
}
