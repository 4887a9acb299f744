/** The live table as the object that is updated in place, unit by unit and pass by pass. Each method
    leaves what the operation of the same purpose says, and keeps the table in agreement. */
module JobTableObject {
  import opened Jobs
  import opened JobUnits
  import opened JobUnitLaws
  import opened JobTables
  import opened JobTableLaws
  import opened JobStepLaws
  import opened JobRuns
  import opened JobQueue

  /** The units that the ready queue is told to hold. */
  function UpReady(data: map<Unit, UnitState>): set<Unit> {
    set u | u in data && data[u].upReady
  }

  class JobTable {
    const queue: ReadyQueue
    var data: map<Unit, UnitState>
    var rows: map<Unit, Row>
    var ids: set<Handle>
    var num: map<Kind, int>

    /** No entry waits to be ordered and told to the queue. */
    var sync: bool

    constructor ()
      ensures Valid() && View() == EMPTY_TABLE && fresh(queue)
    {
      queue := new ReadyQueue();
      data, rows, ids, num, sync := map[], map[], {}, EMPTY_TABLE.num, true;
      new;
      InitOk(Graph({}));
    }

    ghost function View(): Table
      reads this, queue
    {
      Table(data, rows, ids, queue.Contents(), num)
    }

    /** The queue holds exactly the units marked so, also between the passes of an operation. */
    ghost predicate Linked()
      reads this, queue
    {
      queue.Valid() && queue.Contents() == UpReady(data)
    }

    ghost predicate Valid()
      reads this, queue
    {
      sync && Linked() && TableInv(View())
    }

    /** Is there anything to be triggered? Between the passes of an operation there is not. */
    method CalcReady() returns (r: bool)
      requires queue.Valid()
      ensures r <==> sync && View().ready != {}
    {
      r := queue.IsReady();
      r := sync && r;
    }

    // -------------------------------------------------------------- one entry

    /** Tell the queue whether the unit is ready, and mark the entry as clean. */
    method Sync(u: Unit)
      requires Linked() && u in data
      modifies this`data, queue
      ensures Linked() && data == old(data)[u := Synced(old(data)[u])]
    {
      var s := data[u];
      if s.ready {
        if !s.upReady { queue.Insert(u); }
      } else {
        if s.upReady { queue.Remove(u); }
      }
      data := data[u := Synced(s)];
    }

    /** Drop the entry if nothing is left in it. */
    method Collect(u: Unit)
      requires Linked() && u in data && (IsEmpty(data[u]) ==> !data[u].ready && !data[u].upReady)
      modifies this`data
      ensures Linked() && data == if IsEmpty(old(data)[u]) then old(data) - {u} else old(data)
    {
      if IsEmpty(data[u]) {
        assert !data[u].ready && !data[u].upReady;
        data := data - {u};
      }
    }

    method Replace(u: Unit, s: UnitState, row: Row, adds: set<Handle>, dels: set<Handle>)
      requires Linked() && (IsEmpty(s) ==> !s.ready) && s.upReady == (u in data && data[u].upReady)
      modifies this, queue
      ensures sync == old(sync)
      ensures Linked() && data == Entry(old(data), u, Synced(s)) && rows == old(rows)[u := row]
      ensures ids == old(ids) + adds - dels && num == NumAfter(old(num), adds, dels)
    {
      MarkedSame(data, u, s);
      EntryTwice(data, u, s, Synced(s));
      EntryTwice(data, u, Synced(s), s);
      data := data[u := s];
      Sync(u);
      Collect(u);
      rows := rows[u := row];
      ids := ids + adds - dels;
      num := NumAfter(num, adds, dels);
    }

    /** One entry changes: everything that depends on it follows. */
    method Update(u: Unit, s: UnitState, row: Row, adds: set<Handle>, dels: set<Handle>)
      requires Valid() && StepOk(View(), u, UnitStep(Synced(s), row, adds, dels)) && FreshIds(ids, adds)
      requires s.upReady == At(View(), u).upReady
      modifies this, queue
      ensures View() == Apply(old(View()), map[u := UnitStep(Synced(s), row, adds, dels)])
      ensures Valid()
    {
      ghost var t, st := View(), UnitStep(Synced(s), row, adds, dels);
      if IsEmpty(s) { NotReadyIfEmpty(u, st.s); }
      Replace(u, s, row, adds, dels);
      ApplyOne(t, u, st, View());
    }

    // -------------------------------------------------------------- resuming

    method ResumeUnit(u: Unit)
      requires Valid()
      modifies this, queue
      ensures View() == ResumeAll(old(View()), {u}) && Valid()
    {
      ghost var t := View();
      if u in data && data[u].pause {
        CleanAt(t, u);
        ResumeStepSound(u, At(t, u), RowAt(t, u));
        ResumeJust(t, u);
        Update(u, Resume(data[u]), if u in rows then rows[u] else EMPTY_ROW, {}, {});
      } else {
        ResumeNobody(t, {u});
      }
    }

    /** The order neighbours are visited one by one. */
    method ResumeEach(us: set<Unit>)
      requires Valid()
      modifies this, queue
      ensures View() == ResumeAll(old(View()), us) && Valid()
    {
      ghost var t := View();
      var left := us;
      ResumeNobody(t, {});
      AllInOrder(t);
      while left != {}
        invariant left <= us && Valid() && View() == ResumeAll(t, us - left)
        decreases left
      {
        var u :| u in left;
        ResumeOneMore(t, us - left, u);
        ResumeUnit(u);
        assert us - left + {u} == us - (left - {u});
        left := left - {u};
      }
      assert us - {} == us;
    }

    // -------------------------------------------------------------- finishing and removing

    method RowFor(u: Unit) returns (row: Row)
      ensures row == RowAt(View(), u)
    {
      row := if u in rows then rows[u] else EMPTY_ROW;
    }

    method FinishTriggered(u: Unit, result: JobResult, g: Graph) returns (del: Option<Job>)
      requires Valid() && u in data && data[u].trigger.Some?
      modifies this, queue
      ensures Finishable(old(data)[u]) && View() == Finish(old(View()), u, result, g) && Valid()
      ensures del == FinishTrigger(old(data)[u], RowAt(old(View()), u), result).2
    {
      assert sync;
      CleanAt(View(), u);
      FinishStepSound(u, data[u], RowAt(View(), u), result);
      var row := RowFor(u);
      var (s', row', d) := FinishTrigger(data[u], row, result);
      del := d;
      Update(u, s', row', {}, if d.Some? then {Ref(d.value)} else {});
      ResumeEach(Neighbours(g, u));
    }

    /** Taking out what the result ends, and waking the neighbours if there was something. A removal `breaks`
        the agreement, and is not carried out here, exactly when it leaves a triggered job about to be
        interrupted by nothing, or takes out a pending job that the result does not end. */
    method RemovePending(u: Unit, k1: Kind, k2: Option<Kind>, result: JobResult, active: bool, g: Graph) returns (breaks: bool)
      requires Valid()
      modifies this, queue
      ensures breaks <==> old(u in data && !(KeepsInterrupter(data[u], Kinds(k1, k2)) && EndsAll(data[u].suspends, k1, k2, result)))
      ensures breaks ==> View() == old(View())
      ensures u in old(data) ==> Removable(old(data)[u], RowAt(old(View()), u), Kinds(k1, k2))
      ensures !breaks ==> View() == RemoveSuspends(old(View()), u, Kinds(k1, k2), active, g)
      ensures Valid()
    {
      breaks := false;
      if u !in data { return; }
      RemoveCanOrder(View(), u, Kinds(k1, k2));
      breaks := !(KeepsInterrupter(data[u], Kinds(k1, k2)) && EndsAll(data[u].suspends, k1, k2, result));
      if !breaks { TakeOutPending(u, k1, k2, result, active, g); }
    }

    method TakeOutPending(u: Unit, k1: Kind, k2: Option<Kind>, result: JobResult, active: bool, g: Graph)
      requires Valid() && u in data && KeepsInterrupter(data[u], Kinds(k1, k2)) && EndsAll(data[u].suspends, k1, k2, result)
      requires Removable(data[u], RowAt(View(), u), Kinds(k1, k2))
      modifies this, queue
      ensures View() == RemoveSuspends(old(View()), u, Kinds(k1, k2), active, g) && Valid()
    {
      CleanAt(View(), u);
      var row := RowFor(u);
      RemoveInTurn(u, data[u], row, k1, k2, result);
      RemoveStepAt(View(), u, Kinds(k1, k2), active, RemoveStep(data[u], row, Kinds(k1, k2), active));
      var (s1, row1, d1) := RemoveSuspend(data[u], row, k1, result);
      var (s2, row2, d2) := if k2.Some? then RemoveSuspend(s1, row1, k2.value, result) else (s1, row1, None);
      var (s3, row3) := Reshuffle(s2, row2, active);
      var dels := PendingRefs(data[u].suspends - s2.suspends.Keys);
      Update(u, s3, row3, {}, dels);
      if dels != {} { ResumeEach(Neighbours(g, u)); }
    }

    // -------------------------------------------------------------- triggering

    /** Take a unit from the queue: the greatest ready one, or the given one if it is ready. */
    method PopReady(which: Option<Unit>) returns (u: Option<Unit>)
      requires queue.Valid()
      modifies queue
      ensures u.Some? <==> if which.Some? then which.value in old(queue.Contents()) else old(queue.Contents()) != {}
      ensures u.Some? ==> if which.Some? then u == which else IsGreatest(u.value, old(queue.Contents()))
      ensures queue.Valid() && queue.Contents() == old(queue.Contents()) - if u.Some? then {u.value} else {}
    {
      if which.Some? {
        var found := queue.PopUnit(which.value);
        u := if found then which else None;
      } else {
        u := queue.Pop();
      }
    }

    /** What becomes of the entry: its next job runs, or it is paused. */
    method NextOfEntry(u: Unit, answer: Answer, g: Graph, ghost t: Table) returns (st: UnitStep)
      requires u in t.data && Triggerable(t.data[u]) && rows == t.rows && data == t.data
      ensures IsOutcome(t, u, answer, g, st)
    {
      var row := if u in rows then rows[u] else EMPTY_ROW;
      var s := data[u];
      if Runnable(Table(data, rows, ids, {}, num), g, u) {
        var (s', row') := DoTrigger(s, row, answer);
        st := UnitStep(Synced(s'), row', {}, if Interrupted(s).Some? then {Ref(Interrupted(s).value)} else {});
      } else {
        st := UnitStep(Synced(Pause(s)), row, {}, {});
      }
    }

    /** Nothing happens when nothing is ready; otherwise the popped unit is triggered or paused. */
    method TryTriggerNext(which: Option<Unit>, answer: Answer, g: Graph) returns (u: Option<Unit>)
      requires Valid()
      modifies this, queue
      ensures u.Some? <==> if which.Some? then which.value in old(View()).ready else old(View()).ready != {}
      ensures u.Some? ==> if which.Some? then u == which else IsGreatest(u.value, old(View()).ready)
      ensures u.None? ==> View() == old(View())
      ensures u.Some? ==> u.value in old(data) && Triggerable(old(data)[u.value])
      ensures u.Some? ==> View() == TryTrigger(old(View()), u.value, answer, g)
      ensures Valid()
    {
      ghost var t := View();
      u := PopReady(which);
      if u.None? {
        assert t.ready - {} == t.ready;
        return;
      }
      TriggerStepAt(t, u.value, answer);
      var st := NextOfEntry(u.value, answer, g, t);
      OutcomeSound(t, u.value, answer, g, st);
      Write(u.value, st, t);
    }

    /** The popped unit is not ready any more, so the queue need not be told. */
    method Write(u: Unit, st: UnitStep, ghost t: Table)
      requires TableInv(t) && u in t.ready && StepOk(t, u, st) && st.adds == {} && !st.s.upReady && !IsEmpty(st.s)
      requires data == t.data && rows == t.rows && ids == t.ids && num == t.num
      requires sync && queue.Valid() && queue.Contents() == t.ready - {u}
      modifies this
      ensures View() == Apply(t, map[u := st]) && Valid()
    {
      PoppedEntry(t, u, st.s);
      SetEntry(u, st);
      ApplyOne(t, u, st, View());
    }

    method SetEntry(u: Unit, st: UnitStep)
      modifies this
      ensures sync == old(sync)
      ensures data == old(data)[u := st.s] && rows == old(rows)[u := st.row]
      ensures ids == old(ids) + st.adds - st.dels && num == NumAfter(old(num), st.adds, st.dels)
    {
      data := data[u := st.s];
      rows := rows[u := st.row];
      ids := ids + st.adds - st.dels;
      num := NumAfter(num, st.adds, st.dels);
    }
  }

  ghost predicate IsOutcome(t: Table, u: Unit, answer: Answer, g: Graph, st: UnitStep)
    requires u in t.data && Triggerable(t.data[u])
  {
    st == if Runnable(t, g, u) then TriggerStep(t.data[u], RowAt(t, u), answer) else PauseStep(t.data[u], RowAt(t, u))
  }

  lemma OutcomeSound(t: Table, u: Unit, answer: Answer, g: Graph, st: UnitStep)
    requires TableInv(t) && u in t.ready && u in t.data && Triggerable(t.data[u]) && IsOutcome(t, u, answer, g, st)
    ensures StepOk(t, u, st) && st.adds == {} && !st.s.upReady && !IsEmpty(st.s)
    ensures TryTrigger(t, u, answer, g) == Apply(t, map[u := st])
  {
    TriggerStepAt(t, u, answer);
    CleanAt(t, u);
    DoTriggerKeeps(u, t.data[u], RowAt(t, u), answer);
  }

  lemma PoppedEntry(t: Table, u: Unit, s: UnitState)
    requires UnitsClean(t) && QueueExact(t) && u in t.ready && !s.upReady && !IsEmpty(s)
    ensures UpReady(Entry(t.data, u, s)) == t.ready - {u}
  {
  }

  /** The result ends each pending job of the two kinds. */
  predicate EndsAll(m: map<Kind, Job>, k1: Kind, k2: Option<Kind>, result: JobResult) {
    (k1 in m ==> EndsPending(k1, result)) && (k2.Some? && k2.value in m ==> EndsPending(k2.value, result))
  }

  lemma RemoveNothing(s: UnitState, row: Row, k: Kind, result: JobResult)
    requires k !in s.suspends
    ensures (RemoveSuspend(s, row, k, result).0, RemoveSuspend(s, row, k, result).1) == RemoveKinds(s, row, {k})
  {
    assert s.suspends - {k} == s.suspends && {k} * s.suspends.Keys == {} && row.susp - {} == row.susp;
  }

  lemma RemoveInTurn(u: Unit, s: UnitState, row: Row, k1: Kind, k2: Option<Kind>, result: JobResult)
    requires JobsOk(u, s) && EndsAll(s.suspends, k1, k2, result)
    ensures k1 in s.suspends ==> s.suspends[k1].stage.Wait?
    ensures var (s1, row1, d1) := RemoveSuspend(s, row, k1, result);
            && (k2.Some? && k2.value in s1.suspends ==> s1.suspends[k2.value].stage.Wait?)
            && RemoveKinds(s, row, Kinds(k1, k2))
               == if k2.Some? then (RemoveSuspend(s1, row1, k2.value, result).0, RemoveSuspend(s1, row1, k2.value, result).1)
                  else (s1, row1)
  {
    if k1 in s.suspends { RemoveIsRemoveKinds(u, s, row, k1, result); } else { RemoveNothing(s, row, k1, result); }
    var (s1, row1, d1) := RemoveSuspend(s, row, k1, result);
    if k2.Some? {
      if k2.value in s1.suspends {
        RemoveIsRemoveKinds(u, s1, row1, k2.value, result);
      } else {
        RemoveNothing(s1, row1, k2.value, result);
      }
      RemoveKindsTwice(s, row, {k1}, {k2.value});
      assert {k1} + {k2.value} == {k1, k2.value};
    }
  }

  function Entry(data: map<Unit, UnitState>, u: Unit, s: UnitState): map<Unit, UnitState> {
    if IsEmpty(s) then data - {u} else data[u := s]
  }

  lemma NotReadyIfEmpty(u: Unit, s: UnitState)
    requires CleanUnit(u, s) && IsEmpty(s)
    ensures !s.ready
  {
    CanonShape(s.suspends);
  }

  lemma EntryIs(data: map<Unit, UnitState>, u: Unit, st: UnitStep)
    ensures DataAfter(data, map[u := st]) == Entry(data, u, st.s)
  {
  }

  lemma ReadyIsUp(t: Table)
    requires UnitsClean(t)
    ensures UpReady(t.data) == ReadyUnits(t.data)
  {
  }

  lemma RowsSingle(rows: map<Unit, Row>, u: Unit, st: UnitStep, steps: map<Unit, UnitStep>)
    requires steps == map[u := st]
    ensures rows[u := st.row] == rows + (map v | v in steps :: steps[v].row)
  {
  }

  lemma ApplySingle(t: Table, u: Unit, st: UnitStep)
    ensures Apply(t, map[u := st])
         == Table(Entry(t.data, u, st.s), t.rows[u := st.row], t.ids + st.adds - st.dels,
                  ReadyUnits(Entry(t.data, u, st.s)), NumAfter(t.num, st.adds, st.dels))
  {
    var steps := map[u := st];
    SingleRefs(u, st);
    EntryIs(t.data, u, st);
    RowsSingle(t.rows, u, st, steps);
  }

  lemma ApplyOne(t: Table, u: Unit, st: UnitStep, t': Table)
    requires TableInv(t) && StepOk(t, u, st) && FreshIds(t.ids, st.adds)
    requires t'.data == Entry(t.data, u, st.s) && t'.rows == t.rows[u := st.row] && t'.ready == UpReady(t'.data)
    requires t'.ids == t.ids + st.adds - st.dels && t'.num == NumAfter(t.num, st.adds, st.dels)
    ensures t' == Apply(t, map[u := st]) && TableInv(t')
  {
    SingleRefs(u, st);
    ApplyKeeps(t, map[u := st], Apply(t, map[u := st]));
    ApplySingle(t, u, st);
    ReadyIsUp(Apply(t, map[u := st]));
  }

  lemma MarkedSame(data: map<Unit, UnitState>, u: Unit, s: UnitState)
    requires s.upReady == (u in data && data[u].upReady)
    ensures UpReady(data[u := s]) == UpReady(data)
  {
  }

  lemma EntryTwice(data: map<Unit, UnitState>, u: Unit, s: UnitState, s': UnitState)
    ensures data[u := s][u := s'] == data[u := s'] && data[u := s] - {u} == data - {u}
  {
  }

  lemma ApplyNothing(t: Table)
    requires QueueExact(t)
    ensures Apply(t, map[]) == t
  {
    assert DataAfter(t.data, map[]) == t.data;
    assert NumAfter(t.num, {}, {}) == t.num by { assert forall k :: OfKind({}, k) == {}; }
    assert Adds(map[]) == {} && Dels(map[]) == {};
  }

  lemma ResumeNobody(t: Table, us: set<Unit>)
    requires TableInv(t) && forall u :: u in us && u in t.data ==> !t.data[u].pause
    ensures ResumeAll(t, us) == t
  {
    assert ResumeSteps(t, us) == map[];
    ApplyNothing(t);
  }

  lemma ResumeJust(t: Table, u: Unit)
    requires u in t.data && t.data[u].pause && t.data[u].order
    ensures ResumeAll(t, {u}) == Apply(t, map[u := ResumeStep(t.data[u], RowAt(t, u))])
  {
    assert ResumeSteps(t, {u}) == map[u := ResumeStep(t.data[u], RowAt(t, u))];
  }

  ghost predicate InOrder(data: map<Unit, UnitState>) {
    forall u :: u in data ==> data[u].order && !IsEmpty(data[u])
  }

  function WokenData(data: map<Unit, UnitState>, us: set<Unit>): map<Unit, UnitState>
    requires InOrder(data)
  {
    map u | u in data :: Resumed(data[u], u in us)
  }

  function WokenRows(t: Table, us: set<Unit>): map<Unit, Row> {
    map u | u in us && u in t.data && t.data[u].pause && t.data[u].order :: RowAt(t, u)
  }

  lemma NoChanges(steps: map<Unit, UnitStep>, num: map<Kind, int>)
    requires forall u :: u in steps ==> steps[u].adds == {} && steps[u].dels == {}
    ensures Adds(steps) == {} && Dels(steps) == {} && NumAfter(num, {}, {}) == num
  {
    assert forall k :: OfKind({}, k) == {};
  }

  /** Resuming only clears pauses. */
  lemma ResumeIs(t: Table, us: set<Unit>)
    requires InOrder(t.data)
    ensures ResumeAll(t, us)
         == Table(WokenData(t.data, us), t.rows + WokenRows(t, us), t.ids, ReadyUnits(WokenData(t.data, us)), t.num)
  {
    var steps := ResumeSteps(t, us);
    NoChanges(steps, t.num);
    assert DataAfter(t.data, steps) == WokenData(t.data, us);
    assert (map u | u in steps :: steps[u].row) == WokenRows(t, us);
  }

  lemma WokenTwice(data: map<Unit, UnitState>, us: set<Unit>, u: Unit)
    requires InOrder(data)
    ensures InOrder(WokenData(data, us))
    ensures WokenData(WokenData(data, us), {u}) == WokenData(data, us + {u})
  {
  }

  lemma PausedAfter(t: Table, us: set<Unit>, u: Unit, t1: Table)
    requires InOrder(t.data) && t1.data == WokenData(t.data, us)
    ensures u in WokenRows(t1, {u}) <==> u in WokenRows(t, {u}) && u !in us
    ensures forall v :: v in WokenRows(t, us + {u}) <==> v in WokenRows(t, us) || (v == u && v in WokenRows(t1, {u}))
  {
  }

  lemma WokenRowsTwice(t: Table, us: set<Unit>, u: Unit, t1: Table)
    requires InOrder(t.data) && t1.data == WokenData(t.data, us) && t1.rows == t.rows + WokenRows(t, us)
    ensures t1.rows + WokenRows(t1, {u}) == t.rows + WokenRows(t, us + {u})
  {
    PausedAfter(t, us, u, t1);
    var one := WokenRows(t1, {u});
    assert forall v :: v in one ==> v == u;
    assert RowAt(t1, u) == RowAt(t, u);
  }

  lemma ResumeOneMore(t: Table, us: set<Unit>, u: Unit)
    requires InOrder(t.data)
    ensures ResumeAll(ResumeAll(t, us), {u}) == ResumeAll(t, us + {u})
  {
    var t1 := ResumeAll(t, us);
    ResumeIs(t, us);
    WokenTwice(t.data, us, u);
    ResumeIs(t1, {u});
    ResumeIs(t, us + {u});
    WokenRowsTwice(t, us, u, t1);
  }

  lemma AllInOrder(t: Table)
    requires UnitsClean(t)
    ensures InOrder(t.data)
  {
  }
}
