/** Running the recovered jobs again, unit by unit: each unit is expected to have something to run when its
    turn comes, and exactly when that fails. */
module RecoveryReruns {
  import opened Jobs
  import opened JobUnits
  import opened JobUnitLaws
  import opened JobTables
  import opened JobStepLaws
  import opened JobRuns
  import opened JobProgress
  import opened JobFallback
  import opened Recovery

  /** The unit has not been triggered yet: it is not paused, a triggered job of it is due again, and all
      that is pending is queued. */
  predicate IsFresh(s: UnitState) {
    s.order && !s.pause && (s.trigger.Some? ==> s.retrigger) && s.sq == Canon(s.suspends)
  }

  ghost predicate AwaitsTurn(t: Table, u: Unit) {
    u in t.data ==> IsFresh(t.data[u])
  }

  lemma NewIsFresh()
    ensures IsFresh(NEW_UNIT)
  {
    CanonShape(map[]);
  }

  /** A unit that awaits its turn finds something to run if and only if it has a job at all. */
  lemma ReadyIfThere(t: Table, u: Unit)
    requires TableInv(t) && AwaitsTurn(t, u)
    ensures u in t.ready <==> u in t.data
  {
    CleanAt(t, u);
    if u in t.data { KeyedPending(u, t.data[u]); CanonShape(t.data[u].suspends); }
  }

  // ---------------------------------------------------------------- what other events than its turn do

  /** The event takes away the last job of the unit. */
  ghost predicate Clears(sc: Sched, e: Event, u: Unit) {
    && u in sc.t.data
    && match e
       case End(v, result) =>
         v == u && sc.t.data[u].trigger.Some? && !Retries(sc.t.data[u].trigger.value, result) && sc.t.data[u].sq == []
       case Drop(v, ks, _) => v == u && sc.t.data[u].trigger.None? && sc.t.data[u].suspends.Keys <= ks
       case Transact(_, iso, _) => u in iso && sc.t.data[u].trigger.None?
       case _ => false
  }

  /** The event gives the unit a job. */
  predicate Gives(e: Event, u: Unit) {
    e.Transact? && u in e.stage
  }

  lemma OthersStay(t: Table, w: Unit, s': UnitState, us: set<Unit>, t': Table, u: Unit)
    requires OneChanges(t, w, s', us, t') && AwaitsTurn(t, u) && u != w
    ensures AwaitsTurn(t', u) && (u in t'.data <==> u in t.data) && (u in t.data ==> t'.data[u] == t.data[u])
  {
  }

  lemma OwnStays(t: Table, u: Unit, s': UnitState, us: set<Unit>, t': Table)
    requires OneChanges(t, u, s', us, t') && IsFresh(s')
    ensures AwaitsTurn(t', u) && (u in t'.data <==> !IsEmpty(s'))
  {
  }

  lemma FinishFresh(u: Unit, s: UnitState, row: Row, result: JobResult, s': UnitState)
    requires CleanUnit(u, s) && IsFresh(s) && Finishable(s) && s' == FinishStep(s, row, result).s
    ensures IsFresh(s') && (IsEmpty(s') <==> s.sq == [] && !Retries(s.trigger.value, result))
  {
    FinishOutcome(u, s, row, result, s');
    KeyedPending(u, s);
    CanonShape(s.suspends);
  }

  lemma EndTurn(sc: Sched, e: Event, g: Graph, sc': Sched, u: Unit)
    requires TableInv(sc.t) && Enabled(sc, e) && e.End? && sc' == Step(sc, e, g) && AwaitsTurn(sc.t, u)
    ensures AwaitsTurn(sc'.t, u) && (u in sc'.t.data <==> u in sc.t.data && !Clears(sc, e, u))
  {
    StepOfEnd(sc, e, g, sc');
    var t, w := sc.t, e.unit;
    CleanAt(t, w);
    FinishStepSound(w, t.data[w], RowAt(t, w), e.result);
    var st := FinishStep(t.data[w], RowAt(t, w), e.result);
    OneChangesIs(t, w, st, Neighbours(g, w), Apply(t, map[w := st]), sc'.t);
    if w == u {
      FinishFresh(u, t.data[u], RowAt(t, u), e.result, st.s);
      OwnStays(t, u, st.s, Neighbours(g, u), sc'.t);
    } else {
      OthersStay(t, w, st.s, Neighbours(g, w), sc'.t, u);
    }
  }

  lemma RemoveFresh(u: Unit, s: UnitState, row: Row, ks: set<Kind>, active: bool, s': UnitState)
    requires IsFresh(s) && Removable(s, row, ks) && s' == RemoveStep(s, row, ks, active).s
    ensures IsFresh(s') && (IsEmpty(s') <==> s.trigger.None? && s.suspends.Keys <= ks)
  {
    var left := s.suspends - ks;
    MergedLeavesOneMut(left, active, s'.suspends);
    assert left == map[] <==> s.suspends.Keys <= ks by {
      if s.suspends.Keys <= ks { assert left.Keys == {}; }
      if k :| k in s.suspends && k !in ks { assert k in left; }
    }
  }

  lemma DropTurn(sc: Sched, e: Event, g: Graph, t': Table, u: Unit)
    requires TableInv(sc.t) && Enabled(sc, e) && e.Drop? && e.unit in sc.t.data && t' == NextTable(sc, e, g) && AwaitsTurn(sc.t, u)
    ensures AwaitsTurn(t', u) && (u in t'.data <==> u in sc.t.data && !Clears(sc, e, u))
  {
    Ready(sc, e);
    var t, w := sc.t, e.unit;
    var st := RemoveStep(t.data[w], RowAt(t, w), e.kinds, e.isActive);
    RemoveStepAt(t, w, e.kinds, e.isActive, st);
    WakeChanges(t, w, st, g);
    var us := if st.dels == {} then {} else Neighbours(g, w);
    if w == u {
      RemoveFresh(u, t.data[u], RowAt(t, u), e.kinds, e.isActive, st.s);
      OwnStays(t, u, st.s, us, t');
    } else {
      OthersStay(t, w, st.s, us, t', u);
    }
  }

  lemma CommitFresh(u: Unit, s: UnitState, row: Row, o: map<Kind, Job>, iso: bool, active: bool, s': UnitState)
    requires CleanUnit(u, s) && IsFresh(s) && StagedOk(u, o) && (if iso then o == map[] else o != map[])
    requires !Conflict(CommitMerge(s, row, o, iso).0.suspends) && s' == CommitStep(s, row, o, iso, active).s
    ensures IsFresh(s') && (IsEmpty(s') <==> iso && s.trigger.None?)
  {
    var s2 := CommitMerge(s, row, o, iso).0;
    MergeFrame(s, row, o, iso, s2);
    assert !iso ==> s2.suspends != map[] by {
      if !iso { var k :| k in o; assert k in s2.suspends; }
    }
    if s2.order {
      KnownMerge(s, row, o, iso, s2);
    } else {
      MergedLeavesOneMut(s2.suspends, active, s'.suspends);
    }
  }

  /** A merge that leaves the order alone has changed attributes at most. */
  lemma KnownMerge(s: UnitState, row: Row, o: map<Kind, Job>, iso: bool, s2: UnitState)
    requires s.order && !s.dirty && s2 == CommitMerge(s, row, o, iso).0 && s2.order
    ensures !s2.dirty && Canon(s2.suspends) == Canon(s.suspends)
  {
    assert !iso && !ConflictWith(s.suspends, o);
    var m := UnionSuspends(s.suspends, o);
    assert s2 == AddSuspends(s, row, o).0 && o.Keys <= s.suspends.Keys;
    assert m.Keys == s.suspends.Keys;
    CanonOfAttrs(s.suspends, m);
  }

  lemma TransactTurn(sc: Sched, e: Event, g: Graph, t': Table, u: Unit)
    requires TableInv(sc.t) && Enabled(sc, e) && e.Transact? && t' == NextTable(sc, e, g) && AwaitsTurn(sc.t, u)
    ensures AwaitsTurn(t', u) && (u in t'.data <==> (u in sc.t.data && !Clears(sc, e, u)) || Gives(e, u))
  {
    Ready(sc, e);
    var t := sc.t;
    var steps := CommitSteps(t, e.stage, e.iso, e.active);
    var t1 := Apply(t, steps);
    NewIsFresh();
    if u in steps {
      StagedAtFresh(t, e.stage, u);
      CleanAt(t, u);
      CommitFresh(u, At(t, u), RowAt(t, u), StagedAt(e.stage, u), u in e.iso, u in e.active, steps[u].s);
    }
    assert u in t1.data <==> (u in t.data && !Clears(sc, e, u)) || Gives(e, u);
    CommitApplied(t, e.stage, e.iso, e.active, t1);
    ResumeOneFrame(t1, AllNeighbours(g, Flushed(t, e.stage, e.iso)), t', u);
  }

  /** Whatever happens before its turn, the unit is ready afterwards, so that its turn finds something to run,
      if and only if it was ready and has not lost its last job, or it was given one. */
  lemma TurnExact(sc: Sched, e: Event, g: Graph, sc': Sched, u: Unit)
    requires TableInv(sc.t) && Enabled(sc, e) && sc' == Step(sc, e, g) && AwaitsTurn(sc.t, u) && !(e.Pop? && e.unit == u)
    ensures AwaitsTurn(sc'.t, u)
    ensures u in sc'.t.ready <==> (u in sc.t.ready && !Clears(sc, e, u)) || Gives(e, u)
  {
    match e {
      case Transact(_, _, _) => TransactTurn(sc, e, g, sc'.t, u);
      case Pop(_, _) => OnlyPopped(sc, e, g, sc'.t, u);
      case End(_, _) => EndTurn(sc, e, g, sc', u);
      case Drop(_, _, _) => if e.unit in sc.t.data { DropTurn(sc, e, g, sc'.t, u); }
      case Notify(_) => ResumeOneFrame(sc.t, {e.unit}, sc'.t, u);
    }
    NextTableKeeps(sc, e, g, sc'.t);
    ReadyIfThere(sc.t, u);
    ReadyIfThere(sc'.t, u);
  }

  // ---------------------------------------------------------------- until its turn

  predicate NotItsTurn(es: seq<Event>, u: Unit) {
    forall e :: e in es ==> !(e.Pop? && e.unit == u)
  }

  /** Does the unit have a job after these events, if that was so before? */
  ghost predicate StillHas(sc: Sched, es: seq<Event>, g: Graph, u: Unit, has: bool)
    requires RunInv(sc, g) && EnabledAll(sc, es, g)
    decreases |es|
  {
    if es == [] then has
    else
      StepKeeps(sc, es[0], g, Step(sc, es[0], g));
      StillHas(Step(sc, es[0], g), es[1..], g, u, (has && !Clears(sc, es[0], u)) || Gives(es[0], u))
  }

  /** For every run up to the turn of a unit: the turn finds something to run if and only if no event took
      the last job of the unit away since it was last given one. */
  lemma {:induction false} TurnFindsJob(sc: Sched, es: seq<Event>, g: Graph, u: Unit)
    requires RunInv(sc, g) && EnabledAll(sc, es, g) && AwaitsTurn(sc.t, u) && NotItsTurn(es, u)
    ensures AwaitsTurn(Run(sc, es, g).t, u)
    ensures u in Run(sc, es, g).t.ready <==> StillHas(sc, es, g, u, u in sc.t.ready)
    decreases |es|
  {
    if es != [] {
      var next := Step(sc, es[0], g);
      StepKeeps(sc, es[0], g, next);
      TurnExact(sc, es[0], g, next, u);
      TurnFindsJob(next, es[1..], g, u);
    }
  }

  ghost predicate SomethingClears(sc: Sched, es: seq<Event>, g: Graph, u: Unit)
    requires RunInv(sc, g) && EnabledAll(sc, es, g)
    decreases |es|
  {
    es != [] &&
      (|| Clears(sc, es[0], u)
       || (StepKeeps(sc, es[0], g, Step(sc, es[0], g)); SomethingClears(Step(sc, es[0], g), es[1..], g, u)))
  }

  /** Without new requests for the unit, its turn fails if and only if some event takes its last job away. */
  lemma {:induction false} TurnFailsIfCleared(sc: Sched, es: seq<Event>, g: Graph, u: Unit)
    requires RunInv(sc, g) && EnabledAll(sc, es, g) && AwaitsTurn(sc.t, u) && u in sc.t.ready
    requires NotItsTurn(es, u) && forall e :: e in es ==> !Gives(e, u)
    ensures u !in Run(sc, es, g).t.ready <==> SomethingClears(sc, es, g, u)
    decreases |es|
  {
    if es != [] {
      var next := Step(sc, es[0], g);
      StepKeeps(sc, es[0], g, next);
      TurnExact(sc, es[0], g, next, u);
      if u in next.t.ready { TurnFailsIfCleared(next, es[1..], g, u); } else { GoneStaysGone(next, es[1..], g, u); }
    }
  }

  lemma {:induction false} GoneStaysGone(sc: Sched, es: seq<Event>, g: Graph, u: Unit)
    requires RunInv(sc, g) && EnabledAll(sc, es, g) && AwaitsTurn(sc.t, u) && u !in sc.t.ready
    requires NotItsTurn(es, u) && forall e :: e in es ==> !Gives(e, u)
    ensures u !in Run(sc, es, g).t.ready
    decreases |es|
  {
    if es != [] {
      var next := Step(sc, es[0], g);
      StepKeeps(sc, es[0], g, next);
      TurnExact(sc, es[0], g, next, u);
      GoneStaysGone(next, es[1..], g, u);
    }
  }

  // ---------------------------------------------------------------- the recovered table

  lemma RecoveredFresh(u: Unit, row: Row, id: nat, ids: map<Kind, nat>, active: bool)
    requires RowOk(row) && row.susp.Keys <= ids.Keys && IdsApart(id, ids) && !Conflict(Recovered(u, row, id, ids).suspends)
    ensures IsFresh(RecoverUnit(u, row, id, ids, active))
  {
    RecoverUnitOk(u, row, id, ids, active);
    var s := Recovered(u, row, id, ids);
    RecoveredInOrder(u, row, id, ids, s);
    if s.order { NewIsFresh(); }
  }

  /** After a recovery every unit awaits its turn, and those with a job that was triggered are ready. */
  lemma RecoveredAwaits(rows: Rows, n: NewIds, active: set<Unit>, u: Unit)
    requires RowsOk(rows) && NewIdsOk(rows, n)
    ensures AwaitsTurn(RecoverTable(rows, n, active), u)
    ensures RowOf(rows, u).trig.Some? ==> u in RecoverTable(rows, n, active).ready
  {
    var t := RecoverTable(rows, n, active);
    RecoverTableOk(rows, n, active);
    AppliedAt(RecoverSteps(rows, n, active), u);
    Retriggered(rows, n, active, u);
    CleanAt(t, u);
    if u in rows {
      RecoverUnitOk(u, rows[u], n.trig[u], n.susp[u], u in active);
      RecoveredFresh(u, rows[u], n.trig[u], n.susp[u], u in active);
    }
  }

  // ---------------------------------------------------------------- when it fails

  /** The unit holds a job that a fallback leaves alone. */
  predicate HoldsOther(s: UnitState) {
    (s.trigger.Some? && !StartLike(s.trigger.value.runKind)) || exists k :: k in s.suspends && !StartLike(k)
  }

  lemma NotAVictim(t: Table, b: Unit, h: Handle, d: Job, result: JobResult)
    requires TableInv(t) && b in t.data && IsVictim(t, d, result)
    requires || (t.data[b].trigger.Some? && h == Ref(t.data[b].trigger.value) && !StartLike(t.data[b].trigger.value.runKind))
             || (h.kind in t.data[b].suspends && h == Ref(t.data[b].suspends[h.kind]) && !StartLike(h.kind))
    ensures Ref(d) != h
  {
    CleanAt(t, b);
  }

  lemma OtherSurvives(t: Table, t': Table, ds: seq<Job>, result: JobResult, b: Unit)
    requires TableInv(t) && Lost(t, t', ds, result) && b in t.data && HoldsOther(t.data[b])
    ensures b in t'.data
  {
    var s := t.data[b];
    CleanAt(t, b);
    var h;
    if s.trigger.Some? && !StartLike(s.trigger.value.runKind) {
      h := Ref(s.trigger.value);
    } else {
      var k :| k in s.suspends && !StartLike(k);
      assert PendingOk(b, k, s.suspends[k]);
      h := Ref(s.suspends[k]);
    }
    assert h in UnitRefs(s) && h.unit == b && h in t.ids;
    forall d | d in ds
      ensures Ref(d) != h
    {
      NotAVictim(t, b, h, d, result);
    }
    assert h in t'.ids;
  }

  lemma FailUnitAwaits(t: Table, v: Unit, result: JobResult, active: bool, g: Graph, u: Unit)
    requires TableInv(t) && !result.Done? && AwaitsTurn(t, u)
    ensures AwaitsTurn(FailUnit(t, v, result, active, g), u)
  {
    var t1 := FailTrigger(t, v, result, g);
    var sc, e := Sched(t, {}), Event.End(v, result);
    FailingIsEvents(sc, v, result, active, g);
    if v in t.data && TriggerFails(t.data[v]) { TurnExact(sc, e, g, Step(sc, e, g), u); }
    var sc1, e1 := Sched(t1, {}), Drop(v, {Start, Verify}, active);
    FailingIsEvents(sc1, v, result, active, g);
    TurnExact(sc1, e1, g, Step(sc1, e1, g), u);
  }

  lemma {:induction false} FailAllAwaits(t: Table, vs: seq<Unit>, result: JobResult, active: set<Unit>, g: Graph, u: Unit)
    requires TableInv(t) && !result.Done? && AwaitsTurn(t, u)
    ensures AwaitsTurn(FailAll(t, vs, result, active, g).0, u)
    decreases |vs|
  {
    if vs != [] {
      FailUnitAwaits(t, vs[0], result, vs[0] in active, g, u);
      FailAllAwaits(FailUnit(t, vs[0], result, vs[0] in active, g), vs[1..], result, active, g, u);
    }
  }

  lemma FallbackIs(t: Table, deps: FailDeps, a: Unit, rk: Kind, result: JobResult, active: set<Unit>, g: Graph, t1: Table, ds: seq<Job>)
    requires TableInv(t) && !result.Done? && (t1, ds) == FailAll(t, Targets(deps, a, rk), result, active, g)
    ensures TableInv(t1) && (ds != [] ==> |t1.ids| < |t.ids|)
    ensures Fallback(t, deps, a, rk, result, active, g).0 == if ds == [] then t1 else FallbackAll(t1, deps, ds, result, active, g).0
  {
  }

  lemma {:induction false} FallbackAwaits(t: Table, deps: FailDeps, a: Unit, rk: Kind, result: JobResult, active: set<Unit>, g: Graph, u: Unit)
    requires TableInv(t) && !result.Done? && AwaitsTurn(t, u)
    ensures AwaitsTurn(Fallback(t, deps, a, rk, result, active, g).0, u)
    decreases |t.ids|, 1
  {
    var (t1, ds) := FailAll(t, Targets(deps, a, rk), result, active, g);
    FailAllAwaits(t, Targets(deps, a, rk), result, active, g, u);
    FallbackIs(t, deps, a, rk, result, active, g, t1, ds);
    if ds != [] { FallbackAllAwaits(t1, deps, ds, result, active, g, u); }
  }

  lemma {:induction false} FallbackAllAwaits(t: Table, deps: FailDeps, ds: seq<Job>, result: JobResult, active: set<Unit>, g: Graph, u: Unit)
    requires TableInv(t) && !result.Done? && AwaitsTurn(t, u)
    ensures AwaitsTurn(FallbackAll(t, deps, ds, result, active, g).0, u)
    decreases |t.ids|, 1 + |ds|
  {
    if ds != [] {
      FallbackAwaits(t, deps, ds[0].unit, ds[0].runKind, result, active, g, u);
      FallbackAllAwaits(Fallback(t, deps, ds[0].unit, ds[0].runKind, result, active, g).0, deps, ds[1..], result, active, g, u);
    }
  }

  lemma NothingLeft(s: UnitState, s': UnitState)
    requires (forall k :: k in s'.suspends ==> k in s.suspends) && (s'.trigger.None? || s'.trigger == s.trigger)
    requires !HoldsOther(s) && !TriggerFails(s') && Start !in s'.suspends && Verify !in s'.suspends
    ensures IsEmpty(s')
  {
    assert s'.suspends.Keys == {};
  }

  lemma SettledIsGone(t: Table, t': Table, b: Unit)
    requires UnitsClean(t') && Shrinks(t, t') && Settled(t', b) && b in t.data && !HoldsOther(t.data[b])
    ensures b !in t'.data
  {
    if b in t'.data { NothingLeft(t.data[b], t'.data[b]); }
  }

  /** A failing job that leads to a unit takes the turn of that unit away, if and only if the unit holds
      nothing but starts and verifies. A unit that holds anything else keeps its turn in every fallback. */
  lemma FallbackTurnExact(t: Table, deps: FailDeps, a: Unit, rk: Kind, result: JobResult, active: set<Unit>, g: Graph, b: Unit)
    requires TableInv(t) && !result.Done? && AwaitsTurn(t, b) && b in t.data
    ensures HoldsOther(t.data[b]) ==> b in Fallback(t, deps, a, rk, result, active, g).0.ready
    ensures b in Targets(deps, a, rk) && !HoldsOther(t.data[b]) ==> b !in Fallback(t, deps, a, rk, result, active, g).0.ready
  {
    var (t', ds) := Fallback(t, deps, a, rk, result, active, g);
    FallbackAwaits(t, deps, a, rk, result, active, g, b);
    ReadyIfThere(t', b);
    if HoldsOther(t.data[b]) {
      OtherSurvives(t, t', ds, result, b);
    } else if b in Targets(deps, a, rk) {
      SettledIsGone(t, t', b);
    }
  }

  // ---------------------------------------------------------------- one turn that takes another one away

  lemma PoppedKeepsJob(sc: Sched, e: Event, g: Graph, t': Table)
    requires TableInv(sc.t) && Enabled(sc, e) && e.Pop? && e.unit in sc.t.data && sc.t.data[e.unit].trigger.Some?
    requires t' == NextTable(sc, e, g)
    ensures e.unit in t'.data && t'.data[e.unit].trigger.Some?
  {
    Ready(sc, e);
    var t, w := sc.t, e.unit;
    if Runnable(t, g, w) {
      SingleFrame(t, w, TriggerStep(t.data[w], RowAt(t, w), e.answer), t');
    } else {
      SingleFrame(t, w, PauseStep(t.data[w], RowAt(t, w)), t');
    }
  }

  lemma EndOther(sc: Sched, e: Event, g: Graph, sc': Sched, b: Unit)
    requires TableInv(sc.t) && Enabled(sc, e) && e.End? && e.unit != b && sc' == Step(sc, e, g) && AwaitsTurn(sc.t, b) && b in sc.t.data
    ensures b in sc'.t.data && sc'.t.data[b] == sc.t.data[b]
  {
    StepOfEnd(sc, e, g, sc');
    var s' := EndChanges(sc.t, e.unit, e.result, g, sc'.t);
    OthersStay(sc.t, e.unit, s', Neighbours(g, e.unit), sc'.t, b);
  }

  /** A turn: the unit is triggered, and its answer ends the job. */
  function TurnOf(a: Unit, r: JobResult): seq<Event> {
    [Pop(a, RunEnd(r))] + [Event.End(a, r)]
  }

  lemma RunOne(sc: Sched, e: Event, g: Graph, next: Sched)
    requires RunInv(sc, g) && Enabled(sc, e) && next == Step(sc, e, g)
    ensures EnabledAll(sc, [e], g) && Run(sc, [e], g) == next
  {
    StepKeeps(sc, e, g, next);
    RunFirst(sc, e, [], g, next, [e]);
  }

  lemma RunTwo(sc: Sched, e: Event, f: Event, g: Graph, sc1: Sched, sc2: Sched, es: seq<Event>)
    requires RunInv(sc, g) && RunInv(sc1, g) && Enabled(sc, e) && sc1 == Step(sc, e, g) && Enabled(sc1, f) && sc2 == Step(sc1, f, g)
    requires es == [e] + [f]
    ensures EnabledAll(sc, es, g) && Run(sc, es, g) == sc2
  {
    RunOne(sc1, f, g, sc2);
    RunFirst(sc, e, [f], g, sc1, es);
  }

  lemma TurnSteps(sc: Sched, e: Event, f: Event, g: Graph, b: Unit) returns (sc1: Sched, sc2: Sched)
    requires RunInv(sc, g) && e.Pop? && f.End? && e.unit == f.unit != b && e.unit in sc.t.ready && e.unit in sc.t.data
    requires sc.t.data[e.unit].trigger.Some? && AwaitsTurn(sc.t, b) && b in sc.t.data
    ensures RunInv(sc1, g) && Enabled(sc, e) && sc1 == Step(sc, e, g) && Enabled(sc1, f) && sc2 == Step(sc1, f, g)
    ensures b in sc2.t.data && sc2.t.data[b] == sc.t.data[b]
  {
    sc1 := Step(sc, e, g);
    StepKeeps(sc, e, g, sc1);
    PoppedKeepsJob(sc, e, g, sc1.t);
    OnlyPopped(sc, e, g, sc1.t, b);
    sc2 := Step(sc1, f, g);
    EndOther(sc1, f, g, sc2, b);
  }

  lemma TurnRuns(sc: Sched, e: Event, f: Event, g: Graph, b: Unit, es: seq<Event>)
    requires RunInv(sc, g) && e.Pop? && f.End? && e.unit == f.unit != b && e.unit in sc.t.ready && e.unit in sc.t.data
    requires sc.t.data[e.unit].trigger.Some? && AwaitsTurn(sc.t, b) && b in sc.t.data && es == [e] + [f]
    ensures EnabledAll(sc, es, g) && b in Run(sc, es, g).t.data && Run(sc, es, g).t.data[b] == sc.t.data[b]
  {
    var sc1, sc2 := TurnSteps(sc, e, f, g, b);
    RunTwo(sc, e, f, g, sc1, sc2, es);
  }

  lemma RecoveredHolds(rows: Rows, n: NewIds, active: set<Unit>, u: Unit)
    requires RowsOk(rows) && NewIdsOk(rows, n) && u in rows && rows[u].trig.Some?
    ensures u in RecoverTable(rows, n, active).data && RecoverTable(rows, n, active).data[u].trigger.Some?
    ensures HoldsOther(RecoverTable(rows, n, active).data[u])
            <==> !StartLike(FirstRunKind(rows[u].trig.value.kind)) || exists k :: k in rows[u].susp && !StartLike(k)
  {
    AppliedAt(RecoverSteps(rows, n, active), u);
    RecoverUnitOk(u, rows[u], n.trig[u], n.susp[u], u in active);
    var s := At(RecoverTable(rows, n, active), u);
    assert forall k :: k in s.suspends <==> k in rows[u].susp;
  }

  /** After a recovery, the turn of one unit whose job fails takes the turn of another one, that its failure
      leads to, if and only if nothing is persisted for the other one but starts and verifies. Its turn
      then finds nothing, which the code asserts not to happen. */
  lemma FailedTurnExact(rows: Rows, n: NewIds, active: set<Unit>, g: Graph, deps: FailDeps, a: Unit, b: Unit, r: JobResult, rk: Kind)
    requires RowsOk(rows) && NewIdsOk(rows, n) && a in rows && b in rows && rows[a].trig.Some? && rows[b].trig.Some?
    requires a != b && !r.Done? && b in Targets(deps, a, rk)
    ensures RunInv(Sched(RecoverTable(rows, n, active), {}), g)
    ensures EnabledAll(Sched(RecoverTable(rows, n, active), {}), TurnOf(a, r), g)
    ensures b in RecoverTable(rows, n, active).ready
    ensures b in Fallback(Run(Sched(RecoverTable(rows, n, active), {}), TurnOf(a, r), g).t, deps, a, rk, Dependency, active, g).0.ready
            <==> !StartLike(FirstRunKind(rows[b].trig.value.kind)) || exists k :: k in rows[b].susp && !StartLike(k)
  {
    var sc := Sched(RecoverTable(rows, n, active), {});
    RecoverTableOk(rows, n, active);
    RecoveredAwaits(rows, n, active, a);
    RecoveredAwaits(rows, n, active, b);
    RecoveredHolds(rows, n, active, a);
    RecoveredHolds(rows, n, active, b);
    TurnRuns(sc, Pop(a, RunEnd(r)), Event.End(a, r), g, b, TurnOf(a, r));
    FallbackTurnExact(Run(sc, TurnOf(a, r), g).t, deps, a, rk, Dependency, active, g, b);
  }

  const KEPT := TrigData(Verify, Attr(true, true, false, false))
  const TWO_VERIFIES: Rows := map[0 := Row(Some(KEPT), map[]), 1 := Row(Some(KEPT), map[])]
  const TWO_IDS := NewIds(map[0 := 0, 1 := 1], map[0 := map[], 1 := map[]])

  lemma TwoVerifiesOk()
    ensures RowsOk(TWO_VERIFIES) && NewIdsOk(TWO_VERIFIES, TWO_IDS)
  {
  }

  /** Two verifies come back, and the failure of unit 0 leads to unit 1. Unit 0 is found inactive, which
      skips its verify and takes the turn of unit 1 away. */
  lemma SkippedVerifyTakesTurn(deps: FailDeps, g: Graph)
    requires deps.start(0) == [1]
    ensures RowsOk(TWO_VERIFIES) && NewIdsOk(TWO_VERIFIES, TWO_IDS)
    ensures RunInv(Sched(RecoverTable(TWO_VERIFIES, TWO_IDS, {}), {}), g)
    ensures EnabledAll(Sched(RecoverTable(TWO_VERIFIES, TWO_IDS, {}), {}), TurnOf(0, Skipped), g)
    ensures 1 in RecoverTable(TWO_VERIFIES, TWO_IDS, {}).ready
    ensures 1 !in Fallback(Run(Sched(RecoverTable(TWO_VERIFIES, TWO_IDS, {}), {}), TurnOf(0, Skipped), g).t, deps, 0, Verify, Dependency, {}, g).0.ready
  {
    TwoVerifiesOk();
    FailedTurnExact(TWO_VERIFIES, TWO_IDS, {}, g, deps, 0, 1, Skipped, Verify);
  }
}
