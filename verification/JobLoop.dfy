/** The loop that triggers ready units: without new requests it ends, whatever the units answer, and exactly
    one kind of answer can keep it going for ever. */
module JobLoop {
  import opened Jobs
  import opened JobUnits
  import opened JobUnitLaws
  import opened JobTables
  import opened JobTableLaws
  import opened JobStepLaws
  import opened JobRuns
  import opened JobProgress
  import opened JobFallback

  // ---------------------------------------------------------------- what is still to be done

  /** Every live job counts; a restart that has not stopped its unit yet counts once more, and so does a
      pending job that is not queued. */
  datatype Aspect = Live | StopAhead | Unqueued

  predicate Owes(s: UnitState, h: Handle, a: Aspect) {
    match a
    case Live => h in UnitRefs(s)
    case StopAhead =>
      || (s.trigger.Some? && h == Ref(s.trigger.value) && h.kind.Restart? && s.trigger.value.runKind.Stop?)
      || (h.kind.Restart? && Restart in s.suspends && h == Ref(s.suspends[Restart]))
    case Unqueued => h in PendingRefs(s.suspends) && h !in s.sq
  }

  ghost predicate Fewer(s: UnitState, s': UnitState) {
    forall h, a :: Owes(s', h, a) ==> Owes(s, h, a)
  }

  ghost predicate Loses(s: UnitState, s': UnitState) {
    exists h, a :: Owes(s, h, a) && !Owes(s', h, a)
  }

  ghost function Todo(t: Table): set<(Handle, Aspect)> {
    set h, a | h in t.ids && a in {Live, StopAhead, Unqueued} && h.unit in t.data && Owes(t.data[h.unit], h, a) :: (h, a)
  }

  lemma OwesLive(u: Unit, s: UnitState, h: Handle, a: Aspect)
    requires CleanUnit(u, s) && Owes(s, h, a)
    ensures h in UnitRefs(s) && h.unit == u
  {
    RefsOfUnit(u, s);
    if a.StopAhead? && Restart in s.suspends { assert Ref(s.suspends[Restart]) in PendingRefs(s.suspends); }
  }

  lemma ResumedOwes(s: UnitState, named: bool, h: Handle, a: Aspect)
    requires s.order
    ensures Owes(Resumed(s, named), h, a) <==> Owes(s, h, a)
  {
  }

  // ---------------------------------------------------------------- one unit

  lemma TriggerFewer(u: Unit, s: UnitState, row: Row, answer: Answer, s': UnitState)
    requires CleanUnit(u, s) && Mirror(s, row) && CalcReady(s).Some? && Triggerable(s) && s' == TriggerStep(s, row, answer).s
    ensures Fewer(s, s')
  {
    TriggerStepSound(u, s, row, answer);
    DoTriggerFrame(u, s, row, answer, DoNextTrigger(s), DoTrigger(s, row, answer).0);
    forall h, a | Owes(s', h, a)
      ensures Owes(s, h, a)
    {
      TriggerOwes(u, s, s', DoNextTrigger(s), h, a);
    }
  }

  lemma TriggerOwes(u: Unit, s: UnitState, s': UnitState, s1: UnitState, h: Handle, a: Aspect)
    requires CleanUnit(u, s) && CalcReady(s).Some? && HasNext(s) && s1 == DoNextTrigger(s)
    requires s'.trigger.Some? && s'.trigger.value == Next(s).(attr := s'.trigger.value.attr, stage := Running)
    requires s'.suspends == s1.suspends && s'.sq == s1.sq && UnitRefs(s') <= UnitRefs(s) && Owes(s', h, a)
    ensures Owes(s, h, a)
  {
    if CalcReady(s).value && a.Unqueued? {
      var k :| k in s'.suspends && h == Ref(s'.suspends[k]);
      assert k in s.suspends && PendingOk(u, k, s.suspends[k]) && k != s.sq[0].kind;
      assert s.sq == [s.sq[0]] + s.sq[1..];
      assert h in PendingRefs(s.suspends);
    } else if CalcReady(s).value && a.StopAhead? {
      assert PendingOk(u, s.sq[0].kind, s.suspends[s.sq[0].kind]);
    }
  }

  lemma FinishFewer(u: Unit, s: UnitState, row: Row, result: JobResult, s': UnitState)
    requires CleanUnit(u, s) && Mirror(s, row) && s.trigger.Some? && Finishable(s) && s' == FinishStep(s, row, result).s
    ensures Fewer(s, s') && Loses(s, s')
  {
    FinishStepSound(u, s, row, result);
    var j := s.trigger.value;
    var (a, b, del) := FinishTrigger(s, row, result);
    FinishTriggerFrame(u, s, row, result, a, b, del);
    assert Ref(j) !in PendingRefs(s.suspends);
    if Retries(j, result) {
      assert Owes(s, Ref(j), StopAhead) && !Owes(s', Ref(j), StopAhead);
    } else {
      assert Owes(s, Ref(j), Live) && !Owes(s', Ref(j), Live);
    }
  }

  lemma RemoveOwes(u: Unit, s: UnitState, s': UnitState, ks: set<Kind>, h: Handle, a: Aspect)
    requires CleanUnit(u, s) && s'.suspends == s.suspends - ks && s'.trigger == s.trigger && s'.sq == Canon(s'.suspends) && Owes(s', h, a)
    requires CleanUnit(u, s')
    ensures Owes(s, h, a)
  {
    KeyedPending(u, s);
    KeyedPending(u, s');
    if a.Unqueued? {
      var k :| k in s'.suspends && h == Ref(s'.suspends[k]);
      CanonShape(s'.suspends);
      CanonShape(s.suspends);
      assert k.Nop? && Stop in s'.suspends;
      assert h in PendingRefs(s.suspends);
      assert h !in Canon(s.suspends) by {
        if h in Canon(s.suspends) { StopIsAlone(s.suspends); }
      }
    } else if a.Live? {
      assert UnitRefs(s') <= UnitRefs(s);
    }
  }

  lemma StopIsAlone(m: map<Kind, Job>)
    requires Stop in m
    ensures Canon(m) == [Ref(m[Stop])]
  {
    assert Pick(m, [Stop]) == Slot(m, Stop) + Pick(m, [Stop][1..]);
  }

  lemma RemoveFewer(t: Table, u: Unit, ks: set<Kind>, active: bool, st: UnitStep)
    requires TableInv(t) && u in t.data && KeepsInterrupter(t.data[u], ks)
    requires Removable(t.data[u], RowAt(t, u), ks) && st == RemoveStep(t.data[u], RowAt(t, u), ks, active)
    ensures Fewer(t.data[u], st.s)
    ensures st.dels == {} ==> st.s.ready == t.data[u].ready || Loses(t.data[u], st.s)
    ensures st.dels != {} ==> Loses(t.data[u], st.s)
  {
    var s, s' := t.data[u], st.s;
    RemoveStepAt(t, u, ks, active, st);
    CleanAt(t, u);
    forall h, a | Owes(s', h, a)
      ensures Owes(s, h, a)
    {
      RemoveOwes(u, s, s', ks, h, a);
    }
    if st.dels == {} {
      NothingRemoved(s, row := RowAt(t, u), ks := ks);
      RemoveNothing(u, s, s');
    } else {
      var h :| h in st.dels;
      assert Owes(s, h, Live) && !Owes(s', h, Live);
    }
  }

  lemma NothingRemoved(s: UnitState, row: Row, ks: set<Kind>)
    requires PendingRefs(s.suspends - RemoveKinds(s, row, ks).0.suspends.Keys) == {}
    ensures s.suspends - ks == s.suspends
  {
    var left := s.suspends - RemoveKinds(s, row, ks).0.suspends.Keys;
    assert forall k :: k in left ==> Ref(left[k]) in PendingRefs(left);
    assert left.Keys == {};
    assert forall k :: k in s.suspends ==> k in left || k in s.suspends - ks;
  }

  /** Ordering again changes readiness only where a nop was left unqueued. */
  lemma RemoveNothing(u: Unit, s: UnitState, s': UnitState)
    requires CleanUnit(u, s) && CleanUnit(u, s') && s'.suspends == s.suspends && s'.trigger == s.trigger
    requires s'.pause == s.pause && s'.retrigger == s.retrigger && s'.sq == Canon(s.suspends)
    ensures s'.ready == s.ready || Loses(s, s')
  {
    if s.sq != Canon(s.suspends) {
      KeyedPending(u, s);
      CanonShape(s.suspends);
      assert Nop in s.suspends;
      assert Owes(s, Ref(s.suspends[Nop]), Unqueued) && !Owes(s', Ref(s.suspends[Nop]), Unqueued);
    }
  }

  // ---------------------------------------------------------------- the table

  lemma InTodo(t: Table, h: Handle, a: Aspect)
    ensures (h, a) in Todo(t) <==> h in t.ids && h.unit in t.data && Owes(t.data[h.unit], h, a)
  {
  }

  lemma OwedBefore(t: Table, u: Unit, s': UnitState, us: set<Unit>, t': Table, h: Handle, a: Aspect)
    requires TableInv(t) && u in t.data && OneChanges(t, u, s', us, t') && Fewer(t.data[u], s')
    requires h.unit in t'.data && Owes(t'.data[h.unit], h, a)
    ensures h in t.ids && h.unit in t.data && Owes(t.data[h.unit], h, a)
    ensures h.unit == u ==> Owes(s', h, a)
  {
    var v := h.unit;
    ResumedOwes(if v == u then s' else t.data[v], v in us, h, a);
    CleanAt(t, v);
    OwesLive(v, t.data[v], h, a);
  }

  lemma TodoShrinks(t: Table, u: Unit, s': UnitState, us: set<Unit>, t': Table)
    requires TableInv(t) && u in t.data && OneChanges(t, u, s', us, t') && Fewer(t.data[u], s')
    ensures Todo(t') <= Todo(t) && t'.data.Keys <= t.data.Keys
  {
    forall x | x in Todo(t')
      ensures x in Todo(t)
    {
      InTodo(t', x.0, x.1);
      OwedBefore(t, u, s', us, t', x.0, x.1);
      InTodo(t, x.0, x.1);
    }
  }

  lemma TodoLess(t: Table, u: Unit, s': UnitState, us: set<Unit>, t': Table)
    requires TableInv(t) && u in t.data && OneChanges(t, u, s', us, t') && Fewer(t.data[u], s') && Loses(t.data[u], s')
    ensures Todo(t') < Todo(t)
  {
    TodoShrinks(t, u, s', us, t');
    var h, a :| Owes(t.data[u], h, a) && !Owes(s', h, a);
    CleanAt(t, u);
    OwesLive(u, t.data[u], h, a);
    InTodo(t, h, a);
    InTodo(t', h, a);
    if (h, a) in Todo(t') { OwedBefore(t, u, s', us, t', h, a); }
  }

  // ---------------------------------------------------------------- each event

  /** Nothing is gained: no job, no unit. */
  ghost predicate Down(t: Table, t': Table) {
    Todo(t') <= Todo(t) && t'.data.Keys <= t.data.Keys
  }

  lemma OneNotReady(t: Table, u: Unit, st: UnitStep, t': Table)
    requires QueueExact(t) && u in t.ready && !st.s.ready && t' == Apply(t, map[u := st])
    ensures t'.ready == t.ready - {u}
  {
    SingleFrame(t, u, st, t');
  }

  lemma PopStepDown(t: Table, u: Unit, st: UnitStep, t': Table)
    requires TableInv(t) && u in t.ready && u in t.data && StepOk(t, u, st) && Fewer(t.data[u], st.s) && !st.s.ready
    requires t' == Apply(t, map[u := st])
    ensures Down(t, t') && t'.ready == t.ready - {u}
  {
    AllOrdered(t);
    OneChangesAlone(t, u, st, t');
    TodoShrinks(t, u, st.s, {}, t');
    OneNotReady(t, u, st, t');
  }

  lemma PauseFewer(s: UnitState, row: Row)
    requires s.order
    ensures Fewer(s, PauseStep(s, row).s)
  {
  }

  lemma PopGoesDown(sc: Sched, e: Event, g: Graph, t': Table)
    requires TableInv(sc.t) && Enabled(sc, e) && e.Pop? && t' == NextTable(sc, e, g)
    ensures Down(sc.t, t') && e.unit in sc.t.ready && t'.ready == sc.t.ready - {e.unit}
  {
    Ready(sc, e);
    var t, u := sc.t, e.unit;
    CleanAt(t, u);
    TriggerStepAt(t, u, e.answer);
    if Runnable(t, g, u) {
      TriggerFewer(u, t.data[u], RowAt(t, u), e.answer, TriggerStep(t.data[u], RowAt(t, u), e.answer).s);
      PopStepDown(t, u, TriggerStep(t.data[u], RowAt(t, u), e.answer), t');
    } else {
      PauseFewer(t.data[u], RowAt(t, u));
      PopStepDown(t, u, PauseStep(t.data[u], RowAt(t, u)), t');
    }
  }

  lemma EndGoesDown(sc: Sched, e: Event, g: Graph, sc': Sched)
    requires TableInv(sc.t) && TableInv(sc'.t) && Enabled(sc, e) && e.End? && sc' == Step(sc, e, g)
    ensures Down(sc.t, sc'.t) && Todo(sc'.t) < Todo(sc.t)
  {
    StepOfEnd(sc, e, g, sc');
    var t, u := sc.t, e.unit;
    CleanAt(t, u);
    FinishStepSound(u, t.data[u], RowAt(t, u), e.result);
    var st := FinishStep(t.data[u], RowAt(t, u), e.result);
    OneChangesIs(t, u, st, Neighbours(g, u), Apply(t, map[u := st]), sc'.t);
    FinishFewer(u, t.data[u], RowAt(t, u), e.result, st.s);
    TodoShrinks(t, u, st.s, Neighbours(g, u), sc'.t);
    TodoLess(t, u, st.s, Neighbours(g, u), sc'.t);
  }

  lemma SameReady(t: Table, u: Unit, st: UnitStep, t': Table)
    requires QueueExact(t) && u in t.data && !IsEmpty(st.s) && st.s.ready == t.data[u].ready && t' == Apply(t, map[u := st])
    ensures t'.ready == t.ready
  {
    SingleFrame(t, u, st, t');
  }

  lemma StaysInTable(t: Table, u: Unit, st: UnitStep)
    requires TableInv(t) && u in t.data && StepOk(t, u, st) && st.adds == {} && st.dels == {}
    ensures !IsEmpty(st.s)
  {
    CleanAt(t, u);
    SameRefsNotEmpty(u, t.data[u], st);
  }

  lemma DropStepDown(t: Table, u: Unit, st: UnitStep, g: Graph, t': Table)
    requires TableInv(t) && u in t.data && StepOk(t, u, st) && st.adds == {} && Fewer(t.data[u], st.s)
    requires Loses(t.data[u], st.s) || (st.dels == {} && st.s.ready == t.data[u].ready)
    requires t' == ApplyThenWake(t, u, st, g)
    ensures Down(t, t') && (Todo(t') < Todo(t) || t'.ready == t.ready)
  {
    WakeChanges(t, u, st, g);
    var us := if st.dels == {} then {} else Neighbours(g, u);
    TodoShrinks(t, u, st.s, us, t');
    if Loses(t.data[u], st.s) { TodoLess(t, u, st.s, us, t'); } else { StaysInTable(t, u, st); SameReady(t, u, st, t'); }
  }

  lemma DropGoesDown(sc: Sched, e: Event, g: Graph, t': Table)
    requires TableInv(sc.t) && Enabled(sc, e) && e.Drop? && e.unit in sc.t.data && t' == NextTable(sc, e, g)
    ensures Down(sc.t, t') && (Todo(t') < Todo(sc.t) || t'.ready == sc.t.ready)
  {
    Ready(sc, e);
    var t, u := sc.t, e.unit;
    var st := RemoveStep(t.data[u], RowAt(t, u), e.kinds, e.isActive);
    RemoveStepAt(t, u, e.kinds, e.isActive, st);
    RemoveFewer(t, u, e.kinds, e.isActive, st);
    DropStepDown(t, u, st, g, t');
  }

  // ---------------------------------------------------------------- every run of the loop

  /** What the loop does without new requests and reports: trigger, end and remove. */
  predicate IsWork(e: Event) {
    e.Pop? || e.End? || e.Drop?
  }

  /** With at most n units: each job to be done outweighs all units being ready. */
  ghost function Rank(t: Table, n: nat): nat {
    |Todo(t)| * (n + 1) + |t.ready|
  }

  lemma RankFalls(w: nat, w': nat, r: nat, r': nat, n: nat)
    requires (w' < w && r' <= n) || (w' <= w && r' < r)
    ensures w' * (n + 1) + r' < w * (n + 1) + r
  {
    if w' < w { Times(w' + 1, w, n + 1); }
  }

  lemma {:induction false} Times(a: nat, b: nat, m: nat)
    requires a <= b
    ensures a * m <= b * m
    decreases b
  {
    if a < b { Times(a, b - 1, m); }
  }

  lemma ReadyWithin(t: Table, n: nat)
    requires TableInv(t) && |t.data.Keys| <= n
    ensures |t.ready| <= n
  {
    assert t.ready <= t.data.Keys;
    SmallerOrEqual(t.ready, t.data.Keys);
  }

  lemma SmallerOrEqual<T>(a: set<T>, b: set<T>)
    ensures a <= b ==> |a| <= |b|
    ensures a < b ==> |a| < |b|
  {
    if a <= b { assert b == a + (b - a); }
  }

  lemma WorkFallsTable(t: Table, t': Table, n: nat)
    requires Down(t, t') && |t.data.Keys| <= n && |t'.ready| <= n
    ensures Todo(t') < Todo(t) || t'.ready < t.ready ==> Rank(t', n) < Rank(t, n)
    ensures t'.ready == t.ready ==> Rank(t', n) <= Rank(t, n)
  {
    var w, w', r, r' := |Todo(t)|, |Todo(t')|, |t.ready|, |t'.ready|;
    SmallerOrEqual(Todo(t'), Todo(t));
    SmallerOrEqual(t'.ready, t.ready);
    if Todo(t') < Todo(t) || t'.ready < t.ready { RankFalls(w, w', r, r', n); }
    Times(w', w, n + 1);
  }

  /** Every trigger and every end brings the loop closer to its end, and no removal takes it back. */
  lemma WorkFalls(sc: Sched, e: Event, g: Graph, sc': Sched, n: nat)
    requires TableInv(sc.t) && Enabled(sc, e) && IsWork(e) && sc' == Step(sc, e, g) && |sc.t.data.Keys| <= n
    ensures |sc'.t.data.Keys| <= n && Rank(sc'.t, n) <= Rank(sc.t, n)
    ensures e.Pop? || e.End? ==> Rank(sc'.t, n) < Rank(sc.t, n)
  {
    NextTableKeeps(sc, e, g, sc'.t);
    match e {
      case Pop(_, _) => PopGoesDown(sc, e, g, sc'.t);
      case End(_, _) => EndGoesDown(sc, e, g, sc');
      case Drop(_, _, _) => if e.unit in sc.t.data { DropGoesDown(sc, e, g, sc'.t); }
    }
    SmallerOrEqual(sc'.t.data.Keys, sc.t.data.Keys);
    ReadyWithin(sc'.t, n);
    WorkFallsTable(sc.t, sc'.t, n);
  }

  function Rounds(es: seq<Event>): nat {
    if es == [] then 0 else (if es[0].Pop? || es[0].End? then 1 else 0) + Rounds(es[1..])
  }

  /** The loop ends, whatever the units answer and whatever falls back: from any state there is a bound on
      the number of triggers and ends, as long as nothing is requested and nobody is resumed from outside. */
  lemma {:induction false} LoopEnds(sc: Sched, es: seq<Event>, g: Graph, n: nat)
    requires RunInv(sc, g) && EnabledAll(sc, es, g) && (forall e :: e in es ==> IsWork(e)) && |sc.t.data.Keys| <= n
    ensures Rounds(es) + Rank(Run(sc, es, g).t, n) <= Rank(sc.t, n)
    decreases |es|
  {
    if es != [] {
      var next := Step(sc, es[0], g);
      StepKeeps(sc, es[0], g, next);
      WorkFalls(sc, es[0], g, next, n);
      LoopEnds(next, es[1..], g, n);
    }
  }

  // ---------------------------------------------------------------- what keeps the loop going

  /** The unit is about to be triggered again with the job that it has. */
  predicate RunsAgain(s: UnitState) {
    s.trigger.Some? && s.retrigger && !s.pause && !s.interrupt
  }

  function Asleep(s: UnitState): UnitState {
    s.(pause := true, ready := false, upReady := false)
  }

  lemma AgainUnit(u: Unit, s: UnitState, row: Row)
    requires CleanUnit(u, s) && Mirror(s, row) && RunsAgain(s)
    ensures s.ready && Triggerable(s) && TriggerStep(s, row, RunAgain) == UnitStep(Asleep(s), row, {}, {})
    ensures ResumeStep(Asleep(s), row) == UnitStep(s, row, {}, {})
  {
  }

  lemma SameNum(num: map<Kind, int>)
    ensures NumAfter(num, {}, {}) == num
  {
    assert forall k :: OfKind({}, k) == {};
  }

  lemma NoRefs(u: Unit, s: UnitState, row: Row)
    ensures Adds(map[u := UnitStep(s, row, {}, {})]) == {} && Dels(map[u := UnitStep(s, row, {}, {})]) == {}
  {
  }

  lemma OneEntry(data: map<Unit, UnitState>, u: Unit, st: UnitStep)
    requires !IsEmpty(st.s)
    ensures DataAfter(data, map[u := st]) == data[u := st.s]
  {
  }

  lemma OneRow(rows: map<Unit, Row>, u: Unit, st: UnitStep, steps: map<Unit, UnitStep>)
    requires u in rows && rows[u] == st.row && steps == map[u := st]
    ensures rows + (map v | v in steps :: steps[v].row) == rows
  {
  }

  lemma SameButState(t: Table, u: Unit, s: UnitState, t': Table)
    requires u in t.data && u in t.rows && !IsEmpty(s) && QueueExact(t) && t' == Apply(t, map[u := UnitStep(s, t.rows[u], {}, {})])
    ensures t' == t.(data := t.data[u := s], ready := ReadyUnits(t.data[u := s]))
  {
    var st := UnitStep(s, t.rows[u], {}, {});
    NoRefs(u, s, t.rows[u]);
    OneEntry(t.data, u, st);
    OneRow(t.rows, u, st, map[u := st]);
    SameNum(t.num);
  }

  lemma ResumeOnly(t1: Table, u: Unit, s: UnitState, row: Row)
    requires u in t1.data && t1.data[u] == Asleep(s) && s.order && u in t1.rows && t1.rows[u] == row
    requires ResumeStep(Asleep(s), row) == UnitStep(s, row, {}, {})
    ensures ResumeSteps(t1, {u}) == map[u := UnitStep(s, row, {}, {})]
  {
  }

  lemma AgainTable(t: Table, u: Unit, s: UnitState, row: Row, t1: Table, t2: Table)
    requires QueueExact(t) && u in t.data && t.data[u] == s && u in t.rows && t.rows[u] == row && s.trigger.Some? && s.order
    requires ResumeStep(Asleep(s), row) == UnitStep(s, row, {}, {})
    requires t1 == t.(data := t.data[u := Asleep(s)], ready := ReadyUnits(t.data[u := Asleep(s)])) && t2 == ResumeAll(t1, {u})
    ensures t2 == t
  {
    ResumeOnly(t1, u, s, row);
    SameButState(t1, u, s, t2);
    assert t1.data[u := s] == t.data;
  }

  lemma WaitingStays(g: Graph, sc: Sched, u: Unit, s: UnitState)
    requires WakeOk(g, sc.waiting, sc.t) && u in sc.t.data && !sc.t.data[u].pause
    ensures Carry(sc.waiting, sc.t) == sc.waiting && Carry(sc.waiting, sc.t.(data := sc.t.data[u := s])) == sc.waiting
  {
  }

  ghost predicate CanRunAgain(sc: Sched, u: Unit, g: Graph) {
    RunInv(sc, g) && u in sc.t.data && RunsAgain(sc.t.data[u]) && HasNext(sc.t.data[u]) && Runnable(sc.t, g, u)
  }

  lemma AgainIsReady(sc: Sched, u: Unit, g: Graph)
    requires CanRunAgain(sc, u, g)
    ensures u in sc.t.ready && u in sc.t.rows
  {
    CleanAt(sc.t, u);
    AgainUnit(u, sc.t.data[u], RowAt(sc.t, u));
  }

  lemma AgainPopped(sc: Sched, e: Event, g: Graph, t1: Table)
    requires e.Pop? && e.answer.RunAgain? && CanRunAgain(sc, e.unit, g) && Enabled(sc, e) && t1 == NextTable(sc, e, g)
    ensures var data := sc.t.data[e.unit := Asleep(sc.t.data[e.unit])]; t1 == sc.t.(data := data, ready := ReadyUnits(data))
  {
    AgainIsReady(sc, e.unit, g);
    CleanAt(sc.t, e.unit);
    AgainUnit(e.unit, sc.t.data[e.unit], RowAt(sc.t, e.unit));
    SameButState(sc.t, e.unit, Asleep(sc.t.data[e.unit]), t1);
  }

  lemma AgainTables(sc: Sched, u: Unit, g: Graph, t1: Table, t2: Table)
    requires CanRunAgain(sc, u, g) && t2 == ResumeAll(t1, {u})
    requires var data := sc.t.data[u := Asleep(sc.t.data[u])]; t1 == sc.t.(data := data, ready := ReadyUnits(data))
    ensures t2 == sc.t
  {
    AgainIsReady(sc, u, g);
    CleanAt(sc.t, u);
    AgainUnit(u, sc.t.data[u], RowAt(sc.t, u));
    AgainTable(sc.t, u, sc.t.data[u], RowAt(sc.t, u), t1, t2);
  }

  lemma AgainWaiting(sc: Sched, e: Event, g: Graph, sc1: Sched)
    requires e.Pop? && CanRunAgain(sc, e.unit, g) && Enabled(sc, e) && sc1 == Step(sc, e, g)
    requires sc1.t.data == sc.t.data[e.unit := Asleep(sc.t.data[e.unit])]
    ensures sc1.waiting == sc.waiting
  {
    WaitingStays(g, sc, e.unit, Asleep(sc.t.data[e.unit]));
  }

  lemma NotifyStep(sc: Sched, f: Event, g: Graph, sc': Sched)
    requires TableInv(sc.t) && f.Notify? && sc' == Step(sc, f, g)
    ensures sc'.t == ResumeAll(sc.t, {f.unit}) && sc'.waiting == Carry(sc.waiting, sc'.t)
  {
  }

  lemma AgainBack(sc: Sched, u: Unit, g: Graph, sc1: Sched, sc2: Sched)
    requires CanRunAgain(sc, u, g) && sc1.waiting == sc.waiting && sc2.t == ResumeAll(sc1.t, {u}) && sc2.waiting == Carry(sc1.waiting, sc2.t)
    requires var data := sc.t.data[u := Asleep(sc.t.data[u])]; sc1.t == sc.t.(data := data, ready := ReadyUnits(data))
    ensures sc2 == sc
  {
    AgainTables(sc, u, g, sc1.t, sc2.t);
    WaitingStays(g, sc, u, Asleep(sc.t.data[u]));
  }

  /** A unit that asks to be tried again, and reports a new state while it is asked, is resumed at once: the
      engine is back where it was. */
  lemma AgainAndReport(sc: Sched, e: Event, f: Event, g: Graph, sc1: Sched, sc2: Sched)
    requires e.Pop? && e.answer.RunAgain? && CanRunAgain(sc, e.unit, g) && Enabled(sc, e) && sc1 == Step(sc, e, g)
    requires f.Notify? && f.unit == e.unit && TableInv(sc1.t) && sc2 == Step(sc1, f, g)
    ensures sc2 == sc
  {
    AgainPopped(sc, e, g, sc1.t);
    AgainWaiting(sc, e, g, sc1);
    NotifyStep(sc1, f, g, sc2);
    AgainBack(sc, e.unit, g, sc1, sc2);
  }

  lemma TwoMore(sc: Sched, e: Event, f: Event, es: seq<Event>, g: Graph, sc1: Sched)
    requires RunInv(sc, g) && Enabled(sc, e) && sc1 == Step(sc, e, g) && RunInv(sc1, g) && Enabled(sc1, f)
    requires Step(sc1, f, g) == sc && EnabledAll(sc, es, g)
    ensures EnabledAll(sc, [e] + ([f] + es), g) && Run(sc, [e] + ([f] + es), g) == Run(sc, es, g)
  {
    var fs := [f] + es;
    RunFirst(sc1, f, es, g, sc, fs);
    RunFirst(sc, e, fs, g, sc1, [e] + fs);
  }

  /** The run of these events ends where it began. */
  ghost predicate Returns(sc: Sched, es: seq<Event>, g: Graph) {
    RunInv(sc, g) && EnabledAll(sc, es, g) && Run(sc, es, g) == sc
  }

  lemma ReturnsAtOnce(sc: Sched, g: Graph)
    requires RunInv(sc, g)
    ensures Returns(sc, [], g)
  {
  }

  lemma AgainOnce(sc: Sched, e: Event, f: Event, es: seq<Event>, g: Graph)
    requires e.Pop? && e.answer.RunAgain? && CanRunAgain(sc, e.unit, g) && f.Notify? && f.unit == e.unit && Returns(sc, es, g)
    ensures Returns(sc, [e] + ([f] + es), g)
  {
    AgainIsReady(sc, e.unit, g);
    var sc1 := Step(sc, e, g);
    StepKeeps(sc, e, g, sc1);
    AgainAndReport(sc, e, f, g, sc1, Step(sc1, f, g));
    TwoMore(sc, e, f, es, g, sc1);
  }

  predicate Alternates(es: seq<Event>, e: Event, f: Event) {
    forall i :: 0 <= i < |es| ==> es[i] == if i % 2 == 0 then e else f
  }

  lemma AlternatesOn(es: seq<Event>, e: Event, f: Event, all: seq<Event>)
    requires Alternates(es, e, f) && all == [e] + ([f] + es)
    ensures Alternates(all, e, f)
  {
  }

  /** So the loop can go on for ever: there are such runs of any length. */
  lemma {:induction false} LoopsForever(sc: Sched, e: Event, f: Event, g: Graph, k: nat) returns (es: seq<Event>)
    requires e.Pop? && e.answer.RunAgain? && CanRunAgain(sc, e.unit, g) && f.Notify? && f.unit == e.unit
    ensures |es| == 2 * k && Alternates(es, e, f) && Returns(sc, es, g)
    decreases k
  {
    if k == 0 {
      es := [];
      ReturnsAtOnce(sc, g);
    } else {
      var rest := LoopsForever(sc, e, f, g, k - 1);
      AgainOnce(sc, e, f, rest, g);
      es := [e] + ([f] + rest);
      AlternatesOn(rest, e, f, es);
    }
  }
}
