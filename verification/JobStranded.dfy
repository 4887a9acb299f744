/** Two units can be left waiting for each other although nothing runs: replacing the job of a unit
    that waits for ordering does not resume that unit. */
module JobStranded {
  import opened Jobs
  import opened JobUnits
  import opened JobUnitLaws
  import opened JobTables
  import opened JobOrder
  import opened JobRuns

  /** Unit 1 is ordered before unit 2. */
  const ORDER := Graph({(1, 2)})

  const PLAIN := Attr(false, false, false, false)

  function Fresh(id: nat, u: Unit, k: Kind): Job {
    Job(id, u, k, PLAIN, k, Init)
  }

  function Waiting(id: nat, u: Unit, k: Kind): Job {
    Job(id, u, k, PLAIN, k, Wait)
  }

  /** A unit with one waiting job. */
  function One(id: nat, u: Unit, k: Kind, pause: bool): UnitState {
    UnitState(map[k := Waiting(id, u, k)], None, true, [Handle(id, u, k)], false, false, false, pause, !pause, !pause)
  }

  const START_BOTH := Transact(map[1 := map[Start := Fresh(1, 1, Start)], 2 := map[Start := Fresh(2, 2, Start)]], {}, {})
  const STOP_SECOND := Transact(map[2 := map[Stop := Fresh(3, 2, Stop)]], {}, {})

  // ---------------------------------------------------------------- the units, step by step

  lemma CanonOne(id: nat, u: Unit, k: Kind)
    requires IsBasic(k)
    ensures Canon(map[k := Waiting(id, u, k)]) == [Handle(id, u, k)]
  {
    var m := map[k := Waiting(id, u, k)];
    PickUnfold(m);
    assert forall l :: l != k ==> Slot(m, l) == [];
    assert Slot(m, k) == [Handle(id, u, k)];
  }

  lemma MergedIsOne(s2: UnitState, row: Row, id: nat, u: Unit, k: Kind, active: bool)
    requires IsBasic(k)
    requires s2.suspends == map[k := Waiting(id, u, k)] && s2.trigger.None? && !s2.order && !s2.interrupt && !s2.retrigger
    ensures !Conflict(s2.suspends)
    ensures Synced(Reshuffle(s2, row, active).0) == One(id, u, k, s2.pause)
  {
    CanonOne(id, u, k);
    assert MergedKinds(s2.suspends, active) == {};
    assert Leftover(s2, active) == s2.suspends;
  }

  lemma CommitNew(id: nat, u: Unit, row: Row)
    ensures !Conflict(CommitMerge(NEW_UNIT, row, map[Start := Fresh(id, u, Start)], false).0.suspends)
    ensures CommitStep(NEW_UNIT, row, map[Start := Fresh(id, u, Start)], false, false).s == One(id, u, Start, false)
    ensures Cancels(NEW_UNIT, map[Start := Fresh(id, u, Start)], false) == map[]
  {
    var o := map[Start := Fresh(id, u, Start)];
    var s2 := CommitMerge(NEW_UNIT, row, o, false).0;
    assert Start in o && Start !in NEW_UNIT.suspends;
    assert s2.suspends == map[Start := Waiting(id, u, Start)];
    MergedIsOne(s2, CommitMerge(NEW_UNIT, row, o, false).1, id, u, Start, false);
  }

  lemma CommitReplaces(id: nat, id': nat, u: Unit, pause: bool, row: Row)
    ensures !Conflict(CommitMerge(One(id, u, Start, pause), row, map[Stop := Fresh(id', u, Stop)], false).0.suspends)
    ensures CommitStep(One(id, u, Start, pause), row, map[Stop := Fresh(id', u, Stop)], false, false).s == One(id', u, Stop, pause)
    ensures Cancels(One(id, u, Start, pause), map[Stop := Fresh(id', u, Stop)], false) != map[]
  {
    var s, o := One(id, u, Start, pause), map[Stop := Fresh(id', u, Stop)];
    assert Start in s.suspends && ConflictWith(s.suspends, o);
    var s2 := CommitMerge(s, row, o, false).0;
    assert s2.suspends == map[Stop := Waiting(id', u, Stop)];
    MergedIsOne(s2, CommitMerge(s, row, o, false).1, id', u, Stop, false);
  }

  // ---------------------------------------------------------------- the tables, step by step

  ghost predicate Two(t: Table, s1: UnitState, s2: UnitState) {
    QueueExact(t) && t.data == map[1 := s1, 2 := s2]
  }

  lemma Around()
    ensures Later(ORDER, 1) == {2} && Earlier(ORDER, 2) == {1} && Later(ORDER, 2) == {} && Earlier(ORDER, 1) == {}
    ensures Neighbours(ORDER, 1) == {2} && Neighbours(ORDER, 2) == {1}
  {
    assert (1, 2) in ORDER.before;
    assert 2 in Later(ORDER, 1) && 1 in Earlier(ORDER, 2);
  }

  lemma BothRefs(stage: map<Unit, map<Kind, Job>>)
    requires stage == START_BOTH.stage
    ensures StageRefs(stage) == {Handle(1, 1, Start), Handle(2, 2, Start)}
  {
    assert Ref(stage[1][Start]) == Handle(1, 1, Start);
    assert Ref(stage[2][Start]) == Handle(2, 2, Start);
  }

  lemma StartStaged(id: nat, u: Unit)
    ensures StagedOk(u, map[Start := Fresh(id, u, Start)]) && map[Start := Fresh(id, u, Start)] != map[]
  {
    assert Start in map[Start := Fresh(id, u, Start)];
  }

  lemma StartBothOk()
    ensures Enabled(INIT, START_BOTH)
  {
    var stage := START_BOTH.stage;
    assert forall u :: u in stage ==> u == 1 || u == 2;
    StartStaged(1, 1);
    StartStaged(2, 2);
    BothRefs(stage);
  }

  lemma AppliedBoth(t: Table, steps: map<Unit, UnitStep>, s1: UnitState, s2: UnitState)
    requires t.data.Keys + steps.Keys == {1, 2} && !IsEmpty(s1) && !IsEmpty(s2)
    requires if 1 in steps then steps[1].s == s1 else t.data[1] == s1
    requires if 2 in steps then steps[2].s == s2 else t.data[2] == s2
    ensures Two(Apply(t, steps), s1, s2)
  {
    assert DataAfter(t.data, steps) == map[1 := s1, 2 := s2];
  }

  lemma NobodyResumed(t: Table, us: set<Unit>, s1: UnitState, s2: UnitState)
    requires Two(t, s1, s2) && !IsEmpty(s1) && !IsEmpty(s2) && (1 in us ==> !s1.pause) && (2 in us ==> !s2.pause)
    ensures Two(ResumeAll(t, us), s1, s2)
  {
    assert ResumeSteps(t, us) == map[];
    AppliedBoth(t, map[], s1, s2);
  }

  lemma StartStep(t: Table, stage: map<Unit, map<Kind, Job>>, steps: map<Unit, UnitStep>, id: nat, u: Unit)
    requires At(t, u) == NEW_UNIT && RowAt(t, u) == EMPTY_ROW && u in stage && stage[u] == map[Start := Fresh(id, u, Start)]
    requires Mergeable(t, stage, {}) && steps == CommitSteps(t, stage, {}, {})
    ensures steps[u].s == One(id, u, Start, false)
  {
    CommitNew(id, u, EMPTY_ROW);
  }

  lemma CommitBoth(t: Table, stage: map<Unit, map<Kind, Job>>, steps: map<Unit, UnitStep>, s1: UnitState, s2: UnitState)
    requires Mergeable(t, stage, {}) && steps == CommitSteps(t, stage, {}, {}) && t.data == map[] && stage.Keys == {1, 2}
    requires steps[1].s == s1 && steps[2].s == s2 && !IsEmpty(s1) && !IsEmpty(s2) && !s1.pause && !s2.pause
    ensures Two(Commit(t, stage, {}, {}, ORDER), s1, s2)
  {
    AppliedBoth(t, steps, s1, s2);
    NobodyResumed(Apply(t, steps), AllNeighbours(ORDER, Flushed(t, stage, {})), s1, s2);
  }

  lemma AfterStarts(t: Table, stage: map<Unit, map<Kind, Job>>)
    requires t.data == map[] && t.rows == map[] && stage.Keys == {1, 2} && Mergeable(t, stage, {})
    requires stage[1] == map[Start := Fresh(1, 1, Start)] && stage[2] == map[Start := Fresh(2, 2, Start)]
    ensures Two(Commit(t, stage, {}, {}, ORDER), One(1, 1, Start, false), One(2, 2, Start, false))
  {
    var steps := CommitSteps(t, stage, {}, {});
    StartStep(t, stage, steps, 1, 1);
    StartStep(t, stage, steps, 2, 2);
    OneNext(1, 1, Start, false);
    OneNext(2, 2, Start, false);
    CommitBoth(t, stage, steps, One(1, 1, Start, false), One(2, 2, Start, false));
  }

  lemma AfterStartBoth(t: Table, stage: map<Unit, map<Kind, Job>>)
    requires t.data == map[] && t.rows == map[] && stage == START_BOTH.stage && Mergeable(t, stage, {})
    ensures Two(Commit(t, stage, {}, {}, ORDER), One(1, 1, Start, false), One(2, 2, Start, false))
  {
    AfterStarts(t, stage);
  }

  lemma OneNext(id: nat, u: Unit, k: Kind, pause: bool)
    requires k.Start? || k.Stop?
    ensures HasNext(One(id, u, k, pause)) && Next(One(id, u, k, pause)) == Waiting(id, u, k)
    ensures Triggerable(One(id, u, k, false)) && !IsEmpty(One(id, u, k, pause))
  {
    assert k in One(id, u, k, pause).suspends;
  }

  lemma Blocks(id: nat, u: Unit, k: Kind, pause: bool, next: Job, atom: Atom)
    requires MustWait(next, Waiting(id, u, k), atom)
    ensures BlockedBy(next, One(id, u, k, pause), atom)
  {
    assert k in One(id, u, k, pause).suspends;
  }

  lemma SecondIsHeld(t: Table)
    requires Two(t, One(1, 1, Start, false), One(2, 2, Start, false))
    ensures 2 in t.ready && Triggerable(t.data[2])
    ensures Two(TryTrigger(t, 2, RunOk, ORDER), One(1, 1, Start, false), One(2, 2, Start, true))
  {
    Around();
    OneNext(1, 1, Start, false);
    OneNext(2, 2, Start, false);
    OneNext(2, 2, Start, true);
    Blocks(1, 1, Start, false, Waiting(2, 2, Start), After);
    assert !Runnable(t, ORDER, 2);
    AppliedBoth(t, map[2 := PauseStep(t.data[2], RowAt(t, 2))], One(1, 1, Start, false), One(2, 2, Start, true));
  }

  lemma RefsOfOne(id: nat, u: Unit, k: Kind, pause: bool)
    ensures UnitRefs(One(id, u, k, pause)) == {Handle(id, u, k)}
  {
    assert k in One(id, u, k, pause).suspends;
    assert Ref(Waiting(id, u, k)) == Handle(id, u, k);
  }

  lemma StopSecondOk(t: Table)
    requires IdsExact(t.data, t.ids) && t.data == map[1 := One(1, 1, Start, false), 2 := One(2, 2, Start, true)]
    ensures StageOk(t, STOP_SECOND.stage)
  {
    var stage := STOP_SECOND.stage;
    assert StageRefs(stage) == {Handle(3, 2, Stop)} by {
      assert Ref(stage[2][Stop]) == Handle(3, 2, Stop);
    }
    RefsOfOne(1, 1, Start, false);
    RefsOfOne(2, 2, Start, true);
    assert forall h :: h in t.ids ==> h.id != 3;
  }

  lemma AfterStopSecond(t: Table, stage: map<Unit, map<Kind, Job>>)
    requires Two(t, One(1, 1, Start, false), One(2, 2, Start, true))
    requires stage == STOP_SECOND.stage && Mergeable(t, stage, {})
    ensures Two(Commit(t, stage, {}, {}, ORDER), One(1, 1, Start, false), One(3, 2, Stop, true))
  {
    CommitReplaces(2, 3, 2, true, RowAt(t, 2));
    OneNext(1, 1, Start, false);
    OneNext(3, 2, Stop, true);
    var steps := CommitSteps(t, stage, {}, {});
    assert steps.Keys == {2};
    AppliedBoth(t, steps, One(1, 1, Start, false), One(3, 2, Stop, true));
    Around();
    var us := AllNeighbours(ORDER, Flushed(t, stage, {}));
    assert Flushed(t, stage, {}) <= {2};
    assert 2 !in us;
    NobodyResumed(Apply(t, steps), us, One(1, 1, Start, false), One(3, 2, Stop, true));
  }

  lemma FirstIsHeld(t: Table)
    requires Two(t, One(1, 1, Start, false), One(3, 2, Stop, true))
    ensures 1 in t.ready && Triggerable(t.data[1])
    ensures Two(TryTrigger(t, 1, RunOk, ORDER), One(1, 1, Start, true), One(3, 2, Stop, true))
  {
    Around();
    OneNext(1, 1, Start, false);
    OneNext(1, 1, Start, true);
    OneNext(3, 2, Stop, true);
    Blocks(3, 2, Stop, true, Waiting(1, 1, Start), Before);
    assert !Runnable(t, ORDER, 1);
    AppliedBoth(t, map[1 := PauseStep(t.data[1], RowAt(t, 1))], One(1, 1, Start, true), One(3, 2, Stop, true));
  }

  /** Nothing is ready and nothing is triggered, and yet both units have something to do. */
  ghost predicate BothStuck(t: Table) {
    t.ready == {} && (forall u :: u in t.data ==> t.data[u].trigger.None?) && BusyUnits(t) == {1, 2}
  }

  lemma PausedAreStuck(t: Table)
    requires Two(t, One(1, 1, Start, true), One(3, 2, Stop, true))
    ensures BothStuck(t)
  {
    assert Start in t.data[1].suspends && Stop in t.data[2].suspends;
    assert 1 in BusyUnits(t) && 2 in BusyUnits(t);
  }

  // ---------------------------------------------------------------- the run

  /** The run of these events from one state ends in the other. */
  ghost predicate Leads(sc: Sched, es: seq<Event>, sc': Sched) {
    RunInv(sc, ORDER) && EnabledAll(sc, es, ORDER) && Run(sc, es, ORDER) == sc'
  }

  lemma LeadsNowhere(sc: Sched)
    requires RunInv(sc, ORDER)
    ensures Leads(sc, [], sc)
  {
  }

  lemma LeadsOn(sc: Sched, e: Event, sc1: Sched, es: seq<Event>, sc2: Sched)
    requires RunInv(sc, ORDER) && Enabled(sc, e) && sc1 == Step(sc, e, ORDER) && Leads(sc1, es, sc2)
    ensures Leads(sc, [e] + es, sc2)
  {
    assert ([e] + es)[1..] == es;
  }

  lemma LastTwo(sc2: Sched) returns (sc4: Sched)
    requires RunInv(sc2, ORDER) && Two(sc2.t, One(1, 1, Start, false), One(2, 2, Start, true))
    ensures Leads(sc2, [STOP_SECOND] + ([Pop(1, RunOk)] + []), sc4) && BothStuck(sc4.t)
  {
    StopSecondOk(sc2.t);
    var sc3 := Step(sc2, STOP_SECOND, ORDER);
    Ready(sc2, STOP_SECOND);
    StepKeeps(sc2, STOP_SECOND, ORDER, sc3);
    AfterStopSecond(sc2.t, STOP_SECOND.stage);
    FirstIsHeld(sc3.t);
    sc4 := Step(sc3, Pop(1, RunOk), ORDER);
    StepKeeps(sc3, Pop(1, RunOk), ORDER, sc4);
    PausedAreStuck(sc4.t);
    LeadsNowhere(sc4);
    LeadsOn(sc3, Pop(1, RunOk), sc4, [], sc4);
    LeadsOn(sc2, STOP_SECOND, sc3, [Pop(1, RunOk)] + [], sc4);
  }

  /** Start both, hold the second back, stop the second instead, try the first. */
  const STRANDING := [START_BOTH] + ([Pop(2, RunOk)] + ([STOP_SECOND] + ([Pop(1, RunOk)] + [])))

  lemma ReplacingStrands()
    ensures RunInv(INIT, ORDER) && EnabledAll(INIT, STRANDING, ORDER)
    ensures BothStuck(Run(INIT, STRANDING, ORDER).t)
  {
    InitOk(ORDER);
    StartBothOk();
    var sc1 := Step(INIT, START_BOTH, ORDER);
    Ready(INIT, START_BOTH);
    StepKeeps(INIT, START_BOTH, ORDER, sc1);
    AfterStartBoth(INIT.t, START_BOTH.stage);
    SecondIsHeld(sc1.t);
    var sc2 := Step(sc1, Pop(2, RunOk), ORDER);
    StepKeeps(sc1, Pop(2, RunOk), ORDER, sc2);
    var sc4 := LastTwo(sc2);
    LeadsOn(sc1, Pop(2, RunOk), sc2, [STOP_SECOND] + ([Pop(1, RunOk)] + []), sc4);
    LeadsOn(INIT, START_BOTH, sc1, [Pop(2, RunOk)] + ([STOP_SECOND] + ([Pop(1, RunOk)] + [])), sc4);
  }

  // ---------------------------------------------------------------- the other way to be stranded

  const RELOAD := Transact(map[0 := map[Reload := Fresh(2, 0, Reload)]], {}, {})

  /** The only job of the unit is running; a unit that has asked to be tried later is paused till then. */
  function Ran(k: Kind, again: bool): UnitState {
    UnitState(map[], Some(Job(1, 0, k, PLAIN, k, Stage.Running)), true, [], false, again, false, again, false, false)
  }

  const LATER := Ran(Verify, true)

  /** A reload is pending behind it. */
  const VERIFY_AGAIN := LATER.(suspends := map[Reload := Waiting(2, 0, Reload)], sq := [Handle(2, 0, Reload)])

  /** The verify is ended: the unit stays paused with the reload in it. */
  const LEFT_PAUSED := VERIFY_AGAIN.(trigger := None, retrigger := false)

  ghost predicate Alone(t: Table, s: UnitState) {
    QueueExact(t) && t.data == map[0 := s]
  }

  lemma NobodyAround()
    ensures Neighbours(ORDER, 0) == {} && Earlier(ORDER, 0) == {} && Later(ORDER, 0) == {}
  {
  }

  lemma AppliedAlone(t: Table, st: UnitStep)
    requires t.data.Keys <= {0} && !IsEmpty(st.s)
    ensures Alone(Apply(t, map[0 := st]), st.s)
  {
    assert DataAfter(t.data, map[0 := st]) == map[0 := st.s];
  }

  lemma NobodyWoken(t: Table, s: UnitState, us: set<Unit>)
    requires Alone(t, s) && us == {} && !IsEmpty(s)
    ensures Alone(ResumeAll(t, us), s)
  {
    assert ResumeSteps(t, us) == map[];
    assert DataAfter(t.data, map[]) == t.data;
  }

  lemma CommittedAlone(t: Table, stage: map<Unit, map<Kind, Job>>, s: UnitState)
    requires t.data.Keys <= {0} && stage.Keys == {0} && Mergeable(t, stage, {}) && !IsEmpty(s)
    requires CommitStep(At(t, 0), RowAt(t, 0), stage[0], false, false).s == s
    ensures Alone(Commit(t, stage, {}, {}, ORDER), s)
  {
    var steps := CommitSteps(t, stage, {}, {});
    assert steps == map[0 := steps[0]];
    AppliedAlone(t, steps[0]);
    NobodyAround();
    var us := AllNeighbours(ORDER, Flushed(t, stage, {}));
    assert us == {};
    NobodyWoken(Apply(t, steps), s, us);
  }

  lemma FreshStep(id: nat, k: Kind, row: Row)
    requires IsBasic(k)
    ensures !Conflict(CommitMerge(NEW_UNIT, row, map[k := Fresh(id, 0, k)], false).0.suspends)
    ensures CommitStep(NEW_UNIT, row, map[k := Fresh(id, 0, k)], false, false).s == One(id, 0, k, false)
  {
    var o := map[k := Fresh(id, 0, k)];
    var (s2, row2) := CommitMerge(NEW_UNIT, row, o, false);
    assert k in o && k !in NEW_UNIT.suspends;
    assert s2.suspends == map[k := Waiting(id, 0, k)];
    MergedIsOne(s2, row2, id, 0, k, false);
  }

  lemma RanStep(k: Kind, answer: Answer, row: Row)
    requires IsBasic(k)
    ensures Triggerable(One(1, 0, k, false)) && TriggerStep(One(1, 0, k, false), row, answer).s == Ran(k, answer.RunAgain?)
    ensures HasNext(One(1, 0, k, false)) && Next(One(1, 0, k, false)) == Waiting(1, 0, k)
  {
    var s := One(1, 0, k, false);
    assert k in s.suspends && s.suspends - {k} == map[];
  }

  lemma ReloadStep(row: Row)
    ensures !Conflict(CommitMerge(LATER, row, map[Reload := Fresh(2, 0, Reload)], false).0.suspends)
    ensures CommitStep(LATER, row, map[Reload := Fresh(2, 0, Reload)], false, false).s == VERIFY_AGAIN
  {
    var o := map[Reload := Fresh(2, 0, Reload)];
    var (s2, row2) := CommitMerge(LATER, row, o, false);
    assert Reload in o && Reload !in LATER.suspends;
    assert s2.suspends == map[Reload := Waiting(2, 0, Reload)];
    CanonOne(2, 0, Reload);
    assert MergedKinds(s2.suspends, false) == {} && Leftover(s2, false) == s2.suspends;
  }

  lemma EndStep(row: Row)
    ensures Finishable(VERIFY_AGAIN) && FinishStep(VERIFY_AGAIN, row, Dependency).s == LEFT_PAUSED
  {
  }

  lemma StagedAlone(t: Table, id: nat, k: Kind, stage: map<Unit, map<Kind, Job>>)
    requires IsBasic(k) && FirstRunKind(k) == k && stage == map[0 := map[k := Fresh(id, 0, k)]]
    requires forall h :: h in t.ids ==> h.id != id
    ensures StageOk(t, stage) && IsoOk(t, stage, {})
  {
    assert StageRefs(stage) == {Handle(id, 0, k)} by {
      assert Ref(stage[0][k]) == Handle(id, 0, k);
    }
  }

  /** A unit waits with a pending job, and nothing is left that would resume it: no job is triggered that a
      notification could be about, and no other unit is there. */
  ghost predicate LeftAlone(t: Table) {
    && t.ready == {} && t.data.Keys == {0}
    && t.data[0].trigger.None? && t.data[0].pause && t.data[0].suspends.Keys == {Reload}
  }

  lemma AfterFresh(t: Table, id: nat, k: Kind, stage: map<Unit, map<Kind, Job>>)
    requires t.data == map[] && t.rows == map[] && IsBasic(k) && stage == map[0 := map[k := Fresh(id, 0, k)]]
    requires Mergeable(t, stage, {})
    ensures Alone(Commit(t, stage, {}, {}, ORDER), One(id, 0, k, false))
  {
    FreshStep(id, k, EMPTY_ROW);
    assert k in One(id, 0, k, false).suspends;
    CommittedAlone(t, stage, One(id, 0, k, false));
  }

  lemma AfterReload(t: Table, stage: map<Unit, map<Kind, Job>>)
    requires Alone(t, LATER) && stage == RELOAD.stage && Mergeable(t, stage, {})
    ensures Alone(Commit(t, stage, {}, {}, ORDER), VERIFY_AGAIN)
  {
    ReloadStep(RowAt(t, 0));
    assert Reload in VERIFY_AGAIN.suspends;
    CommittedAlone(t, stage, VERIFY_AGAIN);
  }

  lemma PoppedAlone(t: Table, k: Kind, answer: Answer)
    requires Alone(t, One(1, 0, k, false)) && IsBasic(k)
    ensures 0 in t.ready && Triggerable(t.data[0]) && Alone(TryTrigger(t, 0, answer, ORDER), Ran(k, answer.RunAgain?))
  {
    RanStep(k, answer, RowAt(t, 0));
    NobodyAround();
    AppliedAlone(t, TriggerStep(t.data[0], RowAt(t, 0), answer));
  }

  /** The only request so far, for unit 0. */
  function First(k: Kind): Event {
    Transact(map[0 := map[k := Fresh(1, 0, k)]], {}, {})
  }

  /** A job is requested, and triggered. */
  lemma FirstTwo(k: Kind, answer: Answer, e: Event, f: Event) returns (sc1: Sched, sc2: Sched)
    requires IsBasic(k) && FirstRunKind(k) == k && e == First(k) && f == Pop(0, answer)
    ensures RunInv(INIT, ORDER) && Enabled(INIT, e) && sc1 == Step(INIT, e, ORDER)
    ensures RunInv(sc1, ORDER) && Enabled(sc1, f) && sc2 == Step(sc1, f, ORDER)
    ensures RunInv(sc2, ORDER) && Alone(sc2.t, Ran(k, answer.RunAgain?))
  {
    InitOk(ORDER);
    StagedAlone(INIT.t, 1, k, e.stage);
    sc1 := Step(INIT, e, ORDER);
    Ready(INIT, e);
    StepKeeps(INIT, e, ORDER, sc1);
    AfterFresh(INIT.t, 1, k, e.stage);
    PoppedAlone(sc1.t, k, answer);
    sc2 := Step(sc1, f, ORDER);
    StepKeeps(sc1, f, ORDER, sc2);
  }

  lemma LastAlone(sc2: Sched) returns (sc4: Sched)
    requires RunInv(sc2, ORDER) && Alone(sc2.t, LATER)
    ensures Leads(sc2, [RELOAD] + ([Event.End(0, Dependency)] + []), sc4) && LeftAlone(sc4.t)
  {
    FreshReload(sc2.t);
    var sc3 := Step(sc2, RELOAD, ORDER);
    Ready(sc2, RELOAD);
    StepKeeps(sc2, RELOAD, ORDER, sc3);
    AfterReload(sc2.t, RELOAD.stage);
    EndedAlone(sc3.t);
    sc4 := Step(sc3, Event.End(0, Dependency), ORDER);
    StepKeeps(sc3, Event.End(0, Dependency), ORDER, sc4);
    LeadsNowhere(sc4);
    LeadsOn(sc3, Event.End(0, Dependency), sc4, [], sc4);
    LeadsOn(sc2, RELOAD, sc3, [Event.End(0, Dependency)] + [], sc4);
  }

  lemma FreshReload(t: Table)
    requires IdsExact(t.data, t.ids) && t.data == map[0 := LATER]
    ensures StageOk(t, RELOAD.stage) && IsoOk(t, RELOAD.stage, {})
  {
    assert UnitRefs(LATER) == {Handle(1, 0, Verify)};
    StagedAlone(t, 2, Reload, RELOAD.stage);
  }

  lemma EndedAlone(t: Table)
    requires Alone(t, VERIFY_AGAIN)
    ensures Finishable(t.data[0]) && LeftAlone(Finish(t, 0, Dependency, ORDER))
  {
    EndStep(RowAt(t, 0));
    NobodyAround();
    assert Reload in LEFT_PAUSED.suspends;
    var t1 := Apply(t, map[0 := FinishStep(t.data[0], RowAt(t, 0), Dependency)]);
    AppliedAlone(t, FinishStep(t.data[0], RowAt(t, 0), Dependency));
    NobodyWoken(t1, LEFT_PAUSED, {});
  }

  /** Verify, come back later, reload, and then the verify is ended because a unit it depends on failed. */
  const STRANDING_ALONE := [First(Verify)] + ([Pop(0, RunAgain)] + ([RELOAD] + ([Event.End(0, Dependency)] + [])))

  lemma EndedVerifyStrands()
    ensures RunInv(INIT, ORDER) && EnabledAll(INIT, STRANDING_ALONE, ORDER)
    ensures LeftAlone(Run(INIT, STRANDING_ALONE, ORDER).t)
  {
    var e, f := First(Verify), Pop(0, RunAgain);
    var sc1, sc2 := FirstTwo(Verify, RunAgain, e, f);
    var sc4 := LastAlone(sc2);
    LeadsOn(sc1, f, sc2, [RELOAD] + ([Event.End(0, Dependency)] + []), sc4);
    LeadsOn(INIT, e, sc1, [f] + ([RELOAD] + ([Event.End(0, Dependency)] + [])), sc4);
  }
}
