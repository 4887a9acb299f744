/** Runs from the empty table after which the engine meets an assertion, or goes on for ever. */
module JobSurprises {
  import opened Jobs
  import opened JobUnits
  import opened JobUnitLaws
  import opened JobTables
  import opened JobRuns
  import opened JobStranded
  import opened JobReports
  import opened JobLoop

  // ---------------------------------------------------------------- a unit that is to be tried again

  /** The unit is resumed and about to be triggered again. */
  function Awake(k: Kind): UnitState {
    Ran(k, true).(pause := false, ready := true, upReady := true)
  }

  lemma AwakeStep(t: Table, k: Kind)
    requires Alone(t, Ran(k, true))
    ensures Alone(ResumeAll(t, {0}), Awake(k))
  {
    var steps := ResumeSteps(t, {0});
    assert steps == map[0 := ResumeStep(Ran(k, true), RowAt(t, 0))];
    AppliedAlone(t, steps[0]);
  }

  /** A job is requested, the unit asks to be tried again, and reports a new state. */
  function TriedAgain(k: Kind): seq<Event> {
    [First(k)] + ([Pop(0, RunAgain)] + ([Notify(0)] + []))
  }

  lemma ReachAwake(k: Kind, e: Event, f: Event, n: Event) returns (sc: Sched)
    requires IsBasic(k) && FirstRunKind(k) == k && e == First(k) && f == Pop(0, RunAgain) && n == Notify(0)
    ensures JobStranded.Leads(INIT, [e] + ([f] + ([n] + [])), sc) && RunInv(sc, ORDER) && Alone(sc.t, Awake(k))
  {
    var sc1, sc2 := FirstTwo(k, RunAgain, e, f);
    sc := Step(sc2, n, ORDER);
    StepKeeps(sc2, n, ORDER, sc);
    AwakeStep(sc2.t, k);
    LeadsNowhere(sc);
    LeadsOn(sc2, n, sc, [], sc);
    LeadsOn(sc1, f, sc2, [n] + [], sc);
    LeadsOn(INIT, e, sc1, [f] + ([n] + []), sc);
  }

  /** A verify that was asked to come back later is resumed; the next report on the unit, before it is
      triggered again, meets `unreachable!`. */
  lemma SecondReportIsUnreachable(ns: Activity, failed: bool)
    ensures RunInv(INIT, ORDER) && EnabledAll(INIT, TriedAgain(Verify), ORDER)
    ensures React(Run(INIT, TriedAgain(Verify), ORDER).t, 0, ns, failed) == Unreachable
  {
    var sc := ReachAwake(Verify, First(Verify), Pop(0, RunAgain), Notify(0));
    assert React(sc.t, 0, ns, failed) == Unreachable;
  }

  lemma AwakeRuns(sc: Sched, k: Kind)
    requires RunInv(sc, ORDER) && Alone(sc.t, Awake(k))
    ensures CanRunAgain(sc, 0, ORDER)
  {
    NobodyAround();
  }

  /** A unit whose start asks to be tried again and reports a new state each time keeps the loop going
      for ever. */
  lemma StartLoopsForever(k: nat) returns (sc: Sched, es: seq<Event>)
    ensures RunInv(INIT, ORDER) && EnabledAll(INIT, TriedAgain(Start), ORDER) && sc == Run(INIT, TriedAgain(Start), ORDER)
    ensures |es| == 2 * k && Alternates(es, Pop(0, RunAgain), Notify(0)) && Returns(sc, es, ORDER)
  {
    sc := ReachAwake(Start, First(Start), Pop(0, RunAgain), Notify(0));
    AwakeRuns(sc, Start);
    es := LoopsForever(sc, Pop(0, RunAgain), Notify(0), ORDER, k);
  }

  // ---------------------------------------------------------------- a unit about to be interrupted

  const STOP := Transact(map[0 := map[Stop := Fresh(2, 0, Stop)]], {}, {})

  /** A start is running when a stop is requested. */
  const TO_INTERRUPT := [First(Start)] + ([Pop(0, RunOk)] + ([STOP] + []))

  lemma StopStep(row: Row)
    ensures !Conflict(CommitMerge(Ran(Start, false), row, map[Stop := Fresh(2, 0, Stop)], false).0.suspends)
    ensures CommitStep(Ran(Start, false), row, map[Stop := Fresh(2, 0, Stop)], false, false).s == INTERRUPTING
  {
    var o := map[Stop := Fresh(2, 0, Stop)];
    var (s2, row2) := CommitMerge(Ran(Start, false), row, o, false);
    assert Stop in o && Stop !in Ran(Start, false).suspends;
    assert s2.suspends == map[Stop := Waiting(2, 0, Stop)];
    CanonOne(2, 0, Stop);
    assert MergedKinds(s2.suspends, false) == {} && Leftover(s2, false) == s2.suspends;
  }

  lemma StopIsStaged(t: Table)
    requires IdsExact(t.data, t.ids) && t.data == map[0 := Ran(Start, false)]
    ensures StageOk(t, STOP.stage) && IsoOk(t, STOP.stage, {})
  {
    assert UnitRefs(Ran(Start, false)) == {Handle(1, 0, Start)};
    StagedAlone(t, 2, Stop, STOP.stage);
  }

  lemma AfterStop(t: Table, stage: map<Unit, map<Kind, Job>>)
    requires Alone(t, Ran(Start, false)) && stage == STOP.stage && Mergeable(t, stage, {})
    ensures Alone(Commit(t, stage, {}, {}, ORDER), INTERRUPTING)
  {
    StopStep(RowAt(t, 0));
    CommittedAlone(t, stage, INTERRUPTING);
  }

  lemma ReachInterrupting(e: Event, f: Event) returns (sc: Sched)
    requires e == First(Start) && f == Pop(0, RunOk)
    ensures JobStranded.Leads(INIT, [e] + ([f] + ([STOP] + [])), sc) && Alone(sc.t, INTERRUPTING)
  {
    var sc1, sc2 := FirstTwo(Start, RunOk, e, f);
    StopIsStaged(sc2.t);
    sc := Step(sc2, STOP, ORDER);
    Ready(sc2, STOP);
    StepKeeps(sc2, STOP, ORDER, sc);
    AfterStop(sc2.t, STOP.stage);
    LeadsNowhere(sc);
    LeadsOn(sc2, STOP, sc, [], sc);
    LeadsOn(sc1, f, sc2, [STOP] + [], sc);
    LeadsOn(INIT, e, sc1, [f] + ([STOP] + []), sc);
  }

  /** Three events lead to the unit whose stop cannot be cancelled: doing so fires the assertion. */
  lemma CancellingIsReached(row: Row, active: bool)
    ensures RunInv(INIT, ORDER) && EnabledAll(INIT, TO_INTERRUPT, ORDER)
    ensures Run(INIT, TO_INTERRUPT, ORDER).t.data == map[0 := INTERRUPTING]
    ensures var (s, row1, _) := RemoveSuspend(INTERRUPTING, row, Stop, Cancelled);
            !Conflict(s.suspends) && !ReadyAsserts(Reshuffle(s, row1, active).0)
  {
    var sc := ReachInterrupting(First(Start), Pop(0, RunOk));
    CancelledInterrupterAsserts(row, active);
  }
}
