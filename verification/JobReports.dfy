/** What the engine makes of a unit that reports a new state, and exactly when such a report finds a job
    that nobody expects to be reported on. */
module JobReports {
  import opened Jobs
  import opened JobUnits
  import opened JobUnitLaws
  import opened JobTables
  import opened JobStepLaws
  import opened JobRuns
  import opened JobProgress
  import opened JobFallback

  datatype Activity = Active | Reloading | Inactive | Broken | Activating | Deactivating | Maintenance

  /** How a report ends the triggered job, if it does. */
  function Judge(rk: Kind, ns: Activity, failed: bool): Option<JobResult>
    requires rk.Start? || rk.Stop? || rk.Reload?
  {
    match rk
    case Start =>
      if ns.Active? || ns.Inactive? then Some(Done) else if ns.Broken? then Some(Failed) else None
    case Stop =>
      if ns.Inactive? || ns.Broken? then Some(Done) else if ns.Deactivating? then None else Some(Failed)
    case _ =>
      if ns.Active? then Some(if failed then Failed else Done)
      else if ns.Inactive? then Some(Done) else if ns.Broken? then Some(Failed) else None
  }

  /** Nobody waits for the unit to change: the job only looks at it. */
  predicate Passive(k: Kind) {
    k.Verify? || k.Nop?
  }

  datatype Reaction = Ignored | Awakes | Judged(result: Option<JobResult>) | Unreachable

  /** What is done with the report of a unit. */
  function React(t: Table, u: Unit, ns: Activity, failed: bool): Reaction {
    if u !in t.data || t.data[u].trigger.None? then Ignored
    else if t.data[u].pause then Awakes
    else
      var rk := t.data[u].trigger.value.runKind;
      if rk.Start? || rk.Stop? || rk.Reload? then Judged(Judge(rk, ns, failed)) else Unreachable
  }

  ghost predicate Looks(t: Table, u: Unit) {
    u in t.data && t.data[u].trigger.Some? && Passive(t.data[u].trigger.value.runKind)
  }

  /** The report of this unit would meet `unreachable!`. */
  ghost predicate Stray(t: Table, u: Unit) {
    Looks(t, u) && !t.data[u].pause
  }

  lemma StrayIsUnreachable(t: Table, u: Unit, ns: Activity, failed: bool)
    requires TableInv(t)
    ensures React(t, u, ns, failed).Unreachable? <==> Stray(t, u)
  {
    CleanAt(t, u);
  }

  /** How a report ends the triggered job of a unit that is not paused. A start is done when the unit is active or
      inactive again, and has failed when it is broken. A stop is done when the unit is inactive or broken, goes
      on while it is deactivating, and has failed otherwise. A reload ends by its own flag when the unit is
      active, is done when it is inactive, and has failed when it is broken. */
  lemma ReportExact(t: Table, u: Unit, ns: Activity, failed: bool)
    requires TableInv(t) && u in t.data && t.data[u].trigger.Some? && !t.data[u].pause
    ensures var rk, r := t.data[u].trigger.value.runKind, React(t, u, ns, failed);
            && (rk.Start? ==>
                  && (r == Judged(Some(Done)) <==> ns.Active? || ns.Inactive?)
                  && (r == Judged(Some(Failed)) <==> ns.Broken?)
                  && (r == Judged(None) <==> !ns.Active? && !ns.Inactive? && !ns.Broken?))
            && (rk.Stop? ==>
                  && (r == Judged(Some(Done)) <==> ns.Inactive? || ns.Broken?)
                  && (r == Judged(None) <==> ns.Deactivating?)
                  && (r == Judged(Some(Failed)) <==> !ns.Inactive? && !ns.Broken? && !ns.Deactivating?))
            && (rk.Reload? ==>
                  && (r == Judged(Some(Done)) <==> (ns.Active? && !failed) || ns.Inactive?)
                  && (r == Judged(Some(Failed)) <==> (ns.Active? && failed) || ns.Broken?)
                  && (r == Judged(None) <==> !ns.Active? && !ns.Inactive? && !ns.Broken?))
            && (r == Unreachable <==> rk.Verify? || rk.Nop?)
  {
    CleanAt(t, u);
  }

  /** A report that ends the job deletes it, ended with that result; a restart whose stop is done goes on to its
      start instead and is due again. */
  lemma ReportEnds(sc: Sched, u: Unit, ns: Activity, failed: bool, g: Graph, r: JobResult, sc': Sched)
    requires TableInv(sc.t) && React(sc.t, u, ns, failed) == Judged(Some(r)) && sc' == Step(sc, Event.End(u, r), g)
    ensures var j := sc.t.data[u].trigger.value;
            if j.kind.Restart? && j.runKind.Stop? && r.Done? then
              && u in sc'.t.data && sc'.t.data[u].trigger == Some(j.(runKind := Start)) && sc'.t.data[u].retrigger
              && Ref(j) in sc'.t.ids
            else
              && Ref(j) !in sc'.t.ids && (u in sc'.t.data ==> sc'.t.data[u].trigger.None?)
              && Finishable(sc.t.data[u]) && FinishTrigger(sc.t.data[u], RowAt(sc.t, u), r).2 == Some(j.(stage := Stage.End(r)))
  {
    var e := Event.End(u, r);
    StepOfEnd(sc, e, g, sc');
    FinishEnds(sc.t, u, r, g, sc'.t);
  }

  lemma FinishEnds(t: Table, u: Unit, r: JobResult, g: Graph, t': Table)
    requires TableInv(t) && u in t.data && Finishable(t.data[u]) && t' == Finish(t, u, r, g)
    ensures var j, del := t.data[u].trigger.value, FinishTrigger(t.data[u], RowAt(t, u), r).2;
            if j.kind.Restart? && j.runKind.Stop? && r.Done? then
              u in t'.data && t'.data[u].trigger == Some(j.(runKind := Start)) && t'.data[u].retrigger && Ref(j) in t'.ids
            else
              Ref(j) !in t'.ids && (u in t'.data ==> t'.data[u].trigger.None?) && del == Some(j.(stage := Stage.End(r)))
  {
    CleanAt(t, u);
    var s, row := t.data[u], RowAt(t, u);
    FinishStepSound(u, s, row, r);
    var st := FinishStep(s, row, r);
    var (s', row', del) := FinishTrigger(s, row, r);
    FinishTriggerFrame(u, s, row, r, s', row', del);
    FinishIds(t, u, r, g, st, t');
    OneChangesIs(t, u, st, Neighbours(g, u), Apply(t, map[u := st]), t');
    if u in t'.data { ResumedSame(st.s, u in Neighbours(g, u)); }
  }

  lemma FinishIds(t: Table, u: Unit, r: JobResult, g: Graph, st: UnitStep, t': Table)
    requires TableInv(t) && u in t.data && Finishable(t.data[u]) && st == FinishStep(t.data[u], RowAt(t, u), r) && t' == Finish(t, u, r, g)
    ensures t'.ids == t.ids - st.dels && Ref(t.data[u].trigger.value) in t.ids
  {
    SingleIds(t, u, st);
    ResumeAllIds(Apply(t, map[u := st]), Neighbours(g, u));
    CleanAt(t, u);
    assert Ref(t.data[u].trigger.value) in UnitRefs(t.data[u]) && Ref(t.data[u].trigger.value).unit == u;
  }

  /** Otherwise the report is an event of the engine, and keeps what every event keeps. */
  lemma ReactionIsEvent(sc: Sched, u: Unit, ns: Activity, failed: bool, g: Graph)
    requires RunInv(sc, g)
    ensures React(sc.t, u, ns, failed).Awakes? ==> RunInv(Step(sc, Notify(u), g), g)
    ensures React(sc.t, u, ns, failed).Judged? && React(sc.t, u, ns, failed).result.Some? ==>
              && Enabled(sc, Event.End(u, React(sc.t, u, ns, failed).result.value))
              && RunInv(Step(sc, Event.End(u, React(sc.t, u, ns, failed).result.value), g), g)
  {
    var r := React(sc.t, u, ns, failed);
    if r.Awakes? {
      StepKeeps(sc, Notify(u), g, Step(sc, Notify(u), g));
    } else if r.Judged? && r.result.Some? {
      var e := Event.End(u, r.result.value);
      StepKeeps(sc, e, g, Step(sc, e, g));
    }
  }

  // ---------------------------------------------------------------- what every event does to it

  /** A job that only looks at the unit is never left running: the unit is asked to come back or the job
      ends at once. */
  ghost predicate Tidy(t: Table) {
    forall u :: Looks(t, u) ==> t.data[u].retrigger
  }

  /** A unit that is looked at can answer only at once or later. */
  ghost predicate Answers(sc: Sched, e: Event, g: Graph)
    requires TableInv(sc.t) && Enabled(sc, e)
  {
    Ready(sc, e);
    e.Pop? && Runnable(sc.t, g, e.unit) && Passive(Next(sc.t.data[e.unit]).runKind) ==> e.answer.RunAgain?
  }

  /** The units that the event resumes. */
  ghost function Woken(sc: Sched, e: Event, g: Graph): set<Unit>
    requires TableInv(sc.t) && Enabled(sc, e)
  {
    Ready(sc, e);
    match e
    case Transact(stage, iso, _) => AllNeighbours(g, Flushed(sc.t, stage, iso))
    case Pop(_, _) => {}
    case End(u, _) => Neighbours(g, u)
    case Drop(u, ks, active) =>
      if u !in sc.t.data || RemoveStep(sc.t.data[u], RowAt(sc.t, u), ks, active).dels == {} then {} else Neighbours(g, u)
    case Notify(u) => {u}
  }

  predicate Acts(e: Event, u: Unit) {
    (e.Pop? || e.End?) && e.unit == u
  }

  /** The unit has kept its triggered job, and is paused if it was and was not resumed. */
  ghost predicate KeptBut(t: Table, t': Table, u: Unit, woken: bool) {
    && (At(t, u).trigger.Some? ==> u in t'.data)
    && (u in t'.data ==>
          && t'.data[u].trigger == At(t, u).trigger && t'.data[u].retrigger == At(t, u).retrigger
          && t'.data[u].pause == (At(t, u).pause && !woken))
  }

  lemma ChangedKeeps(t: Table, w: Unit, s': UnitState, us: set<Unit>, t': Table, u: Unit)
    requires OneChanges(t, w, s', us, t') && w in t.data
    requires u == w ==> s'.trigger == t.data[u].trigger && s'.retrigger == t.data[u].retrigger && s'.pause == t.data[u].pause
    ensures KeptBut(t, t', u, u in us)
  {
    if u in t'.data { ResumedSame(if u == w then s' else t.data[u], u in us); }
  }

  lemma DropKeeps(sc: Sched, e: Event, g: Graph, t': Table, u: Unit)
    requires TableInv(sc.t) && Enabled(sc, e) && e.Drop? && t' == NextTable(sc, e, g)
    ensures KeptBut(sc.t, t', u, u in Woken(sc, e, g))
  {
    Ready(sc, e);
    var t, w := sc.t, e.unit;
    if w in t.data {
      var st := RemoveStep(t.data[w], RowAt(t, w), e.kinds, e.isActive);
      RemoveStepAt(t, w, e.kinds, e.isActive, st);
      WakeChanges(t, w, st, g);
      ChangedKeeps(t, w, st.s, if st.dels == {} then {} else Neighbours(g, w), t', u);
    }
  }

  lemma TransactKeeps(sc: Sched, e: Event, g: Graph, t': Table, u: Unit)
    requires TableInv(sc.t) && Enabled(sc, e) && e.Transact? && t' == NextTable(sc, e, g)
    ensures KeptBut(sc.t, t', u, u in Woken(sc, e, g))
  {
    Ready(sc, e);
    var t := sc.t;
    var steps := CommitSteps(t, e.stage, e.iso, e.active);
    var t1 := Apply(t, steps);
    var us := AllNeighbours(g, Flushed(t, e.stage, e.iso));
    CleanAt(t, u);
    if u in steps {
      CommitOutcome(u, At(t, u), RowAt(t, u), StagedAt(e.stage, u), u in e.iso, u in e.active, steps[u].s);
    }
    CommitApplied(t, e.stage, e.iso, e.active, t1);
    ResumeOneFrame(t1, us, t', u);
    if u in t1.data { ResumedSame(t1.data[u], u in us); }
  }

  lemma EndKeeps(sc: Sched, e: Event, g: Graph, sc': Sched, u: Unit)
    requires TableInv(sc.t) && Enabled(sc, e) && e.End? && e.unit != u && sc' == Step(sc, e, g)
    ensures KeptBut(sc.t, sc'.t, u, u in Woken(sc, e, g))
  {
    StepOfEnd(sc, e, g, sc');
    var s' := EndChanges(sc.t, e.unit, e.result, g, sc'.t);
    ChangedKeeps(sc.t, e.unit, s', Neighbours(g, e.unit), sc'.t, u);
  }

  /** Whatever does not act on the unit leaves its triggered job alone and resumes it if that is due. */
  lemma OthersKeep(sc: Sched, e: Event, g: Graph, sc': Sched, u: Unit)
    requires TableInv(sc.t) && Enabled(sc, e) && sc' == Step(sc, e, g) && !Acts(e, u)
    ensures KeptBut(sc.t, sc'.t, u, u in Woken(sc, e, g))
  {
    match e
    case Transact(_, _, _) => TransactKeeps(sc, e, g, sc'.t, u);
    case Pop(_, _) => OnlyPopped(sc, e, g, sc'.t, u);
    case End(_, _) => EndKeeps(sc, e, g, sc', u);
    case Drop(_, _, _) => DropKeeps(sc, e, g, sc'.t, u);
    case Notify(_) =>
      ResumeOneFrame(sc.t, {e.unit}, sc'.t, u);
      if u in sc.t.data { ResumedSame(sc.t.data[u], u in {e.unit}); }
  }

  // ---------------------------------------------------------------- exactly when a report is unexpected

  predicate TidyAt(t: Table, u: Unit) {
    u in t.data && t.data[u].trigger.Some? && Passive(t.data[u].trigger.value.runKind) ==> t.data[u].retrigger
  }

  lemma FinishLooksNot(u: Unit, s: UnitState, row: Row, result: JobResult, s': UnitState)
    requires CleanUnit(u, s) && Finishable(s) && s' == FinishStep(s, row, result).s
    ensures s'.trigger.Some? ==> !Passive(s'.trigger.value.runKind)
  {
  }

  lemma EndedLooksNot(sc: Sched, e: Event, g: Graph, sc': Sched)
    requires TableInv(sc.t) && Enabled(sc, e) && e.End? && sc' == Step(sc, e, g)
    ensures !Looks(sc'.t, e.unit)
  {
    StepOfEnd(sc, e, g, sc');
    var t, u := sc.t, e.unit;
    CleanAt(t, u);
    FinishStepSound(u, t.data[u], RowAt(t, u), e.result);
    var st := FinishStep(t.data[u], RowAt(t, u), e.result);
    FinishLooksNot(u, t.data[u], RowAt(t, u), e.result, st.s);
    OneChangesIs(t, u, st, Neighbours(g, u), Apply(t, map[u := st]), sc'.t);
    if u in sc'.t.data { ResumedSame(st.s, u in Neighbours(g, u)); }
  }

  lemma PoppedUnit(sc: Sched, e: Event, g: Graph, t': Table)
    requires TableInv(sc.t) && Enabled(sc, e) && e.Pop? && t' == NextTable(sc, e, g) && Answers(sc, e, g)
    ensures !Stray(t', e.unit) && (TidyAt(sc.t, e.unit) ==> TidyAt(t', e.unit))
  {
    Ready(sc, e);
    var t, u := sc.t, e.unit;
    CleanAt(t, u);
    if Runnable(t, g, u) {
      var st := TriggerStep(t.data[u], RowAt(t, u), e.answer);
      DoTriggerFrame(u, t.data[u], RowAt(t, u), e.answer, DoNextTrigger(t.data[u]), DoTrigger(t.data[u], RowAt(t, u), e.answer).0);
      SingleFrame(t, u, st, t');
    } else {
      SingleFrame(t, u, PauseStep(t.data[u], RowAt(t, u)), t');
    }
  }

  /** A report on the unit is unexpected after the event, if and only if a job that only looks at the unit was
      there before, neither run nor ended by the event, and was not paused or is resumed by it. */
  lemma StrayExact(sc: Sched, e: Event, g: Graph, sc': Sched, u: Unit)
    requires TableInv(sc.t) && Enabled(sc, e) && Answers(sc, e, g) && sc' == Step(sc, e, g)
    ensures Stray(sc'.t, u) <==> !Acts(e, u) && Looks(sc.t, u) && (!sc.t.data[u].pause || u in Woken(sc, e, g))
  {
    if !Acts(e, u) {
      OthersKeep(sc, e, g, sc', u);
    } else if e.Pop? {
      PoppedUnit(sc, e, g, sc'.t);
    } else {
      EndedLooksNot(sc, e, g, sc');
    }
  }

  lemma TidyKept(sc: Sched, e: Event, g: Graph, sc': Sched)
    requires TableInv(sc.t) && Enabled(sc, e) && Answers(sc, e, g) && sc' == Step(sc, e, g) && Tidy(sc.t)
    ensures Tidy(sc'.t)
  {
    forall u | Looks(sc'.t, u)
      ensures sc'.t.data[u].retrigger
    {
      assert TidyAt(sc.t, u);
      if !Acts(e, u) {
        OthersKeep(sc, e, g, sc', u);
      } else if e.Pop? {
        PoppedUnit(sc, e, g, sc'.t);
      } else {
        EndedLooksNot(sc, e, g, sc');
      }
    }
  }

  /** A unit that is looked at and answers at once: its job is run and ended. */
  lemma LookingEnds(sc: Sched, e: Event, f: Event, g: Graph, sc1: Sched, sc2: Sched)
    requires TableInv(sc.t) && Tidy(sc.t) && Enabled(sc, e) && e.Pop? && sc1 == Step(sc, e, g)
    requires TableInv(sc1.t) && Enabled(sc1, f) && f.End? && f.unit == e.unit && sc2 == Step(sc1, f, g)
    ensures Tidy(sc2.t)
  {
    forall u | Looks(sc2.t, u)
      ensures sc2.t.data[u].retrigger
    {
      EndedLooksNot(sc1, f, g, sc2);
      OthersKeep(sc, e, g, sc1, u);
      OthersKeep(sc1, f, g, sc2, u);
    }
  }

  /** Only units that wait to be triggered again can be met like this: when nothing is ready, every report
      is expected. */
  lemma StrayIsReady(t: Table, u: Unit)
    requires TableInv(t) && Tidy(t) && Stray(t, u)
    ensures u in t.ready
  {
    CleanAt(t, u);
  }

  // ---------------------------------------------------------------- every run

  ghost function After(sc: Sched, e: Event, g: Graph): (sc': Sched)
    requires RunInv(sc, g) && Enabled(sc, e)
    ensures RunInv(sc', g) && sc' == Step(sc, e, g)
  {
    StepKeeps(sc, e, g, Step(sc, e, g));
    Step(sc, e, g)
  }

  predicate LooksOnce(es: seq<Event>) {
    |es| > 1 && es[0].Pop? && es[1].End? && es[1].unit == es[0].unit
  }

  /** A run of events, and of jobs that only look at their unit and end at once. */
  ghost predicate Orderly(sc: Sched, es: seq<Event>, g: Graph)
    requires RunInv(sc, g) && EnabledAll(sc, es, g)
    decreases |es|
  {
    es == []
    || (Answers(sc, es[0], g) && Orderly(After(sc, es[0], g), es[1..], g))
    || (LooksOnce(es) && OrderlyAfter(After(sc, es[0], g), es[1..], g))
  }

  ghost predicate OrderlyAfter(sc: Sched, es: seq<Event>, g: Graph)
    requires RunInv(sc, g) && EnabledAll(sc, es, g)
    decreases |es|
  {
    es != [] && Orderly(After(sc, es[0], g), es[1..], g)
  }

  /** After every orderly run, a report is unexpected only for a unit in the ready set. */
  lemma {:induction false} OrderlyIsTidy(sc: Sched, es: seq<Event>, g: Graph)
    requires RunInv(sc, g) && EnabledAll(sc, es, g) && Orderly(sc, es, g) && Tidy(sc.t)
    ensures Tidy(Run(sc, es, g).t)
    ensures forall u :: Stray(Run(sc, es, g).t, u) ==> u in Run(sc, es, g).t.ready
    decreases |es|
  {
    if es == [] {
      forall u | Stray(sc.t, u) ensures u in sc.t.ready { StrayIsReady(sc.t, u); }
    } else {
      var next := After(sc, es[0], g);
      if Answers(sc, es[0], g) && Orderly(next, es[1..], g) {
        TidyKept(sc, es[0], g, next);
        OrderlyIsTidy(next, es[1..], g);
      } else {
        var two := After(next, es[1..][0], g);
        LookingEnds(sc, es[0], es[1], g, next, two);
        OrderlyIsTidy(two, es[1..][1..], g);
      }
    }
  }
}
