/** Falling back after a failed job: the jobs that depended on it are ended, and so on along the
    failure relations. */
module JobFallback {
  import opened Jobs
  import opened JobUnits
  import opened JobUnitLaws
  import opened JobTables
  import opened JobTableLaws
  import opened JobStepLaws
  import opened JobRuns
  import opened JobProgress

  /** The relations along which a failed start and a failed stop propagate. */
  datatype FailDeps = FailDeps(start: Unit -> seq<Unit>, stop: Unit -> seq<Unit>)

  predicate StartLike(k: Kind) {
    k.Start? || k.Verify?
  }

  function Targets(deps: FailDeps, u: Unit, rk: Kind): seq<Unit> {
    if StartLike(rk) then deps.start(u) else if rk.Stop? then deps.stop(u) else []
  }

  predicate TriggerFails(s: UnitState) {
    s.trigger.Some? && StartLike(s.trigger.value.runKind)
  }

  /** The job as it is reported: ended with the result. */
  function Ended(j: Job, result: JobResult): Job {
    j.(stage := Stage.End(result))
  }

  function PendingVictims(m: map<Kind, Job>, result: JobResult): seq<Job> {
    (if Start in m then [Ended(m[Start], result)] else []) + (if Verify in m then [Ended(m[Verify], result)] else [])
  }

  function Victims(t: Table, v: Unit, result: JobResult): seq<Job> {
    if v !in t.data then []
    else TriggerVictims(t.data[v], result) + PendingVictims(t.data[v].suspends, result)
  }

  function Handles(ds: seq<Job>): set<Handle> {
    set d | d in ds :: Ref(d)
  }

  /** The ended job was live in the table, and nothing but its stage has changed. */
  ghost predicate WasLive(t: Table, d: Job) {
    && d.unit in t.data
    && (|| t.data[d.unit].trigger == Some(d.(stage := Running))
        || (d.kind in t.data[d.unit].suspends && t.data[d.unit].suspends[d.kind] == d.(stage := Wait)))
  }

  lemma HandlesConcat(a: seq<Job>, b: seq<Job>)
    ensures Handles(a + b) == Handles(a) + Handles(b)
  {
    assert forall d :: d in a + b <==> d in a || d in b;
  }

  lemma HandlesOne(d: Job)
    ensures Handles([d]) == {Ref(d)} && Handles([]) == {}
  {
    assert forall x :: x in [d] <==> x == d;
  }

  /** No start and no verify is pending or running in the unit. */
  predicate Settled(t: Table, v: Unit) {
    v in t.data ==> !TriggerFails(t.data[v]) && Start !in t.data[v].suspends && Verify !in t.data[v].suspends
  }

  predicate AllSettled(t: Table, vs: seq<Unit>) {
    forall v :: v in vs ==> Settled(t, v)
  }

  /** No unit has gained a job. */
  ghost predicate Shrinks(t: Table, t': Table) {
    forall v :: v in t'.data ==>
      && v in t.data
      && (forall k :: k in t'.data[v].suspends ==> k in t.data[v].suspends && t'.data[v].suspends[k] == t.data[v].suspends[k])
      && (t'.data[v].trigger.None? || t'.data[v].trigger == t.data[v].trigger)
  }

  lemma ShrinksSettled(t: Table, t': Table, vs: seq<Unit>)
    requires Shrinks(t, t') && AllSettled(t, vs)
    ensures AllSettled(t', vs)
  {
  }

  lemma ShrinksTrans(t: Table, t1: Table, t2: Table)
    requires Shrinks(t, t1) && Shrinks(t1, t2)
    ensures Shrinks(t, t2)
  {
  }

  // ---------------------------------------------------------------- one unit

  lemma SingleIds(t: Table, u: Unit, st: UnitStep)
    requires st.adds == {}
    ensures Apply(t, map[u := st]).ids == t.ids - st.dels
  {
    SingleRefs(u, st);
  }

  lemma ResumeAllIds(t: Table, us: set<Unit>)
    ensures ResumeAll(t, us).ids == t.ids
  {
    assert Adds(ResumeSteps(t, us)) == {} && Dels(ResumeSteps(t, us)) == {};
  }

  lemma OneChangesShrinks(t: Table, u: Unit, s': UnitState, us: set<Unit>, t': Table)
    requires OneChanges(t, u, s', us, t') && u in t.data
    requires forall k :: k in s'.suspends ==> k in t.data[u].suspends && s'.suspends[k] == t.data[u].suspends[k]
    requires (s'.trigger.None? || s'.trigger == t.data[u].trigger)
    ensures Shrinks(t, t')
    ensures u in t'.data ==> t'.data[u].suspends == s'.suspends && t'.data[u].trigger == s'.trigger
  {
    forall v | v in t'.data
      ensures v in t.data && t'.data[v].suspends == (if v == u then s' else t.data[v]).suspends
      ensures t'.data[v].trigger == (if v == u then s' else t.data[v]).trigger
    {
      ResumedSame(if v == u then s' else t.data[v], v in us);
    }
  }

  /** Ending the triggered job of a unit. */
  lemma FailTriggerKeeps(t: Table, v: Unit, result: JobResult, g: Graph, t': Table)
    requires !result.Done? && TableInv(t) && v in t.data && TriggerFails(t.data[v]) && Finishable(t.data[v])
    requires t' == Finish(t, v, result, g)
    ensures TableInv(t') && Shrinks(t, t') && t'.ids == t.ids - {Ref(t.data[v].trigger.value)}
    ensures v in t'.data ==> t'.data[v].trigger.None? && t'.data[v].suspends == t.data[v].suspends
    ensures v !in t'.data ==> t.data[v].suspends == map[]
  {
    FinishKeepsTable(t, v, result, g);
    var s := t.data[v];
    CleanAt(t, v);
    FinishStepSound(v, s, RowAt(t, v), result);
    var st := FinishStep(s, RowAt(t, v), result);
    var (s', row', del) := FinishTrigger(s, RowAt(t, v), result);
    FinishTriggerFrame(v, s, RowAt(t, v), result, s', row', del);
    var t1 := Apply(t, map[v := st]);
    OneChangesIs(t, v, st, Neighbours(g, v), t1, t');
    OneChangesShrinks(t, v, st.s, Neighbours(g, v), t');
    SingleIds(t, v, st);
    ResumeAllIds(t1, Neighbours(g, v));
  }

  lemma StartIsNotInterrupter(u: Unit, s: UnitState)
    requires CleanUnit(u, s)
    ensures KeepsInterrupter(s, {Start, Verify})
  {
    if s.interrupt {
      KeyedPending(u, s);
      CanonShape(s.suspends);
    }
  }

  function KindRefs(m: map<Kind, Job>, k: Kind): set<Handle> {
    if k in m then {Ref(m[k])} else {}
  }

  lemma PendingHandles(m: map<Kind, Job>, result: JobResult)
    requires Keyed(m)
    ensures Handles(PendingVictims(m, result)) == KindRefs(m, Start) + KindRefs(m, Verify)
    ensures |Handles(PendingVictims(m, result))| == |PendingVictims(m, result)|
  {
    var a := if Start in m then [Ended(m[Start], result)] else [];
    var b := if Verify in m then [Ended(m[Verify], result)] else [];
    HandlesConcat(a, b);
    if Start in m { HandlesOne(Ended(m[Start], result)); }
    if Verify in m { HandlesOne(Ended(m[Verify], result)); }
    assert KindRefs(m, Start) !! KindRefs(m, Verify);
  }

  lemma RemovedHandles(m: map<Kind, Job>, result: JobResult)
    requires Keyed(m)
    ensures PendingRefs(m - (m - {Start, Verify}).Keys) == Handles(PendingVictims(m, result))
  {
    PendingHandles(m, result);
    RefsMember(m - (m - {Start, Verify}).Keys);
  }

  lemma WakeIds(t: Table, v: Unit, st: UnitStep, g: Graph)
    requires st.adds == {}
    ensures ApplyThenWake(t, v, st, g).ids == t.ids - st.dels
  {
    SingleIds(t, v, st);
    ResumeAllIds(Apply(t, map[v := st]), Neighbours(g, v));
  }

  lemma WakeChanges(t: Table, v: Unit, st: UnitStep, g: Graph)
    requires TableInv(t) && StepOk(t, v, st) && st.adds == {}
    ensures OneChanges(t, v, st.s, if st.dels == {} then {} else Neighbours(g, v), ApplyThenWake(t, v, st, g))
  {
    if st.dels == {} {
      AllOrdered(t);
      OneChangesAlone(t, v, st, Apply(t, map[v := st]));
    } else {
      OneChangesIs(t, v, st, Neighbours(g, v), Apply(t, map[v := st]), ApplyThenWake(t, v, st, g));
    }
  }

  lemma FailPendingData(t: Table, v: Unit, st: UnitStep, g: Graph, t': Table)
    requires TableInv(t) && v in t.data && StepOk(t, v, st) && st.adds == {}
    requires st.s.suspends == t.data[v].suspends - {Start, Verify} && st.s.trigger == t.data[v].trigger
    requires t' == ApplyThenWake(t, v, st, g)
    ensures Shrinks(t, t') && t'.ids == t.ids - st.dels
    ensures v in t'.data ==> Start !in t'.data[v].suspends && Verify !in t'.data[v].suspends && t'.data[v].trigger == t.data[v].trigger
  {
    WakeIds(t, v, st, g);
    WakeChanges(t, v, st, g);
    OneChangesShrinks(t, v, st.s, if st.dels == {} then {} else Neighbours(g, v), t');
  }

  /** Ending the pending starts and verifies of a unit. */
  lemma FailPendingKeeps(t: Table, v: Unit, result: JobResult, active: bool, g: Graph, t': Table)
    requires TableInv(t) && v in t.data && Removable(t.data[v], RowAt(t, v), {Start, Verify})
    requires t' == RemoveSuspends(t, v, {Start, Verify}, active, g)
    ensures TableInv(t') && Shrinks(t, t')
    ensures t'.ids == t.ids - Handles(PendingVictims(t.data[v].suspends, result))
    ensures v in t'.data ==> Start !in t'.data[v].suspends && Verify !in t'.data[v].suspends && t'.data[v].trigger == t.data[v].trigger
  {
    CleanAt(t, v);
    StartIsNotInterrupter(v, t.data[v]);
    RemoveKeepsTable(t, v, {Start, Verify}, active, g);
    var st := RemoveStep(t.data[v], RowAt(t, v), {Start, Verify}, active);
    RemoveStepAt(t, v, {Start, Verify}, active, st);
    FailPendingData(t, v, st, g, t');
    KeyedPending(v, t.data[v]);
    RemovedHandles(t.data[v].suspends, result);
  }

  ghost function FailTrigger(t: Table, v: Unit, result: JobResult, g: Graph): (t': Table)
    requires TableInv(t) && !result.Done?
    ensures TableInv(t') && Shrinks(t, t')
  {
    if v in t.data && TriggerFails(t.data[v]) then
      FinishKeepsTable(t, v, result, g);
      FailTriggerKeeps(t, v, result, g, Finish(t, v, result, g));
      Finish(t, v, result, g)
    else t
  }

  ghost function FailPending(t: Table, v: Unit, active: bool, g: Graph): (t': Table)
    requires TableInv(t)
    ensures TableInv(t') && Shrinks(t, t')
  {
    if v in t.data then
      RemoveCanOrder(t, v, {Start, Verify});
      FailPendingKeeps(t, v, Dependency, active, g, RemoveSuspends(t, v, {Start, Verify}, active, g));
      RemoveSuspends(t, v, {Start, Verify}, active, g)
    else t
  }

  /** Failing a unit is ending its triggered job and dropping its pending starts and verifies, so what
      every run keeps is kept here too. */
  lemma FailingIsEvents(sc: Sched, v: Unit, result: JobResult, active: bool, g: Graph)
    requires TableInv(sc.t) && !result.Done?
    ensures v in sc.t.data && TriggerFails(sc.t.data[v]) ==>
              Enabled(sc, Event.End(v, result)) && FailTrigger(sc.t, v, result, g) == NextTable(sc, Event.End(v, result), g)
    ensures Enabled(sc, Drop(v, {Start, Verify}, active))
    ensures FailPending(sc.t, v, active, g) == NextTable(sc, Drop(v, {Start, Verify}, active), g)
  {
    if v in sc.t.data {
      CleanAt(sc.t, v);
      StartIsNotInterrupter(v, sc.t.data[v]);
    }
  }

  ghost function FailUnit(t: Table, v: Unit, result: JobResult, active: bool, g: Graph): (t': Table)
    requires TableInv(t) && !result.Done?
    ensures TableInv(t') && Shrinks(t, t')
  {
    ShrinksTrans(t, FailTrigger(t, v, result, g), FailPending(FailTrigger(t, v, result, g), v, active, g));
    FailPending(FailTrigger(t, v, result, g), v, active, g)
  }

  function TriggerVictims(s: UnitState, result: JobResult): seq<Job> {
    if TriggerFails(s) then [Ended(s.trigger.value, result)] else []
  }

  /** What is reported is what finishing and removing hand out. */
  lemma VictimsAreHandedOut(u: Unit, s: UnitState, row: Row, result: JobResult)
    requires CleanUnit(u, s) && !result.Done?
    ensures TriggerFails(s) ==> FinishTrigger(s, row, result).2 == Some(TriggerVictims(s, result)[0])
    ensures Start in s.suspends ==> RemoveSuspend(s, row, Start, result).2 == Some(Ended(s.suspends[Start], result))
    ensures Verify in s.suspends ==> RemoveSuspend(s, row, Verify, result).2 == Some(Ended(s.suspends[Verify], result))
  {
    RemoveIsRemoveKinds(u, s, row, Start, result);
    RemoveIsRemoveKinds(u, s, row, Verify, result);
  }

  lemma TriggerHandles(s: UnitState, result: JobResult)
    ensures Handles(TriggerVictims(s, result)) == if TriggerFails(s) then TriggerRefs(s) else {}
    ensures |Handles(TriggerVictims(s, result))| == |TriggerVictims(s, result)|
  {
    if TriggerFails(s) { HandlesOne(Ended(s.trigger.value, result)); }
  }

  lemma UnitVictims(v: Unit, s: UnitState, result: JobResult, ds: seq<Job>)
    requires CleanUnit(v, s) && ds == TriggerVictims(s, result) + PendingVictims(s.suspends, result)
    ensures Handles(ds) <= UnitRefs(s) && |Handles(ds)| == |ds|
  {
    KeyedPending(v, s);
    TriggerHandles(s, result);
    PendingHandles(s.suspends, result);
    HandlesConcat(TriggerVictims(s, result), PendingVictims(s.suspends, result));
    KindRefsPending(s.suspends, Start);
    KindRefsPending(s.suspends, Verify);
    assert Handles(TriggerVictims(s, result)) !! Handles(PendingVictims(s.suspends, result));
  }

  lemma KindRefsPending(m: map<Kind, Job>, k: Kind)
    ensures KindRefs(m, k) <= PendingRefs(m)
  {
  }

  /** A victim was a live start or verify and is ended with the result. */
  ghost predicate IsVictim(t: Table, d: Job, result: JobResult) {
    StartLike(d.runKind) && d.stage == Stage.End(result) && WasLive(t, d)
  }

  lemma UnitVictimsStart(t: Table, v: Unit, result: JobResult, d: Job)
    requires v in t.data && CleanUnit(v, t.data[v])
    requires d in TriggerVictims(t.data[v], result) + PendingVictims(t.data[v].suspends, result)
    ensures IsVictim(t, d, result)
  {
  }

  lemma VictimsAreLive(t: Table, v: Unit, result: JobResult)
    requires TableInv(t)
    ensures Handles(Victims(t, v, result)) <= t.ids && |Handles(Victims(t, v, result))| == |Victims(t, v, result)|
    ensures forall d :: d in Victims(t, v, result) ==> IsVictim(t, d, result)
  {
    if v in t.data {
      CleanAt(t, v);
      RefsAt(t, v);
      UnitVictims(v, t.data[v], result, Victims(t, v, result));
      forall d | d in Victims(t, v, result)
        ensures IsVictim(t, d, result)
      {
        UnitVictimsStart(t, v, result, d);
      }
    }
  }

  lemma FailTriggerIds(t: Table, v: Unit, result: JobResult, g: Graph, t1: Table)
    requires TableInv(t) && !result.Done? && v in t.data && t1 == FailTrigger(t, v, result, g)
    ensures t1.ids == t.ids - Handles(TriggerVictims(t.data[v], result))
    ensures v in t1.data ==> t1.data[v].suspends == t.data[v].suspends && !TriggerFails(t1.data[v])
    ensures v !in t1.data ==> t.data[v].suspends == map[]
  {
    if TriggerFails(t.data[v]) {
      FinishKeepsTable(t, v, result, g);
      FailTriggerKeeps(t, v, result, g, t1);
      HandlesOne(Ended(t.data[v].trigger.value, result));
    }
  }

  lemma FailPendingIds(t: Table, v: Unit, result: JobResult, active: bool, g: Graph, t': Table)
    requires TableInv(t) && t' == FailPending(t, v, active, g)
    ensures v in t.data ==> t'.ids == t.ids - Handles(PendingVictims(t.data[v].suspends, result))
    ensures v !in t.data ==> t' == t
    ensures v in t.data && !TriggerFails(t.data[v]) ==> Settled(t', v)
  {
    if v in t.data {
      RemoveCanOrder(t, v, {Start, Verify});
      FailPendingKeeps(t, v, result, active, g, t');
    }
  }

  lemma FailUnitSettles(t: Table, v: Unit, result: JobResult, active: bool, g: Graph, t1: Table, t': Table)
    requires TableInv(t) && !result.Done? && t1 == FailTrigger(t, v, result, g) && t' == FailPending(t1, v, active, g)
    ensures Settled(t', v)
  {
    FailPendingIds(t1, v, result, active, g, t');
    if v in t.data { FailTriggerIds(t, v, result, g, t1); }
  }

  lemma FailUnitIds(t: Table, v: Unit, result: JobResult, active: bool, g: Graph, t1: Table, t': Table, a: seq<Job>, p: seq<Job>)
    requires TableInv(t) && !result.Done? && t1 == FailTrigger(t, v, result, g) && t' == FailPending(t1, v, active, g)
    requires v in t.data && a == TriggerVictims(t.data[v], result) && p == PendingVictims(t.data[v].suspends, result)
    ensures t'.ids == t.ids - (Handles(a) + Handles(p))
  {
    FailTriggerIds(t, v, result, g, t1);
    FailPendingIds(t1, v, result, active, g, t');
    if t.data[v].suspends == map[] { NoVictims(result); }
    TakenTwice(t.ids, Handles(a), Handles(p), t1.ids, t'.ids, v in t1.data);
  }

  lemma NoVictims(result: JobResult)
    ensures Handles(PendingVictims(map[], result)) == {}
  {
    assert PendingVictims(map[], result) == [];
  }

  lemma TakenTwice(ids: set<Handle>, a: set<Handle>, p: set<Handle>, ids1: set<Handle>, ids2: set<Handle>, second: bool)
    requires ids1 == ids - a && ids2 == (if second then ids1 - p else ids1) && (!second ==> p == {})
    ensures ids2 == ids - (a + p)
  {
  }

  // ---------------------------------------------------------------- along the failure relations

  /** The identifiers have lost exactly the victims, each of them once. */
  ghost predicate LostIds(ids: set<Handle>, ids': set<Handle>, ds: seq<Job>) {
    ids' == ids - Handles(ds) && Handles(ds) <= ids && |ids'| + |ds| == |ids|
  }

  ghost predicate Lost(t: Table, t': Table, ds: seq<Job>, result: JobResult) {
    TableInv(t') && Shrinks(t, t') && LostIds(t.ids, t'.ids, ds) && forall d :: d in ds ==> IsVictim(t, d, result)
  }

  /** What is live later was live before. */
  lemma LiveBefore(t: Table, t1: Table, d: Job, result: JobResult)
    requires Shrinks(t, t1) && IsVictim(t1, d, result)
    ensures IsVictim(t, d, result)
  {
  }

  lemma LostIdsTrans(a: set<Handle>, b: set<Handle>, c: set<Handle>, ds: seq<Job>, es: seq<Job>)
    requires LostIds(a, b, ds) && LostIds(b, c, es)
    ensures LostIds(a, c, ds + es)
  {
    HandlesConcat(ds, es);
  }

  lemma LostIdsSwap(a: set<Handle>, b: set<Handle>, ds: seq<Job>, es: seq<Job>)
    requires LostIds(a, b, ds + es)
    ensures LostIds(a, b, es + ds)
  {
    HandlesConcat(ds, es);
    HandlesConcat(es, ds);
  }

  lemma LostTrans(t: Table, t1: Table, t2: Table, a: seq<Job>, b: seq<Job>, result: JobResult)
    requires Lost(t, t1, a, result) && Lost(t1, t2, b, result)
    ensures Lost(t, t2, a + b, result)
  {
    ShrinksTrans(t, t1, t2);
    LostIdsTrans(t.ids, t1.ids, t2.ids, a, b);
    forall d | d in b
      ensures IsVictim(t, d, result)
    {
      LiveBefore(t, t1, d, result);
    }
  }

  lemma LostSwap(t: Table, t': Table, a: seq<Job>, b: seq<Job>, result: JobResult)
    requires Lost(t, t', a + b, result)
    ensures Lost(t, t', b + a, result)
  {
    LostIdsSwap(t.ids, t'.ids, a, b);
    assert forall d :: d in b + a ==> d in a + b;
  }

  lemma LostNothing(t: Table, result: JobResult)
    requires TableInv(t)
    ensures Lost(t, t, [], result)
  {
    assert Handles([]) == {};
  }

  lemma LostFrom(ids: set<Handle>, ids': set<Handle>, ds: seq<Job>)
    requires ids' == ids - Handles(ds) && Handles(ds) <= ids && |Handles(ds)| == |ds|
    ensures LostIds(ids, ids', ds)
  {
    assert ids == ids' + Handles(ds);
  }

  lemma LostOne(t: Table, v: Unit, result: JobResult, active: bool, g: Graph, t': Table)
    requires TableInv(t) && !result.Done? && t' == FailUnit(t, v, result, active, g)
    ensures Lost(t, t', Victims(t, v, result), result)
  {
    var t1 := FailTrigger(t, v, result, g);
    if v in t.data {
      var a, p := TriggerVictims(t.data[v], result), PendingVictims(t.data[v].suspends, result);
      FailUnitIds(t, v, result, active, g, t1, t', a, p);
      HandlesConcat(a, p);
    } else {
      FailPendingIds(t1, v, result, active, g, t');
      assert Handles([]) == {};
    }
    VictimsAreLive(t, v, result);
    LostFrom(t.ids, t'.ids, Victims(t, v, result));
  }

  lemma FailAllStep(t: Table, vs: seq<Unit>, result: JobResult, active: bool, g: Graph, t1: Table, t2: Table, ds: seq<Job>)
    requires TableInv(t) && !result.Done? && vs != [] && t1 == FailUnit(t, vs[0], result, active, g)
    requires Lost(t1, t2, ds, result) && AllSettled(t2, vs[1..])
    ensures Lost(t, t2, Victims(t, vs[0], result) + ds, result) && AllSettled(t2, vs)
  {
    LostOne(t, vs[0], result, active, g, t1);
    LostTrans(t, t1, t2, Victims(t, vs[0], result), ds, result);
    FailUnitSettles(t, vs[0], result, active, g, FailTrigger(t, vs[0], result, g), t1);
    ShrinksSettledOne(t1, t2, vs[0]);
    AllSettledCons(t2, vs);
  }

  lemma ShrinksSettledOne(t: Table, t': Table, v: Unit)
    requires Shrinks(t, t') && Settled(t, v)
    ensures Settled(t', v)
  {
  }

  lemma AllSettledCons(t: Table, vs: seq<Unit>)
    requires vs != [] && Settled(t, vs[0]) && AllSettled(t, vs[1..])
    ensures AllSettled(t, vs)
  {
    assert forall v :: v in vs ==> v == vs[0] || v in vs[1..];
  }

  /** One step: every unit in the list loses its starts and verifies. */
  ghost function FailAll(t: Table, vs: seq<Unit>, result: JobResult, active: set<Unit>, g: Graph): (r: (Table, seq<Job>))
    requires TableInv(t) && !result.Done?
    ensures Lost(t, r.0, r.1, result) && AllSettled(r.0, vs)
    decreases |vs|
  {
    if vs == [] then LostNothing(t, result); (t, [])
    else
      var t1 := FailUnit(t, vs[0], result, vs[0] in active, g);
      var (t2, ds) := FailAll(t1, vs[1..], result, active, g);
      FailAllStep(t, vs, result, vs[0] in active, g, t1, t2, ds);
      (t2, Victims(t, vs[0], result) + ds)
  }

  ghost predicate VictimsSettled(t: Table, deps: FailDeps, ds: seq<Job>) {
    forall d :: d in ds ==> AllSettled(t, Targets(deps, d.unit, d.runKind))
  }

  lemma VictimsStaySettled(t: Table, t': Table, deps: FailDeps, ds: seq<Job>)
    requires Shrinks(t, t') && VictimsSettled(t, deps, ds)
    ensures VictimsSettled(t', deps, ds)
  {
    forall d | d in ds
      ensures AllSettled(t', Targets(deps, d.unit, d.runKind))
    {
      ShrinksSettled(t, t', Targets(deps, d.unit, d.runKind));
    }
  }

  lemma SettledConcat(t: Table, deps: FailDeps, a: seq<Job>, b: seq<Job>)
    requires VictimsSettled(t, deps, a) && VictimsSettled(t, deps, b)
    ensures VictimsSettled(t, deps, a + b)
  {
  }

  lemma SettledOne(t: Table, deps: FailDeps, d: Job)
    requires AllSettled(t, Targets(deps, d.unit, d.runKind))
    ensures VictimsSettled(t, deps, [d])
  {
  }

  lemma FallbackStep(t: Table, deps: FailDeps, vs: seq<Unit>, t1: Table, ds: seq<Job>, t2: Table, more: seq<Job>, result: JobResult)
    requires Lost(t, t1, ds, result) && AllSettled(t1, vs)
    requires Lost(t1, t2, more, result) && VictimsSettled(t2, deps, ds) && VictimsSettled(t2, deps, more)
    ensures Lost(t, t2, more + ds, result) && AllSettled(t2, vs) && VictimsSettled(t2, deps, more + ds)
  {
    LostTrans(t, t1, t2, ds, more, result);
    LostSwap(t, t2, ds, more, result);
    ShrinksSettled(t1, t2, vs);
    SettledConcat(t2, deps, more, ds);
  }

  lemma FirstSettled(deps: FailDeps, ds: seq<Job>, t1: Table, t2: Table)
    requires ds != [] && Shrinks(t1, t2) && AllSettled(t1, Targets(deps, ds[0].unit, ds[0].runKind))
    requires VictimsSettled(t2, deps, ds[1..])
    ensures VictimsSettled(t2, deps, ds)
  {
    SettledOne(t1, deps, ds[0]);
    VictimsStaySettled(t1, t2, deps, [ds[0]]);
    SettledConcat(t2, deps, [ds[0]], ds[1..]);
    assert [ds[0]] + ds[1..] == ds;
  }

  lemma FallbackAllStep(t: Table, deps: FailDeps, ds: seq<Job>, t1: Table, a: seq<Job>, t2: Table, b: seq<Job>, result: JobResult)
    requires ds != [] && Lost(t, t1, a, result) && VictimsSettled(t1, deps, a)
    requires AllSettled(t1, Targets(deps, ds[0].unit, ds[0].runKind))
    requires Lost(t1, t2, b, result) && VictimsSettled(t2, deps, ds[1..]) && VictimsSettled(t2, deps, b)
    ensures Lost(t, t2, a + b, result) && VictimsSettled(t2, deps, ds) && VictimsSettled(t2, deps, a + b)
  {
    LostTrans(t, t1, t2, a, b, result);
    FirstSettled(deps, ds, t1, t2);
    VictimsStaySettled(t1, t2, deps, a);
    SettledConcat(t2, deps, a, b);
  }

  /** Fall back from a failed job: each job that is lost makes its own dependants fail. It ends,
      because every further step needs a job that was still there. Each lost job is reported exactly
      once, ended with the result. Afterwards no unit that a failed or lost job leads to has a start or
      verify left. */
  ghost function Fallback(t: Table, deps: FailDeps, u: Unit, rk: Kind, result: JobResult, active: set<Unit>, g: Graph): (r: (Table, seq<Job>))
    requires TableInv(t) && !result.Done?
    ensures Lost(t, r.0, r.1, result)
    ensures AllSettled(r.0, Targets(deps, u, rk)) && VictimsSettled(r.0, deps, r.1)
    decreases |t.ids|, 1
  {
    var (t1, ds) := FailAll(t, Targets(deps, u, rk), result, active, g);
    if ds == [] then (t1, [])
    else
      var (t2, more) := FallbackAll(t1, deps, ds, result, active, g);
      FallbackStep(t, deps, Targets(deps, u, rk), t1, ds, t2, more, result);
      (t2, more + ds)
  }

  ghost function FallbackAll(t: Table, deps: FailDeps, ds: seq<Job>, result: JobResult, active: set<Unit>, g: Graph): (r: (Table, seq<Job>))
    requires TableInv(t) && !result.Done?
    ensures Lost(t, r.0, r.1, result)
    ensures VictimsSettled(r.0, deps, ds) && VictimsSettled(r.0, deps, r.1)
    decreases |t.ids|, 1 + |ds|
  {
    if ds == [] then LostNothing(t, result); (t, [])
    else
      var (t1, a) := Fallback(t, deps, ds[0].unit, ds[0].runKind, result, active, g);
      var (t2, b) := FallbackAll(t1, deps, ds[1..], result, active, g);
      FallbackAllStep(t, deps, ds, t1, a, t2, b, result);
      (t2, a + b)
  }

  /** After a failed start or verify no unit along the start failure relation has a start or verify left, and
      after a failed stop none along the stop failure relation; likewise for every job that was lost on the
      way. A failed reload leads nowhere. */
  lemma FallbackReaches(t: Table, deps: FailDeps, u: Unit, rk: Kind, result: JobResult, active: set<Unit>, g: Graph, t': Table, ds: seq<Job>, v: Unit)
    requires TableInv(t) && !result.Done? && Fallback(t, deps, u, rk, result, active, g) == (t', ds)
    requires (v in deps.start(u) && (rk.Start? || rk.Verify?)) || (v in deps.stop(u) && rk.Stop?)
             || exists d :: d in ds && v in deps.start(d.unit)
    ensures v in t'.data ==>
              && Start !in t'.data[v].suspends && Verify !in t'.data[v].suspends
              && (t'.data[v].trigger.Some? ==> !t'.data[v].trigger.value.runKind.Start? && !t'.data[v].trigger.value.runKind.Verify?)
  {
    if v in Targets(deps, u, rk) {
      assert Settled(t', v);
    } else {
      var d :| d in ds && v in deps.start(d.unit);
      assert IsVictim(t, d, result) && v in Targets(deps, d.unit, d.runKind);
      assert AllSettled(t', Targets(deps, d.unit, d.runKind));
      assert Settled(t', v);
    }
  }

  lemma ReloadFailsAlone(t: Table, deps: FailDeps, u: Unit, rk: Kind, result: JobResult, active: set<Unit>, g: Graph)
    requires TableInv(t) && !result.Done? && (rk.Reload? || rk.Restart? || rk.Nop?)
    ensures Fallback(t, deps, u, rk, result, active, g) == (t, [])
  {
  }

  lemma VictimUnits(t: Table, v: Unit, result: JobResult)
    requires TableInv(t)
    ensures forall d :: d in Victims(t, v, result) ==> d.unit == v
  {
    if v in t.data {
      CleanAt(t, v);
      VictimUnit(v, t.data[v], result);
    }
  }

  lemma VictimUnit(v: Unit, s: UnitState, result: JobResult)
    requires JobsOk(v, s)
    ensures forall d :: d in TriggerVictims(s, result) + PendingVictims(s.suspends, result) ==> d.unit == v
  {
    assert forall d :: d in TriggerVictims(s, result) ==> d.unit == v;
    assert forall d :: d in PendingVictims(s.suspends, result) ==>
        (Start in s.suspends && d == Ended(s.suspends[Start], result)) || (Verify in s.suspends && d == Ended(s.suspends[Verify], result));
  }

  lemma {:induction false} FailAllUnits(t: Table, vs: seq<Unit>, result: JobResult, active: set<Unit>, g: Graph)
    requires TableInv(t) && !result.Done?
    ensures forall d :: d in FailAll(t, vs, result, active, g).1 ==> d.unit in vs
    decreases |vs|
  {
    if vs != [] {
      VictimUnits(t, vs[0], result);
      FailAllUnits(FailUnit(t, vs[0], result, vs[0] in active, g), vs[1..], result, active, g);
    }
  }

  /** The job leads to this unit when it fails. */
  predicate LeadsTo(deps: FailDeps, u: Unit, rk: Kind, v: Unit) {
    ((rk.Start? || rk.Verify?) && v in deps.start(u)) || (rk.Stop? && v in deps.stop(u))
  }

  ghost predicate LedTo(deps: FailDeps, ds: seq<Job>, v: Unit) {
    exists d :: d in ds && LeadsTo(deps, d.unit, d.runKind, v)
  }

  lemma LedToMore(deps: FailDeps, ds: seq<Job>, more: seq<Job>, v: Unit)
    requires LedTo(deps, ds, v) && forall d :: d in ds ==> d in more
    ensures LedTo(deps, more, v)
  {
    var d :| d in ds && LeadsTo(deps, d.unit, d.runKind, v);
    assert d in more;
  }

  /** No other job is lost than those of units that the failed job or a lost one leads to. */
  lemma {:induction false} FallbackOnlyReaches(t: Table, deps: FailDeps, u: Unit, rk: Kind, result: JobResult, active: set<Unit>, g: Graph, ds: seq<Job>)
    requires TableInv(t) && !result.Done? && Fallback(t, deps, u, rk, result, active, g).1 == ds
    ensures forall d :: d in ds ==> LeadsTo(deps, u, rk, d.unit) || LedTo(deps, ds, d.unit)
    decreases |t.ids|, 1
  {
    var (t1, first) := FailAll(t, Targets(deps, u, rk), result, active, g);
    FailAllUnits(t, Targets(deps, u, rk), result, active, g);
    if first != [] {
      var more := FallbackAll(t1, deps, first, result, active, g).1;
      FallbackAllOnlyReaches(t1, deps, first, result, active, g, more);
      assert ds == more + first;
      forall d | d in ds
        ensures LeadsTo(deps, u, rk, d.unit) || LedTo(deps, ds, d.unit)
      {
        if d in more { LedToMore(deps, first + more, ds, d.unit); }
      }
    }
  }

  lemma {:induction false} FallbackAllOnlyReaches(t: Table, deps: FailDeps, ds: seq<Job>, result: JobResult, active: set<Unit>, g: Graph, lost: seq<Job>)
    requires TableInv(t) && !result.Done? && FallbackAll(t, deps, ds, result, active, g).1 == lost
    ensures forall d :: d in lost ==> LedTo(deps, ds + lost, d.unit)
    decreases |t.ids|, 1 + |ds|
  {
    if ds != [] {
      var (t1, a) := Fallback(t, deps, ds[0].unit, ds[0].runKind, result, active, g);
      var b := FallbackAll(t1, deps, ds[1..], result, active, g).1;
      FallbackOnlyReaches(t, deps, ds[0].unit, ds[0].runKind, result, active, g, a);
      FallbackAllOnlyReaches(t1, deps, ds[1..], result, active, g, b);
      assert lost == a + b;
      forall d | d in lost
        ensures LedTo(deps, ds + lost, d.unit)
      {
        if d in a {
          if LedTo(deps, a, d.unit) { LedToMore(deps, a, ds + lost, d.unit); } else { assert ds[0] in ds + lost; }
        } else {
          LedToMore(deps, ds[1..] + b, ds + lost, d.unit);
        }
      }
    }
  }
}
