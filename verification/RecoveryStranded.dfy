/** A job that was done comes back: running the recovered jobs again commits while the unit that was
    being acted on is still recorded, and a crash after that makes the next recovery restart the unit. */
module RecoveryStranded {
  import opened Jobs
  import opened JobUnits
  import opened JobUnitLaws
  import opened JobTables
  import opened JobStepLaws
  import opened JobRuns
  import opened Reliability
  import opened Recovery
  import opened JobRows
  import opened RecoveryRuns
  import JobStranded

  // ---------------------------------------------------------------- the engine's part

  /** The unit's triggered job is due to be run again, and order does not hold it back. */
  ghost predicate DueAgain(t: Table, g: Graph, u: Unit) {
    && u in t.ready && u in t.data && CalcReady(t.data[u]) == Some(false) && HasNext(t.data[u]) && Runnable(t, g, u)
    && t.data[u].trigger.Some?
  }

  lemma RunAgainKeepsJob(t: Table, g: Graph, u: Unit, t': Table)
    requires TableInv(t) && DueAgain(t, g, u) && Triggerable(t.data[u]) && t' == TryTrigger(t, u, RunOk, g)
    ensures u in t'.data && t'.data[u].trigger.Some?
    ensures t'.data[u].trigger.value.kind == t.data[u].trigger.value.kind
  {
    CleanAt(t, u);
    var s, row := t.data[u], RowAt(t, u);
    DoTriggerKeeps(u, s, row, RunOk);
    DoTriggerFrame(u, s, row, RunOk, DoNextTrigger(s), DoTrigger(s, row, RunOk).0);
    SingleFrame(t, u, TriggerStep(s, row, RunOk), t');
  }

  lemma DoneIsGone(t: Table, g: Graph, u: Unit, t': Table)
    requires TableInv(t) && u in t.data && t.data[u].trigger.Some? && Finishable(t.data[u])
    requires TriggerIsKept(t.data[u].trigger.value.kind) && t' == Finish(t, u, Done, g)
    ensures At(t', u).trigger.None?
  {
    CleanAt(t, u);
    var s, row := t.data[u], RowAt(t, u);
    FinishStepSound(u, s, row, Done);
    var (s', row', del) := FinishTrigger(s, row, Done);
    FinishTriggerFrame(u, s, row, Done, s', row', del);
    var st := FinishStep(s, row, Done);
    var t1 := Apply(t, map[u := st]);
    SingleKeeps(t, u, st, t1);
    SingleFrame(t, u, st, t1);
    ResumeOneFrame(t1, Neighbours(g, u), t', u);
  }

  // ---------------------------------------------------------------- the process

  lemma CanDrive(p: Process, e: Event, g: Graph, ops: seq<JobOp>)
    requires Runs(p) && TableInv(p.sc.t) && Enabled(p.sc, e) && WritesMake(p.store, ops, Step(p.sc, e, g).t.rows)
    ensures Possible(p, Engine(e, ops), g) && RecoveryRuns.Next(p, Engine(e, ops), g) == Driven(p, e, ops, g)
    ensures Leads(p, [Engine(e, ops)], Driven(p, e, ops, g), g)
  {
    LeadsOne(p, Engine(e, ops), Driven(p, e, ops, g), g);
  }

  lemma StillWrites(s: JobStore, ops: seq<JobOp>, rows: Rows)
    requires HasTables(s) && CanWrite(s) && WritesMake(s, ops, rows)
    ensures CanWrite(Acts(s, ops)) && LastUnit(Acts(s, ops)) == LastUnit(s)
    ensures Acts(s, ops).frames == s.frames && Acts(s, ops).open == s.open
  {
    WritesKeep(s, ops);
  }

  lemma Drive(p: Process, e: Event, g: Graph) returns (ms: seq<Move>, p': Process)
    requires ProcessInv(p, g) && Runs(p) && Enabled(p.sc, e) && CanWrite(p.store)
    ensures TableInv(p.sc.t) && Leads(p, ms, p', g) && ProcessInv(p', g) && p'.sc == Step(p.sc, e, g)
    ensures p'.phase == p.phase && LastUnit(p'.store) == LastUnit(p.store) && CanWrite(p'.store)
    ensures p'.store.frames == p.store.frames && p'.store.open == p.store.open
  {
    EngineIsSound(p, g);
    var ops := WritesExist(p.store, Step(p.sc, e, g).t.rows);
    CanDrive(p, e, g, ops);
    StillWrites(p.store, ops, Step(p.sc, e, g).t.rows);
    p' := Driven(p, e, ops, g);
    EngineKeeps(p, e, ops, g, p');
    ms := [Engine(e, ops)];
  }

  lemma Commit(p: Process, g: Graph) returns (p': Process)
    requires ProcessInv(p, g) && Runs(p)
    ensures Leads(p, [Save], p', g) && ProcessInv(p', g) && p'.sc == p.sc && p'.at == p.sc.t && p'.saved == p.sc.t.rows
    ensures p'.phase == p.phase && LastUnit(p'.store) == LastUnit(p.store)
  {
    p' := p.(store := Act(p.store, CommitAll), saved := p.sc.t.rows, at := p.sc.t);
    SaveKeeps(p, g, p');
    LeadsOne(p, Save, p', g);
  }

  lemma RunAndEnd(p: Process, g: Graph, u: Unit) returns (ms: seq<Move>, p': Process)
    requires ProcessInv(p, g) && Runs(p) && CanWrite(p.store) && DueAgain(p.sc.t, g, u)
    requires TriggerIsKept(p.sc.t.data[u].trigger.value.kind)
    ensures Leads(p, ms, p', g) && ProcessInv(p', g) && At(p'.sc.t, u).trigger.None?
    ensures p'.phase == p.phase && LastUnit(p'.store) == LastUnit(p.store)
  {
    var a, p1 := Drive(p, Pop(u, RunOk), g);
    Ready(p.sc, Pop(u, RunOk));
    RunAgainKeepsJob(p.sc.t, g, u, p1.sc.t);
    var b, p2 := Drive(p1, Event.End(u, Done), g);
    Ready(p1.sc, Event.End(u, Done));
    DoneIsGone(p1.sc.t, g, u, p2.sc.t);
    ms, p' := a + b, p2;
    LeadsOn(p, a, p1, b, p2, g);
  }

  /** From every recovery that is about to run the last unit's stop, verify or nop again, there is a way
      to a crash after which the next recovery restarts that unit, although it has no job any more. */
  lemma DoneJobComesBack(p: Process, g: Graph, u: Unit) returns (ms: seq<Move>, p': Process)
    requires ProcessInv(p, g) && p.phase.Rerun? && LastUnit(p.store) == Some(u) && DueAgain(p.sc.t, g, u)
    requires TriggerIsKept(p.sc.t.data[u].trigger.value.kind)
    ensures Leads(p, ms, p', g) && ProcessInv(p', g) && p'.phase.Saved?
    ensures At(p'.at, u).trigger.None?
    ensures RowOf(p'.saved, u).trig == Some(TrigData(Kind.Restart, Attr(true, true, true, true)))
  {
    var a, p1 := RunAndEnd(p, g, u);
    var p2 := Commit(p1, g);
    var c, p3 := RecoveryWorks(p2, g);
    LeadsOn(p, a, p1, [Save], p2, g);
    LeadsOn(p, a + [Save], p2, c, p3, g);
    ms, p' := a + [Save] + c, p3;
    NoTriggerNoRow(p2.at, u);
    CompensatedTriggers(p2.saved, Some(u));
  }

  lemma NoTriggerNoRow(t: Table, u: Unit)
    requires TableInv(t) && At(t, u).trigger.None?
    ensures RowOf(t.rows, u).trig.None?
  {
    CleanAt(t, u);
  }

  // ---------------------------------------------------------------- identifiers for the rebuilt jobs

  function KindNumber(k: Kind): nat {
    match k
    case Start => 1
    case Stop => 2
    case Reload => 3
    case Restart => 4
    case Verify => 5
    case Nop => 6
    case TryReload => 7
    case TryRestart => 8
    case ReloadOrStart => 9
  }

  function SomeIds(rows: Rows): NewIds {
    NewIds(map u | u in rows :: 10 * u, map u | u in rows :: map k | k in rows[u].susp :: 10 * u + KindNumber(k))
  }

  lemma SomeIdsOk(rows: Rows)
    ensures NewIdsOk(rows, SomeIds(rows))
  {
    var n := SomeIds(rows);
    forall u, v, k, l | u in rows && v in rows && k in n.susp[u] && l in n.susp[v] && n.susp[u][k] == n.susp[v][l]
      ensures u == v && k == l
    {
      SameNumber(u, v, KindNumber(k), KindNumber(l));
    }
    forall u, v, k | u in rows && v in rows && k in n.susp[v]
      ensures n.trig[u] != n.susp[v][k]
    {
      if n.trig[u] == n.susp[v][k] { SameNumber(u, v, 0, KindNumber(k)); }
    }
  }

  lemma SameNumber(u: nat, v: nat, i: nat, j: nat)
    requires i < 10 && j < 10 && 10 * u + i == 10 * v + j
    ensures u == v && i == j
  {
  }

  // ---------------------------------------------------------------- from the beginning

  const EMPTY_TBL: Tbl<Key, Val> := Tbl(map[], map[], map[], {}, false)
  const NOTHING: Tables := map[JTRIGGER := map[], JSUSPENDS := map[]]

  /** A process that has just been started for the first time. */
  const START := Process(
    Store(map[JTRIGGER := EMPTY_TBL, JSUSPENDS := EMPTY_TBL], [], None, false, [], false, NOTHING),
    INIT, Up, map[], EMPTY_TABLE)

  lemma NothingSaysNothing()
    ensures Says(NOTHING, map[])
  {
    TwoTables();
  }

  lemma EmptyStore()
    ensures StoreHolds(START.store, map[]) && Caches(START.store.tables) == NOTHING
  {
    NothingSaysNothing();
    TwoTables();
    var ts := START.store.tables;
    assert Caches(ts) == NOTHING;
    assert Disks(ts) == NOTHING;
    assert EMPTY_TBL.cache == EMPTY_TBL.db + EMPTY_TBL.add - EMPTY_TBL.del;
  }

  lemma StartOk(g: Graph)
    ensures ProcessInv(START, g)
  {
    InitOk(g);
    EmptyStore();
    IsUp(START, g);
  }

  lemma Spoken(p: Process, op: JobOp, g: Graph) returns (p': Process)
    requires ProcessInv(p, g) && p.phase.Up? && (op.SetFrame? || op.SetUnit?)
    ensures Leads(p, [Tell(op)], p', g) && ProcessInv(p', g)
    ensures p' == p.(store := Act(p.store, op))
  {
    p' := p.(store := Act(p.store, op));
    LeadsOne(p, Tell(op), p', g);
    TellKeeps(p, op, g, p');
  }

  const STOP_IT := Transact(map[0 := map[Stop := JobStranded.Fresh(1, 0, Stop)]], {}, {})

  lemma CanStop()
    ensures Enabled(INIT, STOP_IT)
  {
    JobStranded.StagedAlone(INIT.t, 1, Stop, STOP_IT.stage);
  }

  lemma StopWaits(t: Table)
    requires TableInv(INIT.t) && Enabled(INIT, STOP_IT) && t == Step(INIT, STOP_IT, JobStranded.ORDER).t
    ensures JobStranded.Alone(t, JobStranded.One(1, 0, Stop, false))
  {
    Ready(INIT, STOP_IT);
    JobStranded.AfterFresh(INIT.t, 1, Stop, STOP_IT.stage);
  }

  lemma StopRuns(sc: Sched, t': Table)
    requires TableInv(sc.t) && JobStranded.Alone(sc.t, JobStranded.One(1, 0, Stop, false))
    ensures Enabled(sc, Pop(0, RunOk))
    ensures t' == Step(sc, Pop(0, RunOk), JobStranded.ORDER).t ==>
              At(t', 0).trigger.Some? && At(t', 0).trigger.value.kind.Stop? && At(t', 0).suspends == map[]
  {
    var t, s := sc.t, JobStranded.One(1, 0, Stop, false);
    JobStranded.NobodyAround();
    assert Stop in s.suspends && s.suspends - {Stop} == map[];
    assert HasNext(s) && JobUnits.Next(s) == JobStranded.Waiting(1, 0, Stop);
    Ready(sc, Pop(0, RunOk));
    assert Runnable(t, JobStranded.ORDER, 0);
    SingleFrame(t, 0, TriggerStep(s, RowAt(t, 0), RunOk), Apply(t, map[0 := TriggerStep(s, RowAt(t, 0), RunOk)]));
  }

  lemma FrameOpened(g: Graph) returns (ms: seq<Move>, p: Process)
    ensures Leads(START, ms, p, g) && ProcessInv(p, g) && p.phase.Up? && p.sc == INIT
    ensures p.store.open != [] && p.store.frames != []
  {
    StartOk(g);
    ms := [Tell(SetFrame((0, None, None)))];
    p := Spoken(START, SetFrame((0, None, None)), g);
  }

  lemma StopPending(p: Process) returns (ms: seq<Move>, p': Process)
    requires ProcessInv(p, JobStranded.ORDER) && p.phase.Up? && p.sc == INIT && CanWrite(p.store)
    ensures Leads(p, ms, p', JobStranded.ORDER) && ProcessInv(p', JobStranded.ORDER) && p'.phase.Up? && CanWrite(p'.store)
    ensures p'.store.frames == p.store.frames && p'.store.open == p.store.open
    ensures JobStranded.Alone(p'.sc.t, JobStranded.One(1, 0, Stop, false))
  {
    CanStop();
    ms, p' := Drive(p, STOP_IT, JobStranded.ORDER);
    StopWaits(p'.sc.t);
  }

  lemma StopTriggered(p: Process) returns (ms: seq<Move>, p': Process)
    requires ProcessInv(p, JobStranded.ORDER) && p.phase.Up? && CanWrite(p.store)
    requires JobStranded.Alone(p.sc.t, JobStranded.One(1, 0, Stop, false))
    ensures Leads(p, ms, p', JobStranded.ORDER) && ProcessInv(p', JobStranded.ORDER) && LastUnit(p'.store) == LastUnit(p.store)
    ensures At(p'.at, 0).trigger.Some? && At(p'.at, 0).trigger.value.kind.Stop? && At(p'.at, 0).suspends == map[]
  {
    EngineIsSound(p, JobStranded.ORDER);
    StopRuns(p.sc, Step(p.sc, Pop(0, RunOk), JobStranded.ORDER).t);
    var a, p1 := Drive(p, Pop(0, RunOk), JobStranded.ORDER);
    p' := Commit(p1, JobStranded.ORDER);
    ms := a + [Save];
    LeadsOn(p, a, p1, [Save], p', JobStranded.ORDER);
  }

  lemma UnitMarked(p: Process, g: Graph) returns (p': Process)
    requires ProcessInv(p, g) && p.phase.Up? && p.store.frames != []
    ensures Leads(p, [Tell(SetUnit(0))], p', g) && ProcessInv(p', g) && p'.phase.Up? && p'.sc == p.sc
    ensures LastUnit(p'.store) == Some(0) && p'.store.open == p.store.open
  {
    p' := Spoken(p, SetUnit(0), g);
  }

  /** A stop is triggered and committed, and the unit is recorded as the one being acted on. */
  lemma StopIsCommitted() returns (ms: seq<Move>, p: Process)
    ensures Leads(START, ms, p, JobStranded.ORDER) && ProcessInv(p, JobStranded.ORDER)
    ensures LastUnit(p.store) == Some(0)
    ensures At(p.at, 0).trigger.Some? && At(p.at, 0).trigger.value.kind.Stop? && At(p.at, 0).suspends == map[]
  {
    var g := JobStranded.ORDER;
    var a, p1 := FrameOpened(g);
    var b, p2 := StopPending(p1);
    var p3 := UnitMarked(p2, g);
    var d, p4 := StopTriggered(p3);
    LeadsOn(START, a, p1, b, p2, g);
    LeadsOn(START, a + b, p2, [Tell(SetUnit(0))], p3, g);
    LeadsOn(START, a + b + [Tell(SetUnit(0))], p3, d, p4, g);
    ms, p := a + b + [Tell(SetUnit(0))] + d, p4;
  }

  /** What comes back is due to be run again. */
  lemma BackIsDue(at: Table, t: Table, g: Graph, u: Unit)
    requires TableInv(t) && UnitBack(at, t, Some(u), u)
    requires At(at, u).trigger.Some? && At(at, u).trigger.value.kind.Stop? && At(at, u).suspends == map[]
    ensures DueAgain(t, g, u) && t.data[u].trigger.value.kind.Stop?
  {
    CleanAt(t, u);
    assert At(t, u).suspends == map[];
    CanonShape(map[]);
  }

  lemma Rebuild(p: Process, g: Graph) returns (m: Move, p': Process)
    requires ProcessInv(p, g) && p.phase.Saved?
    ensures Leads(p, [m], p', g) && ProcessInv(p', g) && p'.phase.Rerun? && LastUnit(p'.store) == LastUnit(p.store)
    ensures TableInv(p'.sc.t) && JobsComeBack(p.at, p'.sc.t, LastUnit(p.store))
  {
    CanMapBack(p, g);
    var ids := SomeIds(Shown(p.store));
    SomeIdsOk(Shown(p.store));
    m := MapBack(ids, {});
    p' := Mapped(p, ids, {});
    LeadsOne(p, m, p', g);
    MapBackKeeps(p, ids, {}, g, p');
    EngineIsSound(p', g);
    DiskComesBack(p.at, LastUnit(p.store), ids, {}, Shown(p.store), p'.sc.t);
  }

  /** A run from the very beginning: a stop is committed as triggered, the process crashes, recovers, runs
      the stop again until it is done, commits that, and crashes before it takes back the last unit. The
      next recovery restarts the unit, although there is no job of it any more. */
  lemma RecoveryRestartsDoneUnit() returns (ms: seq<Move>, p: Process)
    ensures Leads(START, ms, p, JobStranded.ORDER) && p.phase.Saved?
    ensures At(p.at, 0).trigger.None?
    ensures RowOf(p.saved, 0).trig == Some(TrigData(Kind.Restart, Attr(true, true, true, true)))
  {
    var g := JobStranded.ORDER;
    var a, p1 := StopIsCommitted();
    var b, p2 := RecoveryWorks(p1, g);
    var m, p3 := Rebuild(p2, g);
    assert UnitBack(p1.at, p3.sc.t, Some(0), 0);
    BackIsDue(p1.at, p3.sc.t, g, 0);
    var c, p4 := DoneJobComesBack(p3, g, 0);
    LeadsOn(START, a, p1, b, p2, g);
    LeadsOn(START, a + b, p2, [m], p3, g);
    LeadsOn(START, a + b + [m], p3, c, p4, g);
    ms, p := a + b + [m] + c, p4;
  }
}
