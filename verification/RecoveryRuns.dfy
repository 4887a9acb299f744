/** Running, crashing and recovering, step by step. The process may crash between any two steps, also
    while it recovers; what it finds then is what the store brings back. */
module RecoveryRuns {
  import opened Jobs
  import opened JobTables
  import opened JobRuns
  import opened Reliability
  import opened Recovery
  import opened JobRows

  // ---------------------------------------------------------------- the process

  /** Running; or recovering, with the tables imported, compensated in memory, compensated on disk, with
      the jobs rebuilt and being run again, or with the last unit taken back and the frame not yet. */
  datatype Phase = Up | Imported | Compensated | Saved | Rerun | Forgetting

  /** The engine and the store. `saved` and `at` are history: the rows on disk, and the table at the last
      commit that the engine made. */
  datatype Process = Process(store: JobStore, sc: Sched, phase: Phase, saved: Rows, at: Table)

  /** The unit that was being acted on, if the last words tell. */
  function LastUnit(s: JobStore): Option<Unit> {
    if s.frames == [] then None else s.unit
  }

  /** The recorded unit counts if and only if a frame is recorded; once it is taken back, no crash brings it
      back. */
  lemma LastUnitExact(s: JobStore, u: Unit)
    ensures LastUnit(s) == Some(u) <==> s.frames != [] && s.unit == Some(u)
    ensures LastUnit(Reliability.Restart(s)) == LastUnit(s) && LastUnit(Reliability.Restart(ForgetUnit(s))) == None
  {
  }

  datatype Move =
    | Tell(op: JobOp)
    | Engine(event: Event, ops: seq<JobOp>)
    | Save
    | Crash
    | CompensateRows(ops: seq<JobOp>)
    | SaveRows
    | MapBack(ids: NewIds, active: set<Unit>)
    | TakeBackUnit
    | TakeBackFrame

  /** The rows on disk come from the table at the engine's last commit, as they were or compensated. */
  ghost predicate FromCommit(p: Process) {
    SameRows(p.saved, p.at.rows) || SameRows(p.saved, Compensate(p.at.rows, LastUnit(p.store)))
  }

  /** What memory shows agrees with the phase. */
  ghost predicate PhaseOk(p: Process, g: Graph) {
    match p.phase
    case Up => RunInv(p.sc, g) && Says(Caches(p.store.tables), p.sc.t.rows) && SameRows(p.saved, p.at.rows)
    case Forgetting =>
      && RunInv(p.sc, g) && Says(Caches(p.store.tables), p.sc.t.rows) && SameRows(p.saved, p.at.rows) && p.store.open == []
    case Rerun =>
      && RunInv(p.sc, g) && Says(Caches(p.store.tables), p.sc.t.rows)
      && FromCommit(p) && (p.store.closing ==> SameRows(p.saved, p.at.rows))
    case Imported => Says(Caches(p.store.tables), p.saved) && FromCommit(p)
    case Compensated => Says(Caches(p.store.tables), Compensate(p.saved, LastUnit(p.store))) && FromCommit(p)
    case Saved =>
      Says(Caches(p.store.tables), p.saved) && SameRows(p.saved, Compensate(p.at.rows, LastUnit(p.store)))
  }

  /** The store is consistent, and these rows are on disk. */
  ghost predicate StoreHolds(s: JobStore, saved: Rows) {
    StoreInv(s) && HasTables(s) && Says(s.snap, saved) && (s.ignoreLast ==> s.open == [])
  }

  /** The last words are not written while recovering. */
  predicate Ignores(ph: Phase) {
    !ph.Up? && !ph.Forgetting?
  }

  ghost predicate ProcessInv(p: Process, g: Graph) {
    StoreHolds(p.store, p.saved) && TableInv(p.at) && (p.store.ignoreLast <==> Ignores(p.phase)) && PhaseOk(p, g)
  }

  predicate IsWord(op: JobOp) {
    op.SetFrame? || op.PopFrame? || op.SetUnit? || op.ClearUnit?
  }

  /** The engine is there. */
  predicate Runs(p: Process) {
    p.phase.Up? || p.phase.Rerun?
  }

  /** The rows that the tables show. */
  ghost function Shown(s: JobStore): Rows {
    if s.tables.Keys == {JTRIGGER, JSUSPENDS} then RowsIn(Caches(s.tables)) else map[]
  }

  ghost predicate Possible(p: Process, m: Move, g: Graph) {
    match m
    case Tell(op) => Runs(p) && IsWord(op) && Legal(p.store, op) && (op.PopFrame? && !p.store.ignoreLast ==> p.store.frames != [])
    case Engine(e, ops) =>
      Runs(p) && TableInv(p.sc.t) && Enabled(p.sc, e) && WritesMake(p.store, ops, Step(p.sc, e, g).t.rows)
    case Save => Runs(p)
    case Crash => true
    case CompensateRows(ops) => p.phase.Imported? && WritesMake(p.store, ops, Compensate(p.saved, LastUnit(p.store)))
    case SaveRows => p.phase.Compensated?
    case MapBack(ids, active) => p.phase.Saved? && RowsOk(Shown(p.store)) && NewIdsOk(Shown(p.store), ids)
    case TakeBackUnit => p.phase.Rerun? && p.store.closing
    case TakeBackFrame => p.phase.Forgetting?
  }

  ghost function Driven(p: Process, e: Event, ops: seq<JobOp>, g: Graph): Process
    requires TableInv(p.sc.t) && Enabled(p.sc, e) && LegalAll(p.store, ops)
  {
    p.(store := Acts(p.store, ops), sc := Step(p.sc, e, g))
  }

  ghost function Told(p: Process, op: JobOp): Process
    requires IsWord(op) && (op.PopFrame? && !p.store.ignoreLast ==> p.store.open != [] && p.store.frames != [])
  {
    p.(store := Act(p.store, op))
  }

  ghost function Rewritten(p: Process, ops: seq<JobOp>): Process
    requires LegalAll(p.store, ops)
  {
    p.(store := Acts(p.store, ops), phase := Compensated)
  }

  ghost function Mapped(p: Process, ids: NewIds, active: set<Unit>): Process
    requires RowsOk(Shown(p.store)) && NewIdsOk(Shown(p.store), ids)
  {
    p.(store := p.store.(closing := false), phase := Rerun, sc := Sched(RecoverTable(Shown(p.store), ids, active), {}))
  }

  ghost function Committed(p: Process): Process {
    p.(store := Act(p.store, CommitAll), saved := p.sc.t.rows, at := p.sc.t)
  }

  ghost function RowsCommitted(p: Process): Process {
    p.(store := Act(p.store, CommitAll), phase := Saved, saved := Compensate(p.saved, LastUnit(p.store)))
  }

  ghost function Next(p: Process, m: Move, g: Graph): Process
    requires Possible(p, m, g)
  {
    match m
    case Tell(op) => Told(p, op)
    case Engine(e, ops) => Driven(p, e, ops, g)
    case Save => Committed(p)
    case Crash => p.(store := Reliability.Restart(p.store), phase := Imported)
    case CompensateRows(ops) => Rewritten(p, ops)
    case SaveRows => RowsCommitted(p)
    case MapBack(ids, active) => Mapped(p, ids, active)
    case TakeBackUnit => p.(store := ForgetUnit(p.store), phase := Forgetting)
    case TakeBackFrame => p.(store := ForgetFrame(p.store), phase := Up)
  }

  /** Whenever the rows are saved, the jobs can be rebuilt, from what the engine's last commit left. */
  lemma CanMapBack(p: Process, g: Graph)
    requires ProcessInv(p, g) && p.phase.Saved?
    ensures SameRows(Shown(p.store), p.saved) && RowsOk(Shown(p.store))
    ensures SameRows(Shown(p.store), Compensate(p.at.rows, LastUnit(p.store)))
  {
    ReadBack(Caches(p.store.tables), p.saved);
    SameTrans(Shown(p.store), p.saved, Compensate(p.at.rows, LastUnit(p.store)));
    CompensatedRowsOk(p.at, LastUnit(p.store), Shown(p.store));
  }

  lemma SameTrans(a: Rows, b: Rows, c: Rows)
    requires SameRows(a, b) && SameRows(b, c)
    ensures SameRows(a, c)
  {
    forall u: Unit
      ensures RowOf(a, u) == RowOf(c, u)
    {
      assert RowOf(a, u) == RowOf(b, u);
    }
  }

  lemma SameCompensated(a: Rows, b: Rows, last: Option<Unit>)
    requires SameRows(a, b)
    ensures SameRows(Compensate(a, last), Compensate(b, last))
  {
    forall u: Unit
      ensures RowOf(Compensate(a, last), u) == RowOf(Compensate(b, last), u)
    {
      assert RowOf(a, u) == RowOf(b, u);
      if last.Some? { assert RowOf(a, last.value) == RowOf(b, last.value); }
    }
  }

  // ---------------------------------------------------------------- every move keeps the agreement

  lemma TellKeeps(p: Process, op: JobOp, g: Graph, p': Process)
    requires ProcessInv(p, g) && Possible(p, Tell(op), g) && p' == Next(p, Tell(op), g)
    ensures ProcessInv(p', g)
  {
    ActKeeps(p.store, op);
  }

  lemma EngineKeeps(p: Process, e: Event, ops: seq<JobOp>, g: Graph, p': Process)
    requires ProcessInv(p, g) && Possible(p, Engine(e, ops), g) && p' == Driven(p, e, ops, g)
    ensures ProcessInv(p', g)
  {
    WrittenStore(p.store, p.saved, ops, p'.sc.t.rows, p'.store);
    StepKeeps(p.sc, e, g, p'.sc);
  }

  lemma SaveKeeps(p: Process, g: Graph, p': Process)
    requires ProcessInv(p, g) && Runs(p) && p' == p.(store := Act(p.store, CommitAll), saved := p.sc.t.rows, at := p.sc.t)
    ensures ProcessInv(p', g)
  {
    ActKeeps(p.store, CommitAll);
    CommitShows(p.store);
  }

  lemma CrashedStore(s: JobStore, saved: Rows)
    requires StoreHolds(s, saved)
    ensures StoreHolds(Reliability.Restart(s), saved) && Says(Caches(Reliability.Restart(s).tables), saved)
    ensures LastUnit(Reliability.Restart(s)) == LastUnit(s) && Reliability.Restart(s).ignoreLast
  {
    RestartShows(s);
  }

  lemma PhaseFromCommit(p: Process, g: Graph)
    requires PhaseOk(p, g)
    ensures FromCommit(p)
  {
  }

  lemma CrashKeeps(p: Process, g: Graph, p': Process)
    requires ProcessInv(p, g) && p' == p.(store := Reliability.Restart(p.store), phase := Imported)
    ensures ProcessInv(p', g)
  {
    CrashedStore(p.store, p.saved);
    PhaseFromCommit(p, g);
  }

  lemma WrittenStore(s: JobStore, saved: Rows, ops: seq<JobOp>, rows: Rows, s': JobStore)
    requires StoreHolds(s, saved) && WritesMake(s, ops, rows) && s' == Acts(s, ops)
    ensures StoreHolds(s', saved) && Says(Caches(s'.tables), rows)
    ensures LastUnit(s') == LastUnit(s) && s'.ignoreLast == s.ignoreLast && (s'.closing ==> s.closing)
  {
    ActsKeep(s, ops);
    WritesKeep(s, ops);
  }

  lemma IsCompensated(p: Process, g: Graph)
    requires StoreHolds(p.store, p.saved) && TableInv(p.at) && p.store.ignoreLast && p.phase.Compensated?
    requires Says(Caches(p.store.tables), Compensate(p.saved, LastUnit(p.store))) && FromCommit(p)
    ensures ProcessInv(p, g)
  {
  }

  lemma StaysFromCommit(p: Process, p': Process)
    requires FromCommit(p) && p'.saved == p.saved && p'.at == p.at && LastUnit(p'.store) == LastUnit(p.store)
    ensures FromCommit(p')
  {
  }

  lemma CompensateKeeps(p: Process, ops: seq<JobOp>, g: Graph, p': Process)
    requires ProcessInv(p, g) && p.phase.Imported? && WritesMake(p.store, ops, Compensate(p.saved, LastUnit(p.store)))
    requires p' == p.(store := Acts(p.store, ops), phase := Compensated)
    ensures ProcessInv(p', g)
  {
    WrittenStore(p.store, p.saved, ops, Compensate(p.saved, LastUnit(p.store)), p'.store);
    PhaseFromCommit(p, g);
    StaysFromCommit(p, p');
    IsCompensated(p', g);
  }

  lemma CompensatedFromCommit(p: Process)
    requires FromCommit(p)
    ensures SameRows(Compensate(p.saved, LastUnit(p.store)), Compensate(p.at.rows, LastUnit(p.store)))
  {
    var last := LastUnit(p.store);
    if SameRows(p.saved, p.at.rows) {
      SameCompensated(p.saved, p.at.rows, last);
    } else {
      SameCompensated(p.saved, Compensate(p.at.rows, last), last);
      CompensateTwice(p.at.rows, last);
    }
  }

  lemma SaveRowsKeeps(p: Process, g: Graph, p': Process)
    requires ProcessInv(p, g) && p.phase.Compensated?
    requires p' == p.(store := Act(p.store, CommitAll), phase := Saved, saved := Compensate(p.saved, LastUnit(p.store)))
    ensures ProcessInv(p', g)
  {
    ActKeeps(p.store, CommitAll);
    CommitShows(p.store);
    CompensatedFromCommit(p);
  }

  lemma RebuiltRows(rows: Rows, ids: NewIds, active: set<Unit>)
    requires RowsOk(rows) && NewIdsOk(rows, ids)
    ensures SameRows(RecoverTable(rows, ids, active).rows, rows)
  {
    forall u: Unit
      ensures RowOf(RecoverTable(rows, ids, active).rows, u) == RowOf(rows, u)
    {
      Retriggered(rows, ids, active, u);
    }
  }

  lemma RebuiltShown(p: Process, ids: NewIds, active: set<Unit>, g: Graph, t: Table)
    requires ProcessInv(p, g) && p.phase.Saved? && RowsOk(Shown(p.store)) && NewIdsOk(Shown(p.store), ids)
    requires t == RecoverTable(Shown(p.store), ids, active)
    ensures TableInv(t) && Says(Caches(p.store.tables), t.rows)
  {
    CanMapBack(p, g);
    RecoverTableOk(Shown(p.store), ids, active);
    RebuiltRows(Shown(p.store), ids, active);
    SameTrans(t.rows, Shown(p.store), p.saved);
    SameBack(t.rows, p.saved);
    SaysSame(Caches(p.store.tables), p.saved, t.rows);
  }

  lemma OpenedStore(s: JobStore, saved: Rows)
    requires StoreHolds(s, saved) && s.ignoreLast
    ensures StoreHolds(s.(closing := false), saved) && LastUnit(s.(closing := false)) == LastUnit(s)
  {
  }

  lemma FreshRun(t: Table, g: Graph)
    requires TableInv(t)
    ensures RunInv(Sched(t, {}), g)
  {
  }

  lemma MapBackKeeps(p: Process, ids: NewIds, active: set<Unit>, g: Graph, p': Process)
    requires ProcessInv(p, g) && p.phase.Saved? && RowsOk(Shown(p.store)) && NewIdsOk(Shown(p.store), ids)
    requires p' == Mapped(p, ids, active)
    ensures ProcessInv(p', g)
  {
    RebuiltShown(p, ids, active, g, p'.sc.t);
    OpenedStore(p.store, p.saved);
    FreshRun(p'.sc.t, g);
  }

  lemma UnitTaken(s: JobStore, saved: Rows)
    requires StoreHolds(s, saved) && s.ignoreLast && s.closing
    ensures StoreHolds(ForgetUnit(s), saved) && ForgetUnit(s).tables == s.tables && ForgetUnit(s).open == []
  {
  }

  lemma FrameTaken(s: JobStore, saved: Rows)
    requires StoreHolds(s, saved) && !s.ignoreLast && s.open == []
    ensures StoreHolds(ForgetFrame(s), saved) && ForgetFrame(s).tables == s.tables
  {
  }

  lemma RerunClosed(p: Process, g: Graph)
    requires PhaseOk(p, g) && p.phase.Rerun? && p.store.closing
    ensures RunInv(p.sc, g) && Says(Caches(p.store.tables), p.sc.t.rows) && SameRows(p.saved, p.at.rows)
  {
  }

  lemma IsForgetting(p: Process, g: Graph)
    requires StoreHolds(p.store, p.saved) && TableInv(p.at) && !p.store.ignoreLast && p.phase.Forgetting? && p.store.open == []
    requires RunInv(p.sc, g) && Says(Caches(p.store.tables), p.sc.t.rows) && SameRows(p.saved, p.at.rows)
    ensures ProcessInv(p, g)
  {
  }

  lemma TakeBackUnitKeeps(p: Process, g: Graph, p': Process)
    requires ProcessInv(p, g) && p.phase.Rerun? && p.store.closing && p' == p.(store := ForgetUnit(p.store), phase := Forgetting)
    ensures ProcessInv(p', g)
  {
    UnitTaken(p.store, p.saved);
    RerunClosed(p, g);
    IsForgetting(p', g);
  }

  lemma IsUp(p: Process, g: Graph)
    requires StoreHolds(p.store, p.saved) && TableInv(p.at) && !p.store.ignoreLast && p.phase.Up?
    requires RunInv(p.sc, g) && Says(Caches(p.store.tables), p.sc.t.rows) && SameRows(p.saved, p.at.rows)
    ensures ProcessInv(p, g)
  {
  }

  lemma TakeBackFrameKeeps(p: Process, g: Graph, p': Process)
    requires ProcessInv(p, g) && p.phase.Forgetting? && p' == p.(store := ForgetFrame(p.store), phase := Up)
    ensures ProcessInv(p', g)
  {
    FrameTaken(p.store, p.saved);
    IsUp(p', g);
  }

  lemma MoveKeeps(p: Process, m: Move, g: Graph, p': Process)
    requires ProcessInv(p, g) && Possible(p, m, g) && p' == Next(p, m, g)
    ensures ProcessInv(p', g)
  {
    match m
    case Tell(op) => TellKeeps(p, op, g, p');
    case Engine(e, ops) => EngineKeeps(p, e, ops, g, p');
    case Save => SaveKeeps(p, g, p');
    case Crash => CrashKeeps(p, g, p');
    case CompensateRows(ops) => CompensateKeeps(p, ops, g, p');
    case SaveRows => SaveRowsKeeps(p, g, p');
    case MapBack(ids, active) => MapBackKeeps(p, ids, active, g, p');
    case TakeBackUnit => TakeBackUnitKeeps(p, g, p');
    case TakeBackFrame => TakeBackFrameKeeps(p, g, p');
  }

  lemma EngineIsSound(p: Process, g: Graph)
    requires PhaseOk(p, g) && Runs(p)
    ensures RunInv(p.sc, g)
  {
  }

  // ---------------------------------------------------------------- every run

  ghost predicate CanGo(p: Process, ms: seq<Move>, g: Graph)
    decreases |ms|
  {
    ms != [] ==> Possible(p, ms[0], g) && CanGo(Next(p, ms[0], g), ms[1..], g)
  }

  /** The process after these moves. */
  ghost function Go(p: Process, ms: seq<Move>, g: Graph): Process
    requires CanGo(p, ms, g)
    decreases |ms|
  {
    if ms == [] then p else Go(Next(p, ms[0], g), ms[1..], g)
  }

  lemma {:induction false} GoKeeps(p: Process, ms: seq<Move>, g: Graph)
    requires ProcessInv(p, g) && CanGo(p, ms, g)
    ensures ProcessInv(Go(p, ms, g), g)
    decreases |ms|
  {
    if ms != [] {
      MoveKeeps(p, ms[0], g, Next(p, ms[0], g));
      GoKeeps(Next(p, ms[0], g), ms[1..], g);
    }
  }

  /** These moves lead from one process to the other. */
  ghost predicate Leads(p: Process, ms: seq<Move>, p': Process, g: Graph) {
    CanGo(p, ms, g) && Go(p, ms, g) == p'
  }

  lemma LeadsOne(p: Process, m: Move, p': Process, g: Graph)
    requires Possible(p, m, g) && p' == Next(p, m, g)
    ensures Leads(p, [m], p', g)
  {
    assert [m][1..] == [];
  }

  lemma {:induction false} LeadsOn(p: Process, ms: seq<Move>, p1: Process, ns: seq<Move>, p2: Process, g: Graph)
    requires Leads(p, ms, p1, g) && Leads(p1, ns, p2, g)
    ensures Leads(p, ms + ns, p2, g)
    decreases |ms|
  {
    if ms == [] {
      assert ms + ns == ns;
    } else {
      LeadsOn(Next(p, ms[0], g), ms[1..], p1, ns, p2, g);
      assert (ms + ns)[1..] == ms[1..] + ns;
    }
  }

  // ---------------------------------------------------------------- what comes back

  /** After every run, with crashes anywhere in it and also in the middle of recoveries: whenever a recovery
      comes to rebuilding the jobs, the rebuilt table is in agreement and holds the jobs of the engine's
      last commit. It holds no other triggered job if and only if the unit that is recorded as the last
      one has a triggered job in that commit. */
  lemma CrashKeepsEveryJob(p0: Process, ms: seq<Move>, g: Graph, p: Process, ids: NewIds, active: set<Unit>)
    requires ProcessInv(p0, g) && Leads(p0, ms, p, g) && p.phase.Saved? && NewIdsOk(Shown(p.store), ids)
    ensures RowsOk(Shown(p.store)) && TableInv(RecoverTable(Shown(p.store), ids, active))
    ensures JobsComeBack(p.at, RecoverTable(Shown(p.store), ids, active), LastUnit(p.store))
    ensures NothingInvented(p.at, RecoverTable(Shown(p.store), ids, active))
            <==> LastUnit(p.store).None? || At(p.at, LastUnit(p.store).value).trigger.Some?
  {
    GoKeeps(p0, ms, g);
    CanMapBack(p, g);
    RecoverTableOk(Shown(p.store), ids, active);
    var t := RecoverTable(Shown(p.store), ids, active);
    DiskComesBack(p.at, LastUnit(p.store), ids, active, Shown(p.store), t);
    InventedExact(p.at, LastUnit(p.store), t);
  }

  lemma Crashed(p: Process, g: Graph) returns (p': Process)
    requires ProcessInv(p, g)
    ensures Leads(p, [Crash], p', g) && ProcessInv(p', g) && p'.phase.Imported?
    ensures p'.at == p.at && p'.saved == p.saved && LastUnit(p'.store) == LastUnit(p.store) && p'.store.ignoreLast
  {
    p' := p.(store := Reliability.Restart(p.store), phase := Imported);
    CrashKeeps(p, g, p');
    LeadsOne(p, Crash, p', g);
  }

  lemma RowsSaved(p: Process, g: Graph) returns (ms: seq<Move>, p': Process)
    requires ProcessInv(p, g) && p.phase.Imported? && p.store.ignoreLast
    ensures Leads(p, ms, p', g) && ProcessInv(p', g) && p'.phase.Saved?
    ensures p'.at == p.at && p'.saved == Compensate(p.saved, LastUnit(p.store)) && LastUnit(p'.store) == LastUnit(p.store)
  {
    var rows := Compensate(p.saved, LastUnit(p.store));
    var ops := WritesExist(p.store, rows);
    var p1 := p.(store := Acts(p.store, ops), phase := Compensated);
    LeadsOne(p, CompensateRows(ops), p1, g);
    CompensateKeeps(p, ops, g, p1);
    WrittenStore(p.store, p.saved, ops, rows, p1.store);
    p' := p1.(store := Act(p1.store, CommitAll), phase := Saved, saved := Compensate(p1.saved, LastUnit(p1.store)));
    LeadsOne(p1, SaveRows, p', g);
    SaveRowsKeeps(p1, g, p');
    ms := [CompensateRows(ops)] + [SaveRows];
    LeadsOn(p, [CompensateRows(ops)], p1, [SaveRows], p', g);
  }

  /** Wherever a process crashes, a recovery can get as far as rebuilding the jobs, from the same commit
      and with the same last unit. */
  lemma RecoveryWorks(p: Process, g: Graph) returns (ms: seq<Move>, p': Process)
    requires ProcessInv(p, g)
    ensures Leads(p, ms, p', g) && ProcessInv(p', g) && p'.phase.Saved?
    ensures p'.at == p.at && p'.saved == Compensate(p.saved, LastUnit(p.store)) && LastUnit(p'.store) == LastUnit(p.store)
  {
    var p1 := Crashed(p, g);
    var ns, p2 := RowsSaved(p1, g);
    ms, p' := [Crash] + ns, p2;
    LeadsOn(p, [Crash], p1, ns, p', g);
  }

  /** The triggered jobs that are persisted. */
  ghost predicate SameTriggers(a: Rows, b: Rows) {
    forall u: Unit :: RowOf(a, u).trig.Some? <==> RowOf(b, u).trig.Some?
  }

  /** Crashing once more, and recovering up to the saved rows. */
  ghost predicate RecoversTo(p: Process, ops: seq<JobOp>, p': Process) {
    var s := Reliability.Restart(p.store);
    && WritesMake(s, ops, Compensate(p.saved, LastUnit(s)))
    && p' == p.(store := Act(Acts(s, ops), CommitAll), phase := Saved, saved := Compensate(p.saved, LastUnit(Acts(s, ops))))
  }

  /** These are three moves. */
  lemma RecoversByMoves(p: Process, ops: seq<JobOp>, p': Process, g: Graph)
    requires RecoversTo(p, ops, p')
    ensures Leads(p, [Crash] + ([CompensateRows(ops)] + [SaveRows]), p', g)
  {
    var s := Reliability.Restart(p.store);
    var p1 := p.(store := s, phase := Imported);
    var p2 := p1.(store := Acts(s, ops), phase := Compensated);
    LeadsOne(p, Crash, p1, g);
    LeadsOne(p1, CompensateRows(ops), p2, g);
    LeadsOne(p2, SaveRows, p', g);
    LeadsOn(p1, [CompensateRows(ops)], p2, [SaveRows], p', g);
    LeadsOn(p, [Crash], p1, [CompensateRows(ops)] + [SaveRows], p', g);
  }

  lemma RecoveredRows(p: Process, ops: seq<JobOp>, p': Process)
    requires HasTables(p.store) && RecoversTo(p, ops, p')
    ensures p'.saved == Compensate(p.saved, LastUnit(p.store)) && p'.at == p.at
  {
    var s := Reliability.Restart(p.store);
    assert HasTables(s);
    WritesKeep(s, ops);
  }

  /** Crashing again, at any time and also while jobs are being run again: the next recovery leaves the
      triggered jobs that are on disk, and no other, if and only if the last unit still has one there.
      Whatever it was, a last unit without one gets a restart. As long as the engine has not committed
      since the rows were compensated, the next recovery changes nothing at all. */
  lemma RepeatedRecoveryExact(p: Process, ops: seq<JobOp>, p': Process, g: Graph, last: Option<Unit>)
    requires ProcessInv(p, g) && RecoversTo(p, ops, p') && last == LastUnit(p.store)
    ensures Leads(p, [Crash] + ([CompensateRows(ops)] + [SaveRows]), p', g)
    ensures SameTriggers(p'.saved, p.saved) <==> last.None? || RowOf(p.saved, last.value).trig.Some?
    ensures last.Some? && RowOf(p.saved, last.value).trig.None? ==>
              RowOf(p'.saved, last.value).trig == Some(TrigData(Kind.Restart, Attr(true, true, true, true)))
    ensures forall u: Unit :: RowOf(p'.saved, u).susp == RowOf(p.saved, u).susp
    ensures SameRows(p.saved, Compensate(p.at.rows, last)) ==> SameRows(p'.saved, p.saved)
  {
    RecoversByMoves(p, ops, p', g);
    RecoveredRows(p, ops, p');
    CompensatedTriggers(p.saved, last);
    if SameRows(p.saved, Compensate(p.at.rows, last)) {
      SameCompensated(p.saved, Compensate(p.at.rows, last), last);
      CompensateTwice(p.at.rows, last);
      SameBack(p.saved, Compensate(p.at.rows, last));
      SameTrans(p'.saved, Compensate(p.at.rows, last), p.saved);
    }
  }

  lemma SameBack(a: Rows, b: Rows)
    requires SameRows(a, b)
    ensures SameRows(b, a)
  {
    forall u: Unit
      ensures RowOf(b, u) == RowOf(a, u)
    {
      assert RowOf(a, u) == RowOf(b, u);
    }
  }

  lemma CompensatedTriggers(rows: Rows, last: Option<Unit>)
    ensures SameTriggers(Compensate(rows, last), rows) <==> last.None? || RowOf(rows, last.value).trig.Some?
    ensures last.Some? && RowOf(rows, last.value).trig.None? ==>
              RowOf(Compensate(rows, last), last.value).trig == Some(TrigData(Kind.Restart, Attr(true, true, true, true)))
    ensures forall u: Unit :: RowOf(Compensate(rows, last), u).susp == RowOf(rows, u).susp
  {
    forall u: Unit
      ensures RowOf(Compensate(rows, last), u).trig.Some? <==> RowOf(rows, u).trig.Some? || last == Some(u)
      ensures RowOf(Compensate(rows, last), u).susp == RowOf(rows, u).susp
    {
    }
    if last.Some? && RowOf(rows, last.value).trig.None? {
      assert RowOf(Compensate(rows, last), last.value).trig.Some?;
    }
  }
}
