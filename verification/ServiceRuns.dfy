/** Runs of a service that end where nobody wants them. */
module ServiceRuns {
  import opened Jobs
  import opened Services
  import opened ServiceTables

  predicate IsFine(r: Reply) {
    r.spawned.Some? && r.alive && r.underLimit
  }

  /** The service has a watchdog, and starting it runs nothing but its main process. */
  predicate IsWatched(cfg: Config) {
    && cfg.restart.OnWatchdog? && cfg.prevent == {} && cfg.watchdog && cfg.kind.Simple?
    && cfg.cmds.Keys == {CmdStart} && cfg.cmds[CmdStart] != []
  }

  method StartWatched(cfg: Config, w: World) returns (s: ServiceMng)
    requires IsWatched(cfg) && forall i :: IsSilent(w(i)) && IsFine(w(i))
    ensures fresh(s) && s.cfg == cfg && s.world == w && s.Queues()
    ensures s.state == State.Running && s.result == Success && s.controlCmd == [] && s.watchdogArmed
  {
    s := new ServiceMng(cfg, w);
    assert IsFine(w(0)) && IsFine(w(1)) && IsFine(w(2));
    RisesAtOnce(cfg, w, Asked(s.Now()));
    var _ := s.StartRequested();
  }

  /** A simple service without commands around its start is up when its process is. */
  lemma RisesAtOnce(cfg: Config, w: World, p: Past)
    requires cfg.kind.Simple? && cfg.cmds.Keys == {CmdStart} && cfg.cmds[CmdStart] != [] && p.queue == []
    requires p.res.Success? && !p.told && w(p.n).spawned.Some? && w(p.n + 1).alive
    ensures Leads(cfg, w, Checking, p) == Up(p.res, p.forbid, p.last)
  {
    var q := Asked(p).(main := w(p.n).spawned);
    assert p.(queue := []) == p;
    assert Leads(cfg, w, Posting, q) == Up(p.res, p.forbid, p.last);
    assert Leads(cfg, w, Launching, p) == Leads(cfg, w, Posting, q);
    assert Leads(cfg, w, Prestarting, p) == Leads(cfg, w, Launching, p);
  }

  method StopWatched(s: ServiceMng)
    requires IsWatched(s.cfg) && forall i :: IsSilent(s.world(i))
    requires s.Queues() && s.state == State.Running && s.result == Success && s.controlCmd == [] && s.watchdogArmed
    modifies s
    ensures s.Queues() && s.state == Dead && s.result == Success && s.controlCmd == [] && s.watchdogArmed && !s.forbidRestart
  {
    SilentFate(s.cfg, s.world, StopSigterm, s.result, s.asked, []);
    s.StopRequested();
  }

  /** A service is started and stopped, and it is dead. Ending has cleared the prohibition to restart,
      and the watchdog that was set at the start is still set. When it elapses, the service comes back. */
  method LateWatchdogRestarts(cfg: Config, w: World) returns (up: State, stopped: State, s: ServiceMng)
    requires IsWatched(cfg) && forall i :: IsSilent(w(i)) && IsFine(w(i))
    ensures up == State.Running && stopped == Dead && s.state == AutoRestart
  {
    s := StartWatched(cfg, w);
    up := s.state;
    StopWatched(s);
    stopped := s.state;
    SilentFate(s.cfg, s.world, StopWatchdog, Watchdog, s.asked, []);
    assert IsSilent(s.world(FateOf(s.cfg, s.world, StopWatchdog, Watchdog, s.asked, []).n));
    s.WatchdogElapsed();
  }

  /** The command after the start of a simple service cannot be spawned. */
  predicate PostWillFail(cfg: Config, w: World) {
    && cfg.kind.Simple? && CmdsOf(cfg, CmdStart) != [] && CmdsOf(cfg, CmdStartPost) != []
    && CmdsOf(cfg, CmdStartPre) == [] && CmdsOf(cfg, CmdCondition) == []
    && w(0).underLimit && w(1).spawned.Some? && w(2).spawned.None?
  }

  lemma PostLingers(cfg: Config, w: World, p: Past)
    requires PostWillFail(cfg, w) && p.n == 1 && p.queue == []
    ensures Leads(cfg, w, Checking, p) == Lingers(p.state, w(1).spawned, w(2).armed, p.res)
  {
    var q := Asked(p).(main := w(1).spawned);
    assert p.(queue := []) == p;
    assert Leads(cfg, w, Posting, q) == Lingers(p.state, w(1).spawned, w(2).armed, p.res);
    assert Leads(cfg, w, Launching, p) == Leads(cfg, w, Posting, q);
    assert Leads(cfg, w, Prestarting, p) == Leads(cfg, w, Launching, p);
  }

  method FailPost(cfg: Config, w: World) returns (s: ServiceMng)
    requires PostWillFail(cfg, w)
    ensures fresh(s) && s.cfg == cfg && s.world == w && s.Queues() && s.state == Dead
    ensures s.mainPid == w(1).spawned && s.controlPid == None && s.timerArmed == w(2).armed
  {
    s := new ServiceMng(cfg, w);
    PostLingers(cfg, w, Asked(s.Now()));
    var _ := s.StartRequested();
  }

  /** The service is left dead with a main process, whose end then meets nobody who expects it. */
  method FailedPostSurprises(cfg: Config, w: World, e: Exit) returns (s: ServiceMng, surprise: bool)
    requires PostWillFail(cfg, w)
    ensures surprise
  {
    s := FailPost(cfg, w);
    surprise := s.ChildExited(w(1).spawned.value, e);
  }

  /** If the failed spawn had set the timer before, the service is left dead with a timer as well. */
  method FailedPostTimesOut(cfg: Config, w: World) returns (s: ServiceMng, surprise: bool)
    requires PostWillFail(cfg, w) && w(2).armed
    ensures surprise
  {
    s := FailPost(cfg, w);
    surprise := s.TimerElapsed();
  }

  predicate IsObedient(r: Reply) {
    IsFine(r) && r.armed && !r.killFails && r.killed && r.timerOk
  }

  /** The service runs its first command before starting, and the second one is queued. */
  method StartTwo(cfg: Config, w: World) returns (s: ServiceMng)
    requires CmdsOf(cfg, CmdCondition) == [] && |CmdsOf(cfg, CmdStartPre)| == 2 && forall i :: IsObedient(w(i))
    ensures fresh(s) && s.cfg == cfg && s.world == w && s.Queues() && s.timerArmed
    ensures s.state == StartPre && s.mainPid == None && s.RunsFirst(CmdStartPre, w(1).spawned)
  {
    s := new ServiceMng(cfg, w);
    assert IsObedient(w(0)) && IsObedient(w(1));
    var _ := s.StartRequested();
  }

  /** The first of two commands before starting times out and is terminated. Its end counts as a success,
      the queue was kept, and so the second one is run while the service is stopping. */
  method AbortedStartRunsOn(cfg: Config, w: World) returns (s: ServiceMng)
    requires !cfg.kind.Oneshot? && CmdsOf(cfg, CmdCondition) == [] && |CmdsOf(cfg, CmdStartPre)| == 2
    requires forall i :: IsObedient(w(i))
    ensures s.state == StopSigterm && s.running == Some(cfg.cmds[CmdStartPre][1])
    ensures s.controlType == Some(CmdStartPre) && s.controlType != ListOf(s.state)
  {
    s := StartTwo(cfg, w);
    assert IsObedient(w(1));
    var pid := w(1).spawned.value;
    assert IsObedient(w(s.asked)) && IsObedient(w(s.asked + 1));
    var _ := s.TimerElapsed();
    assert s.state == StopSigterm && IsObedient(w(s.asked));
    var _ := s.ChildExited(pid, Signal(15, true, false));
  }

  /** A simple service with one command before starting: when that succeeds, the service is up. */
  method PreThenUp(cfg: Config, w: World) returns (s: ServiceMng, first: State)
    requires cfg.kind.Simple? && CmdsOf(cfg, CmdCondition) == [] && CmdsOf(cfg, CmdStartPost) == []
    requires |CmdsOf(cfg, CmdStartPre)| == 1 && CmdsOf(cfg, CmdStart) != []
    requires Obliging(w) && w(0).underLimit
    ensures first == StartPre && s.state == State.Running && s.result == Success
  {
    s := new ServiceMng(cfg, w);
    Obliges(w, 0);
    WhereStartLeads(cfg, w, Asked(s.Now()));
    var _ := s.StartRequested();
    first := s.state;
    PreDone(s, w(1).spawned.value);
  }

  method PreDone(s: ServiceMng, pid: nat)
    requires s.Queues() && s.cfg.kind.Simple? && CmdsOf(s.cfg, CmdStartPost) == [] && CmdsOf(s.cfg, CmdStart) != [] && Obliging(s.world)
    requires s.state == StartPre && s.controlCmd == [] && s.mainPid == None && s.controlPid == Some(pid) && s.result == Success && !s.toldStopping
    modifies s
    ensures s.state == State.Running && s.result == Success
  {
    WhereSuccessLeads(s.cfg, s.world, s.Now());
    assert s.Now().(queue := []) == s.Now();
    var _ := s.ChildExited(pid, Code(0));
  }
}
