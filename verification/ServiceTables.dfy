/** Where everything leads in a world that does what it is asked for: every command can be spawned, every signal
    reaches somebody, every timer can be set, processes are alive and nobody asks for a stop. */
module ServiceTables {
  import opened Jobs
  import opened Services

  predicate IsObliging(r: Reply) {
    r.spawned.Some? && r.alive && !r.killFails && r.killed && r.timerOk && !r.stopJob
  }

  ghost predicate Obliging(w: World) {
    forall i: nat :: IsObliging(w(i))
  }

  lemma Obliges(w: World, n: nat)
    requires Obliging(w)
    ensures IsObliging(w(n)) && IsObliging(w(n + 1))
  {
  }

  /** The service stays in this state with this result. */
  function Stay(at: State, p: Past, res: Result): Outcome {
    Fated(Fate.Stays(at, Merge(p.res, res)), p.forbid, p.last)
  }

  /** The first command for a purpose runs in its state. */
  function RunsOf(cfg: Config, w: World, s: State, kind: Command, p: Past, main: Option<nat>): Outcome {
    Runs(s, kind, CmdsOf(cfg, kind), w(p.n).spawned, w(p.n).armed, main, p.res)
  }

  lemma SignalLeads(cfg: Config, w: World, s: State, p: Past, res: Result)
    requires Obliging(w)
    ensures Leads(cfg, w, Signalling(s), With(p, res)) == Stay(s, p, res)
  {
    Obliges(w, p.n);
  }

  lemma FateObliged(cfg: Config, w: World, s: State, res: Result, n: nat, queue: seq<Cmd>)
    requires Obliging(w)
    ensures FateOf(cfg, w, s, res, n, queue) == Fate.Stays(s, res)
  {
    Obliges(w, n);
  }

  lemma HaltLeads(cfg: Config, w: World, p: Past, res: Result)
    requires Obliging(w) && p.queue == []
    ensures Leads(cfg, w, Halting, With(p, res)) == Stay(if CmdsOf(cfg, CmdStop) != [] then Stopping else StopSigterm, p, res)
    ensures Leads(cfg, w, HaltingPost, With(p, res)) == Stay(if CmdsOf(cfg, CmdStopPost) != [] then StopPost else FinalSigterm, p, res)
  {
    Obliges(w, p.n);
    var r := Merge(p.res, res);
    assert Filled(cfg, CmdStop, []) == CmdsOf(cfg, CmdStop) && Filled(cfg, CmdStopPost, []) == CmdsOf(cfg, CmdStopPost);
    FateObliged(cfg, w, StopSigterm, r, p.n, []);
    FateObliged(cfg, w, FinalSigterm, r, p.n, []);
    assert FateStop(cfg, w, r, p.n, []) == Fate.Stays(if CmdsOf(cfg, CmdStop) != [] then Stopping else StopSigterm, r);
    assert FatePost(cfg, w, r, p.n, []) == Fate.Stays(if CmdsOf(cfg, CmdStopPost) != [] then StopPost else FinalSigterm, r);
  }

  lemma RiseLeads(cfg: Config, w: World, p: Past)
    requires Obliging(w)
    ensures p.res.Success? && !p.told ==> Leads(cfg, w, Rising, p) == Up(p.res, p.forbid, p.last)
    ensures p.res.Success? && p.told ==> Leads(cfg, w, Rising, p) == Stayed(StopSigterm, p.res)
    ensures !p.res.Success? ==> Leads(cfg, w, Rising, p) == Stay(StopSigterm, p, Success)
  {
    Obliges(w, p.n);
    SignalLeads(cfg, w, StopSigterm, p, Success);
    assert With(p, Success) == p;
  }

  lemma PostLeads(cfg: Config, w: World, p: Past)
    requires Obliging(w) && p.queue == []
    ensures CmdsOf(cfg, CmdStartPost) != [] ==> Leads(cfg, w, Posting, p) == RunsOf(cfg, w, StartPost, CmdStartPost, p, p.main)
    ensures CmdsOf(cfg, CmdStartPost) == [] && p.res.Success? && !p.told ==> Leads(cfg, w, Posting, p) == Up(p.res, p.forbid, p.last)
  {
    Obliges(w, p.n);
    RiseLeads(cfg, w, p);
    assert p.(queue := []) == p;
  }

  /** A start command runs: a simple service is up if there are no commands after starting, which run
      otherwise; the others are starting, with the process that was spawned. */
  ghost predicate IsLaunched(cfg: Config, w: World, p: Past, o: Outcome) {
    && CmdsOf(cfg, CmdStart) != []
    && (!cfg.kind.Simple? ==> o == Launched(w(p.n).spawned, CmdsOf(cfg, CmdStart)[1..], w(p.n).armed, p.res))
    && (cfg.kind.Simple? && CmdsOf(cfg, CmdStartPost) != [] ==>
          o == RunsOf(cfg, w, StartPost, CmdStartPost, Asked(p), w(p.n).spawned))
    && (cfg.kind.Simple? && CmdsOf(cfg, CmdStartPost) == [] && p.res.Success? && !p.told ==> o == Up(p.res, p.forbid, p.last))
  }

  lemma LaunchLeads(cfg: Config, w: World, p: Past)
    requires Obliging(w) && p.queue == [] && CmdsOf(cfg, CmdStart) != []
    ensures IsLaunched(cfg, w, p, Leads(cfg, w, Launching, p))
    ensures CmdsOf(cfg, CmdStartPre) == [] ==> IsLaunched(cfg, w, p, Leads(cfg, w, Prestarting, p))
    ensures CmdsOf(cfg, CmdStartPre) != [] ==> Leads(cfg, w, Prestarting, p) == RunsOf(cfg, w, StartPre, CmdStartPre, p, None)
  {
    Obliges(w, p.n);
    assert p.(queue := []) == p;
    PostLeads(cfg, w, Asked(p).(main := w(p.n).spawned));
  }

  // ---------------------------------------------------------------- requests

  /** A start request checks the conditions, or runs what comes before starting, or starts. */
  lemma WhereStartLeads(cfg: Config, w: World, p: Past)
    requires Obliging(w) && p.queue == [] && CmdsOf(cfg, CmdStart) != []
    ensures CmdsOf(cfg, CmdCondition) != [] ==> Leads(cfg, w, Checking, p) == RunsOf(cfg, w, Condition, CmdCondition, p, None)
    ensures CmdsOf(cfg, CmdCondition) == [] && CmdsOf(cfg, CmdStartPre) != [] ==>
              Leads(cfg, w, Checking, p) == RunsOf(cfg, w, StartPre, CmdStartPre, p, None)
    ensures CmdsOf(cfg, CmdCondition) == [] && CmdsOf(cfg, CmdStartPre) == [] ==> IsLaunched(cfg, w, p, Leads(cfg, w, Checking, p))
  {
    Obliges(w, p.n);
    assert p.(queue := []) == p;
    LaunchLeads(cfg, w, p);
  }

  lemma WhereReloadLeads(cfg: Config, w: World, p: Past)
    requires Obliging(w) && p.queue == []
    ensures CmdsOf(cfg, CmdReload) != [] ==> ReloadLeads(cfg, w, p) == RunsOf(cfg, w, Reloading, CmdReload, p, p.main)
    ensures CmdsOf(cfg, CmdReload) == [] && p.res.Success? && !p.told ==> ReloadLeads(cfg, w, p) == Up(p.res, p.forbid, p.last)
  {
    Obliges(w, p.n);
    RiseLeads(cfg, w, p);
  }

  lemma WhereStopLeads(cfg: Config, w: World, p: Past)
    requires Obliging(w) && p.queue == []
    ensures IsStopping(p.state) && !p.state.StopWatchdog? && !p.state.FinalSigkill? ==> StopLeads(cfg, w, p) == Stayed(p.state, p.res)
    ensures p.state.AutoRestart? ==> StopLeads(cfg, w, p) == Stayed(Dead, p.res)
    ensures IsStarting(p.state) || p.state.Reloading? || p.state.StopWatchdog? ==> StopLeads(cfg, w, p) == Stay(StopSigterm, p, Success)
    ensures p.state.Cleaning? ==> StopLeads(cfg, w, p) == Stay(FinalSigkill, p, Success)
    ensures p.state.Running? || p.state.Exited? || IsEnded(p.state) || p.state.FinalSigkill? ==>
              StopLeads(cfg, w, p) == Stay(if CmdsOf(cfg, CmdStop) != [] then Stopping else StopSigterm, p, Success)
  {
    assert With(p, Success) == p;
    SignalLeads(cfg, w, StopSigterm, p, Success);
    SignalLeads(cfg, w, FinalSigkill, p, Success);
    HaltLeads(cfg, w, p, Success);
  }

  /** What cannot be spawned: before starting that is the end, the start command is given up with a signal, and
      what comes after starting is left alone; a reload is given up. The reason is a lack of resources. */
  lemma WhereFailedSpawnLeads(cfg: Config, w: World, p: Past)
    requires p.queue == [] && w(p.n).spawned.None?
    ensures CmdsOf(cfg, CmdCondition) != [] ==>
              Leads(cfg, w, Checking, p) == Fated(Falls(Merge(p.res, Resources), p.n + 1), p.forbid, p.last)
    ensures CmdsOf(cfg, CmdStartPre) != [] ==>
              Leads(cfg, w, Prestarting, p) == Fated(Falls(Merge(p.res, Resources), p.n + 1), p.forbid, p.last)
    ensures CmdsOf(cfg, CmdStart) != [] ==>
              && Leads(cfg, w, Launching, p).Fated? && Leads(cfg, w, Launching, p).forbid == p.forbid
              && Leads(cfg, w, Launching, p).f
                 == FateOf(cfg, w, StopSigterm, Merge(p.res, Resources), p.n + 1, if cfg.kind.Forking? then CmdsOf(cfg, CmdStart)[1..] else [])
    ensures CmdsOf(cfg, CmdStartPost) != [] ==> Leads(cfg, w, Posting, p) == Lingers(p.state, p.main, w(p.n).armed, p.res)
    ensures CmdsOf(cfg, CmdStop) != [] ==>
              FateStop(cfg, w, p.res, p.n, []) == FateOf(cfg, w, StopSigterm, Merge(p.res, Resources), p.n + 1, CmdsOf(cfg, CmdStop)[1..])
    ensures CmdsOf(cfg, CmdStopPost) != [] ==>
              FatePost(cfg, w, p.res, p.n, []) == FateOf(cfg, w, FinalSigterm, Merge(p.res, Resources), p.n + 1, CmdsOf(cfg, CmdStopPost)[1..])
  {
  }

  // ---------------------------------------------------------------- processes and the timer

  /** The last process is gone while stopping: what comes after stopping runs, then what is left is killed, then
      the service has ended. */
  ghost predicate IsDownwards(cfg: Config, w: World, p: Past, res: Result, o: Outcome) {
    && (p.state.StopWatchdog? || p.state.StopSigterm? || p.state.StopSigkill? ==>
          o == Stay(if CmdsOf(cfg, CmdStopPost) != [] then StopPost else FinalSigterm, p, res))
    && (p.state.StopPost? ==> o == Stay(FinalSigterm, p, res))
    && (p.state.FinalWatchdog? || p.state.FinalSigterm? || p.state.FinalSigkill? ==>
          o == Fated(Falls(Merge(p.res, res), p.n), p.forbid, p.last))
  }

  lemma WhereDownLeads(cfg: Config, w: World, p: Past, res: Result)
    requires Obliging(w) && p.queue == []
    ensures IsDownwards(cfg, w, p, res, DownLeads(cfg, w, p, res))
  {
    HaltLeads(cfg, w, p, res);
    SignalLeads(cfg, w, FinalSigterm, p, res);
  }

  /** The end of a control process that succeeded, on the way up. */
  lemma WhereSuccessLeads(cfg: Config, w: World, p: Past)
    requires Obliging(w) && p.queue == [] && CmdsOf(cfg, CmdStart) != []
    ensures p.state.Condition? && CmdsOf(cfg, CmdStartPre) != [] ==>
              ControlLeads(cfg, w, p, Success) == RunsOf(cfg, w, StartPre, CmdStartPre, p, None)
    ensures p.state.Condition? && CmdsOf(cfg, CmdStartPre) == [] ==> IsLaunched(cfg, w, p, ControlLeads(cfg, w, p, Success))
    ensures p.state.StartPre? ==> IsLaunched(cfg, w, p, ControlLeads(cfg, w, p, Success))
  {
    LaunchLeads(cfg, w, p);
  }

  /** The end of a control process that failed on the way up, or that forked. */
  lemma WhereControlLeads(cfg: Config, w: World, p: Past, res: Result)
    requires Obliging(w) && p.queue == []
    ensures (p.state.Condition? || p.state.StartPre? || (p.state.Starting? && cfg.kind.Forking?)) && !res.Success? ==>
              ControlLeads(cfg, w, p, res) == Stay(StopSigterm, p, res)
    ensures p.state.Starting? && !cfg.kind.Forking? ==> ControlLeads(cfg, w, p, res) == Stayed(Starting, p.res)
    ensures p.state.Starting? && cfg.kind.Forking? && res.Success? && CmdsOf(cfg, CmdStartPost) != [] && p.main.Some? ==>
              ControlLeads(cfg, w, p, res) == RunsOf(cfg, w, StartPost, CmdStartPost, p, p.main)
    ensures p.state.Starting? && cfg.kind.Forking? && res.Success? && CmdsOf(cfg, CmdStartPost) != [] && p.main.None? ==>
              ControlLeads(cfg, w, p, res) == RunsOf(cfg, w, StartPost, CmdStartPost, Asked(p), w(p.n).guess)
    ensures p.state.Starting? && cfg.kind.Forking? && res.Success? && CmdsOf(cfg, CmdStartPost) == [] && p.res.Success? && !p.told ==>
              ControlLeads(cfg, w, p, res) == Up(Success, p.forbid, p.last)
  {
    SignalLeads(cfg, w, StopSigterm, p, res);
    PostLeads(cfg, w, Guessed(w, p));
  }

  /** The end of a control process that ran after the start or for a reload. */
  lemma WhereControlLeadsLater(cfg: Config, w: World, p: Past, res: Result)
    requires Obliging(w) && p.queue == []
    ensures p.state.StartPost? && res.Success? && p.res.Success? && !p.told ==> ControlLeads(cfg, w, p, res) == Up(Success, p.forbid, p.last)
    ensures p.state.StartPost? && !res.Success? ==> ControlLeads(cfg, w, p, res) == LeftDown(Merge(p.res, res))
    ensures p.state.Reloading? && Merge(p.res, res).Success? && !p.told ==> ControlLeads(cfg, w, p, res) == Up(Success, p.forbid, p.last)
    ensures p.state.Reloading? && !Merge(p.res, res).Success? ==> ControlLeads(cfg, w, p, res) == Stay(StopSigterm, p, res)
  {
    RiseLeads(cfg, w, Guessed(w, p));
    RiseLeads(cfg, w, With(p, res));
  }

  /** The end of a control process while stopping. */
  lemma WhereControlLeadsDown(cfg: Config, w: World, p: Past, res: Result)
    requires Obliging(w) && p.queue == []
    ensures p.state.Stopping? ==> ControlLeads(cfg, w, p, res) == Stay(StopSigterm, p, res)
    ensures IsStopping(p.state) && !p.state.Stopping? && p.main.None? ==> IsDownwards(cfg, w, p, res, ControlLeads(cfg, w, p, res))
    ensures IsStopping(p.state) && !p.state.Stopping? && p.main.Some? ==> ControlLeads(cfg, w, p, res) == Stayed(p.state, p.res)
  {
    SignalLeads(cfg, w, StopSigterm, p, res);
    WhereDownLeads(cfg, w, p, res);
  }

  /** The end of the main process on the way up. */
  lemma WhereMainLeads(cfg: Config, w: World, p: Past, control: Option<nat>, res: Result)
    requires Obliging(w) && p.queue == []
    ensures p.state.Starting? && cfg.kind.Oneshot? && res.Success? && CmdsOf(cfg, CmdStartPost) != [] ==>
              MainLeads(cfg, w, p, control, res) == RunsOf(cfg, w, StartPost, CmdStartPost, p, p.main)
    ensures p.state.Starting? && (cfg.kind.Oneshot? || cfg.kind.Notifying?) && !res.Success? ==>
              MainLeads(cfg, w, p, control, res) == Stay(StopSigterm, p, res)
    ensures p.state.Starting? && cfg.kind.Notifying? && res.Success? ==> MainLeads(cfg, w, p, control, res) == Stay(StopSigterm, p, Protocol)
    ensures (p.state.Starting? && !cfg.kind.Oneshot? && !cfg.kind.Notifying?) || p.state.Running? ==>
              && (Merge(p.res, res).Success? && !p.told ==> MainLeads(cfg, w, p, control, res) == Up(Success, p.forbid, p.last))
              && (!Merge(p.res, res).Success? ==> MainLeads(cfg, w, p, control, res) == Stay(StopSigterm, p, res))
  {
    SignalLeads(cfg, w, StopSigterm, p, res);
    SignalLeads(cfg, w, StopSigterm, p, Protocol);
    PostLeads(cfg, w, p);
    RiseLeads(cfg, w, With(p, res));
  }

  /** The end of the main process when only the control process may be left. */
  lemma WhereMainLeadsLater(cfg: Config, w: World, p: Past, control: Option<nat>, res: Result)
    requires Obliging(w) && p.queue == []
    ensures (p.state.StartPost? || p.state.Reloading? || p.state.Stopping?) && control.None? ==>
              MainLeads(cfg, w, p, control, res) == Stay(if CmdsOf(cfg, CmdStop) != [] then Stopping else StopSigterm, p, res)
    ensures IsStopping(p.state) && !p.state.Stopping? && control.None? ==> IsDownwards(cfg, w, p, res, MainLeads(cfg, w, p, control, res))
    ensures (IsStopping(p.state) || p.state.StartPost? || p.state.Reloading?) && control.Some? ==>
              MainLeads(cfg, w, p, control, res) == Stayed(p.state, p.res)
  {
    HaltLeads(cfg, w, p, res);
    WhereDownLeads(cfg, w, p, res);
  }

  lemma WhereTimerLeads(cfg: Config, w: World, p: Past)
    requires Obliging(w) && p.queue == []
    ensures IsStarting(p.state) || p.state.Stopping? ==> TimerLeads(cfg, w, p) == Stay(StopSigterm, p, Timeout)
    ensures p.state.Running? ==> TimerLeads(cfg, w, p) == Stay(if CmdsOf(cfg, CmdStop) != [] then Stopping else StopSigterm, p, Timeout)
    ensures p.state.Reloading? && p.res.Success? && !p.told ==> TimerLeads(cfg, w, p) == Up(Success, p.forbid, p.last)
    ensures p.state.FinalWatchdog? || p.state.FinalSigterm? ==>
              TimerLeads(cfg, w, p) == Stayed(Failing, Merge(p.res, Timeout))
    ensures IsStopping(p.state) && !p.state.Stopping? && !p.state.FinalWatchdog? && !p.state.FinalSigterm? ==>
              IsDownwards(cfg, w, p, Timeout, TimerLeads(cfg, w, p))
    ensures p.state.Cleaning? ==> TimerLeads(cfg, w, p) == Stay(FinalSigkill, p, Timeout)
  {
    SignalLeads(cfg, w, StopSigterm, p, Timeout);
    SignalLeads(cfg, w, FinalSigterm, p, Timeout);
    SignalLeads(cfg, w, FinalSigkill, p, Timeout);
    RiseLeads(cfg, w, p);
    HaltLeads(cfg, w, p, Timeout);
    WhereDownLeads(cfg, w, p, Timeout);
  }

  /** A further control command that cannot be spawned; what is asked after that is answered. */
  lemma WhereFailureLeads(cfg: Config, w: World, p: Past)
    requires Obliging(w) && p.queue == []
    ensures p.state.Condition? || p.state.StartPre? || p.state.StartPost? || p.state.Stopping? ==>
              FailureLeads(cfg, w, p) == Stay(StopSigterm, p, Resources)
    ensures p.state.StopPost? ==> FailureLeads(cfg, w, p) == Fated(Falls(Merge(p.res, Resources), p.n), p.forbid, p.last)
    ensures p.state.Reloading? && p.res.Success? && !p.told ==> FailureLeads(cfg, w, p) == Up(Success, p.forbid, p.last)
    ensures p.state.Starting? || p.state.StopSigterm? ==>
              FailureLeads(cfg, w, p) == Stay(if CmdsOf(cfg, CmdStop) != [] then Stopping else StopSigterm, p, Resources)
  {
    SignalLeads(cfg, w, StopSigterm, p, Resources);
    RiseLeads(cfg, w, p);
    HaltLeads(cfg, w, p, Resources);
  }
}
