/** The life cycle of a service: the cascade of states that a request, a child's exit or a timeout sets
    off, and the queues of commands still to be run. Whatever the environment answers is arbitrary. */
module Services {
  import opened Jobs

  datatype State =
    | Dead | Condition | StartPre | Starting | StartPost | Running | Exited | Reloading
    | Stopping | StopWatchdog | StopPost | StopSigterm | StopSigkill
    | FinalWatchdog | FinalSigterm | FinalSigkill | AutoRestart | Failing | Cleaning

  datatype Result =
    | Success | Protocol | Resources | Signalled | StartLimitHit | Watchdog
    | ExitCode | CoreDump | Timeout | SkipCondition

  datatype Command = CmdCondition | CmdStartPre | CmdStart | CmdStartPost | CmdReload | CmdStop | CmdStopPost

  datatype Type = Simple | Forking | Oneshot | Notifying

  datatype Policy = Never | OnSuccess | OnFailure | OnWatchdog | OnAbnormal | OnAbort | Always

  datatype Cmd = Cmd(line: nat, ignoreFailure: bool)

  /** How a child ended; `benign` is one of the signals that count as a normal end of a daemon. */
  datatype Exit = Code(status: int) | Signal(number: int, benign: bool, core: bool)

  /** `watchdog` tells whether a watchdog time is configured. */
  datatype Config = Config(
    cmds: map<Command, seq<Cmd>>, kind: Type, restart: Policy, prevent: set<Exit>, remain: bool, watchdog: bool)

  /** What the environment answers when it is asked for something; `armed` tells whether the timer is
      set afterwards. */
  datatype Reply = Reply(
    spawned: Option<nat>,
    armed: bool,
    killFails: bool,
    killed: bool,
    timerOk: bool,
    stopJob: bool,
    alive: bool,
    guess: Option<nat>,
    underLimit: bool,
    restarted: bool,
    ours: bool)

  /** The answers of the environment, in the order in which it is asked. */
  type World = nat -> Reply

  predicate IsStopping(s: State) {
    || s.Stopping? || s.StopWatchdog? || s.StopPost? || s.StopSigterm? || s.StopSigkill?
    || s.FinalWatchdog? || s.FinalSigterm? || s.FinalSigkill?
  }

  predicate IsEnded(s: State) {
    s.Dead? || s.Failing?
  }

  predicate IsDown(s: State) {
    IsStopping(s) || IsEnded(s)
  }

  predicate IsDownOrAgain(s: State) {
    IsDown(s) || s.AutoRestart?
  }

  predicate IsStarting(s: State) {
    s.Condition? || s.StartPre? || s.Starting? || s.StartPost?
  }

  /** The states in which a main process may be around. */
  predicate KeepsMain(s: State) {
    s.Starting? || s.StartPost? || s.Running? || s.Reloading? || IsStopping(s)
  }

  /** The states in which the service may name its main process. */
  predicate NamesMain(s: State) {
    s.Starting? || s.StartPost? || s.Running?
  }

  /** The states in which a control process may be around. */
  predicate KeepsControl(s: State) {
    IsStarting(s) || s.Reloading? || IsStopping(s) || s.Cleaning?
  }

  /** The states in which the timer may be set. */
  predicate KeepsTimer(s: State) {
    !IsEnded(s) && !s.Exited?
  }

  /** The states that forget the main process, the control process and the timer. */
  lemma ForgettingStates(s: State)
    ensures KeepsMain(s) <==> s !in {Dead, Condition, StartPre, Exited, AutoRestart, Failing, Cleaning}
    ensures KeepsControl(s) <==> s !in {Dead, State.Running, Exited, AutoRestart, Failing}
    ensures KeepsTimer(s) <==> s !in {Dead, Exited, Failing}
  {
  }

  predicate HandlesControl(s: State) {
    KeepsControl(s) && !s.Cleaning?
  }

  predicate FirstSignal(s: State) {
    s.StopWatchdog? || s.StopSigterm? || s.StopSigkill?
  }

  /** How far from the end a signal is. */
  function Rank(s: State): nat {
    if FirstSignal(s) then 6 else if s.FinalSigkill? then 3 else 4
  }

  function ShallRestart(cfg: Config, forbid: bool, last: Exit, res: Result): bool {
    && !forbid
    && last !in cfg.prevent
    && match cfg.restart
       case Never => false
       case OnSuccess => res.Success?
       case OnFailure => !res.Success? && !res.SkipCondition?
       case OnWatchdog => res.Watchdog?
       case OnAbnormal => !res.Success? && !res.ExitCode? && !res.SkipCondition?
       case OnAbort => res.Signalled? || res.CoreDump?
       case Always => !res.SkipCondition?
  }

  /** The results after which a policy wants a restart. */
  function RestartResults(policy: Policy): set<Result> {
    match policy
    case Never => {}
    case OnSuccess => {Success}
    case OnFailure => {Protocol, Resources, Signalled, StartLimitHit, Watchdog, ExitCode, CoreDump, Timeout}
    case OnWatchdog => {Watchdog}
    case OnAbnormal => {Protocol, Resources, Signalled, StartLimitHit, Watchdog, CoreDump, Timeout}
    case OnAbort => {Signalled, CoreDump}
    case Always => {Success, Protocol, Resources, Signalled, StartLimitHit, Watchdog, ExitCode, CoreDump, Timeout}
  }

  /** A restart is due if and only if it is neither forbidden nor prevented and the policy wants one. */
  lemma RestartByPolicy(cfg: Config, forbid: bool, last: Exit, res: Result)
    ensures ShallRestart(cfg, forbid, last, res) <==> !forbid && last !in cfg.prevent && res in RestartResults(cfg.restart)
  {
  }

  /** How a service ends with this result. */
  function EndState(res: Result): State {
    if res.Success? then Dead else Failing
  }

  /** The first failure is kept. */
  function Merge(res: Result, more: Result): Result {
    if res.Success? then more else res
  }

  function CmdsOf(cfg: Config, c: Command): seq<Cmd> {
    if c in cfg.cmds then cfg.cmds[c] else []
  }

  /** The list whose commands belong to a state. */
  function ListOf(s: State): Option<Command> {
    match s
    case Condition => Some(CmdCondition)
    case StartPre => Some(CmdStartPre)
    case Starting => Some(CmdStart)
    case StartPost => Some(CmdStartPost)
    case Reloading => Some(CmdReload)
    case Stopping => Some(CmdStop)
    case StopPost => Some(CmdStopPost)
    case _ => None
  }

  /** Where a cascade of signals gets in one go, and with which result: it stays in a state, or it falls to
      the end, having asked so many times. The first failure is kept on the way. */
  datatype Fate = Stays(at: State, res: Result) | Falls(res: Result, n: nat)

  // ---------------------------------------------------------------- suffixes

  ghost predicate IsTail(q: seq<Cmd>, all: seq<Cmd>) {
    q == all || (all != [] && IsTail(q, all[1..]))
  }

  ghost predicate IsSuffix(q: seq<Cmd>, all: seq<Cmd>) {
    q == [] || IsTail(q, all)
  }

  function Last(all: seq<Cmd>, n: nat): seq<Cmd> {
    if n <= |all| then all[|all| - n..] else all
  }

  lemma {:induction false} TailIs(q: seq<Cmd>, all: seq<Cmd>)
    ensures IsTail(q, all) <==> |q| <= |all| && q == all[|all| - |q|..]
  {
    if q != all && all != [] {
      TailIs(q, all[1..]);
      if |q| < |all| {
        assert all[|all| - |q|..] == all[1..][|all[1..]| - |q|..];
      }
    }
  }

  lemma PopKeepsSuffix(q: seq<Cmd>, all: seq<Cmd>)
    requires q != [] && IsSuffix(q, all)
    ensures IsSuffix(q[1..], all) && q[0] in all
  {
    TailIs(q, all);
    TailIs(q[1..], all);
    assert q[0] == all[|all| - |q|];
  }

  lemma DropMore(q: seq<Cmd>, n: nat)
    requires n < |q|
    ensures q[n..] != [] && q[n..][1..] == q[n + 1..]
  {
  }

  /** A suffix is known by its length. */
  lemma LengthIsEnough(q: seq<Cmd>, all: seq<Cmd>)
    ensures IsSuffix(q, all) <==> Last(all, |q|) == q
  {
    TailIs(q, all);
  }

  lemma SameLengthSame(q: seq<Cmd>, all: seq<Cmd>, len: nat)
    requires IsSuffix(q, all) && |q| == if len <= |all| then len else |all|
    ensures q == Last(all, len)
  {
    TailIs(q, all);
  }

  // ---------------------------------------------------------------- what is persisted and what can happen

  /** What is persisted of the queues. */
  datatype Saved = Saved(main: nat, kind: Option<Command>, control: nat)

  datatype Message = ReadyNow | StoppingNow | WatchdogPing | WatchdogTrigger | MainPidIs(pid: nat)

  datatype Happening =
    | ChildExit(pid: nat, exit: Exit)
    | TimerElapses
    | WatchdogElapses
    | Notifies(message: Message)
    | StartRequest
    | StopRequest
    | ReloadRequest

  // ---------------------------------------------------------------- where a cascade gets

  /** The queue for this purpose: a list that is not configured leaves what is there. */
  ghost function Filled(cfg: Config, kind: Command, queue: seq<Cmd>): seq<Cmd> {
    if kind in cfg.cmds then cfg.cmds[kind] else queue
  }

  ghost function FateOf(cfg: Config, world: World, s: State, res: Result, n: nat, queue: seq<Cmd>): Fate
    decreases Rank(s), 1
  {
    if world(n).killFails then FateFailed(cfg, world, s, res, n + 1, queue)
    else if !world(n).killed then FateUnkilled(cfg, world, s, res, n + 1, queue)
    else if world(n + 1).timerOk then Stays(s, res)
    else FateFailed(cfg, world, s, res, n + 2, queue)
  }

  ghost function FateFailed(cfg: Config, world: World, s: State, res: Result, n: nat, queue: seq<Cmd>): Fate
    decreases Rank(s), 0
  {
    if FirstSignal(s) then FatePost(cfg, world, Merge(res, Resources), n, queue) else Falls(Merge(res, Resources), n)
  }

  ghost function FateUnkilled(cfg: Config, world: World, s: State, res: Result, n: nat, queue: seq<Cmd>): Fate
    decreases Rank(s), 0
  {
    if FirstSignal(s) then FatePost(cfg, world, res, n, queue)
    else if s.FinalSigkill? then Falls(res, n)
    else FateOf(cfg, world, FinalSigkill, res, n, queue)
  }

  ghost function FatePost(cfg: Config, world: World, res: Result, n: nat, queue: seq<Cmd>): Fate
    decreases 5, 0
  {
    var q := Filled(cfg, CmdStopPost, queue);
    if q == [] then FateOf(cfg, world, FinalSigterm, res, n, []) else FateRun(cfg, world, StopPost, FinalSigterm, res, n, q[1..])
  }

  ghost function FateRun(cfg: Config, world: World, s: State, next: State, res: Result, n: nat, queue: seq<Cmd>): Fate
    decreases Rank(next), 2
  {
    if world(n).spawned.Some? then Stays(s, res) else FateOf(cfg, world, next, Merge(res, Resources), n + 1, queue)
  }

  ghost function FateStop(cfg: Config, world: World, res: Result, n: nat, queue: seq<Cmd>): Fate {
    var q := Filled(cfg, CmdStop, queue);
    if q == [] then FateOf(cfg, world, StopSigterm, res, n, []) else FateRun(cfg, world, Stopping, StopSigterm, res, n, q[1..])
  }

  /** Falling to the end is followed by a restart exactly when it is neither forbidden nor prevented,
      the policy asks for it, no stop job is there and the timer can be set. */
  ghost predicate Restarts(cfg: Config, world: World, f: Fate, forbid: bool, last: Exit) {
    f.Falls? && ShallRestart(cfg, forbid, last, f.res) && !world(f.n).stopJob && world(f.n + 1).timerOk
  }

  /** A timer that cannot be set for the restart is a failure of its own. */
  ghost function EndResult(cfg: Config, world: World, f: Fate, forbid: bool, last: Exit): Result
    requires f.Falls?
  {
    if ShallRestart(cfg, forbid, last, f.res) && !world(f.n).stopJob && !world(f.n + 1).timerOk then Merge(f.res, Resources)
    else f.res
  }

  // ---------------------------------------------------------------- which cascades can end in a restart

  /** Every kill and every spawn fails, and every timer can be set. */
  predicate IsHostile(r: Reply) {
    r.killFails && r.spawned.None? && r.timerOk && !r.stopJob
  }

  /** Nothing is left to kill, timers can be set and nobody asks for a stop. */
  predicate IsSilent(r: Reply) {
    !r.killFails && !r.killed && r.timerOk && !r.stopJob
  }

  /** The result as it was, or a lack of resources after a success. */
  predicate KeepsResult(res: Result, f: Fate) {
    f.res == res || f.res == Merge(res, Resources)
  }

  predicate IsSignal(s: State) {
    FirstSignal(s) || s.FinalWatchdog? || s.FinalSigterm? || s.FinalSigkill?
  }

  /** A cascade that stays somewhere stays in a stopping state. */
  predicate StaysStopping(f: Fate) {
    f.Stays? ==> IsStopping(f.at)
  }

  lemma {:induction false} FinalStops(cfg: Config, world: World, s: State, res: Result, n: nat, queue: seq<Cmd>)
    requires IsSignal(s) && !FirstSignal(s)
    ensures StaysStopping(FateOf(cfg, world, s, res, n, queue))
    decreases Rank(s)
  {
    if !s.FinalSigkill? { FinalStops(cfg, world, FinalSigkill, res, n + 1, queue); }
  }

  lemma PostStops(cfg: Config, world: World, res: Result, n: nat, queue: seq<Cmd>)
    ensures StaysStopping(FatePost(cfg, world, res, n, queue))
  {
    var q := Filled(cfg, CmdStopPost, queue);
    if q == [] {
      FinalStops(cfg, world, FinalSigterm, res, n, []);
    } else {
      FinalStops(cfg, world, FinalSigterm, Merge(res, Resources), n + 1, q[1..]);
    }
  }

  lemma FateStops(cfg: Config, world: World, s: State, res: Result, n: nat, queue: seq<Cmd>)
    requires IsSignal(s)
    ensures StaysStopping(FateOf(cfg, world, s, res, n, queue))
  {
    if !FirstSignal(s) {
      FinalStops(cfg, world, s, res, n, queue);
    } else {
      PostStops(cfg, world, res, n + 1, queue);
      PostStops(cfg, world, Merge(res, Resources), n + 1, queue);
      PostStops(cfg, world, Merge(res, Resources), n + 2, queue);
    }
  }

  lemma {:induction false} FinalResult(cfg: Config, world: World, s: State, res: Result, n: nat, queue: seq<Cmd>)
    requires !FirstSignal(s)
    ensures KeepsResult(res, FateOf(cfg, world, s, res, n, queue))
    decreases Rank(s)
  {
    if !s.FinalSigkill? { FinalResult(cfg, world, FinalSigkill, res, n + 1, queue); }
  }

  lemma PostResult(cfg: Config, world: World, res: Result, n: nat, queue: seq<Cmd>)
    ensures KeepsResult(res, FatePost(cfg, world, res, n, queue))
    ensures Filled(cfg, CmdStopPost, queue) != [] && FatePost(cfg, world, res, n, queue).Falls? ==>
              FatePost(cfg, world, res, n, queue).res == Merge(res, Resources)
  {
    var q := Filled(cfg, CmdStopPost, queue);
    if q == [] {
      FinalResult(cfg, world, FinalSigterm, res, n, []);
    } else {
      FinalResult(cfg, world, FinalSigterm, Merge(res, Resources), n + 1, q[1..]);
    }
  }

  /** All that the answers can do to the result is to add a lack of resources to a success, and a cascade
      that has to pass a command after stopping falls to the end only if that cannot be spawned. */
  lemma FateResult(cfg: Config, world: World, s: State, res: Result, n: nat, queue: seq<Cmd>)
    ensures KeepsResult(res, FateOf(cfg, world, s, res, n, queue))
    ensures FirstSignal(s) && Filled(cfg, CmdStopPost, queue) != [] && FateOf(cfg, world, s, res, n, queue).Falls? ==>
              FateOf(cfg, world, s, res, n, queue).res == Merge(res, Resources)
  {
    if !FirstSignal(s) {
      FinalResult(cfg, world, s, res, n, queue);
    } else {
      PostResult(cfg, world, res, n + 1, queue);
      PostResult(cfg, world, Merge(res, Resources), n + 1, queue);
      PostResult(cfg, world, Merge(res, Resources), n + 2, queue);
    }
  }

  lemma HostileFinal(cfg: Config, world: World, s: State, res: Result, n: nat, queue: seq<Cmd>)
    requires !FirstSignal(s) && IsHostile(world(n))
    ensures FateOf(cfg, world, s, res, n, queue) == Falls(Merge(res, Resources), n + 1)
  {
  }

  lemma HostilePost(cfg: Config, world: World, res: Result, n: nat, queue: seq<Cmd>)
    requires IsHostile(world(n)) && IsHostile(world(n + 1))
    ensures var f := FatePost(cfg, world, res, n, queue); f.Falls? && f.res == Merge(res, Resources) && f.n > n
  {
    var q := Filled(cfg, CmdStopPost, queue);
    if q == [] {
      HostileFinal(cfg, world, FinalSigterm, res, n, []);
    } else {
      HostileFinal(cfg, world, FinalSigterm, Merge(res, Resources), n + 1, q[1..]);
    }
  }

  /** With answers that fail all they can, a signal leads to the end. */
  lemma HostileFate(cfg: Config, world: World, s: State, res: Result, n: nat, queue: seq<Cmd>)
    requires forall i :: i >= n ==> IsHostile(world(i))
    ensures var f := FateOf(cfg, world, s, res, n, queue); f.Falls? && f.res == Merge(res, Resources) && f.n >= n
  {
    assert IsHostile(world(n)) && IsHostile(world(n + 1)) && IsHostile(world(n + 2));
    if FirstSignal(s) {
      HostilePost(cfg, world, Merge(res, Resources), n + 1, queue);
    } else {
      HostileFinal(cfg, world, s, res, n, queue);
    }
  }

  /** With nothing left to kill and no command to run after stopping, a signal leads straight to the end. */
  lemma {:induction false} SilentFate(cfg: Config, world: World, s: State, res: Result, n: nat, queue: seq<Cmd>)
    requires (FirstSignal(s) ==> Filled(cfg, CmdStopPost, queue) == []) && forall i :: i >= n ==> IsSilent(world(i))
    ensures var f := FateOf(cfg, world, s, res, n, queue); f.Falls? && f.res == res && f.n >= n
    decreases Rank(s)
  {
    assert IsSilent(world(n));
    if FirstSignal(s) {
      SilentFate(cfg, world, FinalSigterm, res, n + 1, []);
    } else if !s.FinalSigkill? {
      SilentFate(cfg, world, FinalSigkill, res, n + 1, queue);
    }
  }

  const HOSTILE := Reply(None, false, true, false, true, false, false, None, false, false, false)
  const SILENT := Reply(None, false, false, false, true, false, false, None, false, false, false)

  /** A signal can end in a restart, with some answers, if and only if a restart is due for a lack of
      resources on top of the result, or for the result itself with no command in the way that would
      have to fail. */
  lemma CascadeRestartExact(cfg: Config, s: State, res: Result, n: nat, queue: seq<Cmd>, forbid: bool, last: Exit)
    ensures (exists world: World :: Restarts(cfg, world, FateOf(cfg, world, s, res, n, queue), forbid, last))
            <==> || ShallRestart(cfg, forbid, last, Merge(res, Resources))
                 || (ShallRestart(cfg, forbid, last, res) && (FirstSignal(s) ==> Filled(cfg, CmdStopPost, queue) == []))
  {
    forall world: World | Restarts(cfg, world, FateOf(cfg, world, s, res, n, queue), forbid, last)
      ensures || ShallRestart(cfg, forbid, last, Merge(res, Resources))
              || (ShallRestart(cfg, forbid, last, res) && (FirstSignal(s) ==> Filled(cfg, CmdStopPost, queue) == []))
    {
      FateResult(cfg, world, s, res, n, queue);
    }
    if ShallRestart(cfg, forbid, last, Merge(res, Resources)) {
      var world: World := i => HOSTILE;
      HostileFate(cfg, world, s, res, n, queue);
      assert Restarts(cfg, world, FateOf(cfg, world, s, res, n, queue), forbid, last);
    } else if ShallRestart(cfg, forbid, last, res) && (FirstSignal(s) ==> Filled(cfg, CmdStopPost, queue) == []) {
      var world: World := i => SILENT;
      SilentFate(cfg, world, s, res, n, queue);
      assert Restarts(cfg, world, FateOf(cfg, world, s, res, n, queue), forbid, last);
    }
  }

  /** A watchdog can bring a service back, whatever state it is in, if and only if a restart is neither
      forbidden nor prevented and the policy asks for one after the result as it is, or after a watchdog
      failure if there is none. */
  lemma WatchdogRestartExact(cfg: Config, res: Result, n: nat, queue: seq<Cmd>, forbid: bool, last: Exit)
    ensures (exists world: World ::
               Restarts(cfg, world, FateOf(cfg, world, StopWatchdog, Merge(res, Watchdog), n, queue), forbid, last))
            <==> ShallRestart(cfg, forbid, last, Merge(res, Watchdog))
  {
    CascadeRestartExact(cfg, StopWatchdog, Merge(res, Watchdog), n, queue, forbid, last);
  }

  /** Where a watchdog leads: the result is known before, and so is whether a restart can follow. */
  lemma WatchdogFate(cfg: Config, world: World, res: Result, n: nat, queue: seq<Cmd>, forbid: bool, last: Exit)
    ensures var f := FateOf(cfg, world, StopWatchdog, Merge(res, Watchdog), n, queue);
            && StaysStopping(f) && f.res == Merge(res, Watchdog) && (f.Falls? ==> EndResult(cfg, world, f, forbid, last) == f.res)
            && ((forall i :: i >= n ==> IsHostile(world(i))) ==>
                  f.Falls? && (Restarts(cfg, world, f, forbid, last) <==> ShallRestart(cfg, forbid, last, f.res)))
  {
    FateStops(cfg, world, StopWatchdog, Merge(res, Watchdog), n, queue);
    FateResult(cfg, world, StopWatchdog, Merge(res, Watchdog), n, queue);
    if forall i :: i >= n ==> IsHostile(world(i)) {
      HostileFate(cfg, world, StopWatchdog, Merge(res, Watchdog), n, queue);
      var f := FateOf(cfg, world, StopWatchdog, Merge(res, Watchdog), n, queue);
      assert IsHostile(world(f.n)) && IsHostile(world(f.n + 1));
    }
  }

  // ---------------------------------------------------------------- where everything leads

  /** What matters of a service before something happens to it. */
  datatype Past = Past(
    state: State, main: Option<nat>, res: Result, told: bool, n: nat, queue: seq<Cmd>, forbid: bool, last: Exit)

  /** Where something leads: a cascade follows its fate; the state stays; the first of some commands runs; the
      service is up; its start command runs; or what was started is left in the old state. */
  datatype Outcome =
    | Fated(f: Fate, forbid: bool, last: Exit)
    | Stayed(state: State, res: Result)
    | Runs(state: State, kind: Command, cmds: seq<Cmd>, pid: Option<nat>, armed: bool, main: Option<nat>, res: Result)
    | Up(res: Result, forbid: bool, last: Exit)
    | Launched(pid: Option<nat>, rest: seq<Cmd>, armed: bool, res: Result)
    | Lingers(state: State, main: Option<nat>, armed: bool, res: Result)
    | LeftDown(res: Result)

  /** The same with one more result. */
  function With(p: Past, res: Result): Past {
    p.(res := Merge(p.res, res))
  }

  /** One answer later. */
  function Asked(p: Past): Past {
    p.(n := p.n + 1)
  }

  function Ends(p: Past): Outcome {
    Fated(Falls(p.res, p.n), p.forbid, p.last)
  }

  function Remains(p: Past): Outcome {
    Stayed(p.state, p.res)
  }

  /** The commands for a purpose run in this state. */
  ghost function RunsHead(cfg: Config, world: World, s: State, kind: Command, p: Past): Outcome {
    Runs(s, kind, Filled(cfg, kind, p.queue), world(p.n).spawned, world(p.n).armed, if KeepsMain(s) then p.main else None, p.res)
  }

  /** What is left of the start commands of a forking service, whose control process runs them. */
  function LaunchQueue(cfg: Config): seq<Cmd> {
    if cfg.kind.Forking? && CmdsOf(cfg, CmdStart) != [] then CmdsOf(cfg, CmdStart)[1..] else []
  }

  /** The ways that a service can take. */
  datatype Way =
    | Checking | Prestarting | Launching | Posting | Rising
    | Signalling(signal: State) | Halting | HaltingPost

  function Length(w: Way): nat {
    match w
    case Checking => 5
    case Prestarting => 4
    case Launching => 3
    case Posting => 2
    case Rising => 1
    case _ => 0
  }

  /** Checking conditions comes before the commands before starting, these before the start command, that before
      the commands after starting, and these before being up if nothing has failed and a process is alive. A
      list without commands is passed over. That a command before starting cannot be spawned is the end; that
      one after starting cannot be leaves the state what it was. */
  ghost function Leads(cfg: Config, world: World, w: Way, p: Past): Outcome
    decreases Length(w)
  {
    match w
    case Checking =>
      if Filled(cfg, CmdCondition, p.queue) == [] then Leads(cfg, world, Prestarting, p.(queue := []))
      else if world(p.n).spawned.Some? then RunsHead(cfg, world, Condition, CmdCondition, p)
      else Ends(With(Asked(p), Resources))
    case Prestarting =>
      if Filled(cfg, CmdStartPre, p.queue) == [] then Leads(cfg, world, Launching, p.(queue := []))
      else if world(p.n).spawned.Some? then RunsHead(cfg, world, StartPre, CmdStartPre, p)
      else Ends(With(Asked(p), Resources))
    case Launching =>
      var cmds, q := CmdsOf(cfg, CmdStart), p.(main := None, queue := []);
      if cmds == [] then
        if cfg.kind.Oneshot? then Leads(cfg, world, Posting, q.(state := Starting))
        else Leads(cfg, world, Signalling(StopSigterm), With(q, Resources))
      else if world(p.n).spawned.None? then
        Leads(cfg, world, Signalling(StopSigterm), With(Asked(q.(queue := LaunchQueue(cfg))), Resources))
      else if cfg.kind.Simple? then Leads(cfg, world, Posting, Asked(q).(main := world(p.n).spawned))
      else Launched(world(p.n).spawned, cmds[1..], world(p.n).armed, p.res)
    case Posting =>
      if Filled(cfg, CmdStartPost, p.queue) == [] then Leads(cfg, world, Rising, p.(queue := []))
      else if world(p.n).spawned.Some? then RunsHead(cfg, world, StartPost, CmdStartPost, p)
      else Lingers(p.state, p.main, world(p.n).armed, p.res)
    case Rising =>
      if !p.res.Success? then Leads(cfg, world, Signalling(StopSigterm), p)
      else if !world(p.n).alive then if cfg.remain then Stayed(Exited, p.res) else Leads(cfg, world, Halting, Asked(p))
      else if p.told then Stayed(StopSigterm, p.res)
      else Up(p.res, p.forbid, p.last)
    case Signalling(s) => Fated(FateOf(cfg, world, s, p.res, p.n, p.queue), p.forbid, p.last)
    case Halting => Fated(FateStop(cfg, world, p.res, p.n, p.queue), p.forbid, p.last)
    case HaltingPost => Fated(FatePost(cfg, world, p.res, p.n, p.queue), p.forbid, p.last)
  }

  /** A reload, in whatever state: without a command, or if it cannot be spawned, the service is up again. */
  ghost function ReloadLeads(cfg: Config, world: World, p: Past): Outcome {
    var q := Filled(cfg, CmdReload, []);
    if q == [] then Leads(cfg, world, Rising, p)
    else if world(p.n).spawned.Some? then RunsHead(cfg, world, Reloading, CmdReload, p)
    else Leads(cfg, world, Rising, Asked(p).(queue := q[1..]))
  }

  /** A stop request, which forbids a restart. */
  ghost function StopLeads(cfg: Config, world: World, p: Past): Outcome {
    match p.state
    case Stopping | StopSigterm | StopSigkill | StopPost | FinalWatchdog | FinalSigterm => Remains(p)
    case AutoRestart => Stayed(Dead, p.res)
    case Condition | StartPre | Starting | StartPost | Reloading | StopWatchdog => Leads(cfg, world, Signalling(StopSigterm), p)
    case Cleaning => Leads(cfg, world, Signalling(FinalSigkill), p)
    case Dead | Running | Exited | Failing | FinalSigkill => Leads(cfg, world, Halting, p)
  }

  /** A control command that cannot be spawned. */
  ghost function FailureLeads(cfg: Config, world: World, p: Past): Outcome {
    match p.state
    case Condition | StartPre | StartPost | Stopping => Leads(cfg, world, Signalling(StopSigterm), With(p, Resources))
    case StopPost => Ends(With(p, Resources))
    case Reloading => Leads(cfg, world, Rising, p)
    case _ => Leads(cfg, world, Halting, With(p, Resources))
  }

  /** The last process is gone while stopping. */
  ghost function DownLeads(cfg: Config, world: World, p: Past, res: Result): Outcome {
    match p.state
    case StopWatchdog | StopSigkill | StopSigterm => Leads(cfg, world, HaltingPost, With(p, res))
    case StopPost => Leads(cfg, world, Signalling(FinalSigterm), With(p, res))
    case FinalSigterm | FinalSigkill | FinalWatchdog => Ends(With(p, res))
    case _ => Remains(p)
  }

  /** The end of the main process, by the state, the service type and the result. */
  ghost function MainLeads(cfg: Config, world: World, p: Past, control: Option<nat>, res: Result): Outcome {
    match p.state
    case Starting =>
      if cfg.kind.Oneshot? then
        if res.Success? then Leads(cfg, world, Posting, p) else Leads(cfg, world, Signalling(StopSigterm), With(p, res))
      else if cfg.kind.Notifying? then Leads(cfg, world, Signalling(StopSigterm), With(p, if res.Success? then Protocol else res))
      else Leads(cfg, world, Rising, With(p, res))
    case Running => Leads(cfg, world, Rising, With(p, res))
    case StartPost | Reloading | Stopping => if control.None? then Leads(cfg, world, Halting, With(p, res)) else Remains(p)
    case _ => if control.None? then DownLeads(cfg, world, p, res) else Remains(p)
  }

  /** The main process has ended; a failure may be ignored, also an earlier one. */
  function MainEnded(p: Past, e: Exit, ignore: bool, res: Result): Past {
    p.(main := None, last := e, res := if ignore then Success else Merge(p.res, res))
  }

  /** A main process that is not known is guessed. */
  ghost function Guessed(world: World, p: Past): Past {
    if p.main.None? then Asked(p).(main := world(p.n).guess) else p
  }

  /** The end of a control process, by the state, the service type and the result. */
  ghost function ControlLeads(cfg: Config, world: World, p: Past, res: Result): Outcome {
    match p.state
    case Condition => if res.Success? then Leads(cfg, world, Prestarting, p) else Leads(cfg, world, Signalling(StopSigterm), With(p, res))
    case StartPre => if res.Success? then Leads(cfg, world, Launching, p) else Leads(cfg, world, Signalling(StopSigterm), With(p, res))
    case Starting =>
      if !cfg.kind.Forking? then Remains(p)
      else if res.Success? then Leads(cfg, world, Posting, Guessed(world, p))
      else Leads(cfg, world, Signalling(StopSigterm), With(p, res))
    case StartPost => if res.Success? then Leads(cfg, world, Rising, Guessed(world, p)) else LeftDown(Merge(p.res, res))
    case Reloading => Leads(cfg, world, Rising, With(p, res))
    case Stopping => Leads(cfg, world, Signalling(StopSigterm), With(p, res))
    case _ => if p.main.None? then DownLeads(cfg, world, p, res) else Remains(p)
  }

  /** The timer elapses in a state that expects it; the end without a restart and a restart that is due are
      said elsewhere. */
  ghost function TimerLeads(cfg: Config, world: World, p: Past): Outcome {
    match p.state
    case Condition | StartPre | Starting | StartPost | Stopping => Leads(cfg, world, Signalling(StopSigterm), With(p, Timeout))
    case Running => Leads(cfg, world, Halting, With(p, Timeout))
    case Reloading => Leads(cfg, world, Rising, p)
    case StopWatchdog | StopSigterm | StopSigkill => Leads(cfg, world, HaltingPost, With(p, Timeout))
    case StopPost => Leads(cfg, world, Signalling(FinalSigterm), With(p, Timeout))
    case FinalWatchdog | FinalSigterm =>
      Stayed(EndState(Merge(p.res, Timeout)), Merge(p.res, Timeout))
    case FinalSigkill => Ends(With(p, Timeout))
    case AutoRestart =>
      if world(p.n).stopJob || world(p.n + 1).restarted then Remains(p)
      else Stayed(EndState(Merge(p.res, Resources)), Merge(p.res, Resources))
    case Cleaning => Leads(cfg, world, Signalling(FinalSigkill), With(p, Timeout))
    case _ => Remains(p)
  }

  lemma FatesDown(cfg: Config, world: World, s: State, p: Past)
    requires IsSignal(s)
    ensures StaysStopping(FateOf(cfg, world, s, p.res, p.n, p.queue))
    ensures !p.res.Success? ==> FateOf(cfg, world, s, p.res, p.n, p.queue).res == p.res
  {
    FateStops(cfg, world, s, p.res, p.n, p.queue);
    FateResult(cfg, world, s, p.res, p.n, p.queue);
  }

  class ServiceMng {
    const cfg: Config
    const world: World
    var asked: nat

    var state: State
    var result: Result
    var reloadResult: Result
    var mainPid: Option<nat>
    var controlPid: Option<nat>
    var mainCmd: seq<Cmd>
    var controlType: Option<Command>
    var controlCmd: seq<Cmd>
    var current: Cmd
    var forbidRestart: bool
    var toldStopping: bool
    var timerArmed: bool
    var watchdogArmed: bool
    var lastExit: Exit

    /** History: the control command that was spawned last, and how often a state was entered that is
        neither stopping nor ended. */
    ghost var running: Option<Cmd>
    ghost var ups: nat

    constructor (c: Config, w: World)
      ensures cfg == c && world == w && asked == 0 && state == Dead && ups == 0 && Queues() && Expected()
      ensures mainCmd == [] && controlType == None && controlCmd == [] && mainPid == None && controlPid == None
      ensures result == Success && lastExit == Code(0)
      ensures !forbidRestart && !toldStopping && !timerArmed && !watchdogArmed
    {
      cfg, world, asked := c, w, 0;
      state, result, reloadResult, mainPid, controlPid := Dead, Success, Success, None, None;
      mainCmd, controlType, controlCmd, current := [], None, [], Cmd(0, false);
      forbidRestart, toldStopping, timerArmed, watchdogArmed := false, false, false, false;
      lastExit := Code(0);
      running, ups := None, 0;
    }

    /** The queues are what is left of the configured lists. */
    ghost predicate Queues()
      reads this
    {
      && IsSuffix(mainCmd, CmdsOf(cfg, CmdStart))
      && (controlType.None? ==> controlCmd == [])
      && (controlType.Some? ==> CmdsOf(cfg, controlType.value) != [] && IsSuffix(controlCmd, CmdsOf(cfg, controlType.value)))
    }

    /** Whatever may report back is expected in this state: processes and the timer. */
    ghost predicate Expected()
      reads this
    {
      && (mainPid.Some? ==> KeepsMain(state))
      && (controlPid.Some? ==> KeepsControl(state))
      && (timerArmed ==> KeepsTimer(state))
    }

    /** On the way down without a restart: stopping and not to be restarted, or ended. */
    ghost predicate GoingDown()
      reads this
    {
      IsEnded(state) || (IsStopping(state) && forbidRestart)
    }

    /** There is such a command to run, and it can be spawned. */
    ghost predicate Spawns(kind: Command, n: nat) {
      CmdsOf(cfg, kind) != [] && world(n).spawned.Some?
    }

    /** The first command of the list runs, and the rest is queued. */
    ghost predicate RunsFirst(kind: Command, pid: Option<nat>)
      reads this
    {
      && kind in cfg.cmds && cfg.cmds[kind] != []
      && controlPid == pid && running == Some(cfg.cmds[kind][0])
      && controlType == Some(kind) && controlCmd == cfg.cmds[kind][1..]
    }

    /** The cascade has met its fate. */
    ghost predicate Follows(f: Fate, forbid: bool, last: Exit)
      reads this
    {
      match f
      case Stays(at, res) => state == at && IsStopping(at) && result == res
      case Falls(_, _) =>
        && result == EndResult(cfg, world, f, forbid, last) && controlCmd == [] && !forbidRestart
        && state == if Restarts(cfg, world, f, forbid, last) then AutoRestart else EndState(result)
    }

    ghost function Now(): Past
      reads this
    {
      Past(state, mainPid, result, toldStopping, asked, controlCmd, forbidRestart, lastExit)
    }

    /** What is left alone by all that starts and stops. */
    ghost function Kept(): (bool, Exit, Result)
      reads this
    {
      (toldStopping, lastExit, reloadResult)
    }

    /** What no cascade touches. */
    ghost function Rest(): (bool, (bool, Exit, Result))
      reads this
    {
      (watchdogArmed, Kept())
    }

    ghost predicate Reached(o: Outcome)
      reads this
    {
      match o
      case Fated(f, forbid, last) => Follows(f, forbid, last)
      case Stayed(st, res) => state == st && result == res
      case Runs(st, kind, cmds, pid, armed, main, res) =>
        && result == res && cmds != [] && state == st && mainPid == main && controlPid == pid && timerArmed == armed
        && running == Some(cmds[0]) && controlCmd == cmds[1..] && (kind in cfg.cmds ==> controlType == Some(kind))
      case Up(res, forbid, last) =>
        state == State.Running && result == res && controlCmd == [] && forbidRestart == forbid && lastExit == last
      case Launched(pid, rest, armed, res) =>
        && result == res && state == Starting && timerArmed == armed
        && if cfg.kind.Forking? then controlPid == pid && mainPid == None && controlCmd == rest
           else mainPid == pid && controlPid == None && mainCmd == rest
      case Lingers(st, main, armed, res) => result == res && state == st && mainPid == main && controlPid == None && timerArmed == armed
      case LeftDown(res) => (IsStopping(state) || IsEnded(state) || state.AutoRestart?) && result == res
    }

    /** What is known of a watchdog before it acts: the result it leaves, and that it restarts the service only
        if a restart is due after that result, which answers that fail all they can do bring about. */
    ghost predicate AfterWatchdog(res: Result, forbid: bool, last: Exit, n: nat)
      reads this
    {
      && result == Merge(res, Watchdog) && (IsStopping(state) || state.Failing? || state.AutoRestart?)
      && (state.AutoRestart? ==> ShallRestart(cfg, forbid, last, result))
      && ((forall i :: i >= n ==> IsHostile(world(i))) ==> state == if ShallRestart(cfg, forbid, last, result) then AutoRestart else Failing)
    }

    // -------------------------------------------------------------- asking and changing state

    method Ask() returns (r: Reply)
      modifies this`asked
      ensures r == world(old(asked)) && asked == old(asked) + 1
    {
      r := world(asked);
      asked := asked + 1;
    }

    method SetState(s: State)
      requires Queues()
      modifies this`state, this`mainPid, this`mainCmd, this`controlPid, this`controlCmd, this`controlType,
               this`timerArmed, this`ups
      ensures state == s && ups == old(ups) + if IsDown(s) then 0 else 1
      ensures mainPid == (if KeepsMain(s) then old(mainPid) else None)
      ensures mainCmd == (if KeepsMain(s) then old(mainCmd) else [])
      ensures controlPid == (if KeepsControl(s) then old(controlPid) else None)
      ensures controlCmd == (if KeepsControl(s) then old(controlCmd) else [])
      ensures controlType == (if KeepsControl(s) then old(controlType) else None)
      ensures timerArmed == (KeepsTimer(s) && old(timerArmed))
      ensures Queues() && Expected()
    {
      state := s;
      if !KeepsTimer(s) {
        timerArmed := false;
      }
      if !KeepsMain(s) {
        mainPid := None;
        mainCmd := [];
      }
      if !KeepsControl(s) {
        controlPid := None;
        controlCmd := [];
        controlType := None;
      }
      ups := ups + if IsDown(s) then 0 else 1;
    }

    /** A control process was spawned for this state. */
    method RunIn(s: State, pid: Option<nat>, cmd: Cmd)
      requires Queues() && KeepsControl(s)
      modifies this`state, this`mainPid, this`mainCmd, this`controlPid, this`controlCmd, this`controlType,
               this`timerArmed, this`ups, this`running
      ensures state == s && Queues() && Expected()
      ensures controlPid == pid && running == Some(cmd) && controlCmd == old(controlCmd) && controlType == old(controlType)
      ensures KeepsTimer(s) ==> timerArmed == old(timerArmed)
      ensures mainPid == (if KeepsMain(s) then old(mainPid) else None)
      ensures IsStopping(s) ==> ups == old(ups)
    {
      controlPid := pid;
      running := Some(cmd);
      SetState(s);
    }

    // -------------------------------------------------------------- queues

    method MainFill()
      requires Queues()
      modifies this`mainCmd
      ensures Queues()
      ensures mainCmd == if CmdStart in cfg.cmds then cfg.cmds[CmdStart] else old(mainCmd)
    {
      if CmdStart in cfg.cmds {
        mainCmd := cfg.cmds[CmdStart];
      }
    }

    method MainPop() returns (c: Option<Cmd>)
      requires Queues()
      modifies this`mainCmd
      ensures Queues()
      ensures if old(mainCmd) == [] then c == None && mainCmd == [] else c == Some(old(mainCmd)[0]) && mainCmd == old(mainCmd)[1..]
    {
      if mainCmd == [] { return None; }
      PopKeepsSuffix(mainCmd, CmdsOf(cfg, CmdStart));
      c := Some(mainCmd[0]);
      mainCmd := mainCmd[1..];
    }

    method ControlFill(kind: Command)
      requires Queues()
      modifies this`controlCmd, this`controlType
      ensures Queues()
      ensures controlCmd == Filled(cfg, kind, old(controlCmd))
      ensures controlType == if CmdsOf(cfg, kind) != [] then Some(kind) else old(controlType)
    {
      if kind in cfg.cmds {
        controlCmd := cfg.cmds[kind];
        if controlCmd != [] {
          controlType := Some(kind);
        }
      }
    }

    method ControlPop() returns (c: Option<Cmd>)
      requires Queues()
      modifies this`controlCmd
      ensures Queues()
      ensures if old(controlCmd) == [] then c == None && controlCmd == [] else c == Some(old(controlCmd)[0]) && controlCmd == old(controlCmd)[1..]
      ensures c.Some? ==> controlType.Some? && c.value in CmdsOf(cfg, controlType.value)
    {
      if controlCmd == [] { return None; }
      PopKeepsSuffix(controlCmd, CmdsOf(cfg, controlType.value));
      c := Some(controlCmd[0]);
      controlCmd := controlCmd[1..];
    }

    /** The next control command for a purpose. It comes from the list of that purpose if and only if
        that list is configured; otherwise it is what is left of another one. */
    method NextFor(kind: Command) returns (c: Option<Cmd>)
      requires Queues()
      modifies this`controlCmd, this`controlType
      ensures Queues()
      ensures c.None? <==> Filled(cfg, kind, old(controlCmd)) == []
      ensures c.Some? ==> c.value == Filled(cfg, kind, old(controlCmd))[0] && controlCmd == Filled(cfg, kind, old(controlCmd))[1..]
      ensures c.None? ==> controlCmd == []
      ensures c.Some? ==> (controlType == Some(kind) <==> kind in cfg.cmds)
      ensures c.Some? && kind !in cfg.cmds ==> controlType == old(controlType) && c.value in CmdsOf(cfg, controlType.value)
    {
      ControlFill(kind);
      c := ControlPop();
    }

    /** Only lengths and the kind of control commands are persisted. */
    method Save() returns (d: Saved)
      ensures d == Saved(|mainCmd|, controlType, |controlCmd|)
    {
      d := Saved(|mainCmd|, controlType, |controlCmd|);
    }

    method MainUpdate(len: nat)
      requires Queues()
      modifies this`mainCmd
      ensures Queues() && mainCmd == Last(CmdsOf(cfg, CmdStart), len)
    {
      mainCmd := [];
      MainFill();
      var i, max := len, |mainCmd|;
      while i < max
        invariant Queues() && len <= i && (i <= max || i == len)
        invariant |mainCmd| == if i <= max then max - (i - len) else max
      {
        var _ := MainPop();
        i := i + 1;
      }
      SameLengthSame(mainCmd, CmdsOf(cfg, CmdStart), len);
    }

    method ControlPopDown(len: nat)
      requires Queues()
      modifies this`controlCmd
      ensures Queues() && controlCmd == Last(old(controlCmd), len)
    {
      ghost var q := controlCmd;
      var i, max := len, |controlCmd|;
      while i < max
        invariant Queues() && len <= i && (if len <= max then i <= max && controlCmd == q[i - len..] else i == len && controlCmd == q)
      {
        DropMore(q, i - len);
        var _ := ControlPop();
        i := i + 1;
      }
    }

    method ControlUpdate(kind: Option<Command>, len: nat)
      requires Queues() && (kind.None? ==> len == 0)
      modifies this`controlCmd, this`controlType
      ensures Queues()
      ensures kind.Some? ==> controlCmd == Last(CmdsOf(cfg, kind.value), len)
      ensures kind.None? ==> controlCmd == old(controlCmd)
      ensures controlType == if kind.Some? && CmdsOf(cfg, kind.value) != [] then kind else old(controlType)
    {
      if kind.Some? {
        controlCmd := [];
        ControlFill(kind.value);
        ControlPopDown(len);
      }
    }

    // -------------------------------------------------------------- the end

    method EnterDead(res: Result, force: bool)
      requires Queues()
      modifies this
      ensures Queues() && Expected() && Rest() == old(Rest())
      ensures !forbidRestart && controlCmd == []
      ensures state.AutoRestart? || state == EndState(result)
      ensures state.AutoRestart? <==> force && Restarts(cfg, world, Falls(Merge(old(result), res), old(asked)), old(forbidRestart), old(lastExit))
      ensures old(forbidRestart) || !force ==> ups == old(ups)
      ensures force ==> result == EndResult(cfg, world, Falls(Merge(old(result), res), old(asked)), old(forbidRestart), old(lastExit))
      ensures !force ==> result == Merge(old(result), res)
      decreases if force then 2 else 0, 0
    {
      var restart := FallDown(res);
      if force && restart { PlanRestart(); }
      forbidRestart := false;
    }

    method FallDown(res: Result) returns (restart: bool)
      requires Queues()
      modifies this`asked, this`result, this`state, this`mainPid, this`mainCmd, this`controlPid, this`controlCmd,
               this`controlType, this`timerArmed, this`ups
      ensures Queues() && Expected() && controlCmd == [] && asked == old(asked) + 1 && ups == old(ups)
      ensures result == Merge(old(result), res) && state == EndState(result)
      ensures restart <==> !world(old(asked)).stopJob && ShallRestart(cfg, forbidRestart, lastExit, result)
      ensures restart <==>
                && !world(old(asked)).stopJob && !forbidRestart && lastExit !in cfg.prevent
                && result in RestartResults(cfg.restart)
    {
      var r := Ask();
      result := Merge(result, res);
      RestartByPolicy(cfg, forbidRestart, lastExit, result);
      restart := !r.stopJob && ShallRestart(cfg, forbidRestart, lastExit, result);
      SetState(EndState(result));
    }

    method PlanRestart()
      requires Queues() && controlCmd == []
      modifies this
      ensures Queues() && Expected() && controlCmd == [] && Rest() == old(Rest())
      ensures if world(old(asked)).timerOk then state == AutoRestart && result == old(result)
              else result == Merge(old(result), Resources) && state == EndState(result)
      decreases 1, 0
    {
      var r := Ask();
      timerArmed := r.armed;
      if r.timerOk { SetState(AutoRestart); } else { EnterDead(Resources, false); }
    }

    // -------------------------------------------------------------- stopping

    method EnterSignal(s: State, res: Result)
      requires Queues() && IsSignal(s)
      modifies this
      ensures !world(old(asked)).killFails && world(old(asked)).killed && world(old(asked) + 1).timerOk ==>
                && state == s && mainPid == old(mainPid) && controlPid == old(controlPid)
                && controlCmd == old(controlCmd) && controlType == old(controlType)
      ensures Queues() && Expected() && Rest() == old(Rest())
      ensures Follows(FateOf(cfg, world, s, Merge(old(result), res), old(asked), old(controlCmd)), old(forbidRestart), old(lastExit))
      ensures old(forbidRestart) ==> GoingDown() && ups == old(ups)
      decreases Rank(s), 1
    {
      result := Merge(result, res);
      var r := Ask();
      if r.killFails {
        CannotSignal(s);
      } else if r.killed {
        HasSignalled(s);
      } else {
        NothingToSignal(s);
      }
    }

    method HasSignalled(s: State)
      requires Queues() && IsSignal(s)
      modifies this
      ensures world(old(asked)).timerOk ==>
                && state == s && mainPid == old(mainPid) && controlPid == old(controlPid)
                && controlCmd == old(controlCmd) && controlType == old(controlType)
      ensures Queues() && Expected() && Rest() == old(Rest())
      ensures world(old(asked)).timerOk ==> result == old(result)
      ensures !world(old(asked)).timerOk ==>
                Follows(FateFailed(cfg, world, s, old(result), old(asked) + 1, old(controlCmd)), old(forbidRestart), old(lastExit))
      ensures old(forbidRestart) ==> GoingDown() && ups == old(ups)
      decreases Rank(s), 0, 1
    {
      var r := Ask();
      timerArmed := r.armed;
      if r.timerOk { SetState(s); } else { CannotSignal(s); }
    }

    method NothingToSignal(s: State)
      requires Queues() && IsSignal(s)
      modifies this
      ensures Queues() && Expected() && Rest() == old(Rest())
      ensures Follows(FateUnkilled(cfg, world, s, old(result), old(asked), old(controlCmd)), old(forbidRestart), old(lastExit))
      ensures old(forbidRestart) ==> GoingDown() && ups == old(ups)
      decreases Rank(s), 0
    {
      if FirstSignal(s) {
        EnterStopPost(Success);
      } else if s.FinalWatchdog? || s.FinalSigterm? {
        EnterSignal(FinalSigkill, Success);
      } else {
        EnterDead(Success, true);
      }
    }

    method CannotSignal(s: State)
      requires Queues() && IsSignal(s)
      modifies this
      ensures Queues() && Expected() && Rest() == old(Rest())
      ensures Follows(FateFailed(cfg, world, s, old(result), old(asked), old(controlCmd)), old(forbidRestart), old(lastExit))
      ensures old(forbidRestart) ==> GoingDown() && ups == old(ups)
      decreases Rank(s), 0, 0
    {
      if FirstSignal(s) { EnterStopPost(Resources); } else { EnterDead(Resources, true); }
    }

    method EnterStopPost(res: Result)
      requires Queues()
      modifies this
      ensures old(Spawns(CmdStopPost, asked)) ==> state == StopPost && RunsFirst(CmdStopPost, world(old(asked)).spawned)
      ensures Queues() && Expected() && Rest() == old(Rest())
      ensures Follows(FatePost(cfg, world, Merge(old(result), res), old(asked), old(controlCmd)), old(forbidRestart), old(lastExit))
      ensures old(forbidRestart) ==> GoingDown() && ups == old(ups)
      decreases 5, 0
    {
      result := Merge(result, res);
      var cmd := NextFor(CmdStopPost);
      if cmd.None? { EnterSignal(FinalSigterm, Success); } else { RunOrSignal(StopPost, cmd.value, FinalSigterm); }
    }

    /** A signal, a stop, the commands after it and the end, as far as the rest of the service is concerned. */
    method Signal(s: State, res: Result)
      requires Queues() && IsSignal(s)
      modifies this
      ensures Reached(Leads(cfg, world, Signalling(s), With(old(Now()), res)))
      ensures !world(old(asked)).killFails && world(old(asked)).killed && world(old(asked) + 1).timerOk ==>
                && state == s && mainPid == old(mainPid) && controlPid == old(controlPid)
                && controlCmd == old(controlCmd) && controlType == old(controlType)
      ensures Queues() && Expected() && Rest() == old(Rest()) && IsDownOrAgain(state)
      ensures old(forbidRestart) ==> GoingDown() && ups == old(ups)
      decreases 7
    {
      EnterSignal(s, res);
    }

    method Stop(res: Result)
      requires Queues()
      modifies this
      ensures Reached(Leads(cfg, world, Halting, With(old(Now()), res)))
      ensures Queues() && Expected() && Rest() == old(Rest()) && IsDownOrAgain(state)
      ensures old(forbidRestart) ==> GoingDown() && ups == old(ups)
    {
      EnterStop(res);
    }

    method PostStop(res: Result)
      requires Queues()
      modifies this
      ensures Reached(Leads(cfg, world, HaltingPost, With(old(Now()), res)))
      ensures Queues() && Expected() && Rest() == old(Rest()) && IsDownOrAgain(state)
      ensures old(forbidRestart) ==> GoingDown() && ups == old(ups)
      decreases 7
    {
      EnterStopPost(res);
    }

    method Die(res: Result)
      requires Queues()
      modifies this
      ensures Reached(Ends(With(old(Now()), res)))
      ensures Queues() && Expected() && Rest() == old(Rest()) && IsDownOrAgain(state)
      ensures old(forbidRestart) ==> GoingDown() && ups == old(ups)
      decreases 7
    {
      EnterDead(res, true);
    }

    method CannotRun(next: State)
      requires Queues() && (next.StopSigterm? || next.FinalSigterm?)
      modifies this
      ensures Queues() && Expected() && Rest() == old(Rest())
      ensures Follows(FateOf(cfg, world, next, Merge(old(result), Resources), old(asked), old(controlCmd)), old(forbidRestart), old(lastExit))
      ensures old(forbidRestart) ==> GoingDown() && ups == old(ups)
      decreases Rank(next), 2
    {
      EnterSignal(next, Resources);
    }

    /** Run a command of the stopping side, or go on with a signal. */
    method RunOrSignal(s: State, cmd: Cmd, next: State)
      requires Queues() && IsStopping(s) && (next.StopSigterm? || next.FinalSigterm?)
      modifies this
      ensures world(old(asked)).spawned.Some? ==>
                && state == s && controlPid == world(old(asked)).spawned && running == Some(cmd)
                && controlCmd == old(controlCmd) && controlType == old(controlType)
      ensures Queues() && Expected() && Rest() == old(Rest())
      ensures Follows(FateRun(cfg, world, s, next, old(result), old(asked), old(controlCmd)), old(forbidRestart), old(lastExit))
      ensures old(forbidRestart) ==> GoingDown() && ups == old(ups)
      decreases Rank(next), 3
    {
      var r := Ask();
      timerArmed := r.armed;
      if r.spawned.Some? { RunIn(s, r.spawned, cmd); } else { CannotRun(next); }
    }

    method EnterStop(res: Result)
      requires Queues()
      modifies this
      ensures old(Spawns(CmdStop, asked)) ==> state == Stopping && RunsFirst(CmdStop, world(old(asked)).spawned)
      ensures Queues() && Expected() && Rest() == old(Rest())
      ensures Follows(FateStop(cfg, world, Merge(old(result), res), old(asked), old(controlCmd)), old(forbidRestart), old(lastExit))
      ensures old(forbidRestart) ==> GoingDown() && ups == old(ups)
    {
      result := Merge(result, res);
      var cmd := NextFor(CmdStop);
      if cmd.None? { EnterSignal(StopSigterm, Success); } else { RunOrSignal(Stopping, cmd.value, StopSigterm); }
    }

    method EnterStopByNotify()
      requires Queues()
      modifies this
      ensures Queues() && Expected() && state == StopSigterm && Rest() == old(Rest())
      ensures ups == old(ups) && forbidRestart == old(forbidRestart) && toldStopping == old(toldStopping) && result == old(result)
    {
      var r := Ask();
      timerArmed := r.armed;
      SetState(StopSigterm);
    }

    // -------------------------------------------------------------- starting

    method EnterRunning(res: Result)
      requires Queues()
      modifies this
      ensures Reached(Leads(cfg, world, Rising, With(old(Now()), res)))
      ensures Queues() && Expected() && Rest() == old(Rest())
    {
      controlPid := None;
      result := Merge(result, res);
      if !result.Success? { Signal(StopSigterm, res); } else { RunIfAlive(res); }
    }

    method RunIfAlive(res: Result)
      requires Queues() && result.Success? && res.Success?
      modifies this
      ensures Reached(Leads(cfg, world, Rising, old(Now())))
      ensures Queues() && Expected() && Rest() == old(Rest())
    {
      var r := Ask();
      if r.alive { StayUp(); } else { NotAlive(res); }
    }

    method NotAlive(res: Result)
      requires Queues() && result.Success? && res.Success?
      modifies this
      ensures Reached(if cfg.remain then Stayed(Exited, old(result)) else Leads(cfg, world, Halting, old(Now())))
      ensures Queues() && Expected() && Rest() == old(Rest())
    {
      if cfg.remain { SetState(Exited); } else { Stop(res); }
    }

    method StayUp()
      requires Queues()
      modifies this
      ensures Reached(if toldStopping then Stayed(StopSigterm, old(result)) else Up(old(result), old(forbidRestart), old(lastExit)))
      ensures Queues() && Expected() && Rest() == old(Rest())
    {
      if toldStopping { EnterStopByNotify(); } else { BeRunning(); }
    }

    method BeRunning()
      requires Queues()
      modifies this`state, this`mainPid, this`mainCmd, this`controlPid, this`controlCmd, this`controlType,
               this`timerArmed, this`ups
      ensures Queues() && Expected() && state.Running? && controlCmd == []
    {
      SetState(State.Running);
      timerArmed := false;
    }

    method RestartWatchdog()
      modifies this`watchdogArmed
      ensures watchdogArmed == cfg.watchdog
    {
      watchdogArmed := cfg.watchdog;
    }

    /** Try to run the commands for a purpose: are there some, and does the first one run? */
    method TryList(s: State, kind: Command) returns (some: bool, ran: bool)
      requires Queues() && KeepsControl(s)
      modifies this`asked, this`state, this`mainPid, this`mainCmd, this`controlPid, this`controlCmd, this`controlType,
               this`timerArmed, this`ups, this`running
      ensures some <==> Filled(cfg, kind, old(controlCmd)) != []
      ensures ran <==> some && world(old(asked)).spawned.Some?
      ensures ran ==> Reached(RunsHead(cfg, world, s, kind, old(Now()))) && Expected()
      ensures some && !ran ==> Now() == Asked(old(Now())).(queue := Filled(cfg, kind, old(controlCmd))[1..])
      ensures some && !ran ==> controlPid == old(controlPid) && timerArmed == world(old(asked)).armed
      ensures !some ==> Now() == old(Now()).(queue := [])
      ensures Queues()
    {
      var cmd := NextFor(kind);
      some, ran := cmd.Some?, false;
      if some { ran := TryCommand(s, cmd.value); }
    }

    method TryCommand(s: State, cmd: Cmd) returns (ran: bool)
      requires Queues() && KeepsControl(s)
      modifies this`asked, this`state, this`mainPid, this`mainCmd, this`controlPid, this`controlCmd, this`controlType,
               this`timerArmed, this`ups, this`running
      ensures ran <==> world(old(asked)).spawned.Some?
      ensures asked == old(asked) + 1 && timerArmed == world(old(asked)).armed && controlCmd == old(controlCmd) && controlType == old(controlType)
      ensures ran ==>
                && state == s && controlPid == world(old(asked)).spawned && running == Some(cmd) && Expected()
                && mainPid == if KeepsMain(s) then old(mainPid) else None
      ensures !ran ==> state == old(state) && controlPid == old(controlPid) && mainPid == old(mainPid)
      ensures Queues()
    {
      var r := Ask();
      timerArmed := r.armed;
      ran := r.spawned.Some?;
      if ran { RunIn(s, r.spawned, cmd); }
    }

    /** A spawn that fails here is met by nobody, so that what was started is left in the old state. */
    method EnterStartPost()
      requires Queues()
      modifies this
      ensures Reached(Leads(cfg, world, Posting, old(Now()))) && watchdogArmed == cfg.watchdog && Kept() == old(Kept())
      ensures Queues() && (Filled(cfg, CmdStartPost, old(controlCmd)) == [] || world(old(asked)).spawned.Some? ==> Expected())
      ensures old(KeepsMain(state)) ==> Expected()
    {
      controlPid := None;
      RestartWatchdog();
      PostOrRise();
    }

    method PostOrRise()
      requires Queues() && controlPid.None?
      modifies this
      ensures Reached(Leads(cfg, world, Posting, old(Now()))) && Rest() == old(Rest())
      ensures Queues() && (Filled(cfg, CmdStartPost, old(controlCmd)) == [] || world(old(asked)).spawned.Some? ==> Expected())
      ensures old(KeepsMain(state)) ==> Expected()
    {
      var some, ran := TryList(StartPost, CmdStartPost);
      if !some { EnterRunning(Success); }
    }

    /** Only commands after the start of a simple service can leave something that nobody expects. */
    ghost predicate CanOrphan() {
      cfg.kind.Simple? && CmdsOf(cfg, CmdStartPost) != []
    }

    method NextStart() returns (cmd: Option<Cmd>)
      requires Queues()
      modifies this`controlCmd, this`controlType, this`mainCmd, this`controlPid, this`mainPid
      ensures Queues() && controlPid == None && Now() == old(Now()).(main := None, queue := LaunchQueue(cfg))
      ensures cmd == if CmdsOf(cfg, CmdStart) == [] then None else Some(CmdsOf(cfg, CmdStart)[0])
      ensures cmd.Some? && !cfg.kind.Forking? ==> mainCmd == CmdsOf(cfg, CmdStart)[1..]
    {
      controlCmd := [];
      controlPid := None;
      mainPid := None;
      assert Queues();
      MainFill();
      if cfg.kind.Forking? {
        cmd := NextFor(CmdStart);
      } else {
        MainFill();
        cmd := MainPop();
      }
    }

    method EnterStart()
      requires Queues()
      modifies this
      ensures Reached(Leads(cfg, world, Launching, old(Now()))) && (state.Running? ==> watchdogArmed == cfg.watchdog) && Kept() == old(Kept())
      ensures Queues() && (Expected() || CanOrphan())
    {
      var cmd := NextStart();
      if cmd.None? { NothingToStart(); } else { Launch(cmd.value); }
    }

    method Launch(cmd: Cmd)
      requires Queues() && controlPid.None? && mainPid.None? && controlCmd == LaunchQueue(cfg) && CmdsOf(cfg, CmdStart) != []
      requires !cfg.kind.Forking? ==> mainCmd == CmdsOf(cfg, CmdStart)[1..]
      modifies this
      ensures Reached(Leads(cfg, world, Launching, old(Now()))) && (state.Running? ==> watchdogArmed == cfg.watchdog) && Kept() == old(Kept())
      ensures Queues() && (Expected() || CanOrphan())
    {
      var r := Ask();
      timerArmed := r.armed;
      assert Now() == Asked(old(Now()));
      if r.spawned.None? {
        CannotLaunch();
      } else {
        current := cmd;
        Started(r.spawned, cmd);
      }
    }

    method CannotLaunch()
      requires Queues()
      modifies this
      ensures Reached(Leads(cfg, world, Signalling(StopSigterm), With(old(Now()), Resources)))
      ensures Queues() && Expected() && !state.Running? && Kept() == old(Kept())
    {
      Signal(StopSigterm, Resources);
    }

    method NothingToStart()
      requires Queues() && controlCmd == [] && controlPid.None? && mainPid.None?
      modifies this
      ensures Queues() && Expected()
      ensures cfg.kind.Oneshot? ==> Reached(Leads(cfg, world, Posting, old(Now()).(state := Starting)))
      ensures (state.Running? ==> watchdogArmed == cfg.watchdog) && Kept() == old(Kept())
      ensures !cfg.kind.Oneshot? ==> Reached(Leads(cfg, world, Signalling(StopSigterm), With(old(Now()), Resources)))
    {
      if !cfg.kind.Oneshot? {
        Signal(StopSigterm, Resources);
      } else {
        SetState(Starting);
        EnterStartPost();
      }
    }

    method Started(pid: Option<nat>, cmd: Cmd)
      requires Queues() && pid.Some? && controlPid.None? && mainPid.None? && (cfg.kind.Simple? ==> controlCmd == [])
      modifies this
      ensures cfg.kind.Simple? ==> Reached(Leads(cfg, world, Posting, old(Now()).(main := pid))) && watchdogArmed == cfg.watchdog
      ensures Kept() == old(Kept())
      ensures !cfg.kind.Simple? ==>
                && result == old(result) && state == Starting && timerArmed == old(timerArmed) && controlCmd == old(controlCmd)
                && if cfg.kind.Forking? then controlPid == pid && mainPid == None
                   else mainPid == pid && controlPid == None && mainCmd == old(mainCmd)
      ensures Queues() && (Expected() || CanOrphan())
    {
      if cfg.kind.Simple? {
        timerArmed := false;
        mainPid := pid;
        EnterStartPost();
      } else if cfg.kind.Forking? {
        RunIn(Starting, pid, cmd);
      } else {
        mainPid := pid;
        SetState(Starting);
      }
    }

    method EnterPrestart()
      requires Queues()
      modifies this
      ensures Reached(Leads(cfg, world, Prestarting, old(Now()))) && (state.Running? ==> watchdogArmed == cfg.watchdog) && Kept() == old(Kept())
      ensures Queues() && (Expected() || CanOrphan())
    {
      controlPid := None;
      var some, ran := TryList(StartPre, CmdStartPre);
      if !some {
        EnterStart();
      } else if !ran {
        Die(Resources);
      }
    }

    method EnterCondition()
      requires Queues()
      modifies this
      ensures Reached(Leads(cfg, world, Checking, old(Now()))) && (state.Running? ==> watchdogArmed == cfg.watchdog) && Kept() == old(Kept())
      ensures Queues() && (Expected() || CanOrphan())
    {
      var some, ran := TryList(Condition, CmdCondition);
      if !some {
        EnterPrestart();
      } else if !ran {
        Die(Resources);
      }
    }

    /** The service is told to reload, in whatever state it is. */
    method ReloadRequested()
      requires Queues()
      modifies this
      ensures Reached(ReloadLeads(cfg, world, old(Now()).(queue := [])))
      ensures reloadResult == if Filled(cfg, CmdReload, []) == [] || world(old(asked)).spawned.Some? then Success else Resources
      ensures Queues() && Expected()
    {
      controlCmd := [];
      controlPid := None;
      assert Queues();
      reloadResult := Success;
      ReloadNow();
    }

    method ReloadNow()
      requires Queues() && controlCmd == [] && reloadResult.Success?
      modifies this
      ensures Reached(ReloadLeads(cfg, world, old(Now())))
      ensures reloadResult == if Filled(cfg, CmdReload, []) == [] || world(old(asked)).spawned.Some? then Success else Resources
      ensures Queues() && Expected()
    {
      var some, ran := TryList(Reloading, CmdReload);
      if !ran { SkipReload(some); }
    }

    method SkipReload(failed: bool)
      requires Queues()
      modifies this
      ensures Reached(Leads(cfg, world, Rising, old(Now()))) && reloadResult == if failed then Resources else old(reloadResult)
      ensures Queues() && Expected()
    {
      if failed { reloadResult := Resources; }
      EnterRunning(Success);
    }

    // -------------------------------------------------------------- requests

    /** A start request while stopping is put off, and one while starting changes nothing either. */
    method StartRequested() returns (again: bool)
      requires Queues()
      modifies this
      ensures Queues() && (old(Expected()) ==> Expected() || CanOrphan())
      ensures again <==> IsStopping(old(state)) || old(state).Cleaning?
      ensures again || IsStarting(old(state)) ==> Reached(Remains(old(Now()))) && forbidRestart == old(forbidRestart) && ups == old(ups)
      ensures !again && !IsStarting(old(state)) && !world(old(asked)).underLimit ==>
                result == Merge(old(result), StartLimitHit) && state == EndState(result)
      ensures !again && !IsStarting(old(state)) && world(old(asked)).underLimit ==>
                Reached(Leads(cfg, world, Checking, Asked(old(Now())).(res := Success, forbid := false)))
      ensures !again && state.Running? && !old(state).Running? ==> watchdogArmed == cfg.watchdog
      ensures Kept() == old(Kept())
    {
      again := IsStopping(state) || state.Cleaning?;
      if again || IsStarting(state) { return; }
      var r := Ask();
      if !r.underLimit {
        EnterDead(StartLimitHit, false);
        return;
      }
      StartAnew();
    }

    method StartAnew()
      requires Queues()
      modifies this
      ensures Reached(Leads(cfg, world, Checking, old(Now()).(res := Success, forbid := false)))
      ensures (state.Running? ==> watchdogArmed == cfg.watchdog) && Kept() == old(Kept())
      ensures Queues() && (Expected() || CanOrphan())
    {
      result := Success;
      forbidRestart := false;
      EnterCondition();
    }

    /** A state that a stop request leaves alone: the service is being stopped already. */
    predicate IsBeingStopped(st: State) {
      st.Stopping? || st.StopSigterm? || st.StopSigkill? || st.StopPost? || st.FinalWatchdog? || st.FinalSigterm?
    }

    method StopRequested()
      requires Queues()
      modifies this
      ensures Reached(StopLeads(cfg, world, old(Now()).(forbid := true)))
      ensures Queues() && (old(Expected()) ==> Expected()) && Rest() == old(Rest())
      ensures GoingDown() && ups == old(ups)
    {
      forbidRestart := true;
      if !IsBeingStopped(state) { StopNow(); }
    }

    method StopNow()
      requires Queues() && forbidRestart && !IsBeingStopped(state)
      modifies this
      ensures Reached(StopLeads(cfg, world, old(Now())))
      ensures Queues() && (old(Expected()) ==> Expected()) && Rest() == old(Rest())
      ensures GoingDown() && ups == old(ups)
    {
      if state.AutoRestart? {
        SetState(Dead);
      } else if IsStarting(state) || state.Reloading? || state.StopWatchdog? {
        Signal(StopSigterm, Success);
      } else if state.Cleaning? {
        Signal(FinalSigkill, Success);
      } else {
        Stop(Success);
      }
    }

    // -------------------------------------------------------------- events

    function ExitResult(pid: nat, e: Exit): (res: Result)
      reads this
      ensures e.Code? ==> res == if e.status == 0 then Success else ExitCode
      ensures e.Signal? && e.core ==> res == CoreDump
      ensures e.Signal? && !e.core && !e.benign ==> res == Signalled
      ensures e.Signal? && !e.core && e.benign ==>
                (res == Success <==> !(cfg.kind.Oneshot? && controlPid == Some(pid) && controlType != Some(CmdStart)))
    {
      match e
      case Code(status) => if status == 0 then Success else ExitCode
      case Signal(_, benign, core) =>
        var daemon := !cfg.kind.Oneshot? || controlPid != Some(pid) || controlType == Some(CmdStart);
        if core then CoreDump else if daemon && benign then Success else Signalled
    }

    method RunNextMain()
      requires Queues()
      modifies this
      ensures Queues() && (old(Expected()) && KeepsMain(state) ==> Expected())
      ensures state == old(state) && forbidRestart == old(forbidRestart) && ups == old(ups)
      ensures old(mainCmd != [] && world(asked).spawned.Some?) ==> mainPid == world(old(asked)).spawned && mainCmd == old(mainCmd)[1..]
      ensures old(mainCmd == [] || world(asked).spawned.None?) ==> mainPid == old(mainPid)
    {
      var cmd := MainPop();
      if cmd.Some? {
        var r := Ask();
        timerArmed := r.armed;
        if r.spawned.Some? { mainPid := r.spawned; }
      }
    }

    /** The next command of the queue runs in the same state, or its failure leads where it has to. */
    ghost predicate Continued(cmd: Cmd, kind: Option<Command>, p: Past)
      reads this
    {
      if world(p.n).spawned.Some? then
        && state == p.state && result == p.res && controlPid == world(p.n).spawned && running == Some(cmd)
        && controlCmd == p.queue && controlType == kind
      else Reached(FailureLeads(cfg, world, Asked(p))) && (p.state.Reloading? ==> reloadResult == Resources)
    }

    /** The next command is what comes next in the queue, whatever the state. It belongs to the state if
        and only if the queue is one of the state's own list. */
    method RunNextControl()
      requires Queues() && controlCmd != []
      modifies this
      ensures Queues() && (old(Expected()) && KeepsControl(old(state)) ==> Expected())
      ensures Continued(old(controlCmd)[0], old(controlType), old(Now()).(queue := old(controlCmd)[1..]))
      ensures old(controlType).Some? && old(controlCmd)[0] in CmdsOf(cfg, old(controlType).value)
      ensures old(IsStopping(state) && forbidRestart) ==> GoingDown() && ups == old(ups)
    {
      var cmd := ControlPop();
      RunPopped(cmd.value);
    }

    method RunPopped(cmd: Cmd)
      requires Queues()
      modifies this
      ensures Queues() && (old(Expected()) && KeepsControl(old(state)) ==> Expected())
      ensures Continued(cmd, old(controlType), old(Now()))
      ensures old(IsStopping(state) && forbidRestart) ==> GoingDown() && ups == old(ups)
    {
      ghost var p := Asked(Now());
      var ran := SpawnNext(cmd);
      assert Now() == p;
      if !ran { ControlFailed(); }
    }

    method SpawnNext(cmd: Cmd) returns (ran: bool)
      requires Queues()
      modifies this`asked, this`timerArmed, this`controlPid, this`running
      ensures Queues() && asked == old(asked) + 1 && (ran <==> world(old(asked)).spawned.Some?)
      ensures ran ==> controlPid == world(old(asked)).spawned && running == Some(cmd)
      ensures !ran ==> controlPid == old(controlPid)
    {
      var r := Ask();
      timerArmed := r.armed;
      ran := r.spawned.Some?;
      if ran {
        controlPid := r.spawned;
        running := Some(cmd);
      }
    }

    method ControlFailed()
      requires Queues()
      modifies this
      ensures Reached(FailureLeads(cfg, world, old(Now()))) && (old(state).Reloading? ==> reloadResult == Resources)
      ensures Queues() && Expected()
      ensures old(IsStopping(state) && forbidRestart) ==> GoingDown() && ups == old(ups)
    {
      if state.Reloading? { SkipReload(true); } else { GiveUp(); }
    }

    method GiveUp()
      requires Queues() && !state.Reloading?
      modifies this
      ensures Reached(FailureLeads(cfg, world, old(Now())))
      ensures Queues() && Expected()
      ensures old(forbidRestart) ==> GoingDown() && ups == old(ups)
    {
      if state.Condition? || state.StartPre? || state.StartPost? || state.Stopping? {
        Signal(StopSigterm, Resources);
      } else if state.StopPost? {
        Die(Resources);
      } else {
        Stop(Resources);
      }
    }

    /** The main process is gone; true if that happened in a state where nobody expects it. */
    method MainGone(res: Result) returns (surprise: bool)
      requires Queues()
      modifies this
      ensures Reached(MainLeads(cfg, world, old(Now()), old(controlPid), res))
      ensures Queues() && (old(Expected()) ==> Expected())
      ensures surprise <==> !KeepsMain(old(state))
      ensures old(IsStopping(state) && forbidRestart) ==> GoingDown() && ups == old(ups)
    {
      surprise := false;
      mainCmd := [];
      if IsStopping(state) {
        MainGoneDown(res);
      } else if KeepsMain(state) {
        MainGoneUp(res);
      } else {
        surprise := true;
      }
    }

    method MainGoneUp(res: Result)
      requires Queues() && KeepsMain(state) && !IsStopping(state)
      modifies this
      ensures Reached(MainLeads(cfg, world, old(Now()), old(controlPid), res))
      ensures Queues() && (old(Expected()) ==> Expected())
    {
      match state
      case Starting => MainGoneEarly(res);
      case Running => EnterRunning(res);
      case StartPost | Reloading =>
        if controlPid.None? { Stop(res); }
    }

    method MainGoneEarly(res: Result)
      requires Queues() && state.Starting?
      modifies this
      ensures Reached(MainLeads(cfg, world, old(Now()), old(controlPid), res))
      ensures Queues() && Expected()
    {
      if cfg.kind.Oneshot? {
        if res.Success? { EnterStartPost(); } else { Signal(StopSigterm, res); }
      } else if cfg.kind.Notifying? {
        Signal(StopSigterm, if res.Success? then Protocol else res);
      } else {
        EnterRunning(res);
      }
    }

    method MainGoneDown(res: Result)
      requires Queues() && IsStopping(state)
      modifies this
      ensures Reached(MainLeads(cfg, world, old(Now()), old(controlPid), res))
      ensures Queues() && (old(Expected()) ==> Expected())
      ensures old(forbidRestart) ==> GoingDown() && ups == old(ups)
    {
      if controlPid.Some? { return; }
      if state.Stopping? { Stop(res); } else { GoDown(res); }
    }

    method GoDown(res: Result)
      requires Queues() && IsStopping(state) && !state.Stopping?
      modifies this
      ensures Reached(DownLeads(cfg, world, old(Now()), res))
      ensures Queues() && Expected()
      ensures old(forbidRestart) ==> GoingDown() && ups == old(ups)
    {
      match state
      case StopWatchdog | StopSigkill | StopSigterm => PostStop(res);
      case StopPost => Signal(FinalSigterm, res);
      case FinalSigterm | FinalSigkill | FinalWatchdog => Die(res);
    }

    method GuessMain()
      modifies this`mainPid, this`asked
      ensures Now() == Guessed(world, old(Now()))
    {
      if mainPid.None? {
        var r := Ask();
        mainPid := r.guess;
      }
    }

    method ForkDone(res: Result)
      requires Queues() && state.Starting? && controlPid.None?
      modifies this
      ensures !cfg.kind.Forking? ==> Reached(Remains(old(Now())))
      ensures cfg.kind.Forking? && res.Success? ==> Reached(Leads(cfg, world, Posting, Guessed(world, old(Now()))))
      ensures cfg.kind.Forking? && !res.Success? ==> Reached(Leads(cfg, world, Signalling(StopSigterm), With(old(Now()), res)))
      ensures Queues() && (old(Expected()) ==> Expected())
    {
      if !cfg.kind.Forking? { return; }
      if !res.Success? {
        Signal(StopSigterm, res);
        return;
      }
      GuessMain();
      EnterStartPost();
    }

    /** After a failure the service is terminated, and once more on the way to the running state. */
    method PostDone(res: Result)
      requires Queues()
      modifies this
      ensures res.Success? ==> Reached(Leads(cfg, world, Rising, Guessed(world, old(Now()))))
      ensures !res.Success? ==> Reached(LeftDown(Merge(old(result), res)))
      ensures Queues() && Expected()
    {
      if res.Success? {
        GuessMain();
        EnterRunning(Success);
      } else {
        PostFailed(res);
      }
    }

    method PostFailed(res: Result)
      requires Queues() && !res.Success?
      modifies this
      ensures Reached(LeftDown(Merge(old(result), res))) && Queues() && Expected()
    {
      SignalFailure(res);
      GuessMain();
      StayDown();
    }

    method SignalFailure(res: Result)
      requires Queues() && !res.Success?
      modifies this
      ensures Reached(LeftDown(Merge(old(result), res))) && Queues() && Expected()
    {
      FatesDown(cfg, world, StopSigterm, With(Now(), res));
      Signal(StopSigterm, res);
    }

    method StayDown()
      requires Queues() && !result.Success?
      modifies this
      ensures Reached(LeftDown(old(result))) && Queues() && Expected()
    {
      FatesDown(cfg, world, StopSigterm, Now());
      EnterRunning(Success);
    }

    method ControlGone(res: Result) returns (surprise: bool)
      requires Queues() && controlPid.None?
      modifies this
      ensures Reached(ControlLeads(cfg, world, old(Now()).(queue := []), res)) && (old(state).Reloading? ==> reloadResult == res)
      ensures Queues() && (old(Expected()) ==> Expected() || CanOrphan())
      ensures IsStopping(old(state)) && old(Expected()) ==> Expected()
      ensures surprise <==> !HandlesControl(old(state))
      ensures old(IsStopping(state) && forbidRestart) ==> GoingDown() && ups == old(ups)
    {
      surprise := false;
      controlCmd := [];
      controlType := None;
      if IsStopping(state) {
        ControlGoneDown(res);
      } else if HandlesControl(state) {
        ControlGoneUp(res);
      } else {
        surprise := true;
      }
    }

    method ControlGoneUp(res: Result)
      requires Queues() && HandlesControl(state) && !IsStopping(state) && controlPid.None? && controlCmd == []
      modifies this
      ensures Reached(ControlLeads(cfg, world, old(Now()), res)) && (old(state).Reloading? ==> reloadResult == res)
      ensures Queues() && (old(Expected()) ==> Expected() || CanOrphan())
    {
      match state
      case Condition =>
        if res.Success? { EnterPrestart(); } else { Signal(StopSigterm, res); }
      case StartPre =>
        if res.Success? { EnterStart(); } else { Signal(StopSigterm, res); }
      case Starting => ForkDone(res);
      case StartPost => PostDone(res);
      case Reloading =>
        reloadResult := res;
        EnterRunning(res);
    }

    method ControlGoneDown(res: Result)
      requires Queues() && IsStopping(state) && controlPid.None? && controlCmd == []
      modifies this
      ensures Reached(ControlLeads(cfg, world, old(Now()), res))
      ensures Queues() && (old(Expected()) ==> Expected())
      ensures old(forbidRestart) ==> GoingDown() && ups == old(ups)
    {
      if state.Stopping? {
        Signal(StopSigterm, res);
      } else if mainPid.None? {
        GoDown(res);
      }
    }

    /** The end of a main process hands over to its next command only in a oneshot service. */
    predicate RunsOn(res: Result)
      reads this
    {
      mainCmd != [] && res.Success? && cfg.kind.Oneshot?
    }

    method MainExited(e: Exit, was: Result) returns (surprise: bool)
      requires Queues()
      modifies this
      ensures Queues() && (old(Expected()) && KeepsMain(old(state)) ==> Expected())
      ensures old(IsStopping(state) && forbidRestart) ==> GoingDown() && ups == old(ups)
      ensures surprise <==> !KeepsMain(old(state)) && !old(RunsOn(if current.ignoreFailure then Success else was))
      ensures !old(RunsOn(if current.ignoreFailure then Success else was)) ==>
                Reached(MainLeads(cfg, world, MainEnded(old(Now()), e, old(current).ignoreFailure, was), old(controlPid),
                                  if old(current).ignoreFailure then Success else was))
      ensures old(RunsOn(if current.ignoreFailure then Success else was)) ==>
                state == old(state) && mainPid == world(old(asked)).spawned
    {
      mainPid := None;
      lastExit := e;
      result := if current.ignoreFailure then Success else Merge(result, was);
      surprise := MainNext(if current.ignoreFailure then Success else was);
    }

    method MainNext(res: Result) returns (surprise: bool)
      requires Queues() && mainPid.None?
      modifies this
      ensures Queues() && (old(Expected()) && KeepsMain(old(state)) ==> Expected())
      ensures old(IsStopping(state) && forbidRestart) ==> GoingDown() && ups == old(ups)
      ensures surprise <==> !KeepsMain(old(state)) && !old(RunsOn(res))
      ensures !old(RunsOn(res)) ==> Reached(MainLeads(cfg, world, old(Now()), old(controlPid), res))
      ensures old(RunsOn(res)) ==> state == old(state) && mainPid == world(old(asked)).spawned
    {
      if RunsOn(res) {
        RunNextMain();
        surprise := false;
      } else {
        surprise := MainGone(res);
      }
    }

    method ControlExited(res: Result) returns (surprise: bool)
      requires Queues()
      modifies this
      ensures Queues() && (old(Expected()) && KeepsControl(old(state)) ==> Expected() || CanOrphan())
      ensures IsStopping(old(state)) && old(Expected()) ==> Expected()
      ensures old(IsStopping(state) && forbidRestart) ==> GoingDown() && ups == old(ups)
      ensures surprise <==> !HandlesControl(old(state)) && !(old(controlCmd) != [] && res.Success?)
      ensures !(old(controlCmd) != [] && res.Success?) ==>
                && Reached(ControlLeads(cfg, world, old(Now()).(queue := []), res))
                && (old(state).Reloading? ==> reloadResult == res)
      ensures old(controlCmd) != [] && res.Success? ==>
                Continued(old(controlCmd)[0], old(controlType), old(Now()).(queue := old(controlCmd)[1..]))
    {
      controlPid := None;
      if controlCmd != [] && res.Success? {
        RunNextControl();
        surprise := false;
      } else {
        surprise := ControlGone(res);
      }
    }

    /** A child's end is a surprise exactly when its process is not expected in the state and no further
        command of its queue is due. */
    method ChildExited(pid: nat, e: Exit) returns (surprise: bool)
      requires Queues()
      modifies this
      ensures Queues() && (old(Expected()) ==> Expected() || CanOrphan())
      ensures IsStopping(old(state)) && old(Expected()) ==> Expected()
      ensures old(Expected()) && surprise ==> old(state).Cleaning?
      ensures old(IsStopping(state) && forbidRestart) ==> GoingDown() && ups == old(ups)
      ensures old(mainPid) != Some(pid) && old(controlPid) != Some(pid) ==> !surprise && state == old(state)
      ensures old(mainPid) == Some(pid) ==>
                (surprise <==> !KeepsMain(old(state)) && !old(RunsOn(if current.ignoreFailure then Success else ExitResult(pid, e))))
      ensures old(mainPid) != Some(pid) && old(controlPid) == Some(pid) ==>
                (surprise <==> !HandlesControl(old(state)) && !old(controlCmd != [] && ExitResult(pid, e).Success?))
      ensures old(mainPid) == Some(pid) && !old(RunsOn(if current.ignoreFailure then Success else ExitResult(pid, e))) ==>
                Reached(MainLeads(cfg, world, MainEnded(old(Now()), e, old(current).ignoreFailure, old(ExitResult(pid, e))), old(controlPid),
                                  if old(current).ignoreFailure then Success else old(ExitResult(pid, e))))
      ensures old(mainPid) != Some(pid) && old(controlPid) == Some(pid) && !old(controlCmd != [] && ExitResult(pid, e).Success?) ==>
                && Reached(ControlLeads(cfg, world, old(Now()).(queue := []), old(ExitResult(pid, e))))
                && (old(state).Reloading? ==> reloadResult == old(ExitResult(pid, e)))
      ensures old(mainPid) != Some(pid) && old(controlPid) == Some(pid) && old(controlCmd != [] && ExitResult(pid, e).Success?) ==>
                Continued(old(controlCmd)[0], old(controlType), old(Now()).(queue := old(controlCmd)[1..]))
    {
      var res := ExitResult(pid, e);
      if mainPid == Some(pid) {
        surprise := MainExited(e, res);
      } else if controlPid == Some(pid) {
        surprise := ControlExited(res);
      } else {
        surprise := false;
      }
    }

    /** The timer that is set elapses: a surprise exactly in states that expect no timer. */
    method TimerElapsed() returns (surprise: bool)
      requires Queues() && timerArmed
      modifies this
      ensures Reached(TimerLeads(cfg, world, old(Now()))) && (old(state).Reloading? ==> reloadResult == Timeout)
      ensures Queues() && (old(Expected()) ==> Expected())
      ensures surprise <==> !KeepsTimer(old(state))
      ensures old(state).StartPre? && !world(old(asked)).killFails && world(old(asked)).killed && world(old(asked) + 1).timerOk ==>
                && state == StopSigterm && mainPid == old(mainPid) && controlPid == old(controlPid)
                && controlCmd == old(controlCmd) && controlType == old(controlType)
      ensures old(IsStopping(state) && forbidRestart) ==> GoingDown() && ups == old(ups)
    {
      surprise := false;
      timerArmed := false;
      if IsStopping(state) {
        TimeoutDown();
      } else if IsStarting(state) {
        Signal(StopSigterm, Timeout);
      } else if KeepsTimer(state) {
        TimeoutUp();
      } else {
        surprise := true;
      }
    }

    method TimeoutDown()
      requires Queues() && IsStopping(state)
      modifies this
      ensures Reached(TimerLeads(cfg, world, old(Now())))
      ensures Queues() && Expected()
      ensures old(forbidRestart) ==> GoingDown() && ups == old(ups)
    {
      if state.FinalWatchdog? || state.FinalSigterm? {
        EnterDead(Timeout, false);
      } else if state.Stopping? {
        Signal(StopSigterm, Timeout);
      } else {
        GoDown(Timeout);
      }
    }

    method TimeoutUp()
      requires Queues() && KeepsTimer(state) && !IsStopping(state) && !IsStarting(state)
      modifies this
      ensures Reached(TimerLeads(cfg, world, old(Now()))) && (old(state).Reloading? ==> reloadResult == Timeout)
      ensures Queues() && (old(Expected()) ==> Expected())
    {
      match state
      case Running => Stop(Timeout);
      case Reloading =>
        reloadResult := Timeout;
        EnterRunning(Success);
      case AutoRestart => RestartDue();
      case Cleaning => Signal(FinalSigkill, Timeout);
    }

    method RestartDue()
      requires Queues()
      modifies this
      ensures Queues() && (old(Expected()) ==> Expected())
      ensures old(world(asked).stopJob || world(asked + 1).restarted) ==> state == old(state) && result == old(result)
      ensures old(!world(asked).stopJob && !world(asked + 1).restarted) ==>
                result == Merge(old(result), Resources) && state == EndState(result) && !forbidRestart
    {
      var r := Ask();
      if r.stopJob { return; }
      r := Ask();
      if !r.restarted { EnterDead(Resources, false); }
    }

    method ForceWatchdog()
      requires Queues()
      modifies this
      ensures Queues() && Expected() && watchdogArmed == old(watchdogArmed)
      ensures old(forbidRestart) ==> GoingDown() && ups == old(ups)
      ensures AfterWatchdog(old(result), old(forbidRestart), old(lastExit), old(asked))
      ensures Follows(FateOf(cfg, world, StopWatchdog, Merge(old(result), Watchdog), old(asked), old(controlCmd)), old(forbidRestart), old(lastExit))
    {
      WatchdogFate(cfg, world, result, asked, controlCmd, forbidRestart, lastExit);
      EnterSignal(StopWatchdog, Watchdog);
    }

    /** The watchdog that is set acts in whatever state the service is, also when it has ended. */
    method WatchdogElapsed()
      requires Queues() && watchdogArmed
      modifies this
      ensures Queues() && Expected() && !watchdogArmed
      ensures old(forbidRestart) ==> GoingDown() && ups == old(ups)
      ensures AfterWatchdog(old(result), old(forbidRestart), old(lastExit), old(asked))
      ensures Follows(FateOf(cfg, world, StopWatchdog, Merge(old(result), Watchdog), old(asked), old(controlCmd)), old(forbidRestart), old(lastExit))
    {
      watchdogArmed := false;
      ForceWatchdog();
    }

    /** A main process that the service names is taken if it is neither the one that is known nor the control
        process, and the environment confirms that it belongs to the service. */
    method NameMain(pid: nat)
      modifies this`asked, this`mainPid
      ensures mainPid == if NamesMain(state) && controlPid != Some(pid) && world(old(asked)).ours then Some(pid) else old(mainPid)
    {
      if NamesMain(state) && mainPid != Some(pid) && controlPid != Some(pid) {
        var r := Ask();
        if r.ours { mainPid := Some(pid); }
      }
    }

    method Notified(m: Message)
      requires Queues()
      modifies this
      ensures Queues() && (old(Expected()) ==> Expected())
      ensures old(IsStopping(state) && forbidRestart) ==> GoingDown() && ups == old(ups)
      ensures m.WatchdogTrigger? ==> AfterWatchdog(old(result), old(forbidRestart), old(lastExit), old(asked))
      ensures m.WatchdogPing? ==> watchdogArmed == cfg.watchdog && state == old(state)
      ensures m.StoppingNow? ==> toldStopping && state == if old(state).Running? then StopSigterm else old(state)
      ensures m.MainPidIs? ==>
                && state == old(state) && controlPid == old(controlPid)
                && mainPid == if NamesMain(old(state)) && old(controlPid) != Some(m.pid) && world(old(asked)).ours then Some(m.pid) else old(mainPid)
      ensures m.ReadyNow? && !(cfg.kind.Notifying? && old(state).Starting?) ==> !toldStopping && state == old(state)
    {
      match m
      case ReadyNow =>
        toldStopping := false;
        if cfg.kind.Notifying? && state.Starting? { EnterStartPost(); }
      case StoppingNow =>
        toldStopping := true;
        if state.Running? { EnterStopByNotify(); }
      case WatchdogPing => RestartWatchdog();
      case WatchdogTrigger => ForceWatchdog();
      case MainPidIs(pid) => NameMain(pid);
    }

    /** Can this happen now? A timer or watchdog that is not set does not elapse. */
    predicate Possible(h: Happening)
      reads this
    {
      (h.TimerElapses? ==> timerArmed) && (h.WatchdogElapses? ==> watchdogArmed)
    }

    /** What leaves an ended service, when nothing unexpected is around: a request, a watchdog that is
        still set, or a message that triggers it. */
    predicate Rouses(h: Happening) {
      h.StartRequest? || h.StopRequest? || h.ReloadRequest? || h.WatchdogElapses? || h == Notifies(WatchdogTrigger)
    }

    method Handle(h: Happening) returns (surprise: bool)
      requires Queues() && Possible(h)
      modifies this
      ensures Queues() && (old(Expected()) ==> Expected() || CanOrphan())
      ensures old(Expected()) && surprise ==> old(state).Cleaning?
      ensures IsEnded(old(state)) && old(Expected()) && !Rouses(h) ==> state == old(state)
      ensures h.WatchdogElapses? || h == Notifies(WatchdogTrigger) ==>
                AfterWatchdog(old(result), old(forbidRestart), old(lastExit), old(asked))
      ensures h.StopRequest? && IsEnded(old(state)) ==> Follows(FateStop(cfg, world, old(result), old(asked), old(controlCmd)), true, old(lastExit))
      ensures !h.ReloadRequest? && IsStopping(old(state)) && old(Expected()) ==> Expected() && !surprise
      ensures !h.ReloadRequest? && old(IsStopping(state) && forbidRestart) ==> GoingDown() && ups == old(ups)
    {
      surprise := false;
      match h
      case ChildExit(pid, e) => surprise := ChildExited(pid, e);
      case TimerElapses => surprise := TimerElapsed();
      case WatchdogElapses => WatchdogElapsed();
      case Notifies(m) => Notified(m);
      case StartRequest => var _ := StartRequested();
      case StopRequest => StopRequested();
      case ReloadRequest => ReloadRequested();
    }

    /** Once a stop was requested, whatever else than a reload happens, in whatever order, the service is
        on its way down and never about to restart until it has ended. `n` happenings were seen till
        then. */
    method StopAndHandle(hs: seq<Happening>) returns (n: nat)
      requires Queues() && forall h :: h in hs ==> !h.ReloadRequest?
      modifies this
      ensures Queues() && n <= |hs| && (old(Expected()) ==> Expected())
      ensures GoingDown() && ups == old(ups)
      ensures n == |hs| || IsEnded(state)
    {
      StopRequested();
      n := 0;
      while n < |hs| && !IsEnded(state)
        invariant n <= |hs| && Queues() && (old(Expected()) ==> Expected()) && GoingDown() && ups == old(ups)
      {
        if Possible(hs[n]) {
          var _ := Handle(hs[n]);
        }
        n := n + 1;
      }
    }
  }

  /** A new manager with the same configuration gets both queues back from their lengths. */
  method SaveAndRestore(s: ServiceMng, w: World) returns (t: ServiceMng)
    requires s.Queues()
    ensures fresh(t) && t.Queues()
    ensures t.mainCmd == s.mainCmd && t.controlType == s.controlType && t.controlCmd == s.controlCmd
  {
    var d := s.Save();
    t := new ServiceMng(s.cfg, w);
    t.MainUpdate(d.main);
    t.ControlUpdate(d.kind, d.control);
    LengthIsEnough(s.mainCmd, CmdsOf(s.cfg, CmdStart));
    if s.controlType.Some? { LengthIsEnough(s.controlCmd, CmdsOf(s.cfg, s.controlType.value)); }
  }
}
