/** Transactions: a request is expanded through the unit dependencies, checked against the pending
    jobs and then merged as a whole or not at all. */
module Transactions {
  import opened Jobs
  import opened JobUnits
  import opened JobTables
  import opened JobStepLaws
  import opened JobRuns
  import opened JobTableExact

  datatype Pull =
    | PullInStart | PullInStartIgnored | PullInVerify | PullInStop | PullInStopIgnored
    | PropagateStop | PropagateRestart | PropagatesReloadTo | TriggeredBy

  datatype Check = Pass | BadRequest | InputError

  /** What the transaction reads of the units: all units and their dependencies in the order they are
      visited, activity and load state. */
  datatype Env = Env(
    units: set<Unit>,
    all: seq<Unit>,
    deps: (Unit, Pull) -> seq<Unit>,
    active: set<Unit>,
    loaded: set<Unit>,
    valid: Unit -> Check,
    perpetual: set<Unit>)

  ghost predicate EnvOk(env: Env) {
    && (forall u, p, v :: v in env.deps(u, p) ==> v in env.units)
    && (forall u :: u in env.all <==> u in env.units)
  }

  datatype Conf = Conf(unit: Unit, kind: Kind)

  function CheckInput(env: Env, c: Conf): Check {
    if c.unit !in env.loaded then InputError
    else if !c.kind.Stop? then env.valid(c.unit)
    else if c.unit in env.perpetual then InputError
    else Pass
  }

  function Mapped(env: Env, c: Conf): Conf {
    Conf(c.unit, MergeUnit(c.kind, c.unit in env.active))
  }

  /** A dependency to follow; `strict` edges pass on every error but a bad request. */
  datatype Edge = Edge(target: Conf, strict: bool)

  function EdgesOf(us: seq<Unit>, k: Kind, strict: bool): (es: seq<Edge>)
    ensures |es| == |us| && forall i :: 0 <= i < |us| ==> es[i] == Edge(Conf(us[i], k), strict)
  {
    seq(|us|, i requires 0 <= i < |us| => Edge(Conf(us[i], k), strict))
  }

  function StartEdges(env: Env, u: Unit): seq<Edge> {
    EdgesOf(env.deps(u, PullInStart), Start, true)
    + EdgesOf(env.deps(u, PullInStartIgnored), Start, false)
    + EdgesOf(env.deps(u, PullInVerify), Verify, true)
    + EdgesOf(env.deps(u, PullInStop), Stop, true)
    + EdgesOf(env.deps(u, PullInStopIgnored), Stop, false)
  }

  function Edges(env: Env, c: Conf): seq<Edge> {
    match c.kind
    case Start => StartEdges(env, c.unit)
    case Stop => EdgesOf(env.deps(c.unit, PropagateStop), Stop, true)
    case Reload => EdgesOf(env.deps(c.unit, PropagatesReloadTo), TryReload, false)
    case Restart => StartEdges(env, c.unit) + EdgesOf(env.deps(c.unit, PropagateRestart), TryRestart, true)
    case _ => []
  }

  predicate Expands(mode: Mode) {
    !mode.IgnoreDependencies? && !mode.IgnoreRequirements?
  }

  // ---------------------------------------------------------------- expansion

  ghost function AllConfs(env: Env): set<Conf> {
    set u, k | u in env.units && k in {Start, Stop, Reload, Restart, Verify, Nop} :: Conf(u, k)
  }

  ghost predicate TargetsKnown(env: Env, es: seq<Edge>) {
    forall e :: e in es ==> e.target.unit in env.units
  }

  lemma EdgesKnown(env: Env, c: Conf)
    requires EnvOk(env)
    ensures TargetsKnown(env, Edges(env, c))
  {
  }

  lemma StagingShrinks(env: Env, staged: set<Conf>, c: Conf)
    requires c.unit in env.units && IsBasic(c.kind) && c !in staged
    ensures |AllConfs(env) - (staged + {c})| < |AllConfs(env) - staged|
  {
    assert c in AllConfs(env) - staged;
    assert AllConfs(env) - (staged + {c}) < AllConfs(env) - staged;
    SmallerSet(AllConfs(env) - (staged + {c}), AllConfs(env) - staged);
  }

  lemma SmallerSet<T>(a: set<T>, b: set<T>)
    ensures a < b ==> |a| < |b|
    ensures a <= b ==> |a| <= |b|
  {
    if a <= b { assert b == a + (b - a); }
  }

  /** Stage the request and everything it pulls in. A job that is already staged is not expanded
      again, so expansion ends on cyclic dependencies too. */
  function Expand(env: Env, staged: set<Conf>, c: Conf, mode: Mode): (r: (set<Conf>, Check))
    requires EnvOk(env) && c.unit in env.units
    ensures staged <= r.0
    ensures CheckInput(env, c).Pass? ==> Mapped(env, c) in r.0
    ensures r.1.Pass? ==> CheckInput(env, c).Pass?
    ensures r.1.BadRequest? <==> CheckInput(env, c).BadRequest?
    decreases |AllConfs(env) - staged|, 0
  {
    if !CheckInput(env, c).Pass? then (staged, CheckInput(env, c))
    else
      var m := Mapped(env, c);
      if m in staged || m.kind.Nop? || !Expands(mode) then (staged + {m}, Pass)
      else
        StagingShrinks(env, staged, m);
        EdgesKnown(env, m);
        ExpandEdges(env, staged + {m}, Edges(env, m), mode)
  }

  function ExpandEdges(env: Env, staged: set<Conf>, es: seq<Edge>, mode: Mode): (r: (set<Conf>, Check))
    requires EnvOk(env) && TargetsKnown(env, es)
    ensures staged <= r.0 && !r.1.BadRequest?
    decreases |AllConfs(env) - staged|, 1 + |es|
  {
    if es == [] then (staged, Pass)
    else
      var (s1, r1) := Expand(env, staged, es[0].target, mode);
      if r1.InputError? && es[0].strict then (s1, r1)
      else
        SmallerSet(AllConfs(env) - s1, AllConfs(env) - staged);
        ExpandEdges(env, s1, es[1..], mode)
  }

  // ---------------------------------------------------------------- what expansion computes

  /** A staged job pulls in the jobs its edges lead to, where the target may be acted on. */
  ghost predicate Pulls(env: Env, mode: Mode, a: Conf, b: Conf) {
    && Expands(mode)
    && exists e :: e in Edges(env, a) && CheckInput(env, e.target).Pass? && Mapped(env, e.target) == b
  }

  ghost predicate Closed(env: Env, mode: Mode, s: set<Conf>) {
    forall a, b :: a in s && Pulls(env, mode, a, b) ==> b in s
  }

  /** No dependency of the job must be followed strictly to a unit that cannot be acted on. */
  ghost predicate NoHardError(env: Env, a: Conf) {
    forall e :: e in Edges(env, a) && e.strict ==> !CheckInput(env, e.target).InputError?
  }

  /** Only what is reachable is staged: nothing outside any closed set around the request. */
  lemma {:induction false} ExpandWithin(env: Env, staged: set<Conf>, c: Conf, mode: Mode, s: set<Conf>)
    requires EnvOk(env) && c.unit in env.units && Closed(env, mode, s)
    requires CheckInput(env, c).Pass? ==> Mapped(env, c) in s
    ensures Expand(env, staged, c, mode).0 <= staged + s
    decreases |AllConfs(env) - staged|, 0
  {
    var m := Mapped(env, c);
    if CheckInput(env, c).Pass? && m !in staged && !m.kind.Nop? && Expands(mode) {
      StagingShrinks(env, staged, m);
      EdgesKnown(env, m);
      forall e | e in Edges(env, m) && CheckInput(env, e.target).Pass?
        ensures Mapped(env, e.target) in s
      {
        assert Pulls(env, mode, m, Mapped(env, e.target));
      }
      ExpandEdgesWithin(env, staged + {m}, Edges(env, m), mode, s);
    }
  }

  lemma {:induction false} ExpandEdgesWithin(env: Env, staged: set<Conf>, es: seq<Edge>, mode: Mode, s: set<Conf>)
    requires EnvOk(env) && TargetsKnown(env, es) && Closed(env, mode, s)
    requires forall e :: e in es && CheckInput(env, e.target).Pass? ==> Mapped(env, e.target) in s
    ensures ExpandEdges(env, staged, es, mode).0 <= staged + s
    decreases |AllConfs(env) - staged|, 1 + |es|
  {
    if es != [] {
      ExpandWithin(env, staged, es[0].target, mode, s);
      var (s1, r1) := Expand(env, staged, es[0].target, mode);
      if !(r1.InputError? && es[0].strict) {
        SmallerSet(AllConfs(env) - s1, AllConfs(env) - staged);
        ExpandEdgesWithin(env, s1, es[1..], mode, s);
      }
    }
  }

  /** The jobs staged on the way have everything they pull in staged too. */
  ghost predicate Complete(env: Env, mode: Mode, staged: set<Conf>, result: set<Conf>) {
    forall a, b :: a in result && a !in staged && Pulls(env, mode, a, b) ==> b in result
  }

  lemma {:induction false} ExpandComplete(env: Env, staged: set<Conf>, c: Conf, mode: Mode, s: set<Conf>)
    requires EnvOk(env) && c.unit in env.units && Closed(env, mode, s)
    requires forall a :: a in s ==> NoHardError(env, a)
    requires CheckInput(env, c).Pass? ==> Mapped(env, c) in s
    ensures Expand(env, staged, c, mode).1 == CheckInput(env, c)
    ensures CheckInput(env, c).Pass? ==> Mapped(env, c) in Expand(env, staged, c, mode).0
    ensures Complete(env, mode, staged, Expand(env, staged, c, mode).0)
    decreases |AllConfs(env) - staged|, 0
  {
    var m := Mapped(env, c);
    if CheckInput(env, c).Pass? && m !in staged && !m.kind.Nop? && Expands(mode) {
      StagingShrinks(env, staged, m);
      EdgesKnown(env, m);
      forall e | e in Edges(env, m) && CheckInput(env, e.target).Pass?
        ensures Mapped(env, e.target) in s
      {
        assert Pulls(env, mode, m, Mapped(env, e.target));
      }
      ExpandEdgesComplete(env, staged + {m}, Edges(env, m), mode, s);
    }
  }

  lemma {:induction false} ExpandEdgesComplete(env: Env, staged: set<Conf>, es: seq<Edge>, mode: Mode, s: set<Conf>)
    requires EnvOk(env) && TargetsKnown(env, es) && Closed(env, mode, s)
    requires forall a :: a in s ==> NoHardError(env, a)
    requires forall e :: e in es && CheckInput(env, e.target).Pass? ==> Mapped(env, e.target) in s
    requires forall e :: e in es && e.strict ==> !CheckInput(env, e.target).InputError?
    ensures ExpandEdges(env, staged, es, mode).1.Pass?
    ensures forall e :: e in es && CheckInput(env, e.target).Pass? ==> Mapped(env, e.target) in ExpandEdges(env, staged, es, mode).0
    ensures Complete(env, mode, staged, ExpandEdges(env, staged, es, mode).0)
    decreases |AllConfs(env) - staged|, 1 + |es|
  {
    if es != [] {
      ExpandComplete(env, staged, es[0].target, mode, s);
      var (s1, r1) := Expand(env, staged, es[0].target, mode);
      SmallerSet(AllConfs(env) - s1, AllConfs(env) - staged);
      ExpandEdgesComplete(env, s1, es[1..], mode, s);
    }
  }

  /** Expanding a request from scratch stages the least set of jobs that holds the request and is
      closed under what its members pull in, provided no strict dependency in it fails. */
  lemma ExpansionIsLeastClosure(env: Env, c: Conf, mode: Mode, s: set<Conf>)
    requires EnvOk(env) && c.unit in env.units && CheckInput(env, c).Pass?
    requires Closed(env, mode, s) && Mapped(env, c) in s && forall a :: a in s ==> NoHardError(env, a)
    ensures var (r, check) := Expand(env, {}, c, mode);
            && check.Pass? && Mapped(env, c) in r && Closed(env, mode, r)
            && forall z :: Closed(env, mode, z) && Mapped(env, c) in z ==> r <= z
  {
    ExpandComplete(env, {}, c, mode, s);
    forall z | Closed(env, mode, z) && Mapped(env, c) in z
      ensures Expand(env, {}, c, mode).0 <= z
    {
      ExpandWithin(env, {}, c, mode, z);
    }
  }

  // ---------------------------------------------------------------- what is staged is known

  predicate Known(env: Env, r: set<Conf>) {
    forall x :: x in r ==> IsBasic(x.kind) && x.unit in env.units && x.unit in env.loaded
  }

  lemma {:induction false} ExpandKnown(env: Env, staged: set<Conf>, c: Conf, mode: Mode)
    requires EnvOk(env) && c.unit in env.units && Known(env, staged)
    ensures Known(env, Expand(env, staged, c, mode).0)
    decreases |AllConfs(env) - staged|, 0
  {
    var m := Mapped(env, c);
    if CheckInput(env, c).Pass? && m !in staged && !m.kind.Nop? && Expands(mode) {
      StagingShrinks(env, staged, m);
      EdgesKnown(env, m);
      ExpandEdgesKnown(env, staged + {m}, Edges(env, m), mode);
    }
  }

  lemma {:induction false} ExpandEdgesKnown(env: Env, staged: set<Conf>, es: seq<Edge>, mode: Mode)
    requires EnvOk(env) && TargetsKnown(env, es) && Known(env, staged)
    ensures Known(env, ExpandEdges(env, staged, es, mode).0)
    decreases |AllConfs(env) - staged|, 1 + |es|
  {
    if es != [] {
      ExpandKnown(env, staged, es[0].target, mode);
      var (s1, r1) := Expand(env, staged, es[0].target, mode);
      if !(r1.InputError? && es[0].strict) {
        SmallerSet(AllConfs(env) - s1, AllConfs(env) - staged);
        ExpandEdgesKnown(env, s1, es[1..], mode);
      }
    }
  }

  // ---------------------------------------------------------------- a stop pulls in stops only

  predicate AddsStops(staged: set<Conf>, r: set<Conf>) {
    forall x :: x in r && x !in staged ==> x.kind.Stop?
  }

  lemma {:induction false} StopAddsStops(env: Env, staged: set<Conf>, u: Unit, mode: Mode)
    requires EnvOk(env) && u in env.units
    ensures AddsStops(staged, Expand(env, staged, Conf(u, Stop), mode).0)
    decreases |AllConfs(env) - staged|, 0
  {
    var m := Conf(u, Stop);
    if CheckInput(env, m).Pass? && m !in staged && Expands(mode) {
      StagingShrinks(env, staged, m);
      EdgesKnown(env, m);
      StopEdgesAddStops(env, staged + {m}, Edges(env, m), mode);
    }
  }

  lemma {:induction false} StopEdgesAddStops(env: Env, staged: set<Conf>, es: seq<Edge>, mode: Mode)
    requires EnvOk(env) && TargetsKnown(env, es) && forall e :: e in es ==> e.target.kind.Stop?
    ensures AddsStops(staged, ExpandEdges(env, staged, es, mode).0)
    decreases |AllConfs(env) - staged|, 1 + |es|
  {
    if es != [] {
      StopAddsStops(env, staged, es[0].target.unit, mode);
      assert es[0].target == Conf(es[0].target.unit, Stop);
      var (s1, r1) := Expand(env, staged, es[0].target, mode);
      if !(r1.InputError? && es[0].strict) {
        SmallerSet(AllConfs(env) - s1, AllConfs(env) - staged);
        StopEdgesAddStops(env, s1, es[1..], mode);
      }
    }
  }

  // ---------------------------------------------------------------- isolating and triggering

  function UnitsOf(r: set<Conf>): set<Unit> {
    set c | c in r :: c.unit
  }

  /** Isolating visits all units. A unit that is exempt, or that nothing is staged for, is passed over; the
      others are to be stopped. */
  function IsolateAll(env: Env, staged: set<Conf>, us: seq<Unit>, ignored: set<Unit>): (r: set<Conf>)
    requires EnvOk(env) && forall u :: u in us ==> u in env.units
    ensures staged <= r
    decreases |us|
  {
    if us == [] then staged
    else if us[0] in ignored || us[0] !in UnitsOf(staged) then IsolateAll(env, staged, us[1..], ignored)
    else IsolateAll(env, Expand(env, staged, Conf(us[0], Stop), Isolate).0, us[1..], ignored)
  }

  function TriggerEdges(env: Env, u: Unit): seq<Edge> {
    EdgesOf(env.deps(u, TriggeredBy), Stop, false)
  }

  /** Triggering stops what triggers the unit, if something is staged for the unit itself. */
  function TriggerAll(env: Env, staged: set<Conf>, u: Unit): (r: set<Conf>)
    requires EnvOk(env)
    ensures staged <= r
  {
    if u !in UnitsOf(staged) then staged else ExpandEdges(env, staged, TriggerEdges(env, u), Trigger).0
  }

  predicate ModeFits(c: Conf, mode: Mode) {
    (mode.Isolate? ==> c.kind.Start?) && (mode.Trigger? ==> c.kind.Stop?)
  }

  /** All that is staged for a request: what it pulls in, and what its mode affects beyond that. */
  function Staged(env: Env, c: Conf, mode: Mode, ignored: set<Unit>): (r: (set<Conf>, Check))
    requires EnvOk(env) && c.unit in env.units
  {
    if !ModeFits(c, mode) then ({}, InputError)
    else
      var (r, check) := Expand(env, {}, c, mode);
      if !check.Pass? then (r, check)
      else if mode.Isolate? then (IsolateAll(env, r, env.all, ignored), Pass)
      else if mode.Trigger? then (TriggerAll(env, r, c.unit), Pass)
      else (r, Pass)
  }

  lemma {:induction false} IsolateAllKnown(env: Env, staged: set<Conf>, us: seq<Unit>, ignored: set<Unit>)
    requires EnvOk(env) && (forall u :: u in us ==> u in env.units) && Known(env, staged)
    ensures Known(env, IsolateAll(env, staged, us, ignored))
    ensures AddsStops(staged, IsolateAll(env, staged, us, ignored))
    decreases |us|
  {
    if us != [] {
      if us[0] in ignored || us[0] !in UnitsOf(staged) {
        IsolateAllKnown(env, staged, us[1..], ignored);
      } else {
        ExpandKnown(env, staged, Conf(us[0], Stop), Isolate);
        StopAddsStops(env, staged, us[0], Isolate);
        IsolateAllKnown(env, Expand(env, staged, Conf(us[0], Stop), Isolate).0, us[1..], ignored);
      }
    }
  }

  lemma StagedKnown(env: Env, c: Conf, mode: Mode, ignored: set<Unit>)
    requires EnvOk(env) && c.unit in env.units
    ensures Known(env, Staged(env, c, mode, ignored).0)
  {
    var r := Expand(env, {}, c, mode).0;
    ExpandKnown(env, {}, c, mode);
    if mode.Isolate? { IsolateAllKnown(env, r, env.all, ignored); }
    if mode.Trigger? { ExpandEdgesKnown(env, r, TriggerEdges(env, c.unit), mode); }
  }

  // ---------------------------------------------------------------- what isolating computes

  predicate Stoppable(env: Env, v: Unit) {
    v in env.loaded && v !in env.perpetual
  }

  lemma {:induction false} VisitedIsStopped(env: Env, staged: set<Conf>, us: seq<Unit>, ignored: set<Unit>, v: Unit)
    requires EnvOk(env) && forall u :: u in us ==> u in env.units
    requires v in us && v in UnitsOf(staged) && v !in ignored && Stoppable(env, v)
    ensures Conf(v, Stop) in IsolateAll(env, staged, us, ignored)
    decreases |us|
  {
    if us[0] in ignored || us[0] !in UnitsOf(staged) {
      VisitedIsStopped(env, staged, us[1..], ignored, v);
    } else if us[0] != v {
      var s1 := Expand(env, staged, Conf(us[0], Stop), Isolate).0;
      var x :| x in staged && x.unit == v;
      assert x in s1;
      VisitedIsStopped(env, s1, us[1..], ignored, v);
    }
  }

  /** Isolating is meant to stop the units that the request does not need. What it stops, of all the
      units that are not exempt and can be stopped, are exactly those that something is staged for. */
  lemma IsolationStopsStaged(env: Env, c: Conf, ignored: set<Unit>, v: Unit, r: set<Conf>)
    requires EnvOk(env) && c.unit in env.units && Staged(env, c, Isolate, ignored) == (r, Pass)
    requires v !in ignored && Stoppable(env, v)
    ensures Conf(v, Stop) in r <==> v in UnitsOf(r)
  {
    if Conf(v, Stop) in r { assert v in UnitsOf(r); }
    var r0 := Expand(env, {}, c, Isolate).0;
    ExpandKnown(env, {}, c, Isolate);
    IsolateAllKnown(env, r0, env.all, ignored);
    if v in UnitsOf(r) {
      var x :| x in r && x.unit == v;
      if x in r0 {
        VisitedIsStopped(env, r0, env.all, ignored, v);
      } else {
        assert x == Conf(v, Stop);
      }
    }
  }

  /** A set of jobs that isolating adds nothing to. */
  ghost predicate IsolateClosed(env: Env, ignored: set<Unit>, s: set<Conf>) {
    && Closed(env, Isolate, s)
    && forall x :: x in s && x.unit !in ignored && Stoppable(env, x.unit) ==> Conf(x.unit, Stop) in s
  }

  lemma {:induction false} IsolateAllWithin(env: Env, staged: set<Conf>, us: seq<Unit>, ignored: set<Unit>, s: set<Conf>)
    requires EnvOk(env) && (forall u :: u in us ==> u in env.units) && IsolateClosed(env, ignored, s) && staged <= s
    ensures IsolateAll(env, staged, us, ignored) <= s
    decreases |us|
  {
    if us != [] {
      if us[0] in ignored || us[0] !in UnitsOf(staged) {
        IsolateAllWithin(env, staged, us[1..], ignored, s);
      } else {
        var x :| x in staged && x.unit == us[0];
        assert x in s;
        ExpandWithin(env, staged, Conf(us[0], Stop), Isolate, s);
        IsolateAllWithin(env, Expand(env, staged, Conf(us[0], Stop), Isolate).0, us[1..], ignored, s);
      }
    }
  }

  lemma {:induction false} IsolateAllClosed(env: Env, staged: set<Conf>, us: seq<Unit>, ignored: set<Unit>, s: set<Conf>)
    requires EnvOk(env) && (forall u :: u in us ==> u in env.units) && IsolateClosed(env, ignored, s) && staged <= s
    requires (forall a :: a in s ==> NoHardError(env, a)) && Closed(env, Isolate, staged)
    ensures Closed(env, Isolate, IsolateAll(env, staged, us, ignored))
    decreases |us|
  {
    if us != [] {
      if us[0] in ignored || us[0] !in UnitsOf(staged) {
        IsolateAllClosed(env, staged, us[1..], ignored, s);
      } else {
        var x :| x in staged && x.unit == us[0];
        assert x in s;
        var s1 := Expand(env, staged, Conf(us[0], Stop), Isolate).0;
        ExpandWithin(env, staged, Conf(us[0], Stop), Isolate, s);
        ExpandComplete(env, staged, Conf(us[0], Stop), Isolate, s);
        ClosedOn(env, Isolate, staged, s1);
        IsolateAllClosed(env, s1, us[1..], ignored, s);
      }
    }
  }

  lemma ClosedOn(env: Env, mode: Mode, staged: set<Conf>, r: set<Conf>)
    requires Closed(env, mode, staged) && Complete(env, mode, staged, r) && staged <= r
    ensures Closed(env, mode, r)
  {
  }

  /** Whatever the order of the units, isolating stages the least set that holds the request, is closed
      under what its members pull in, and stops every unit in it that is not exempt. */
  lemma IsolationIsLeastClosure(env: Env, c: Conf, ignored: set<Unit>, s: set<Conf>)
    requires EnvOk(env) && c.unit in env.units && CheckInput(env, c).Pass? && c.kind.Start?
    requires IsolateClosed(env, ignored, s) && c in s && forall a :: a in s ==> NoHardError(env, a)
    ensures var (r, check) := Staged(env, c, Isolate, ignored);
            && check.Pass? && c in r && IsolateClosed(env, ignored, r)
            && forall z :: IsolateClosed(env, ignored, z) && c in z ==> r <= z
  {
    assert Mapped(env, c) == c;
    ExpansionIsLeastClosure(env, c, Isolate, s);
    var (r, check) := Staged(env, c, Isolate, ignored);
    var r0 := Expand(env, {}, c, Isolate).0;
    assert r0 <= s;
    IsolateAllClosed(env, r0, env.all, ignored, s);
    forall x | x in r && x.unit !in ignored && Stoppable(env, x.unit)
      ensures Conf(x.unit, Stop) in r
    {
      IsolationStopsStaged(env, c, ignored, x.unit, r);
    }
    forall z | IsolateClosed(env, ignored, z) && c in z
      ensures r <= z
    {
      assert r0 <= z;
      IsolateAllWithin(env, r0, env.all, ignored, z);
    }
  }

  /** Two units without dependencies, of which one is active. */
  function TwoUnits(): Env {
    Env({0, 1}, [0, 1], (u, p) => [], {1}, {0, 1}, u => Pass, {})
  }

  lemma TwoUnitsExpand(k: Kind, staged: set<Conf>)
    requires k.Start? || k.Stop?
    ensures EnvOk(TwoUnits()) && Expand(TwoUnits(), staged, Conf(0, k), Isolate) == (staged + {Conf(0, k)}, Pass)
  {
    assert Edges(TwoUnits(), Conf(0, k)) == [];
  }

  /** Isolating one unit does not stop the other one, although that is not exempt. It stops the one that
      was asked for, unless that is exempt. */
  lemma IsolationSparesOthers()
    ensures Stoppable(TwoUnits(), 1) && EnvOk(TwoUnits())
    ensures Staged(TwoUnits(), Conf(0, Start), Isolate, {0}) == ({Conf(0, Start)}, Pass)
    ensures Staged(TwoUnits(), Conf(0, Start), Isolate, {}) == ({Conf(0, Start), Conf(0, Stop)}, Pass)
  {
    var env := TwoUnits();
    var r := {Conf(0, Start)};
    var r2 := {Conf(0, Start), Conf(0, Stop)};
    TwoUnitsExpand(Start, {});
    TwoUnitsExpand(Stop, r);
    assert {} + {Conf(0, Start)} == r && r + {Conf(0, Stop)} == r2;
    assert env.all[1..] == [1] && [1][1..] == [];
    assert UnitsOf(r) == {0} && UnitsOf(r2) == {0};
    assert IsolateAll(env, r, [1], {0}) == r && IsolateAll(env, r2, [1], {}) == r2;
  }

  // ---------------------------------------------------------------- what triggering computes

  predicate StopsTriggers(env: Env, u: Unit, s: set<Conf>) {
    forall v :: v in env.deps(u, TriggeredBy) && Stoppable(env, v) ==> Conf(v, Stop) in s
  }

  /** In mode trigger the request stages nothing but stops: its own, those of all units that trigger it
      and can be stopped, and what these pull in. */
  lemma TriggerStagesStops(env: Env, c: Conf, ignored: set<Unit>, r: set<Conf>)
    requires EnvOk(env) && c.unit in env.units && Staged(env, c, Trigger, ignored) == (r, Pass)
    ensures c in r && forall x :: x in r ==> x.kind.Stop?
    ensures StopsTriggers(env, c.unit, r)
    ensures forall z :: Closed(env, Trigger, z) && c in z && StopsTriggers(env, c.unit, z) ==> r <= z
  {
    var r0 := Expand(env, {}, c, Trigger).0;
    var es := TriggerEdges(env, c.unit);
    assert c == Conf(c.unit, Stop) && c in r0;
    StopAddsStops(env, {}, c.unit, Trigger);
    StopEdgesAddStops(env, r0, es, Trigger);
    LenientEdgesRecord(env, r0, es, Trigger);
    forall v | v in env.deps(c.unit, TriggeredBy) && Stoppable(env, v)
      ensures Conf(v, Stop) in r
    {
      assert Edge(Conf(v, Stop), false) in es;
    }
    forall z | Closed(env, Trigger, z) && c in z && StopsTriggers(env, c.unit, z)
      ensures r <= z
    {
      ExpandWithin(env, {}, c, Trigger, z);
      ExpandEdgesWithin(env, r0, es, Trigger, z);
    }
  }

  lemma {:induction false} LenientEdgesRecord(env: Env, staged: set<Conf>, es: seq<Edge>, mode: Mode)
    requires EnvOk(env) && TargetsKnown(env, es) && forall e :: e in es ==> !e.strict
    ensures forall e :: e in es && CheckInput(env, e.target).Pass? ==> Mapped(env, e.target) in ExpandEdges(env, staged, es, mode).0
    decreases |es|
  {
    if es != [] {
      LenientEdgesRecord(env, Expand(env, staged, es[0].target, mode).0, es[1..], mode);
    }
  }

  // ---------------------------------------------------------------- from staged requests to a commit

  const BASIC := {Start, Stop, Reload, Restart, Verify, Nop}

  /** The allocator's answers: an identifier for every staged job. */
  type Ids = map<Conf, nat>

  function StageUnit(r: set<Conf>, ids: Ids, mode: Mode, u: Unit): map<Kind, Job>
    requires forall c :: c in r ==> c in ids
  {
    map k | k in BASIC && Conf(u, k) in r :: InitAttr(NewJob(ids[Conf(u, k)], u, k), mode)
  }

  function BuildStage(r: set<Conf>, ids: Ids, mode: Mode): map<Unit, map<Kind, Job>>
    requires forall c :: c in r ==> c in ids
  {
    map u | u in UnitsOf(r) :: StageUnit(r, ids, mode, u)
  }

  predicate SelfConflict(stage: map<Unit, map<Kind, Job>>) {
    exists u :: u in stage && Conflict(stage[u])
  }

  predicate LiveConflict(t: Table, stage: map<Unit, map<Kind, Job>>) {
    exists u :: u in t.data && u in stage && ConflictWith(t.data[u].suspends, stage[u])
  }

  predicate Replaceable(t: Table, stage: map<Unit, map<Kind, Job>>)
    requires !SelfConflict(stage) && forall u :: u in t.data ==> !Conflict(t.data[u].suspends)
  {
    forall u :: u in t.data && u in stage ==> ReplaceWith(t.data[u].suspends, stage[u])
  }

  ghost predicate ConflictFree(t: Table) {
    forall u :: u in t.data ==> !Conflict(t.data[u].suspends)
  }

  predicate Flushes(mode: Mode) {
    mode.Flush? || mode.Isolate?
  }

  datatype Outcome =
    | Refused(conflict: bool)
    | Plan(stage: map<Unit, map<Kind, Job>>, iso: set<Unit>)

  /** Everything that is decided before the commit. A refused request has touched only the scratch
      stage; a plan is what is merged into the live table. */
  function Exec(t: Table, env: Env, c: Conf, mode: Mode, ids: Ids, ignored: set<Unit>): Outcome
    requires ConflictFree(t) && EnvOk(env) && c.unit in env.units
    requires forall x :: x in Staged(env, c, mode, ignored).0 ==> x in ids
  {
    var (r, check) := Staged(env, c, mode, ignored);
    if !check.Pass? then Refused(false)
    else
      var stage := BuildStage(r, ids, mode);
      if SelfConflict(stage) then Refused(true)
      else if LiveConflict(t, stage) && !(!mode.Fail? && Replaceable(t, stage)) then Refused(true)
      else Plan(stage, if Flushes(mode) then t.data.Keys - stage.Keys - ignored else {})
  }

  /** The identifiers are new and distinct, which is what the allocator guarantees. */
  ghost predicate IdsOk(t: Table, r: set<Conf>, ids: Ids) {
    && (forall x :: x in r ==> x in ids)
    && (forall x, y :: x in r && y in r && ids[x] == ids[y] ==> x == y)
    && (forall x, h :: x in r && h in t.ids ==> h.id != ids[x])
  }

  lemma StageUnitOk(r: set<Conf>, ids: Ids, mode: Mode, u: Unit)
    requires (forall x :: x in r ==> x in ids && IsBasic(x.kind)) && u in UnitsOf(r)
    requires !Conflict(StageUnit(r, ids, mode, u))
    ensures StagedOk(u, StageUnit(r, ids, mode, u)) && StageUnit(r, ids, mode, u) != map[]
  {
    var c :| c in r && c.unit == u;
    assert c == Conf(u, c.kind) && c.kind in BASIC;
    assert c.kind in StageUnit(r, ids, mode, u);
  }

  lemma StageFresh(t: Table, r: set<Conf>, ids: Ids, mode: Mode)
    requires IdsOk(t, r, ids)
    ensures FreshIds(t.ids, StageRefs(BuildStage(r, ids, mode)))
  {
    var stage := BuildStage(r, ids, mode);
    forall h | h in StageRefs(stage)
      ensures Conf(h.unit, h.kind) in r && h == Handle(ids[Conf(h.unit, h.kind)], h.unit, h.kind)
    {
      var u, k :| u in stage && k in stage[u] && h == Ref(stage[u][k]);
    }
  }

  lemma PlanStageOk(t: Table, r: set<Conf>, ids: Ids, mode: Mode, stage: map<Unit, map<Kind, Job>>)
    requires IdsOk(t, r, ids) && (forall x :: x in r ==> IsBasic(x.kind))
    requires stage == BuildStage(r, ids, mode) && !SelfConflict(stage)
    ensures StageOk(t, stage)
  {
    StageFresh(t, r, ids, mode);
    forall u | u in stage
      ensures StagedOk(u, stage[u]) && stage[u] != map[]
    {
      StageUnitOk(r, ids, mode, u);
    }
  }

  /** A request that is not refused is a legal transaction of the engine, if and only if it does not flush a
      unit that is about to be interrupted; it can be merged in any case. */
  lemma PlanIsLegal(t: Table, env: Env, c: Conf, mode: Mode, ids: Ids, ignored: set<Unit>)
    requires TableInv(t) && EnvOk(env) && c.unit in env.units
    requires IdsOk(t, Staged(env, c, mode, ignored).0, ids)
    ensures var o := Exec(t, env, c, mode, ids, ignored);
            o.Plan? ==>
              && StageOk(t, o.stage) && o.iso <= t.data.Keys && Mergeable(t, o.stage, o.iso)
              && (IsoOk(t, o.stage, o.iso) <==> NoneInterrupting(t, o.iso))
  {
    var o := Exec(t, env, c, mode, ids, ignored);
    if o.Plan? {
      StagedKnown(env, c, mode, ignored);
      PlanStageOk(t, Staged(env, c, mode, ignored).0, ids, mode, o.stage);
      CanMergeAll(t, o.stage, o.iso);
    }
  }

  lemma CancelsIsConflict(t: Table, stage: map<Unit, map<Kind, Job>>, iso: set<Unit>, u: Unit)
    requires u in Flushed(t, stage, iso) && u !in iso
    ensures u in t.data && u in stage && ConflictWith(t.data[u].suspends, stage[u])
  {
  }

  /** When two sides that are free of conflicts conflict, only replacing a side without irreversible
      jobs is allowed. */
  lemma ReplacedIsReversible(m: map<Kind, Job>, o: map<Kind, Job>)
    requires !Conflict(m) && !Conflict(o) && ConflictWith(m, o) && ReplaceWith(m, o)
    ensures !Irreversible(m)
  {
  }

  /** Mode fail cancels nothing, and in no mode does a conflict cancel a unit with an irreversible job;
      only modes flush and isolate cancel more, in the units they name. */
  lemma ExecSparesJobs(t: Table, env: Env, c: Conf, mode: Mode, ids: Ids, ignored: set<Unit>, o: Outcome)
    requires TableInv(t) && EnvOk(env) && c.unit in env.units
    requires forall x :: x in Staged(env, c, mode, ignored).0 ==> x in ids
    requires o == Exec(t, env, c, mode, ids, ignored) && o.Plan?
    ensures mode.Fail? ==> Flushed(t, o.stage, o.iso) == {}
    ensures forall u :: u in Flushed(t, o.stage, o.iso) && u !in o.iso ==> u in t.data && !Irreversible(t.data[u].suspends)
    ensures !Flushes(mode) ==> o.iso == {}
  {
    forall u | u in Flushed(t, o.stage, o.iso) && u !in o.iso
      ensures u in t.data && !mode.Fail? && !Irreversible(t.data[u].suspends)
    {
      CancelsIsConflict(t, o.stage, o.iso, u);
      CleanAt(t, u);
      assert !Conflict(o.stage[u]);
      ReplacedIsReversible(t.data[u].suspends, o.stage[u]);
    }
  }

  /** An isolating request is refused, unless every unit it wants something else of than a stop is exempt
      or cannot be stopped. */
  lemma IsolationWantsExempt(t: Table, env: Env, c: Conf, ids: Ids, ignored: set<Unit>, o: Outcome, v: Unit)
    requires TableInv(t) && EnvOk(env) && c.unit in env.units
    requires forall x :: x in Staged(env, c, Isolate, ignored).0 ==> x in ids
    requires o == Exec(t, env, c, Isolate, ids, ignored) && o.Plan?
    ensures v in o.stage && HasOthers(o.stage[v]) ==> v in ignored || v in env.perpetual
    ensures c.unit in ignored || c.unit in env.perpetual
  {
    var r := Staged(env, c, Isolate, ignored).0;
    StagedKnown(env, c, Isolate, ignored);
    assert c == Mapped(env, c) && c in r;
    forall w | w in o.stage && HasOthers(o.stage[w]) && w !in env.perpetual
      ensures w in ignored
    {
      var x :| x in r && x.unit == w;
      if w !in ignored { IsolationStopsStaged(env, c, ignored, w, r); }
      assert !Conflict(o.stage[w]);
    }
    assert Start in o.stage[c.unit];
  }

  /** A trigger request never conflicts with itself. */
  lemma TriggerFitsItself(env: Env, c: Conf, ids: Ids, ignored: set<Unit>, r: set<Conf>)
    requires EnvOk(env) && c.unit in env.units && Staged(env, c, Trigger, ignored) == (r, Pass)
    requires forall x :: x in r ==> x in ids
    ensures !SelfConflict(BuildStage(r, ids, Trigger))
  {
    TriggerStagesStops(env, c, ignored, r);
  }

  /** The job is pending, or one in its place that does what it was to do: a restart for a start or reload, a
      reload for a start of an active unit, a start for a reload of one that is not active. */
  predicate Served(m: map<Kind, Job>, active: bool, k: Kind) {
    || k in m
    || (k.Start? && (Restart in m || (active && Reload in m)))
    || (k.Reload? && (Restart in m || (!active && Start in m)))
  }

  lemma MergedIsServed(m: map<Kind, Job>, active: bool, n: map<Kind, Job>, k: Kind)
    requires n == m - MergedKinds(m, active) && k in m
    ensures Served(n, active, k)
  {
  }

  lemma StepServes(s: UnitState, row: Row, o: map<Kind, Job>, active: bool, k: Kind)
    requires !Conflict(CommitMerge(s, row, o, false).0.suspends) && k in o
    ensures Served(CommitStep(s, row, o, false, active).s.suspends, active, k)
  {
    var (s2, row2) := CommitMerge(s, row, o, false);
    MergeFrame(s, row, o, false, s2);
    var s' := CommitStep(s, row, o, false, active).s;
    assert k in s2.suspends;
    if s2.dirty && !s2.order {
      MergedIsServed(s2.suspends, active, s'.suspends, k);
    }
  }

  /** After the commit every requested job is pending, or it has made way for another pending job of its unit
      that does what it was to do. */
  lemma RequestsArePending(t: Table, stage: map<Unit, map<Kind, Job>>, iso: set<Unit>, active: set<Unit>, g: Graph, u: Unit, k: Kind)
    requires TableInv(t) && StageOk(t, stage) && IsoOk(t, stage, iso) && Mergeable(t, stage, iso)
    requires u in stage && k in stage[u]
    ensures u in Commit(t, stage, iso, active, g).data && Served(Commit(t, stage, iso, active, g).data[u].suspends, u in active, k)
  {
    var steps := CommitSteps(t, stage, iso, active);
    var t1 := Apply(t, steps);
    CommitApplied(t, stage, iso, active, t1);
    StepServes(At(t, u), RowAt(t, u), stage[u], u in active, k);
    assert steps[u] == CommitStep(At(t, u), RowAt(t, u), stage[u], false, u in active);
    assert !IsEmpty(steps[u].s);
    ResumeOneFrame(t1, AllNeighbours(g, Flushed(t, stage, iso)), Commit(t, stage, iso, active, g), u);
  }
}
