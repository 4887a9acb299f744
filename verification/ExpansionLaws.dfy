/** What a request pulls in, relation by relation; and exactly when a request is refused because of a unit that
    cannot be acted on. */
module ExpansionLaws {
  import opened Jobs
  import opened Transactions

  // ---------------------------------------------------------------- the relations

  predicate StartsUnit(a: Conf) {
    a.kind.Start? || a.kind.Restart?
  }

  /** A job wants this of another unit: it fails if that cannot be had. */
  predicate Requires(env: Env, a: Conf, b: Conf) {
    || (StartsUnit(a) && b.kind.Start? && b.unit in env.deps(a.unit, PullInStart))
    || (StartsUnit(a) && b.kind.Verify? && b.unit in env.deps(a.unit, PullInVerify))
    || (StartsUnit(a) && b.kind.Stop? && b.unit in env.deps(a.unit, PullInStop))
    || (a.kind.Stop? && b.kind.Stop? && b.unit in env.deps(a.unit, PropagateStop))
    || (a.kind.Restart? && b.kind.TryRestart? && b.unit in env.deps(a.unit, PropagateRestart))
  }

  /** A job would like this of another unit, and does without. */
  predicate Wants(env: Env, a: Conf, b: Conf) {
    || (StartsUnit(a) && b.kind.Start? && b.unit in env.deps(a.unit, PullInStartIgnored))
    || (StartsUnit(a) && b.kind.Stop? && b.unit in env.deps(a.unit, PullInStopIgnored))
    || (a.kind.Reload? && b.kind.TryReload? && b.unit in env.deps(a.unit, PropagatesReloadTo))
  }

  lemma EdgeOfList(us: seq<Unit>, k: Kind, strict: bool, e: Edge)
    ensures e in EdgesOf(us, k, strict) <==> e.target.unit in us && e.target.kind == k && e.strict == strict
  {
    if e.target.unit in us && e.target.kind == k && e.strict == strict {
      var i :| 0 <= i < |us| && us[i] == e.target.unit;
      assert EdgesOf(us, k, strict)[i] == e;
    }
  }

  lemma EdgesAreRelations(env: Env, a: Conf, e: Edge)
    ensures e in Edges(env, a) <==> if e.strict then Requires(env, a, e.target) else Wants(env, a, e.target)
  {
    var u := a.unit;
    EdgeOfList(env.deps(u, PullInStart), Start, true, e);
    EdgeOfList(env.deps(u, PullInStartIgnored), Start, false, e);
    EdgeOfList(env.deps(u, PullInVerify), Verify, true, e);
    EdgeOfList(env.deps(u, PullInStop), Stop, true, e);
    EdgeOfList(env.deps(u, PullInStopIgnored), Stop, false, e);
    EdgeOfList(env.deps(u, PropagateStop), Stop, true, e);
    EdgeOfList(env.deps(u, PropagateRestart), TryRestart, true, e);
    EdgeOfList(env.deps(u, PropagatesReloadTo), TryReload, false, e);
  }

  /** A unit can be acted on when it is loaded and, for a stop, not perpetual, and for anything else, fit to be
      acted on. A stop does not ask for that. */
  lemma CheckExact(env: Env, c: Conf)
    ensures CheckInput(env, c).Pass? <==> c.unit in env.loaded && if c.kind.Stop? then c.unit !in env.perpetual else env.valid(c.unit).Pass?
    ensures CheckInput(env, c).BadRequest? <==> c.unit in env.loaded && !c.kind.Stop? && env.valid(c.unit).BadRequest?
  {
  }

  // ---------------------------------------------------------------- where a staged job comes from

  /** Some staged job has a relation to the unit that brings this job about. */
  ghost predicate HasOrigin(env: Env, r: set<Conf>, b: Conf) {
    exists a :: a in r && IsOrigin(env, a, b)
  }

  /** One job brings another one about, along some relation. A restart or reload that is passed on becomes a nop
      where the unit is not active. */
  predicate IsOrigin(env: Env, a: Conf, b: Conf) {
    var v := b.unit;
    || (StartsUnit(a) && b.kind.Start? && (v in env.deps(a.unit, PullInStart) || v in env.deps(a.unit, PullInStartIgnored)))
    || (StartsUnit(a) && b.kind.Verify? && v in env.deps(a.unit, PullInVerify))
    || (StartsUnit(a) && b.kind.Stop? && (v in env.deps(a.unit, PullInStop) || v in env.deps(a.unit, PullInStopIgnored)))
    || (a.kind.Stop? && b.kind.Stop? && v in env.deps(a.unit, PropagateStop))
    || (a.kind.Restart? && b.kind == (if v in env.active then Kind.Restart else Nop) && v in env.deps(a.unit, PropagateRestart))
    || (a.kind.Reload? && b.kind == (if v in env.active then Kind.Reload else Nop) && v in env.deps(a.unit, PropagatesReloadTo))
  }

  lemma EdgeIsOrigin(env: Env, a: Conf, e: Edge)
    requires e in Edges(env, a)
    ensures IsOrigin(env, a, Mapped(env, e.target))
  {
    EdgesAreRelations(env, a, e);
  }

  lemma {:induction false} ExpandOrigins(env: Env, staged: set<Conf>, c: Conf, mode: Mode)
    requires EnvOk(env) && c.unit in env.units
    ensures forall b :: b in Expand(env, staged, c, mode).0 && b !in staged && b != Mapped(env, c) ==> HasOrigin(env, Expand(env, staged, c, mode).0, b)
    decreases |AllConfs(env) - staged|, 0
  {
    var m := Mapped(env, c);
    if CheckInput(env, c).Pass? && m !in staged && !m.kind.Nop? && Expands(mode) {
      StagingShrinks(env, staged, m);
      EdgesKnown(env, m);
      ExpandEdgesOrigins(env, staged + {m}, Edges(env, m), mode, m);
    }
  }

  lemma {:induction false} ExpandEdgesOrigins(env: Env, staged: set<Conf>, es: seq<Edge>, mode: Mode, a: Conf)
    requires EnvOk(env) && TargetsKnown(env, es) && a in staged && forall e :: e in es ==> e in Edges(env, a)
    ensures forall b :: b in ExpandEdges(env, staged, es, mode).0 && b !in staged ==> HasOrigin(env, ExpandEdges(env, staged, es, mode).0, b)
    decreases |AllConfs(env) - staged|, 1 + |es|
  {
    if es != [] {
      ExpandOrigins(env, staged, es[0].target, mode);
      var (s1, r1) := Expand(env, staged, es[0].target, mode);
      EdgeIsOrigin(env, a, es[0]);
      var r := ExpandEdges(env, staged, es, mode).0;
      if !(r1.InputError? && es[0].strict) {
        SmallerSet(AllConfs(env) - s1, AllConfs(env) - staged);
        ExpandEdgesOrigins(env, s1, es[1..], mode, a);
      }
      assert s1 <= r;
      forall b | b in r && b !in staged
        ensures HasOrigin(env, r, b)
      {
        if b in s1 { OriginStays(env, s1, r, a, es[0].target, b); }
      }
    }
  }

  lemma OriginStays(env: Env, s1: set<Conf>, r: set<Conf>, a: Conf, c: Conf, b: Conf)
    requires s1 <= r && a in s1 && IsOrigin(env, a, Mapped(env, c)) && (b == Mapped(env, c) || HasOrigin(env, s1, b))
    ensures HasOrigin(env, r, b)
  {
    if b != Mapped(env, c) {
      var o :| o in s1 && IsOrigin(env, o, b);
      assert o in r;
    }
  }

  /** Whatever a request stages beyond itself has been brought about by something staged, along one of the
      relations, whether or not the request is refused in the end. */
  lemma StagedHasOrigin(env: Env, c: Conf, mode: Mode, b: Conf)
    requires EnvOk(env) && c.unit in env.units && b in Expand(env, {}, c, mode).0 && b != Mapped(env, c)
    ensures HasOrigin(env, Expand(env, {}, c, mode).0, b)
  {
    ExpandOrigins(env, {}, c, mode);
  }

  // ---------------------------------------------------------------- what a staged job brings about

  /** The job requires something of a unit that cannot be acted on. */
  ghost predicate Hindered(env: Env, a: Conf) {
    exists b :: Requires(env, a, b) && CheckInput(env, b).InputError?
  }

  ghost predicate NoneHindered(env: Env, r: set<Conf>) {
    forall a :: a in r ==> !Hindered(env, a)
  }

  lemma HinderedEdge(env: Env, a: Conf, e: Edge)
    requires e in Edges(env, a) && e.strict && CheckInput(env, e.target).InputError?
    ensures Hindered(env, a)
  {
    EdgesAreRelations(env, a, e);
  }

  /** Where nothing staged is hindered, expansion goes all the way. */
  lemma {:induction false} ExpandFollows(env: Env, staged: set<Conf>, c: Conf, mode: Mode)
    requires EnvOk(env) && c.unit in env.units && NoneHindered(env, Expand(env, staged, c, mode).0)
    ensures Expand(env, staged, c, mode).1 == CheckInput(env, c)
    ensures Complete(env, mode, staged, Expand(env, staged, c, mode).0)
    decreases |AllConfs(env) - staged|, 0
  {
    var m := Mapped(env, c);
    if CheckInput(env, c).Pass? && m !in staged && !m.kind.Nop? && Expands(mode) {
      StagingShrinks(env, staged, m);
      EdgesKnown(env, m);
      ExpandEdgesFollow(env, staged + {m}, Edges(env, m), mode, m);
    }
  }

  lemma {:induction false} ExpandEdgesFollow(env: Env, staged: set<Conf>, es: seq<Edge>, mode: Mode, a: Conf)
    requires EnvOk(env) && TargetsKnown(env, es) && a in staged && (forall e :: e in es ==> e in Edges(env, a))
    requires NoneHindered(env, ExpandEdges(env, staged, es, mode).0)
    ensures ExpandEdges(env, staged, es, mode).1.Pass?
    ensures forall e :: e in es && CheckInput(env, e.target).Pass? ==> Mapped(env, e.target) in ExpandEdges(env, staged, es, mode).0
    ensures Complete(env, mode, staged, ExpandEdges(env, staged, es, mode).0)
    decreases |AllConfs(env) - staged|, 1 + |es|
  {
    if es != [] {
      var (s1, r1) := Expand(env, staged, es[0].target, mode);
      var r := ExpandEdges(env, staged, es, mode).0;
      assert s1 <= r && a in r;
      ExpandFollows(env, staged, es[0].target, mode);
      if r1.InputError? && es[0].strict { HinderedEdge(env, a, es[0]); }
      SmallerSet(AllConfs(env) - s1, AllConfs(env) - staged);
      ExpandEdgesFollow(env, s1, es[1..], mode, a);
    }
  }

  lemma Brought(env: Env, mode: Mode, r: set<Conf>, a: Conf, b: Conf)
    requires Complete(env, mode, {}, r) && Expands(mode) && a in r && CheckInput(env, b).Pass?
    requires Requires(env, a, b) || Wants(env, a, b)
    ensures Mapped(env, b) in r
  {
    var e := Edge(b, Requires(env, a, b));
    EdgesAreRelations(env, a, e);
    assert Pulls(env, mode, a, Mapped(env, b));
  }

  /** What a successful request stages, relation by relation, as long as nothing staged is hindered. What must
      not be there is in `StagedHasOrigin`. */
  lemma ExpansionByRelation(env: Env, c: Conf, mode: Mode, r: set<Conf>, u: Unit, v: Unit)
    requires EnvOk(env) && c.unit in env.units && Expands(mode) && Expand(env, {}, c, mode) == (r, Pass) && NoneHindered(env, r)
    ensures Mapped(env, c) in r
    ensures Conf(u, Start) in r || Conf(u, Kind.Restart) in r ==>
              && ((v in env.deps(u, PullInStart) || v in env.deps(u, PullInStartIgnored)) && CheckInput(env, Conf(v, Start)).Pass?
                  ==> Conf(v, Start) in r)
              && (v in env.deps(u, PullInVerify) && CheckInput(env, Conf(v, Verify)).Pass? ==> Conf(v, Verify) in r)
              && ((v in env.deps(u, PullInStop) || v in env.deps(u, PullInStopIgnored)) && CheckInput(env, Conf(v, Stop)).Pass?
                  ==> Conf(v, Stop) in r)
    ensures Conf(u, Stop) in r && v in env.deps(u, PropagateStop) && CheckInput(env, Conf(v, Stop)).Pass? ==> Conf(v, Stop) in r
    ensures Conf(u, Kind.Restart) in r && v in env.deps(u, PropagateRestart) && CheckInput(env, Conf(v, TryRestart)).Pass? ==>
              Conf(v, if v in env.active then Kind.Restart else Nop) in r
    ensures Conf(u, Reload) in r && v in env.deps(u, PropagatesReloadTo) && CheckInput(env, Conf(v, TryReload)).Pass? ==>
              Conf(v, if v in env.active then Reload else Nop) in r
  {
    ExpandFollows(env, {}, c, mode);
    forall a, b | a in r && CheckInput(env, b).Pass? && (Requires(env, a, b) || Wants(env, a, b))
      ensures Mapped(env, b) in r
    {
      Brought(env, mode, r, a, b);
    }
    var starts := [Conf(u, Start), Conf(u, Kind.Restart)];
    forall a | a in starts && a in r
      ensures (v in env.deps(u, PullInStart) || v in env.deps(u, PullInStartIgnored)) && CheckInput(env, Conf(v, Start)).Pass?
              ==> Mapped(env, Conf(v, Start)) in r
      ensures v in env.deps(u, PullInVerify) && CheckInput(env, Conf(v, Verify)).Pass? ==> Mapped(env, Conf(v, Verify)) in r
      ensures (v in env.deps(u, PullInStop) || v in env.deps(u, PullInStopIgnored)) && CheckInput(env, Conf(v, Stop)).Pass?
              ==> Mapped(env, Conf(v, Stop)) in r
    {
      assert v in env.deps(u, PullInStart) ==> Requires(env, a, Conf(v, Start));
      assert v in env.deps(u, PullInStartIgnored) ==> Wants(env, a, Conf(v, Start));
      assert v in env.deps(u, PullInVerify) ==> Requires(env, a, Conf(v, Verify));
      assert v in env.deps(u, PullInStop) ==> Requires(env, a, Conf(v, Stop));
      assert v in env.deps(u, PullInStopIgnored) ==> Wants(env, a, Conf(v, Stop));
    }
    assert starts[0] in starts && starts[1] in starts;
    assert v in env.deps(u, PropagateStop) ==> Requires(env, Conf(u, Stop), Conf(v, Stop));
    assert v in env.deps(u, PropagateRestart) ==> Requires(env, Conf(u, Kind.Restart), Conf(v, TryRestart));
    assert v in env.deps(u, PropagatesReloadTo) ==> Wants(env, Conf(u, Reload), Conf(v, TryReload));
  }

  // ---------------------------------------------------------------- when a request fails

  /** The job requires, directly or through what it requires, something of a unit that cannot be acted on. */
  ghost predicate DoomedIn(env: Env, a: Conf, n: nat)
    decreases n
  {
    Hindered(env, a) || (n > 0 && exists b :: Requires(env, a, b) && CheckInput(env, b).Pass? && DoomedIn(env, Mapped(env, b), n - 1))
  }

  ghost predicate Doomed(env: Env, a: Conf) {
    exists n: nat :: DoomedIn(env, a, n)
  }

  lemma RequiringDoom(env: Env, a: Conf, b: Conf)
    requires Requires(env, a, b) && CheckInput(env, b).Pass? && Doomed(env, Mapped(env, b))
    ensures Doomed(env, a)
  {
    var n: nat :| DoomedIn(env, Mapped(env, b), n);
    assert DoomedIn(env, a, n + 1);
  }

  lemma HinderedIsDoomed(env: Env, a: Conf)
    requires Hindered(env, a)
    ensures Doomed(env, a)
  {
    assert DoomedIn(env, a, 0);
  }

  /** Nothing fails but what is doomed. */
  lemma {:induction false} FailingIsDoomed(env: Env, staged: set<Conf>, c: Conf, mode: Mode)
    requires EnvOk(env) && c.unit in env.units && CheckInput(env, c).Pass? && !Expand(env, staged, c, mode).1.Pass?
    ensures Doomed(env, Mapped(env, c))
    decreases |AllConfs(env) - staged|, 0
  {
    var m := Mapped(env, c);
    StagingShrinks(env, staged, m);
    EdgesKnown(env, m);
    FailingEdgesDoom(env, staged + {m}, Edges(env, m), mode, m);
  }

  lemma {:induction false} FailingEdgesDoom(env: Env, staged: set<Conf>, es: seq<Edge>, mode: Mode, a: Conf)
    requires EnvOk(env) && TargetsKnown(env, es) && (forall e :: e in es ==> e in Edges(env, a))
    requires !ExpandEdges(env, staged, es, mode).1.Pass?
    ensures Doomed(env, a)
    decreases |AllConfs(env) - staged|, 1 + |es|
  {
    var (s1, r1) := Expand(env, staged, es[0].target, mode);
    if r1.InputError? && es[0].strict {
      EdgesAreRelations(env, a, es[0]);
      if CheckInput(env, es[0].target).Pass? {
        FailingIsDoomed(env, staged, es[0].target, mode);
        RequiringDoom(env, a, es[0].target);
      } else {
        HinderedEdge(env, a, es[0]);
        HinderedIsDoomed(env, a);
      }
    } else {
      SmallerSet(AllConfs(env) - s1, AllConfs(env) - staged);
      FailingEdgesDoom(env, s1, es[1..], mode, a);
    }
  }

  /** Nobody in the set would like something that is doomed. */
  ghost predicate WantsNoDoom(env: Env, s: set<Conf>) {
    forall a, b :: a in s && Wants(env, a, b) && CheckInput(env, b).Pass? ==> !Doomed(env, Mapped(env, b))
  }

  lemma WantedPasses(env: Env, staged: set<Conf>, a: Conf, b: Conf, mode: Mode, s: set<Conf>)
    requires EnvOk(env) && b.unit in env.units && WantsNoDoom(env, s) && a in s && Wants(env, a, b) && CheckInput(env, b).Pass?
    ensures Expand(env, staged, b, mode).1.Pass?
  {
    if !Expand(env, staged, b, mode).1.Pass? { FailingIsDoomed(env, staged, b, mode); }
  }

  /** If nothing doomed is merely liked, a successful expansion has met nothing hindered. */
  lemma {:induction false} PassingIsClean(env: Env, staged: set<Conf>, c: Conf, mode: Mode, s: set<Conf>)
    requires EnvOk(env) && c.unit in env.units && Expands(mode) && WantsNoDoom(env, s) && Expand(env, staged, c, mode).0 <= s
    requires Expand(env, staged, c, mode).1.Pass?
    ensures forall a :: a in Expand(env, staged, c, mode).0 && a !in staged ==> !Hindered(env, a)
    decreases |AllConfs(env) - staged|, 0
  {
    var m := Mapped(env, c);
    if m !in staged && !m.kind.Nop? {
      StagingShrinks(env, staged, m);
      EdgesKnown(env, m);
      PassingEdgesAreClean(env, staged + {m}, Edges(env, m), mode, s, m);
      forall b | Requires(env, m, b)
        ensures !CheckInput(env, b).InputError?
      {
        EdgesAreRelations(env, m, Edge(b, true));
      }
    }
  }

  lemma {:induction false} PassingEdgesAreClean(env: Env, staged: set<Conf>, es: seq<Edge>, mode: Mode, s: set<Conf>, a: Conf)
    requires EnvOk(env) && TargetsKnown(env, es) && (forall e :: e in es ==> e in Edges(env, a)) && a in staged
    requires Expands(mode) && WantsNoDoom(env, s) && ExpandEdges(env, staged, es, mode).0 <= s && ExpandEdges(env, staged, es, mode).1.Pass?
    ensures forall x :: x in ExpandEdges(env, staged, es, mode).0 && x !in staged ==> !Hindered(env, x)
    ensures forall e :: e in es && e.strict ==> !CheckInput(env, e.target).InputError?
    decreases |AllConfs(env) - staged|, 1 + |es|
  {
    if es != [] {
      var (s1, r1) := Expand(env, staged, es[0].target, mode);
      assert s1 <= ExpandEdges(env, staged, es, mode).0;
      if CheckInput(env, es[0].target).Pass? {
        if !es[0].strict {
          EdgesAreRelations(env, a, es[0]);
          WantedPasses(env, staged, a, es[0].target, mode, s);
        }
        PassingIsClean(env, staged, es[0].target, mode, s);
      }
      SmallerSet(AllConfs(env) - s1, AllConfs(env) - staged);
      PassingEdgesAreClean(env, s1, es[1..], mode, s, a);
    }
  }

  lemma {:induction false} CleanIsNotDoomed(env: Env, mode: Mode, r: set<Conf>, a: Conf, n: nat)
    requires Complete(env, mode, {}, r) && Expands(mode) && NoneHindered(env, r) && a in r
    ensures !DoomedIn(env, a, n)
    decreases n
  {
    if n > 0 {
      forall b | Requires(env, a, b) && CheckInput(env, b).Pass?
        ensures !DoomedIn(env, Mapped(env, b), n - 1)
      {
        Brought(env, mode, r, a, b);
        CleanIsNotDoomed(env, mode, r, Mapped(env, b), n - 1);
      }
    }
  }

  /** As long as nobody would like something doomed: a request for a unit that can be acted on succeeds if and
      only if it is not doomed, and then nothing that it stages is hindered. A doomed job that is merely liked
      does no harm. */
  lemma AcceptedExact(env: Env, c: Conf, mode: Mode, r: set<Conf>, check: Check)
    requires EnvOk(env) && c.unit in env.units && Expands(mode) && Expand(env, {}, c, mode) == (r, check) && WantsNoDoom(env, r)
    ensures check.Pass? <==> CheckInput(env, c).Pass? && !Doomed(env, Mapped(env, c))
    ensures check.Pass? ==> NoneHindered(env, r)
  {
    if CheckInput(env, c).Pass? && !check.Pass? { FailingIsDoomed(env, {}, c, mode); }
    if check.Pass? {
      PassingIsClean(env, {}, c, mode, r);
      ExpandFollows(env, {}, c, mode);
      forall n: nat
        ensures !DoomedIn(env, Mapped(env, c), n)
      {
        CleanIsNotDoomed(env, mode, r, Mapped(env, c), n);
      }
    }
  }

  /** What the request itself requires decides at once, whatever else there is: a request that requires
      something of a unit that cannot be acted on fails, and fails for that reason only if it is doomed. */
  lemma HinderedRequestFails(env: Env, c: Conf, mode: Mode)
    requires EnvOk(env) && c.unit in env.units && Expands(mode) && CheckInput(env, c).Pass? && Hindered(env, Mapped(env, c))
    ensures Expand(env, {}, c, mode).1.InputError?
  {
    var m := Mapped(env, c);
    EdgesKnown(env, m);
    StagingShrinks(env, {}, m);
    var b :| Requires(env, m, b) && CheckInput(env, b).InputError?;
    EdgesAreRelations(env, m, Edge(b, true));
    StrictEdgeFails(env, {} + {m}, Edges(env, m), mode, Edge(b, true));
  }

  lemma {:induction false} StrictEdgeFails(env: Env, staged: set<Conf>, es: seq<Edge>, mode: Mode, e: Edge)
    requires EnvOk(env) && TargetsKnown(env, es) && e in es && e.strict && CheckInput(env, e.target).InputError?
    ensures ExpandEdges(env, staged, es, mode).1.InputError?
    decreases |es|
  {
    var (s1, r1) := Expand(env, staged, es[0].target, mode);
    if !(r1.InputError? && es[0].strict) {
      StrictEdgeFails(env, s1, es[1..], mode, e);
    }
  }

  // ---------------------------------------------------------------- when the order decides

  /** Unit 0 requires 1 and 2 in some order, 1 would like 2, and 2 requires 3, which cannot be acted on. */
  function FourUnits(order: seq<Unit>): Env
    requires forall u :: u in order ==> u == 1 || u == 2
  {
    Env({0, 1, 2, 3}, [0, 1, 2, 3],
        (u: Unit, p: Pull) =>
          if p.PullInStart? then (if u == 0 then order else if u == 2 then [3] else [])
          else if p.PullInStartIgnored? && u == 1 then [2] else [],
        {}, {0, 1, 2}, u => Pass, {})
  }

  function StartOf(u: Unit, strict: bool): Edge {
    Edge(Conf(u, Start), strict)
  }

  lemma FourEdges(order: seq<Unit>)
    requires order == [1, 2] || order == [2, 1]
    ensures EnvOk(FourUnits(order))
    ensures Edges(FourUnits(order), Conf(0, Start)) == [StartOf(order[0], true), StartOf(order[1], true)]
    ensures Edges(FourUnits(order), Conf(1, Start)) == [StartOf(2, false)]
    ensures Edges(FourUnits(order), Conf(2, Start)) == [StartOf(3, true)]
  {
  }

  lemma ExpandNew(env: Env, staged: set<Conf>, c: Conf, mode: Mode, es: seq<Edge>)
    requires EnvOk(env) && c.unit in env.units && CheckInput(env, c).Pass? && Expands(mode)
    requires c.kind.Start? && c !in staged && es == Edges(env, c)
    ensures TargetsKnown(env, es) && Expand(env, staged, c, mode) == ExpandEdges(env, staged + {c}, es, mode)
  {
    EdgesKnown(env, c);
    StagingShrinks(env, staged, c);
  }

  lemma FirstEdge(env: Env, staged: set<Conf>, e: Edge, es: seq<Edge>, mode: Mode, all: seq<Edge>)
    requires EnvOk(env) && TargetsKnown(env, all) && all == [e] + es
    ensures var (s1, r1) := Expand(env, staged, e.target, mode);
            ExpandEdges(env, staged, all, mode) == if r1.InputError? && e.strict then (s1, r1) else ExpandEdges(env, s1, es, mode)
  {
    assert all[0] == e && all[1..] == es;
  }

  lemma FourChecks(order: seq<Unit>, u: Unit)
    requires (order == [1, 2] || order == [2, 1]) && u <= 3
    ensures CheckInput(FourUnits(order), Conf(u, Start)) == (if u < 3 then Pass else InputError) && u in FourUnits(order).units
  {
  }

  lemma SecondFails(order: seq<Unit>, staged: set<Conf>)
    requires (order == [1, 2] || order == [2, 1]) && Conf(2, Start) !in staged
    ensures EnvOk(FourUnits(order)) && Expand(FourUnits(order), staged, Conf(2, Start), Replace) == (staged + {Conf(2, Start)}, InputError)
  {
    var env := FourUnits(order);
    FourEdges(order);
    FourChecks(order, 2);
    FourChecks(order, 3);
    ExpandNew(env, staged, Conf(2, Start), Replace, [StartOf(3, true)]);
    FirstEdge(env, staged + {Conf(2, Start)}, StartOf(3, true), [], Replace, [StartOf(3, true)]);
  }

  lemma FirstPasses(staged: set<Conf>)
    requires Conf(1, Start) !in staged && Conf(2, Start) !in staged
    ensures EnvOk(FourUnits([1, 2]))
    ensures Expand(FourUnits([1, 2]), staged, Conf(1, Start), Replace) == (staged + {Conf(1, Start)} + {Conf(2, Start)}, Pass)
  {
    var env := FourUnits([1, 2]);
    FourEdges([1, 2]);
    FourChecks([1, 2], 1);
    ExpandNew(env, staged, Conf(1, Start), Replace, [StartOf(2, false)]);
    SecondFails([1, 2], staged + {Conf(1, Start)});
    FirstEdge(env, staged + {Conf(1, Start)}, StartOf(2, false), [], Replace, [StartOf(2, false)]);
  }

  lemma InOneOrder(r: set<Conf>, all: set<Conf>)
    requires r == {Conf(0, Start)} && all == r + {Conf(1, Start)} + {Conf(2, Start)}
    ensures EnvOk(FourUnits([1, 2])) && Expand(FourUnits([1, 2]), {}, Conf(0, Start), Replace) == (all, Pass)
  {
    var env := FourUnits([1, 2]);
    var es := [StartOf(1, true), StartOf(2, true)];
    FourEdges([1, 2]);
    FourChecks([1, 2], 0);
    FourChecks([1, 2], 2);
    ExpandNew(env, {}, Conf(0, Start), Replace, es);
    assert {} + {Conf(0, Start)} == r;
    FirstPasses(r);
    FirstEdge(env, r, es[0], [es[1]], Replace, es);
    FirstEdge(env, all, es[1], [], Replace, [es[1]]);
    assert all + {Conf(2, Start)} == all;
  }

  lemma InTheOther(r: set<Conf>)
    requires r == {Conf(0, Start)}
    ensures EnvOk(FourUnits([2, 1])) && Expand(FourUnits([2, 1]), {}, Conf(0, Start), Replace).1.InputError?
  {
    var env := FourUnits([2, 1]);
    var es := [StartOf(2, true), StartOf(1, true)];
    FourEdges([2, 1]);
    FourChecks([2, 1], 0);
    ExpandNew(env, {}, Conf(0, Start), Replace, es);
    assert {} + {Conf(0, Start)} == r;
    SecondFails([2, 1], r);
    FirstEdge(env, r, es[0], [es[1]], Replace, es);
  }

  /** Where something doomed is merely liked, the order of the dependencies decides. In one order the start of
      unit 0 succeeds although it is doomed: unit 2 has failed before as something that unit 1 would like, and is
      staged since then. In the other order it fails. */
  lemma OrderDecides(r: set<Conf>)
    requires r == {Conf(0, Start)} + {Conf(1, Start)} + {Conf(2, Start)}
    ensures EnvOk(FourUnits([1, 2])) && EnvOk(FourUnits([2, 1]))
    ensures Doomed(FourUnits([1, 2]), Conf(0, Start)) && Doomed(FourUnits([2, 1]), Conf(0, Start))
    ensures Expand(FourUnits([1, 2]), {}, Conf(0, Start), Replace) == (r, Pass)
    ensures Expand(FourUnits([2, 1]), {}, Conf(0, Start), Replace).1.InputError?
  {
    ZeroIsDoomed([1, 2]);
    ZeroIsDoomed([2, 1]);
    InOneOrder({Conf(0, Start)}, r);
    InTheOther({Conf(0, Start)});
  }

  lemma ZeroIsDoomed(order: seq<Unit>)
    requires order == [1, 2] || order == [2, 1]
    ensures Doomed(FourUnits(order), Conf(0, Start))
  {
    var env := FourUnits(order);
    assert 2 in order && 3 in [3];
    assert Requires(env, Conf(2, Start), Conf(3, Start)) && CheckInput(env, Conf(3, Start)).InputError?;
    HinderedIsDoomed(env, Conf(2, Start));
    assert Requires(env, Conf(0, Start), Conf(2, Start)) && Mapped(env, Conf(2, Start)) == Conf(2, Start);
    RequiringDoom(env, Conf(0, Start), Conf(2, Start));
  }
}
