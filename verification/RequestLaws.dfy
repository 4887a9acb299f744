/** When a request is refused and what comes of it otherwise, said without the tests that the code makes. */
module RequestLaws {
  import opened Jobs
  import opened JobUnits
  import opened JobUnitLaws
  import opened JobTables
  import opened JobStepLaws
  import opened JobRuns
  import opened Transactions

  // ---------------------------------------------------------------- refusing

  /** A job that cannot be had together with a stop. */
  predicate Upwards(k: Kind) {
    !k.Stop? && !k.Nop?
  }

  /** Some unit is to be stopped and to do something else. */
  ghost predicate AtOdds(r: set<Conf>) {
    exists u, k :: Conf(u, Stop) in r && Conf(u, k) in r && Upwards(k)
  }

  /** The unit has a stop on one side, pending or staged, and something else than a stop on the other. */
  ghost predicate Collides(m: map<Kind, Job>, r: set<Conf>, u: Unit) {
    || (Stop in m && exists k :: Conf(u, k) in r && Upwards(k))
    || (Conf(u, Stop) in r && exists k :: k in m && Upwards(k))
  }

  ghost predicate HoldsFast(m: map<Kind, Job>) {
    exists k :: k in m && m[k].attr.irreversible
  }

  lemma StageHolds(r: set<Conf>, ids: Ids, mode: Mode, u: Unit, k: Kind)
    requires forall c :: c in r ==> c in ids && IsBasic(c.kind)
    ensures u in BuildStage(r, ids, mode) && k in BuildStage(r, ids, mode)[u] <==> Conf(u, k) in r
  {
    if Conf(u, k) in r { assert Conf(u, k).unit in UnitsOf(r); }
  }

  lemma SelfConflictIs(r: set<Conf>, ids: Ids, mode: Mode)
    requires forall c :: c in r ==> c in ids && IsBasic(c.kind)
    ensures SelfConflict(BuildStage(r, ids, mode)) <==> AtOdds(r)
  {
    var stage := BuildStage(r, ids, mode);
    forall u, k
      ensures u in stage && k in stage[u] <==> Conf(u, k) in r
    {
      StageHolds(r, ids, mode, u, k);
    }
    if AtOdds(r) {
      var u, k :| Conf(u, Stop) in r && Conf(u, k) in r && Upwards(k);
      assert Conflict(stage[u]);
    }
  }

  lemma CollidesIs(t: Table, r: set<Conf>, ids: Ids, mode: Mode, u: Unit)
    requires (forall c :: c in r ==> c in ids && IsBasic(c.kind)) && u in t.data && u in BuildStage(r, ids, mode)
    requires !Conflict(t.data[u].suspends) && !Conflict(BuildStage(r, ids, mode)[u])
    ensures ConflictWith(t.data[u].suspends, BuildStage(r, ids, mode)[u]) <==> Collides(t.data[u].suspends, r, u)
    ensures ReplaceWith(t.data[u].suspends, BuildStage(r, ids, mode)[u])
            <==> !(Collides(t.data[u].suspends, r, u) && HoldsFast(t.data[u].suspends))
  {
    var stage := BuildStage(r, ids, mode);
    forall k
      ensures k in stage[u] <==> Conf(u, k) in r
    {
      StageHolds(r, ids, mode, u, k);
    }
  }

  /** Some live unit collides with what is staged, and that may not be replaced. */
  ghost predicate Blocked(t: Table, r: set<Conf>, mode: Mode) {
    exists u :: u in t.data && Collides(t.data[u].suspends, r, u) && (mode.Fail? || HoldsFast(t.data[u].suspends))
  }

  lemma BlockedIs(t: Table, r: set<Conf>, ids: Ids, mode: Mode)
    requires (forall c :: c in r ==> c in ids && IsBasic(c.kind)) && ConflictFree(t) && !SelfConflict(BuildStage(r, ids, mode))
    ensures LiveConflict(t, BuildStage(r, ids, mode)) && !(!mode.Fail? && Replaceable(t, BuildStage(r, ids, mode))) <==> Blocked(t, r, mode)
  {
    var stage := BuildStage(r, ids, mode);
    forall u | u in t.data
      ensures u in stage ==> (ConflictWith(t.data[u].suspends, stage[u]) <==> Collides(t.data[u].suspends, r, u))
      ensures u in stage ==>
                (ReplaceWith(t.data[u].suspends, stage[u]) <==> !(Collides(t.data[u].suspends, r, u) && HoldsFast(t.data[u].suspends)))
      ensures Collides(t.data[u].suspends, r, u) ==> u in stage
    {
      if u in stage {
        CollidesIs(t, r, ids, mode, u);
      } else {
        assert forall k :: Conf(u, k) in r ==> Conf(u, k).unit in UnitsOf(r);
      }
    }
  }

  /** A request is refused if and only if its mode does not fit its kind, or its expansion fails, or what is
      staged is at odds with itself, or it collides with a live unit where nothing may be replaced: in mode
      fail, or because an irreversible job is pending there. Otherwise the plan holds exactly the staged jobs,
      with the identifiers given to them, and flushes what its mode says. */
  lemma RefusedExact(t: Table, env: Env, c: Conf, mode: Mode, ids: Ids, ignored: set<Unit>, r: set<Conf>, o: Outcome)
    requires TableInv(t) && ConflictFree(t) && EnvOk(env) && c.unit in env.units && r == Staged(env, c, mode, ignored).0
    requires (forall x :: x in r ==> x in ids) && o == Exec(t, env, c, mode, ids, ignored)
    ensures o.Refused? <==>
              || (mode.Isolate? && !c.kind.Start?) || (mode.Trigger? && !c.kind.Stop?)
              || !Expand(env, {}, c, mode).1.Pass?
              || AtOdds(r)
              || Blocked(t, r, mode)
    ensures o.Refused? ==>
              (o.conflict <==> ModeFits(c, mode) && Expand(env, {}, c, mode).1.Pass?)
    ensures o.Plan? ==> forall u, k :: u in o.stage && k in o.stage[u] <==> Conf(u, k) in r
    ensures o.Plan? ==> forall u, k :: u in o.stage && k in o.stage[u] ==>
              o.stage[u][k].id == ids[Conf(u, k)] && o.stage[u][k].unit == u && o.stage[u][k].kind == k && o.stage[u][k].stage.Init?
    ensures o.Plan? ==> forall u, k :: u in o.stage && k in o.stage[u] ==>
              o.stage[u][k].attr == Attr(mode.IgnoreDependencies? || k.Nop?, mode.ReplaceIrreversible?, false, false)
    ensures o.Plan? ==> forall u :: u in o.iso <==>
              (mode.Flush? || mode.Isolate?) && u in t.data && u !in ignored && forall k :: Conf(u, k) !in r
  {
    StagedKnown(env, c, mode, ignored);
    if Staged(env, c, mode, ignored).1.Pass? {
      SelfConflictIs(r, ids, mode);
      if !AtOdds(r) { BlockedIs(t, r, ids, mode); }
    }
    if o.Plan? {
      forall u, k
        ensures u in o.stage && k in o.stage[u] <==> Conf(u, k) in r
      {
        StageHolds(r, ids, mode, u, k);
      }
      forall u
        ensures u in o.stage <==> exists k :: Conf(u, k) in r
      {
        if u in o.stage { var x :| x in r && x.unit == u; assert Conf(u, x.kind) in r; }
      }
    }
  }

  /** An irreversible job keeps every stop of its unit out, whatever the mode, unless the unit is flushed. */
  lemma IrreversibleKeepsStopOut(t: Table, env: Env, c: Conf, mode: Mode, ids: Ids, ignored: set<Unit>, r: set<Conf>, o: Outcome, u: Unit, k: Kind)
    requires TableInv(t) && ConflictFree(t) && EnvOk(env) && c.unit in env.units && r == Staged(env, c, mode, ignored).0
    requires (forall x :: x in r ==> x in ids) && o == Exec(t, env, c, mode, ids, ignored)
    requires u in t.data && k in t.data[u].suspends && t.data[u].suspends[k].attr.irreversible && Upwards(k) && Conf(u, Stop) in r
    ensures o.Refused?
  {
    RefusedExact(t, env, c, mode, ids, ignored, r, o);
    assert Collides(t.data[u].suspends, r, u) && HoldsFast(t.data[u].suspends);
  }

  // ---------------------------------------------------------------- what is pending after a commit

  /** A stop on one side, and something else than a stop on the other. */
  ghost predicate Clashes(m: map<Kind, Job>, o: map<Kind, Job>) {
    || (Stop in m && exists k :: k in o && Upwards(k))
    || (Stop in o && exists k :: k in m && Upwards(k))
  }

  /** The kinds that come together in a unit: what is staged, and what was pending unless it clashes. */
  ghost function Together(m: map<Kind, Job>, o: map<Kind, Job>): set<Kind> {
    if Clashes(m, o) then o.Keys else m.Keys + o.Keys
  }

  /** The attributes that come together in a job. */
  ghost predicate HasAttrs(m: map<Kind, Job>, o: map<Kind, Job>, k: Kind, a: Attr) {
    var kept := k in m && !Clashes(m, o);
    && (a.irreversible <==> (kept && m[k].attr.irreversible) || (k in o && o[k].attr.irreversible))
    && (a.ignoreOrder <==> (kept && m[k].attr.ignoreOrder) || (k in o && o[k].attr.ignoreOrder))
    && (a.force <==> (kept && m[k].attr.force) || (k in o && o[k].attr.force))
    && (a.noRelevancy <==> (kept && m[k].attr.noRelevancy) || (k in o && o[k].attr.noRelevancy))
  }

  lemma ClashesIs(m: map<Kind, Job>, o: map<Kind, Job>)
    requires !Conflict(m) && !Conflict(o)
    ensures ConflictWith(m, o) <==> Clashes(m, o)
  {
  }

  lemma JoinedJobs(u: Unit, s: UnitState, o: map<Kind, Job>, m: map<Kind, Job>)
    requires CleanUnit(u, s) && StagedOk(u, o) && m == UnionSuspends(Kept(s, o, false), o)
    ensures m.Keys == Together(s.suspends, o)
    ensures forall k :: k in m ==> HasAttrs(s.suspends, o, k, m[k].attr)
  {
    ClashesIs(s.suspends, o);
    if Clashes(s.suspends, o) { assert Kept(s, o, false) == map[]; } else { assert Kept(s, o, false) == s.suspends; }
  }

  /** What is pending is what came together and made no way, with the attributes of both sides. */
  ghost predicate IsCommitted(m: map<Kind, Job>, o: map<Kind, Job>, active: bool, n: map<Kind, Job>) {
    && (forall k :: k in n <==> k in Together(m, o) && !MakesWay(Together(m, o), active, k))
    && (forall k :: k in n ==> HasAttrs(m, o, k, n[k].attr))
  }

  lemma SurvivorsCommitted(m: map<Kind, Job>, o: map<Kind, Job>, active: bool, joined: map<Kind, Job>, n: map<Kind, Job>)
    requires joined.Keys == Together(m, o) && (forall k :: k in joined ==> HasAttrs(m, o, k, joined[k].attr)) && Survive(joined, active, n)
    ensures IsCommitted(m, o, active, n)
  {
  }

  lemma CommitStepJobs(u: Unit, s: UnitState, row: Row, o: map<Kind, Job>, active: bool, s': UnitState)
    requires CleanUnit(u, s) && StagedOk(u, o) && o != map[] && !Conflict(CommitMerge(s, row, o, false).0.suspends)
    requires s' == CommitStep(s, row, o, false, active).s
    ensures IsCommitted(s.suspends, o, active, s'.suspends)
  {
    var (s2, row2) := CommitMerge(s, row, o, false);
    MergeFrame(s, row, o, false, s2);
    JoinedJobs(u, s, o, s2.suspends);
    if s2.order {
      KnownKinds(s, row, o, s2);
      NobodyMakesWay(s2.suspends, active);
    } else {
      SurvivorsExact(s2, row2, active, Reshuffle(s2, row2, active).0);
    }
    SurvivorsCommitted(s.suspends, o, active, s2.suspends, s'.suspends);
  }

  lemma KnownKinds(s: UnitState, row: Row, o: map<Kind, Job>, s2: UnitState)
    requires s.order && !s.dirty && AtMostOneMut(s.suspends) && s2 == CommitMerge(s, row, o, false).0 && s2.order
    ensures !s2.dirty && AtMostOneMut(s2.suspends)
  {
    assert !ConflictWith(s.suspends, o);
    var m := UnionSuspends(s.suspends, o);
    assert s2 == AddSuspends(s, row, o).0 && o.Keys <= s.suspends.Keys;
    assert m.Keys == s.suspends.Keys;
  }

  /** After a commit a unit that something was staged for has pending exactly what came together in it and made
      no way, with the attributes of both sides. */
  lemma CommittedJobs(t: Table, stage: map<Unit, map<Kind, Job>>, iso: set<Unit>, active: set<Unit>, g: Graph, u: Unit, t': Table)
    requires TableInv(t) && StageOk(t, stage) && IsoOk(t, stage, iso) && Mergeable(t, stage, iso) && u in stage
    requires t' == Commit(t, stage, iso, active, g)
    ensures u in t'.data
    ensures IsCommitted(At(t, u).suspends, stage[u], u in active, t'.data[u].suspends)
  {
    var steps := CommitSteps(t, stage, iso, active);
    var t1 := Apply(t, steps);
    CommitApplied(t, stage, iso, active, t1);
    CleanAt(t, u);
    CommitStepJobs(u, At(t, u), RowAt(t, u), stage[u], u in active, steps[u].s);
    var k :| k in stage[u];
    RequestsArePending(t, stage, iso, active, g, u, k);
    ResumeOneFrame(t1, AllNeighbours(g, Flushed(t, stage, iso)), t', u);
  }

  lemma LoneStart(m: map<Kind, Job>, o: map<Kind, Job>, active: bool, n: map<Kind, Job>)
    requires !Conflict(m) && o.Keys == {Start} && o[Start].attr.irreversible && IsCommitted(m, o, active, n)
    ensures Start in n <==> Stop in m || !(Restart in m || (Reload in m && active))
    ensures Start in n ==> n[Start].attr.irreversible
    ensures Start !in n ==> forall k :: k in n ==> k in m && (n[k].attr.irreversible <==> m[k].attr.irreversible)
  {
    assert Upwards(Start) && Start in o;
    if Stop in m { assert Clashes(m, o); } else { assert !Clashes(m, o); }
  }

  /** A start that was requested as irreversible is irreversible as long as it is pending. But it is pending if
      and only if it made no way; where it made way for a restart or reload, that is irreversible only if it
      was before. */
  lemma IrreversibleStart(t: Table, stage: map<Unit, map<Kind, Job>>, iso: set<Unit>, active: set<Unit>, g: Graph, u: Unit, t': Table)
    requires TableInv(t) && StageOk(t, stage) && IsoOk(t, stage, iso) && Mergeable(t, stage, iso) && t' == Commit(t, stage, iso, active, g)
    requires u in stage && stage[u].Keys == {Start} && stage[u][Start].attr.irreversible
    ensures u in t'.data
    ensures var m, n := At(t, u).suspends, t'.data[u].suspends;
            && (Start in n <==> Stop in m || !(Restart in m || (Reload in m && u in active)))
            && (Start in n ==> n[Start].attr.irreversible)
            && (Start !in n ==> forall k :: k in n ==> k in m && (n[k].attr.irreversible <==> m[k].attr.irreversible))
  {
    CommittedJobs(t, stage, iso, active, g, u, t');
    CleanAt(t, u);
    LoneStart(At(t, u).suspends, stage[u], u in active, t'.data[u].suspends);
  }
}
