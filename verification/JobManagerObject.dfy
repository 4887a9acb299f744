/** Executing a request on the live objects: identifiers are allocated, the request is expanded and
    checked, and the table is changed as a whole or not at all. */
module JobManagerObject {
  import opened Jobs
  import opened JobTables
  import opened JobStepLaws
  import opened JobTableExact
  import opened JobQueue
  import opened JobTableObject
  import opened JobCommitObject
  import opened Transactions

  // ---------------------------------------------------------------- a free identifier

  lemma FreeExists(ids: set<nat>) returns (free: nat)
    requires |ids| < LIMIT
    ensures free < LIMIT && free !in ids
  {
    if Below(LIMIT) <= ids {
      SmallerSet(Below(LIMIT), ids);
      assert false;
    }
    free :| free in Below(LIMIT) && free !in ids;
  }

  // ---------------------------------------------------------------- the manager

  class JobManager {
    const jobs: JobTable
    const ja: JobAlloc

    constructor ()
      ensures Valid() && fresh(jobs) && fresh(jobs.queue) && fresh(ja)
    {
      jobs := new JobTable();
      ja := new JobAlloc();
    }

    /** Every identifier in the table came from the allocator. */
    ghost predicate Valid()
      reads this, jobs, jobs.queue, ja
    {
      && jobs.Valid()
      && ja.lastId < LIMIT
      && forall h :: h in jobs.ids ==> h.id in ja.ids
    }

    /** One identifier for each job to be staged: new, distinct, and in use by no job. */
    method AllocAll(r: set<Conf>) returns (ids: Ids)
      requires ja.lastId < LIMIT && |ja.ids| + |r| <= LIMIT
      modifies ja
      ensures ja.lastId < LIMIT && old(ja.ids) <= ja.ids && ids.Keys == r
      ensures forall x :: x in ids ==> ids[x] in ja.ids && ids[x] !in old(ja.ids)
      ensures forall x, y :: x in ids && y in ids && ids[x] == ids[y] ==> x == y
    {
      ids := map[];
      var left := r;
      while left != {}
        invariant left <= r && ids.Keys == r - left && ja.lastId < LIMIT && old(ja.ids) <= ja.ids
        invariant |ja.ids| + |left| <= LIMIT
        invariant forall x :: x in ids ==> ids[x] in ja.ids && ids[x] !in old(ja.ids)
        invariant forall x, y :: x in ids && y in ids && ids[x] == ids[y] ==> x == y
        decreases left
      {
        var c :| c in left;
        assert |left - {c}| == |left| - 1;
        ghost var free := FreeExists(ja.ids);
        var id := ja.AllocId(free);
        ids := ids[c := id];
        left := left - {c};
      }
    }

    /** A refused request leaves the table and what is persisted as they were. A plan is committed as a
        whole. In both cases the table stays in agreement and free of conflicts. A plan `breaks` the agreement,
        and is not carried out here, exactly when it flushes a unit that is about to be interrupted. */
    method Exec(env: Env, c: Conf, mode: Mode, ignored: set<Unit>, g: Graph) returns (o: Outcome, ids: Ids, breaks: bool)
      requires Valid() && EnvOk(env) && c.unit in env.units
      requires |ja.ids| + |Staged(env, c, mode, ignored).0| <= LIMIT
      modifies jobs, jobs.queue, ja
      ensures Valid()
      ensures forall x :: x in Staged(env, c, mode, ignored).0 ==> x in ids
      ensures o == Transactions.Exec(old(jobs.View()), env, c, mode, ids, ignored)
      ensures o.Refused? || breaks ==> jobs.View() == old(jobs.View())
      ensures o.Plan? ==> o.iso <= old(jobs.data.Keys) && Mergeable(old(jobs.View()), o.stage, o.iso)
      ensures breaks <==> o.Plan? && !NoneInterrupting(old(jobs.View()), o.iso)
      ensures breaks ==> !TableInv(Commit(old(jobs.View()), o.stage, o.iso, env.active, g))
      ensures o.Plan? && !breaks ==> jobs.View() == Commit(old(jobs.View()), o.stage, o.iso, env.active, g)
    {
      ghost var t := jobs.View();
      var r := Staged(env, c, mode, ignored).0;
      ids := AllocAll(r);
      IdsAreOk(t, r, ids, old(ja.ids));
      PlanIsLegal(t, env, c, mode, ids, ignored);
      LiveIsConflictFree(t);
      o := Decide(env, c, mode, ids, ignored);
      breaks := false;
      if o.Refused? { return; }
      breaks := exists u :: u in o.iso && jobs.data[u].interrupt;
      CommitExact(t, o.stage, o.iso, env.active, g);
      if breaks { return; }
      CommitStage(jobs, o.stage, o.iso, env.active, g);
      CommittedIds(t, o.stage, o.iso, env.active, g);
      StagedIds(r, ids, mode, ja.ids);
    }

    method Decide(env: Env, c: Conf, mode: Mode, ids: Ids, ignored: set<Unit>) returns (o: Outcome)
      requires ConflictFree(jobs.View()) && EnvOk(env) && c.unit in env.units
      requires forall x :: x in Staged(env, c, mode, ignored).0 ==> x in ids
      ensures o == Transactions.Exec(jobs.View(), env, c, mode, ids, ignored)
      ensures o.Plan? ==> o.stage == BuildStage(Staged(env, c, mode, ignored).0, ids, mode)
    {
      ExecReadsData(jobs.View(), Table(jobs.data, map[], {}, {}, map[]), env, c, mode, ids, ignored);
      o := Transactions.Exec(Table(jobs.data, map[], {}, {}, map[]), env, c, mode, ids, ignored);
    }
  }

  lemma ExecReadsData(t: Table, t': Table, env: Env, c: Conf, mode: Mode, ids: Ids, ignored: set<Unit>)
    requires t'.data == t.data && ConflictFree(t)
    requires EnvOk(env) && c.unit in env.units
    requires forall x :: x in Staged(env, c, mode, ignored).0 ==> x in ids
    ensures ConflictFree(t')
    ensures Transactions.Exec(t', env, c, mode, ids, ignored) == Transactions.Exec(t, env, c, mode, ids, ignored)
  {
  }

  lemma LiveIsConflictFree(t: Table)
    requires UnitsClean(t)
    ensures ConflictFree(t)
  {
  }

  lemma IdsAreOk(t: Table, r: set<Conf>, ids: Ids, used: set<nat>)
    requires (forall h :: h in t.ids ==> h.id in used) && ids.Keys == r
    requires forall x :: x in ids ==> ids[x] !in used
    requires forall x, y :: x in ids && y in ids && ids[x] == ids[y] ==> x == y
    ensures IdsOk(t, r, ids)
  {
  }

  lemma CommittedIds(t: Table, stage: Staging, iso: set<Unit>, active: set<Unit>, g: Graph)
    requires TableInv(t) && StageOk(t, stage) && IsoOk(t, stage, iso) && Mergeable(t, stage, iso)
    ensures Commit(t, stage, iso, active, g).ids <= t.ids + StageRefs(stage)
  {
    var steps := CommitSteps(t, stage, iso, active);
    var t1 := Apply(t, steps);
    var rest := ResumeSteps(t1, AllNeighbours(g, Flushed(t, stage, iso)));
    assert Adds(rest) == {};
    forall h | h in Adds(steps)
      ensures h in StageRefs(stage)
    {
      var u :| u in steps && h in steps[u].adds;
      CommitStepAt(t, stage, iso, active, u);
    }
  }

  lemma StagedIds(r: set<Conf>, ids: Ids, mode: Mode, used: set<nat>)
    requires ids.Keys == r && forall x :: x in ids ==> ids[x] in used
    ensures forall h :: h in StageRefs(BuildStage(r, ids, mode)) ==> h.id in used
  {
    var stage := BuildStage(r, ids, mode);
    forall h | h in StageRefs(stage)
      ensures h.id in used
    {
      var u, k :| u in stage && k in stage[u] && h == Ref(stage[u][k]);
      assert Conf(u, k) in r && h.id == ids[Conf(u, k)];
    }
  }
}
