/** The unit entry as the object that is updated in place, assertion by assertion. Each method leaves
    what the operation of the same purpose says, and keeps the entry consistent and persisted. */
module JobUnitObject {
  import opened Jobs
  import opened JobUnits
  import opened JobUnitLaws
  import opened JobStepLaws

  class JobUnit {
    const unit: Unit
    var suspends: map<Kind, Job>
    var trigger: Option<Job>
    var order: bool
    var sq: seq<Handle>
    var interrupt: bool
    var retrigger: bool
    var dirty: bool
    var pause: bool
    var ready: bool
    var upReady: bool

    /** What is persisted for this unit. */
    var row: Row

    ghost function View(): UnitState
      reads this
    {
      UnitState(suspends, trigger, order, sq, interrupt, retrigger, dirty, pause, ready, upReady)
    }

    ghost predicate Valid()
      reads this
    {
      UnitInv(unit, View()) && Mirror(View(), row)
    }

    constructor (u: Unit)
      ensures unit == u && View() == NEW_UNIT && row == EMPTY_ROW && Valid()
    {
      unit := u;
      suspends, trigger, order, sq := map[], None, true, [];
      interrupt, retrigger, dirty, pause, ready, upReady := false, false, false, false, false, false;
      row := EMPTY_ROW;
      new;
      CanonShape(map[]);
    }

    // -------------------------------------------------------------- readiness

    method ComputeReady() returns (r: Option<bool>)
      requires ReadyAsserts(View())
      ensures r == CalcReady(View())
    {
      if pause || !order { return None; }
      match (trigger.Some?, sq != [])
      case (true, true) =>
        r := if interrupt then Some(true) else if retrigger then Some(false) else None;
      case (true, false) =>
        assert !interrupt;
        r := if retrigger then Some(false) else None;
      case (false, true) =>
        assert !interrupt;
        r := Some(true);
      case (false, false) =>
        r := None;
    }

    method RefreshReady()
      requires ReadyAsserts(View())
      modifies this`ready
      ensures View() == UpdateReady(old(View()))
    {
      var r := ComputeReady();
      ready := r.Some?;
    }

    // -------------------------------------------------------------- pending jobs

    method Insert(job: Job, operate: bool)
      requires IsBasic(job.kind) && (trigger.Some? ==> trigger.value.id != job.id) && job.kind !in suspends
      requires operate ==> job.stage.Init?
      modifies this
      ensures (View(), row) == InsertSuspend(old(View()), old(row), job, operate)
    {
      suspends := suspends[job.kind := job];
      order := false;
      dirty := true;
      RefreshReady();
      if operate {
        var (j, r) := WaitJob(job, row);
        suspends := suspends[job.kind := j];
        row := r;
        assert suspends == old(suspends)[job.kind := j];
      }
    }

    method TakeOut(kind: Kind, result: JobResult) returns (del: Option<Job>)
      requires kind in suspends ==> suspends[kind].stage.Wait?
      modifies this
      ensures (View(), row, del) == RemoveSuspend(old(View()), old(row), kind, result)
    {
      var was := suspends;
      suspends := suspends - {kind};
      order := false;
      dirty := true;
      RefreshReady();
      if kind in was {
        var (j, r, _) := FinishJob(was[kind], row, result);
        row := r;
        del := Some(j);
      } else {
        del := None;
      }
    }

    /** With any result; a job that the result does not end leaves its row behind. */
    method Remove(kind: Kind, result: JobResult) returns (del: Option<Job>)
      requires Valid() && !Conflict(suspends)
      modifies this
      ensures (View(), row, del) == RemoveSuspend(old(View()), old(row), kind, result)
      ensures UnitInv(unit, View()) && !Conflict(suspends)
      ensures Valid() <==> kind !in old(suspends) || EndsPending(kind, result)
      ensures kind in old(suspends) && EndsPending(kind, result) ==> del == Some(old(suspends)[kind].(stage := End(result)))
    {
      Removed(unit, View(), row, kind, result);
      del := TakeOut(kind, result);
    }

    /** Each of the jobs is finished, in whatever order they are visited; their rows are gone then. */
    method FinishEach(was: map<Kind, Job>, result: JobResult)
      requires !result.Done? && forall k :: k in was ==> was[k].stage.Wait? && was[k].kind == k
      modifies this`row
      ensures row == old(row).(susp := old(row).susp - was.Keys)
    {
      var left := was.Keys;
      while left != {}
        invariant left <= was.Keys
        invariant row == old(row).(susp := old(row).susp - (was.Keys - left))
        decreases left
      {
        var k :| k in left;
        row := FinishJob(was[k], row, result).1;
        left := left - {k};
        assert row.susp == old(row).susp - (was.Keys - left);
      }
      assert was.Keys - {} == was.Keys;
    }

    /** Every pending job is cancelled. */
    method Flush() returns (dels: map<Kind, Job>)
      requires Valid()
      modifies this
      ensures (View(), row) == FlushSuspends(old(View()), old(row))
      ensures Valid() && dels == old(suspends)
    {
      Waiting(unit, View());
      dels := suspends;
      Empty();
      FinishEach(dels, Cancelled);
      FlushKeeps(unit, old(View()), old(row), View(), row);
    }

    method Empty()
      modifies this
      ensures View() == FlushSuspends(old(View()), old(row)).0 && row == old(row)
    {
      suspends := map[];
      order := false;
      dirty := true;
      RefreshReady();
    }

    method TakeIn(job: Job)
      requires IsBasic(job.kind) && job.stage.Init? && (trigger.Some? ==> trigger.value.id != job.id)
      requires job.kind in suspends ==> suspends[job.kind].stage.Wait? && suspends[job.kind].kind == job.kind
      modifies this
      ensures (View(), row) == Added((old(View()), old(row)), job, job.kind in old(suspends))
    {
      if job.kind in suspends {
        var (j, r) := MergeAttr(suspends[job.kind], job.attr, row);
        suspends := suspends[job.kind := j];
        row := r;
      } else {
        Insert(job, true);
      }
    }

    method TakeInNext(job: Job, ghost s: UnitState, ghost r0: Row, ghost done: map<Kind, Job>)
      requires IsAdded(s, r0, done, (View(), row)) && job.kind !in done
      requires IsBasic(job.kind) && job.stage.Init? && (s.trigger.Some? ==> s.trigger.value.id != job.id)
      requires job.kind in s.suspends ==> s.suspends[job.kind].stage.Wait? && s.suspends[job.kind].kind == job.kind
      modifies this
      ensures IsAdded(s, r0, done[job.kind := job], (View(), row))
    {
      AddOne(s, r0, done, job.kind, job, (View(), row));
      TakeIn(job);
    }

    /** The union with the staged jobs: a pending job of the same kind takes over the attributes, any
        other staged job is added. */
    method Union(o: map<Kind, Job>)
      requires Staged(o) && (trigger.Some? ==> forall k :: k in o ==> o[k].id != trigger.value.id)
      requires forall k :: k in suspends ==> suspends[k].stage.Wait? && suspends[k].kind == k
      modifies this
      ensures (View(), row) == AddSuspends(old(View()), old(row), o)
    {
      ghost var s, r0 := View(), row;
      var left := o.Keys;
      AllParts(o);
      AddNothing(s, r0);
      while left != {}
        invariant left <= o.Keys && IsAdded(s, r0, o - left, (View(), row))
        decreases left
      {
        var k :| k in left;
        OneMore(o, left, k);
        TakeInNext(o[k], s, r0, o - left);
        left := left - {k};
      }
    }

    method MergeIn(o: map<Kind, Job>) returns (dels: map<Kind, Job>)
      requires Valid() && StagedOk(unit, o) && (trigger.Some? ==> forall k :: k in o ==> o[k].id != trigger.value.id)
      modifies this
      ensures (View(), row) == MergeSuspends(old(View()), old(row), o)
      ensures Valid() && !Conflict(suspends)
      ensures dels == if ConflictWith(old(suspends), o) then old(suspends) else map[]
    {
      dels := map[];
      if ConflictWith(suspends, o) {
        dels := Flush();
      }
      KeyedPending(unit, View());
      Union(o);
      MergeKeeps(unit, old(View()), old(row), o, View(), row);
    }

    // -------------------------------------------------------------- ordering

    method Merge(kind: Kind, merged: map<Kind, Job>) returns (more: map<Kind, Job>)
      modifies this`suspends
      ensures suspends == old(suspends) - {kind}
      ensures more == if kind in old(suspends) then merged[kind := old(suspends)[kind]] else merged
    {
      more := if kind in suspends then merged[kind := suspends[kind]] else merged;
      suspends := suspends - {kind};
    }

    method MergePending(active: bool) returns (merged: map<Kind, Job>)
      requires !order
      modifies this`suspends
      ensures suspends == old(suspends) - MergedKinds(old(suspends), active)
      ensures merged.Keys == MergedKinds(old(suspends), active)
      ensures forall k :: k in merged ==> k in old(suspends) && merged[k] == old(suspends)[k]
    {
      merged := map[];
      if Stop in suspends { return; }
      if Restart in suspends {
        merged := Merge(Start, merged);
        merged := Merge(Reload, merged);
      } else if Start in suspends && Reload in suspends {
        merged := Merge(if active then Start else Reload, merged);
      }
    }

    method PushBack(kind: Kind)
      modifies this`sq
      ensures sq == old(sq) + Slot(suspends, kind)
    {
      if kind in suspends {
        sq := sq + [Ref(suspends[kind])];
      }
    }

    method OrderSq()
      requires !Conflict(suspends) && AtMostOneMut(suspends)
      modifies this`sq
      ensures sq == Canon(suspends)
    {
      CanonInTurn(suspends);
      sq := [];
      if Stop in suspends {
        PushBack(Stop);
      } else {
        PushBack(Restart);
        PushBack(Start);
        PushBack(Reload);
        assert |sq| <= 1;
        PushBack(Verify);
        PushBack(Nop);
        assert |sq| <= 3;
      }
    }

    method OrderPending(active: bool) returns (merged: map<Kind, Job>)
      requires !order && !Conflict(suspends)
      modifies this`suspends, this`sq, this`order
      ensures View() == Ordered(old(View()), active)
      ensures merged.Keys == MergedKinds(old(suspends), active)
      ensures forall k :: k in merged ==> k in old(suspends) && merged[k] == old(suspends)[k]
    {
      MergedLeavesOneMut(suspends, active, suspends - MergedKinds(suspends, active));
      merged := MergePending(active);
      OrderSq();
      order := true;
    }

    method PrepareMerge()
      requires order
      modifies this`interrupt
      ensures View() == Prepared(old(View()))
    {
      if trigger.Some? && sq != [] {
        interrupt := StopLike(sq[0].kind);
      }
    }

    method OrderAndPrepare(active: bool) returns (merged: map<Kind, Job>)
      requires UnitInv(unit, View()) && !Conflict(suspends) && !(interrupt && !order && suspends == map[] && !pause)
      modifies this
      ensures View() == Reshuffle(old(View()), old(row), active).0 && row == old(row)
      ensures merged.Keys == if old(order) then {} else MergedKinds(old(suspends), active)
      ensures forall k :: k in merged ==> k in old(suspends) && merged[k] == old(suspends)[k]
    {
      ReshuffleInSteps(unit, View(), row, active);
      merged := map[];
      if !order {
        merged := OrderPending(active);
      }
      PrepareMerge();
      RefreshReady();
    }

    /** Ordering fires an assertion exactly when a unit that is not paused was about to be interrupted and
        nothing is pending any more. Otherwise the unit is in order, unless that is so and it is paused. */
    method Reorder(active: bool) returns (merged: map<Kind, Job>, fires: bool)
      requires Valid() && !Conflict(suspends)
      modifies this
      ensures fires <==> old(interrupt && !order && suspends == map[] && !pause)
      ensures fires <==> !ReadyAsserts(Reshuffle(old(View()), old(row), active).0)
      ensures fires ==> View() == old(View()) && row == old(row)
      ensures !fires ==> (View(), row) == Reshuffle(old(View()), old(row), active)
      ensures !fires ==> (Valid() <==> !old(interrupt && !order && suspends == map[]))
      ensures !fires ==> merged.Keys == if old(order) then {} else MergedKinds(old(suspends), active)
      ensures !fires && !old(order) ==> Survive(old(suspends), active, suspends)
      ensures forall k :: k in merged ==> k in old(suspends) && merged[k] == old(suspends)[k]
    {
      ReshuffleAssertExact(unit, View(), row, active, Reshuffle(View(), row, active).0);
      if !order { SurvivorsExact(View(), row, active, Reshuffle(View(), row, active).0); }
      fires := interrupt && !order && suspends == map[] && !pause;
      merged := map[];
      if !fires { merged := OrderAndFinish(active); }
    }

    method OrderAndFinish(active: bool) returns (merged: map<Kind, Job>)
      requires Valid() && !Conflict(suspends) && !(interrupt && !order && suspends == map[] && !pause)
      modifies this
      ensures (View(), row) == Reshuffle(old(View()), old(row), active)
      ensures Valid() <==> !old(interrupt && !order && suspends == map[])
      ensures merged.Keys == if old(order) then {} else MergedKinds(old(suspends), active)
      ensures forall k :: k in merged ==> k in old(suspends) && merged[k] == old(suspends)[k]
    {
      Waiting(unit, View());
      merged := OrderAndPrepare(active);
      FinishEach(merged, Merged);
      ReorderedValid(unit, old(View()), old(row), active, View(), row);
    }

    // -------------------------------------------------------------- pausing, triggering, finishing

    method PauseIt()
      requires Valid() && order
      modifies this
      ensures View() == Pause(old(View())) && row == old(row) && Valid()
    {
      PauseResumeKeep(unit, View());
      dirty := true;
      pause := true;
      RefreshReady();
    }

    method ResumeIt()
      requires Valid() && order
      modifies this
      ensures View() == Resume(old(View())) && row == old(row) && Valid()
    {
      PauseResumeKeep(unit, View());
      dirty := true;
      pause := false;
      RefreshReady();
    }

    method NextPending() returns (next: Job, merged: Option<Job>)
      requires CalcReady(View()) == Some(true) && HasNext(View()) && (trigger.Some? <==> interrupt)
      modifies this
      ensures View() == DoNextTrigger(old(View())) && row == old(row)
      ensures next == Next(old(View())) && merged == Interrupted(old(View()))
    {
      assert sq != [] && order;
      merged := None;
      if interrupt {
        interrupt := false;
        retrigger := false;
        merged := trigger;
        trigger := None;
      }
      assert trigger.None?;
      next := suspends[sq[0].kind];
      trigger := Some(next);
      sq := sq[1..];
      suspends := suspends - {next.kind};
      dirty := true;
      RefreshReady();
    }

    method NextAgain() returns (next: Job)
      requires CalcReady(View()) == Some(false) && HasNext(View()) && !interrupt
      modifies this
      ensures View() == DoNextTrigger(old(View())) && row == old(row)
      ensures next == Next(old(View())) && Interrupted(old(View())) == None
    {
      assert trigger.Some? && retrigger && order;
      next := trigger.value;
      assert !interrupt;
      retrigger := false;
      dirty := true;
      RefreshReady();
    }

    /** Finish the job that is interrupted and run the next one. */
    method RunIt(next: Job, merged: Option<Job>) returns (j: Job)
      requires next.stage.Wait? || next.stage.Running?
      requires merged.Some? ==> merged.value.stage.Running? && next.stage.Wait?
      modifies this`row, this`trigger
      ensures trigger == Some(j) && (j, row) == Ran(next, merged, old(row))
    {
      j := next;
      if merged.Some? {
        if merged.value.kind == next.kind {
          var (a, r) := MergeAttr(j, merged.value.attr, row);
          j, row := a, r;
        }
        row := FinishJob(merged.value, row, Merged).1;
      }
      var (a, r) := RunJob(j, row);
      j, row := a, r;
      trigger := Some(j);
    }

    method Settle(again: bool)
      requires trigger.Some? && order && !pause && !retrigger && !interrupt
      modifies this
      ensures View() == UpdateReady(old(View()).(pause := again, retrigger := again, dirty := old(dirty) || again)) && row == old(row)
    {
      if again {
        dirty := true;
        pause := true;
        RefreshReady();
        retrigger := true;
        dirty := true;
      }
      RefreshReady();
    }

    method TakeNext() returns (next: Job, merged: Option<Job>)
      requires UnitInv(unit, View()) && CalcReady(View()).Some? && HasNext(View())
      modifies this
      ensures View() == DoNextTrigger(old(View())) && row == old(row)
      ensures next == Next(old(View())) && merged == Interrupted(old(View()))
    {
      var r := ComputeReady();
      if r.value {
        next, merged := NextPending();
      } else {
        next := NextAgain();
        merged := None;
      }
    }

    method TriggerNext(answer: Answer) returns (merged: Option<Job>)
      requires UnitInv(unit, View()) && CalcReady(View()).Some? && HasNext(View()) && TriggerStages(View())
      modifies this
      ensures (View(), row) == DoTrigger(old(View()), old(row), answer)
      ensures merged == Interrupted(old(View()))
    {
      DoNextTriggerKeeps(unit, View(), DoNextTrigger(View()));
      DoTriggerInSteps(View(), row, answer, DoNextTrigger(View()));
      var next;
      next, merged := TakeNext();
      ghost var n := View();
      var j := RunIt(next, merged);
      assert View() == n.(trigger := Some(j));
      Settle(answer.RunAgain?);
    }

    /** Trigger the ready unit. A triggered job is replaced only by being returned as merged. */
    method Trigger(answer: Answer) returns (merged: Option<Job>)
      requires Valid() && CalcReady(View()).Some?
      modifies this
      ensures HasNext(old(View())) && TriggerStages(old(View()))
      ensures (View(), row) == DoTrigger(old(View()), old(row), answer)
      ensures merged == Interrupted(old(View()))
      ensures Valid() && !ready
    {
      DoTriggerKeeps(unit, View(), row, answer);
      merged := TriggerNext(answer);
    }

    method AdoptTrigger(job: Job)
      requires trigger.None? && suspends == map[] && sq == [] && IsBasic(job.kind) && order && !interrupt
      modifies this
      ensures View() == InsertTrigger(old(View()), job) && row == old(row)
    {
      trigger := Some(job);
      retrigger := true;
      dirty := true;
      RefreshReady();
    }

    method FinishTriggered(result: JobResult) returns (del: Option<Job>)
      requires Valid() && order && trigger.Some?
      modifies this
      ensures (View(), row, del) == FinishTrigger(old(View()), old(row), result)
      ensures Valid()
    {
      var (j, r, again) := FinishJob(trigger.value, row, result);
      row := r;
      if again {
        trigger := Some(j);
        retrigger := true;
        del := None;
      } else {
        interrupt := false;
        retrigger := false;
        trigger := None;
        del := Some(j);
      }
      dirty := true;
      FinishTriggerKeeps(unit, old(View()), old(row), result, UpdateReady(View()), row, del);
      RefreshReady();
    }
  }

  lemma DoTriggerInSteps(s: UnitState, row: Row, answer: Answer, n: UnitState)
    requires CalcReady(s).Some? && HasNext(s) && TriggerStages(s) && n == DoNextTrigger(s)
    ensures n.dirty && n.pause == s.pause
    ensures var (j, row') := Ran(Next(s), Interrupted(s), row);
            DoTrigger(s, row, answer)
            == (UpdateReady(n.(trigger := Some(j), pause := answer.RunAgain?, retrigger := answer.RunAgain?)), row')
  {
  }

  function Ran(next: Job, merged: Option<Job>, row: Row): (Job, Row)
    requires next.stage.Wait? || next.stage.Running?
    requires merged.Some? ==> merged.value.stage.Running? && next.stage.Wait?
  {
    if merged.Some? then
      var (j, row1) := if merged.value.kind == next.kind then MergeAttr(next, merged.value.attr, row) else (next, row);
      RunJob(j, FinishJob(merged.value, row1, Merged).1)
    else
      RunJob(next, row)
  }

  lemma Removed(u: Unit, s: UnitState, row: Row, k: Kind, result: JobResult)
    requires UnitInv(u, s) && Mirror(s, row) && !Conflict(s.suspends)
    ensures var (s', row', del) := RemoveSuspend(s, row, k, result);
            && UnitInv(u, s') && !Conflict(s'.suspends)
            && (Mirror(s', row') <==> k !in s.suspends || EndsPending(k, result))
            && (k in s.suspends && EndsPending(k, result) ==> del == Some(s.suspends[k].(stage := End(result))))
  {
    RemoveMirrorExact(u, s, row, k, result);
    RemoveKeeps(u, s, row, {k}, RemoveKinds(s, row, {k}).0, RemoveKinds(s, row, {k}).1);
    if EndsPending(k, result) { RemoveIsRemoveKinds(u, s, row, k, result); }
  }

  lemma CanonInTurn(m: map<Kind, Job>)
    ensures Canon(m) == if Stop in m then [] + Slot(m, Stop)
                        else [] + Slot(m, Restart) + Slot(m, Start) + Slot(m, Reload) + Slot(m, Verify) + Slot(m, Nop)
  {
    PickUnfold(m);
    if Stop !in m {
      var a, b, c, d, e := Slot(m, Restart), Slot(m, Start), Slot(m, Reload), Slot(m, Verify), Slot(m, Nop);
      Regroup(a, b, c, d, e);
    }
  }

  lemma Regroup(a: seq<Handle>, b: seq<Handle>, c: seq<Handle>, d: seq<Handle>, e: seq<Handle>)
    ensures a + (b + (c + (d + e))) == [] + a + b + c + d + e
  {
  }

  function Ordered(s: UnitState, active: bool): UnitState {
    s.(order := true, suspends := Leftover(s, active), sq := NewSq(s, active))
  }

  function Prepared(s: UnitState): UnitState {
    s.(interrupt := if s.trigger.Some? && s.sq != [] then StopLike(s.sq[0].kind) else s.interrupt)
  }

  lemma Waiting(u: Unit, s: UnitState)
    requires JobsOk(u, s)
    ensures forall k :: k in s.suspends ==> s.suspends[k].stage.Wait? && s.suspends[k].kind == k
  {
  }

  lemma ReshuffleInSteps(u: Unit, s: UnitState, row: Row, active: bool)
    requires UnitInv(u, s) && !Conflict(s.suspends) && !(s.interrupt && !s.order && s.suspends == map[] && !s.pause)
    ensures Reshuffle(s, row, active).0 == UpdateReady(Prepared(Ordered(s, active)))
    ensures s.order ==> Ordered(s, active) == s
    ensures ReadyAsserts(Prepared(Ordered(s, active)))
  {
    ReshuffleAssertExact(u, s, row, active, Reshuffle(s, row, active).0);
  }

  lemma ReorderedValid(u: Unit, s: UnitState, row: Row, active: bool, s': UnitState, row': Row)
    requires UnitInv(u, s) && Mirror(s, row) && !Conflict(s.suspends) && s' == Reshuffle(s, row, active).0
    requires row' == row.(susp := row.susp - if s.order then {} else MergedKinds(s.suspends, active))
    ensures (s', row') == Reshuffle(s, row, active)
    ensures Mirror(s', row') && (UnitInv(u, s') <==> !(s.interrupt && !s.order && s.suspends == map[]))
  {
    assert row.susp - {} == row.susp;
    ReshuffleExact(u, s, row, active, s');
    ReshuffleMirror(s, row, active, s', row');
  }

  ghost predicate Staged(o: map<Kind, Job>) {
    forall k :: k in o ==> o[k].kind == k && IsBasic(k) && o[k].stage.Init?
  }

  lemma AllParts(o: map<Kind, Job>)
    ensures o - o.Keys == map[] && o - {} == o
  {
  }

  lemma OneMore(o: map<Kind, Job>, left: set<Kind>, k: Kind)
    requires k in left && left <= o.Keys
    ensures k in o && k !in o - left && (o - left)[k := o[k]] == o - (left - {k})
  {
  }

  lemma UnionOne(m: map<Kind, Job>, p: map<Kind, Job>, k: Kind, j: Job)
    requires k !in p
    ensures k in UnionSuspends(m, p) <==> k in m
    ensures k in m ==> UnionSuspends(m, p)[k] == m[k]
    ensures UnionSuspends(m, p[k := j])
         == UnionSuspends(m, p)[k := if k in m then m[k].(attr := Or(m[k].attr, j.attr)) else j.(stage := Wait)]
  {
  }

  lemma RowHas(s: UnitState, row: Row, p: map<Kind, Job>, l: Kind)
    ensures l in AddSuspends(s, row, p).1.susp <==> l in row.susp || l in p
    ensures l in p ==> AddSuspends(s, row, p).1.susp[l] == UnionSuspends(s.suspends, p)[l].attr
    ensures l in row.susp && l !in p ==> AddSuspends(s, row, p).1.susp[l] == row.susp[l]
  {
  }

  lemma RowsOneAt(s: UnitState, row: Row, p: map<Kind, Job>, k: Kind, j: Job, l: Kind)
    requires k !in p && l != k
    ensures l in AddSuspends(s, row, p[k := j]).1.susp <==> l in AddSuspends(s, row, p).1.susp
    ensures l in AddSuspends(s, row, p).1.susp ==> AddSuspends(s, row, p[k := j]).1.susp[l] == AddSuspends(s, row, p).1.susp[l]
  {
    UnionOne(s.suspends, p, k, j);
    RowHas(s, row, p, l);
    RowHas(s, row, p[k := j], l);
  }

  lemma SameButOne(a: map<Kind, Attr>, b: map<Kind, Attr>, k: Kind)
    requires k in a && (forall l :: l != k ==> (l in a <==> l in b)) && (forall l :: l in b && l != k ==> a[l] == b[l])
    ensures a == b[k := a[k]]
  {
  }

  lemma RowsOne(s: UnitState, row: Row, p: map<Kind, Job>, k: Kind, j: Job)
    requires k !in p
    ensures AddSuspends(s, row, p[k := j]).1.susp
         == AddSuspends(s, row, p).1.susp[k := UnionSuspends(s.suspends, p[k := j])[k].attr]
  {
    forall l: Kind | l != k
      ensures l in AddSuspends(s, row, p[k := j]).1.susp <==> l in AddSuspends(s, row, p).1.susp
      ensures l in AddSuspends(s, row, p).1.susp ==> AddSuspends(s, row, p[k := j]).1.susp[l] == AddSuspends(s, row, p).1.susp[l]
    {
      RowsOneAt(s, row, p, k, j, l);
    }
    RowHas(s, row, p[k := j], k);
    SameButOne(AddSuspends(s, row, p[k := j]).1.susp, AddSuspends(s, row, p).1.susp, k);
  }

  ghost predicate IsAdded(s: UnitState, row: Row, p: map<Kind, Job>, a: (UnitState, Row)) {
    a == AddSuspends(s, row, p)
  }

  /** One more staged job. */
  lemma AddOne(s: UnitState, row: Row, p: map<Kind, Job>, k: Kind, j: Job, a: (UnitState, Row))
    requires k !in p && j.kind == k && IsAdded(s, row, p, a)
    ensures a.0.trigger == s.trigger
    ensures k in a.0.suspends <==> k in s.suspends
    ensures k in s.suspends ==> a.0.suspends[k] == s.suspends[k]
    ensures IsAdded(s, row, p[k := j], Added(a, j, k in s.suspends))
  {
    UnionOne(s.suspends, p, k, j);
    RowsOne(s, row, p, k, j);
  }

  lemma AddNothing(s: UnitState, row: Row)
    ensures AddSuspends(s, row, map[]) == (s, row)
  {
    assert UnionSuspends(s.suspends, map[]) == s.suspends;
    assert AddSuspends(s, row, map[]).1.susp == row.susp;
  }

  function Added(a: (UnitState, Row), j: Job, known: bool): (UnitState, Row) {
    var n := if known && j.kind in a.0.suspends then a.0.suspends[j.kind].(attr := Or(a.0.suspends[j.kind].attr, j.attr))
             else j.(stage := Wait);
    (if known then a.0.(suspends := a.0.suspends[j.kind := n])
     else a.0.(suspends := a.0.suspends[j.kind := n], order := false, dirty := true, ready := false),
     a.1.(susp := a.1.susp[j.kind := n.attr]))
  }
}
