/** What every operation on a unit's jobs keeps. */
module JobUnitLaws {
  import opened Jobs
  import opened JobUnits

  // ---------------------------------------------------------------- the running order

  ghost predicate Keyed(m: map<Kind, Job>) {
    forall k :: k in m ==> m[k].kind == k && IsBasic(k)
  }

  lemma PickMembers(m: map<Kind, Job>, ks: seq<Kind>)
    requires Keyed(m)
    ensures forall h :: h in Pick(m, ks) <==> h.kind in m && h.kind in ks && Ref(m[h.kind]) == h
  {
  }

  lemma PickSame(m: map<Kind, Job>, n: map<Kind, Job>, ks: seq<Kind>)
    requires forall k :: k in ks ==> Slot(m, k) == Slot(n, k)
    ensures Pick(m, ks) == Pick(n, ks)
  {
  }

  lemma PickCons(m: map<Kind, Job>, k: Kind, ks: seq<Kind>)
    ensures Pick(m, [k] + ks) == Slot(m, k) + Pick(m, ks)
  {
    assert ([k] + ks)[1..] == ks;
  }

  lemma PickUnfold(m: map<Kind, Job>)
    ensures Pick(m, [Stop]) == Slot(m, Stop)
    ensures Pick(m, [Restart, Start, Reload, Verify, Nop])
         == Slot(m, Restart) + (Slot(m, Start) + (Slot(m, Reload) + (Slot(m, Verify) + Slot(m, Nop))))
  {
    PickCons(m, Stop, []);
    PickCons(m, Nop, []);
    PickCons(m, Verify, [Nop]);
    PickCons(m, Reload, [Verify, Nop]);
    PickCons(m, Start, [Reload, Verify, Nop]);
    PickCons(m, Restart, [Start, Reload, Verify, Nop]);
    assert [Restart] + [Start, Reload, Verify, Nop] == [Restart, Start, Reload, Verify, Nop];
    assert [Start] + [Reload, Verify, Nop] == [Start, Reload, Verify, Nop];
    assert [Reload] + [Verify, Nop] == [Reload, Verify, Nop];
    assert [Verify] + [Nop] == [Verify, Nop];
    assert [Nop] + [] == [Nop] && [Stop] + [] == [Stop];
  }

  lemma CanonMembers(m: map<Kind, Job>)
    requires Keyed(m) && !Conflict(m)
    ensures forall h :: h in Canon(m) ==> h.kind in m && Ref(m[h.kind]) == h
    ensures forall k :: k in m && !(Stop in m && k.Nop?) ==> Ref(m[k]) in Canon(m)
  {
    var ks := if Stop in m then [Stop] else [Restart, Start, Reload, Verify, Nop];
    PickMembers(m, ks);
    forall k | k in m && !(Stop in m && k.Nop?)
      ensures Ref(m[k]) in Canon(m)
    {
      assert k in ks;
    }
  }

  lemma CanonFront(m: map<Kind, Job>)
    requires Keyed(m) && !Conflict(m) && AtMostOneMut(m)
    ensures |Canon(m)| <= 3
    ensures m != map[] ==> Canon(m) != []
    ensures Canon(m) != [] ==> StopLike(Canon(m)[0].kind) == (Stop in m || Restart in m)
  {
    PickUnfold(m);
    if m != map[] {
      var k :| k in m;
      assert Stop in m || Slot(m, k) != [];
    }
  }

  /** What the running order holds: every pending job, in front the one that changes the unit. */
  lemma CanonShape(m: map<Kind, Job>)
    requires Keyed(m) && !Conflict(m) && AtMostOneMut(m)
    ensures Canon(m) == [] <==> m == map[]
    ensures |Canon(m)| <= 3
    ensures forall h :: h in Canon(m) ==> h.kind in m && Ref(m[h.kind]) == h
    ensures forall k :: k in m && !(Stop in m && k.Nop?) ==> Ref(m[k]) in Canon(m)
    ensures m != map[] ==> StopLike(Canon(m)[0].kind) == (Stop in m || Restart in m)
  {
    CanonMembers(m);
    CanonFront(m);
    if Canon(m) != [] {
      assert Canon(m)[0] in Canon(m);
    }
  }

  lemma {:induction false} PickTail(m: map<Kind, Job>, ks: seq<Kind>)
    requires Keyed(m) && Pick(m, ks) != []
    requires forall i, j :: 0 <= i < j < |ks| ==> ks[i] != ks[j]
    ensures Pick(m, ks)[1..] == Pick(m - {Pick(m, ks)[0].kind}, ks)
  {
    var rest := m - {Pick(m, ks)[0].kind};
    if ks[0] in m {
      PickSame(m, rest, ks[1..]);
    } else {
      PickTail(m, ks[1..]);
    }
  }

  lemma StopTail(m: map<Kind, Job>, rest: map<Kind, Job>)
    requires Keyed(m) && !Conflict(m) && Stop in m && rest == m - {Stop}
    ensures Canon(m) == [Ref(m[Stop])]
    ensures Canon(rest) == [] <==> Nop !in m
    ensures Nop in m ==> rest.Keys == {Nop}
  {
    PickUnfold(m);
    assert forall k :: k in rest ==> k.Nop?;
    CanonShape(rest);
    if Nop in m {
      assert rest.Keys == {Nop};
    } else {
      assert rest == map[];
    }
  }

  lemma OthersTail(m: map<Kind, Job>)
    requires Keyed(m) && Stop !in m && Canon(m) != []
    ensures Canon(m)[1..] == Canon(m - {Canon(m)[0].kind})
  {
    PickTail(m, [Restart, Start, Reload, Verify, Nop]);
  }

  /** Taking the first job leaves the running order of the rest if and only if it is not a stop that a
      nop is pending with; then the nop is all that is left, and it is queued nowhere. */
  lemma CanonTail(m: map<Kind, Job>)
    requires Keyed(m) && !Conflict(m) && AtMostOneMut(m) && m != map[]
    ensures Canon(m) != []
    ensures Canon(m)[1..] == Canon(m - {Canon(m)[0].kind}) <==> !(Stop in m && Nop in m)
    ensures Stop in m && Nop in m ==> Canon(m)[1..] == [] && (m - {Canon(m)[0].kind}).Keys == {Nop}
  {
    CanonShape(m);
    if Stop in m {
      StopTail(m, m - {Stop});
    } else {
      OthersTail(m);
    }
  }

  /** A stop is alone in the running order. Without one the job that changes the unit comes first, then the
      verify, then the nop. */
  lemma CanonOrder(m: map<Kind, Job>)
    requires AtMostOneMut(m)
    ensures Stop in m ==> Canon(m) == [Ref(m[Stop])]
    ensures Stop !in m ==>
              Canon(m) == (if Restart in m then [Ref(m[Restart])] else if Start in m then [Ref(m[Start])]
                           else if Reload in m then [Ref(m[Reload])] else [])
                          + (if Verify in m then [Ref(m[Verify])] else [])
                          + (if Nop in m then [Ref(m[Nop])] else [])
  {
    PickUnfold(m);
    if Stop !in m {
      var front := if Restart in m then [Ref(m[Restart])] else if Start in m then [Ref(m[Start])]
                   else if Reload in m then [Ref(m[Reload])] else [];
      assert Slot(m, Restart) + Slot(m, Start) + Slot(m, Reload) == front;
      FrontFirst(Slot(m, Restart), Slot(m, Start), Slot(m, Reload), Slot(m, Verify), Slot(m, Nop), front);
    }
  }

  lemma FrontFirst(a: seq<Handle>, b: seq<Handle>, c: seq<Handle>, v: seq<Handle>, n: seq<Handle>, front: seq<Handle>)
    requires a + b + c == front
    ensures a + (b + (c + (v + n))) == front + v + n
  {
    assert a + (b + (c + (v + n))) == a + b + c + v + n;
  }

  lemma CanonOfAttrs(m: map<Kind, Job>, n: map<Kind, Job>)
    requires m.Keys == n.Keys
    requires forall k :: k in m ==> Ref(m[k]) == Ref(n[k])
    ensures Canon(m) == Canon(n) && Conflict(m) == Conflict(n) && AtMostOneMut(m) == AtMostOneMut(n)
  {
    assert forall k :: k in m <==> k in n;
    PickSame(m, n, [Stop]);
    PickSame(m, n, [Restart, Start, Reload, Verify, Nop]);
  }

  /** What is triggered next: the first job in the running order, if nothing is triggered or that job stops the
      unit; otherwise the triggered job once more, if that is due. A paused unit has nothing to trigger. */
  lemma ReadyExact(u: Unit, s: UnitState)
    requires UnitInv(u, s) && s.order
    ensures CalcReady(s) == Some(true) <==>
              !s.pause && s.sq != [] && (s.trigger.None? || s.sq[0].kind.Stop? || s.sq[0].kind.Restart?)
    ensures CalcReady(s) == Some(false) <==>
              && !s.pause && s.trigger.Some? && s.retrigger
              && !(s.sq != [] && (s.sq[0].kind.Stop? || s.sq[0].kind.Restart?))
    ensures HasNext(s) && CalcReady(s) == Some(true) ==> Ref(Next(s)) == s.sq[0]
    ensures HasNext(s) && CalcReady(s) == Some(false) ==> Next(s) == s.trigger.value
  {
  }

  lemma OrderedHasNext(u: Unit, s: UnitState)
    requires UnitInv(u, s) && NaturalReady(s).Some?
    ensures HasNext(s)
    ensures NaturalReady(s).value ==> s.sq == Canon(s.suspends) && s.suspends != map[]
  {
    if s.sq != [] {
      CanonShape(s.suspends);
      assert s.sq[0] in s.sq;
    }
  }

  // ---------------------------------------------------------------- merging a staged unit

  lemma UnionKeepsConflictFree(m: map<Kind, Job>, o: map<Kind, Job>)
    requires !ConflictWith(m, o)
    ensures !Conflict(UnionSuspends(m, o))
  {
    assert forall k :: k in UnionSuspends(m, o) ==> k in m || k in o;
  }

  lemma FlushKeeps(u: Unit, s: UnitState, row: Row, s': UnitState, row': Row)
    requires UnitInv(u, s) && Mirror(s, row) && (s', row') == FlushSuspends(s, row)
    ensures UnitInv(u, s') && Mirror(s', row')
    ensures s'.suspends == map[] && !Conflict(s'.suspends)
  {
  }

  lemma UnionIsPending(u: Unit, m: map<Kind, Job>, o: map<Kind, Job>, n: map<Kind, Job>)
    requires forall k :: k in m ==> PendingOk(u, k, m[k])
    requires StagedOk(u, o) && n == UnionSuspends(m, o)
    ensures forall k :: k in n ==> PendingOk(u, k, n[k])
    ensures forall k :: k in m ==> Ref(n[k]) == Ref(m[k])
  {
    forall k | k in n
      ensures PendingOk(u, k, n[k])
    {
      if k in m { assert PendingOk(u, k, m[k]); } else { assert k in o; }
    }
  }

  lemma AddKeepsMirror(s: UnitState, row: Row, o: map<Kind, Job>, s': UnitState, row': Row)
    requires Mirror(s, row) && (s', row') == AddSuspends(s, row, o)
    ensures s'.suspends == UnionSuspends(s.suspends, o) && s'.trigger == s.trigger
    ensures Mirror(s', row')
  {
    var m := UnionSuspends(s.suspends, o);
    assert forall k :: k in m && k !in o ==> m[k] == s.suspends[k];
  }

  lemma AddKnownKeeps(u: Unit, s: UnitState, n: map<Kind, Job>, s': UnitState)
    requires UnitInv(u, s) && n.Keys == s.suspends.Keys && s' == s.(suspends := n)
    requires forall k :: k in n ==> PendingOk(u, k, n[k]) && Ref(n[k]) == Ref(s.suspends[k])
    ensures UnitInv(u, s')
  {
    CanonOfAttrs(n, s.suspends);
  }

  lemma AddKeeps(u: Unit, s: UnitState, row: Row, o: map<Kind, Job>, s': UnitState)
    requires UnitInv(u, s) && StagedOk(u, o) && !ConflictWith(s.suspends, o)
    requires s' == AddSuspends(s, row, o).0
    ensures UnitInv(u, s') && !Conflict(s'.suspends)
  {
    var n := UnionSuspends(s.suspends, o);
    UnionIsPending(u, s.suspends, o, n);
    UnionKeepsConflictFree(s.suspends, o);
    if o.Keys <= s.suspends.Keys {
      assert n.Keys == s.suspends.Keys;
      AddKnownKeeps(u, s, n, s');
    }
  }

  /** A merge keeps the unit consistent, persists exactly what is pending afterwards, and leaves
      no conflict, whether it adds to the pending jobs or replaces them. */
  lemma MergeKeeps(u: Unit, s: UnitState, row: Row, o: map<Kind, Job>, s': UnitState, row': Row)
    requires UnitInv(u, s) && Mirror(s, row) && StagedOk(u, o)
    requires (s', row') == MergeSuspends(s, row, o)
    ensures UnitInv(u, s') && Mirror(s', row') && !Conflict(s'.suspends)
  {
    if ConflictWith(s.suspends, o) {
      var (b, brow) := FlushSuspends(s, row);
      FlushKeeps(u, s, row, b, brow);
      assert !HasOthers(b.suspends);
      AddKeeps(u, b, brow, o, s');
      AddKeepsMirror(b, brow, o, s', row');
    } else {
      AddKeeps(u, s, row, o, s');
      AddKeepsMirror(s, row, o, s', row');
    }
  }

  // ---------------------------------------------------------------- ordering the pending jobs

  lemma MergedLeavesOneMut(m: map<Kind, Job>, active: bool, n: map<Kind, Job>)
    requires !Conflict(m) && n == m - MergedKinds(m, active)
    ensures AtMostOneMut(n) && !Conflict(n)
    ensures n == map[] <==> m == map[]
    ensures (Stop in n <==> Stop in m) && (Restart in n <==> Restart in m)
  {
    if m != map[] {
      var k :| k in m;
      assert Restart in m && !(Stop in m) ==> Restart in n;
      assert k in n || Restart in n || Start in n || Reload in n;
    }
  }

  /** A pending job that makes way for another one: a start or a reload for a restart, a start for a reload of a
      unit that is active, and a reload for a start of one that is not. Nothing makes way when a stop is
      pending. */
  predicate MakesWay(ks: set<Kind>, active: bool, k: Kind) {
    && Stop !in ks
    && (|| (Restart in ks && (k.Start? || k.Reload?))
        || (Restart !in ks && k.Start? && Reload in ks && active)
        || (Restart !in ks && k.Reload? && Start in ks && !active))
  }

  /** What is left are the jobs that make no way, as they were. */
  ghost predicate Survive(m: map<Kind, Job>, active: bool, n: map<Kind, Job>) {
    && (forall k :: k in n <==> k in m && !MakesWay(m.Keys, active, k))
    && (forall k :: k in n ==> n[k] == m[k])
  }

  /** Ordering leaves exactly the jobs that make no way. Of a start and a reload without a stop or restart the
      start is left if and only if the unit is not active, and the reload if and only if it is. */
  lemma SurvivorsExact(s: UnitState, row: Row, active: bool, s': UnitState)
    requires !Conflict(s.suspends) && !s.order && s' == Reshuffle(s, row, active).0
    ensures Survive(s.suspends, active, s'.suspends)
    ensures Start in s.suspends && Reload in s.suspends && Stop !in s.suspends && Restart !in s.suspends ==>
              (Start in s'.suspends <==> !active) && (Reload in s'.suspends <==> active)
    ensures Restart in s.suspends && Stop !in s.suspends ==> s'.suspends == s.suspends - {Start, Reload}
    ensures Stop in s.suspends || (Restart !in s.suspends && !(Start in s.suspends && Reload in s.suspends)) ==> s'.suspends == s.suspends
  {
  }

  lemma NobodyMakesWay(m: map<Kind, Job>, active: bool)
    requires AtMostOneMut(m)
    ensures Survive(m, active, m)
  {
  }

  lemma ReshuffleMirror(s: UnitState, row: Row, active: bool, s': UnitState, row': Row)
    requires !Conflict(s.suspends) && Mirror(s, row) && (s', row') == Reshuffle(s, row, active)
    ensures Mirror(s', row')
  {
  }

  /** Reordering keeps the unit consistent exactly when it does not leave an interrupt flag behind
      with nothing pending to interrupt for. */
  lemma ReshuffleExact(u: Unit, s: UnitState, row: Row, active: bool, s': UnitState)
    requires UnitInv(u, s) && !Conflict(s.suspends) && s' == Reshuffle(s, row, active).0
    ensures UnitInv(u, s') <==> !(s.interrupt && !s.order && s.suspends == map[])
  {
    if !s.order {
      MergedLeavesOneMut(s.suspends, active, s'.suspends);
      CanonShape(s'.suspends);
    }
  }

  /** The assertion on a unit with a triggered job and nothing pending fires on reordering exactly
      when that flag was left behind and the unit is not paused. */
  lemma ReshuffleAssertExact(u: Unit, s: UnitState, row: Row, active: bool, s': UnitState)
    requires UnitInv(u, s) && !Conflict(s.suspends) && s' == Reshuffle(s, row, active).0
    ensures ReadyAsserts(s') <==> !(s.interrupt && !s.order && s.suspends == map[] && !s.pause)
  {
    if !s.order {
      MergedLeavesOneMut(s.suspends, active, s'.suspends);
      CanonShape(s'.suspends);
    }
  }

  /** A unit that has been ordered has nothing left to merge, also after jobs are taken out of it. */
  lemma OrderedHasNothingToMerge(m: map<Kind, Job>, n: map<Kind, Job>, active: bool)
    requires AtMostOneMut(m) && n.Keys <= m.Keys
    ensures MergedKinds(n, active) == {}
  {
  }

  // ---------------------------------------------------------------- removing pending jobs

  /** Does finishing a pending job of this kind with this result end it? A restart that is told its stop
      is done before it ever ran goes on instead. */
  predicate EndsPending(k: Kind, result: JobResult) {
    !(result.Done? && k.Restart?)
  }

  /** Removing one pending job ends it with the result and is the removal of its kind. */
  lemma RemoveIsRemoveKinds(u: Unit, s: UnitState, row: Row, k: Kind, result: JobResult)
    requires JobsOk(u, s) && EndsPending(k, result)
    ensures var (s', row', del) := RemoveSuspend(s, row, k, result);
            && (s', row') == RemoveKinds(s, row, {k})
            && (del.Some? <==> k in s.suspends)
            && (del.Some? ==> del.value == s.suspends[k].(stage := End(result)))
  {
    assert k !in s.suspends ==> row.susp - {k} * s.suspends.Keys == row.susp;
    assert k in s.suspends ==> {k} * s.suspends.Keys == {k};
  }

  /** A removal keeps the persisted rows in step if and only if it ends the job: otherwise the row of a
      job that is gone stays behind. */
  lemma RemoveMirrorExact(u: Unit, s: UnitState, row: Row, k: Kind, result: JobResult)
    requires JobsOk(u, s) && Mirror(s, row)
    ensures Mirror(RemoveSuspend(s, row, k, result).0, RemoveSuspend(s, row, k, result).1)
            <==> k !in s.suspends || EndsPending(k, result)
  {
    if k in s.suspends && !EndsPending(k, result) {
      NotEndedKeepsRow(u, s, row, k, result);
    } else {
      EndedMirror(u, s, row, k, result);
    }
  }

  lemma EndedMirror(u: Unit, s: UnitState, row: Row, k: Kind, result: JobResult)
    requires JobsOk(u, s) && Mirror(s, row) && (k in s.suspends ==> EndsPending(k, result))
    ensures Mirror(RemoveSuspend(s, row, k, result).0, RemoveSuspend(s, row, k, result).1)
  {
    if k in s.suspends { assert PendingOk(u, k, s.suspends[k]); }
  }

  lemma NotEndedKeepsRow(u: Unit, s: UnitState, row: Row, k: Kind, result: JobResult)
    requires JobsOk(u, s) && Mirror(s, row) && k in s.suspends && !EndsPending(k, result)
    ensures k in RemoveSuspend(s, row, k, result).1.susp && k !in RemoveSuspend(s, row, k, result).0.suspends
  {
    assert PendingOk(u, k, s.suspends[k]);
  }

  lemma RemoveKindsTwice(s: UnitState, row: Row, ks: set<Kind>, ls: set<Kind>)
    ensures RemoveKinds(RemoveKinds(s, row, ks).0, RemoveKinds(s, row, ks).1, ls) == RemoveKinds(s, row, ks + ls)
  {
    assert s.suspends - ks - ls == s.suspends - (ks + ls);
    assert row.susp - ks * s.suspends.Keys - ls * (s.suspends - ks).Keys == row.susp - (ks + ls) * s.suspends.Keys;
  }

  lemma RemoveKeeps(u: Unit, s: UnitState, row: Row, ks: set<Kind>, s': UnitState, row': Row)
    requires UnitInv(u, s) && Mirror(s, row) && !Conflict(s.suspends)
    requires (s', row') == RemoveKinds(s, row, ks)
    ensures UnitInv(u, s') && Mirror(s', row') && !Conflict(s'.suspends)
    ensures s' == s.(suspends := s.suspends - ks, order := false, dirty := true, ready := false)
  {
  }

  // ---------------------------------------------------------------- triggering and finishing

  lemma PauseResumeKeep(u: Unit, s: UnitState)
    requires UnitInv(u, s) && s.order
    ensures UnitInv(u, Pause(s)) && UnitInv(u, Resume(s)) && !Pause(s).ready
  {
  }

  lemma TriggerStagesHold(u: Unit, s: UnitState)
    requires UnitInv(u, s) && CalcReady(s).Some?
    ensures HasNext(s) && TriggerStages(s)
  {
    OrderedHasNext(u, s);
  }

  lemma DoNextTriggerKeeps(u: Unit, s: UnitState, s': UnitState)
    requires UnitInv(u, s) && CalcReady(s).Some? && HasNext(s) && s' == DoNextTrigger(s)
    ensures s'.order && OrderedOk(s') && !s'.interrupt && !s'.retrigger
    ensures s'.trigger == Some(Next(s)) && s'.pause == s.pause && s'.upReady == s.upReady
    ensures s'.suspends == if CalcReady(s).value then s.suspends - {Next(s).kind} else s.suspends
  {
    if CalcReady(s).value {
      OrderedHasNext(u, s);
      CanonShape(s.suspends);
      CanonTail(s.suspends);
      assert s'.suspends.Keys <= s.suspends.Keys;
      if s'.sq != [] {
        CanonShape(s'.suspends);
      }
    }
  }

  lemma RunNextFrame(u: Unit, s: UnitState, row: Row, j: Job, row': Row)
    requires UnitInv(u, s) && CalcReady(s).Some? && HasNext(s) && TriggerStages(s)
    requires (j, row') == RunNext(s, row)
    ensures j == Next(s).(attr := j.attr, stage := Running)
    ensures row' == if Next(s).stage.Wait? then Row(Some(TrigData(j.kind, j.attr)), row'.susp) else row
    ensures row'.susp == if Next(s).stage.Wait? then row.susp - {j.kind} else row.susp
  {
  }

  lemma DoTriggerFrame(u: Unit, s: UnitState, row: Row, answer: Answer, s1: UnitState, s': UnitState)
    requires UnitInv(u, s) && CalcReady(s).Some? && HasNext(s) && TriggerStages(s)
    requires s1 == DoNextTrigger(s) && s' == DoTrigger(s, row, answer).0
    ensures s'.trigger.Some? && s'.trigger.value == Next(s).(attr := s'.trigger.value.attr, stage := Running)
    ensures s' == s1.(trigger := s'.trigger, pause := answer.RunAgain?, retrigger := answer.RunAgain?, ready := s'.ready)
  {
    var (j, row') := RunNext(s, row);
    RunNextFrame(u, s, row, j, row');
  }

  /** The job that runs has its own attributes, and those of the job that it interrupts if that is of its kind. */
  lemma TriggeredAttrs(u: Unit, s: UnitState, row: Row, answer: Answer, j: Job)
    requires UnitInv(u, s) && s.order && CalcReady(s).Some? && HasNext(s) && TriggerStages(s)
    requires DoTrigger(s, row, answer).0.trigger == Some(j)
    ensures var more := s.trigger.Some? && CalcReady(s).value && s.trigger.value.kind == Next(s).kind;
            && (j.attr.irreversible <==> Next(s).attr.irreversible || (more && s.trigger.value.attr.irreversible))
            && (j.attr.ignoreOrder <==> Next(s).attr.ignoreOrder || (more && s.trigger.value.attr.ignoreOrder))
            && (j.attr.force <==> Next(s).attr.force || (more && s.trigger.value.attr.force))
            && (j.attr.noRelevancy <==> Next(s).attr.noRelevancy || (more && s.trigger.value.attr.noRelevancy))
  {
    ReadyExact(u, s);
  }

  lemma DoTriggerMirror(u: Unit, s: UnitState, row: Row, answer: Answer, s': UnitState, row': Row)
    requires UnitInv(u, s) && Mirror(s, row) && CalcReady(s).Some? && HasNext(s) && TriggerStages(s)
    requires (s', row') == DoTrigger(s, row, answer)
    ensures Mirror(s', row')
  {
    var s1 := DoNextTrigger(s);
    DoNextTriggerKeeps(u, s, s1);
    RunNextFrame(u, s, row, s'.trigger.value, row');
    assert CalcReady(s).value == Next(s).stage.Wait?;
  }

  /** Triggering a ready unit: the next job runs and is persisted as triggered; a triggered job is
      only ever replaced by being reported as interrupted; the unit is not ready afterwards. */
  lemma DoTriggerKeeps(u: Unit, s: UnitState, row: Row, answer: Answer)
    requires UnitInv(u, s) && Mirror(s, row) && CalcReady(s).Some?
    ensures HasNext(s) && TriggerStages(s)
    ensures UnitInv(u, DoTrigger(s, row, answer).0)
    ensures Mirror(DoTrigger(s, row, answer).0, DoTrigger(s, row, answer).1)
    ensures var s' := DoTrigger(s, row, answer).0;
            s'.order && !s'.ready && s'.trigger.Some? && Ref(s'.trigger.value) == Ref(Next(s))
    ensures s.trigger.Some? && Interrupted(s).None? ==> Ref(s.trigger.value) == Ref(Next(s))
  {
    TriggerStagesHold(u, s);
    var s1 := DoNextTrigger(s);
    var (s', row') := DoTrigger(s, row, answer);
    DoNextTriggerKeeps(u, s, s1);
    DoTriggerFrame(u, s, row, answer, s1, s');
    DoTriggerMirror(u, s, row, answer, s', row');
  }

  /** A triggered restart whose stop is done goes on to start; every other finished job is deleted. */
  lemma FinishTriggerFrame(u: Unit, s: UnitState, row: Row, result: JobResult,
                           s': UnitState, row': Row, del: Option<Job>)
    requires UnitInv(u, s) && s.order && s.trigger.Some?
    requires (s', row', del) == FinishTrigger(s, row, result)
    ensures s'.order && s'.suspends == s.suspends && s'.sq == s.sq && s'.pause == s.pause && s'.upReady == s.upReady
    ensures del.None? <==> result.Done? && s.trigger.value.kind.Restart? && s.trigger.value.runKind.Stop?
    ensures del.Some? ==> s'.trigger.None? && del.value == s.trigger.value.(stage := End(result))
    ensures del.None? ==> s'.retrigger && s'.trigger == Some(s.trigger.value.(runKind := Start))
  {
  }

  lemma FinishTriggerKeeps(u: Unit, s: UnitState, row: Row, result: JobResult,
                           s': UnitState, row': Row, del: Option<Job>)
    requires UnitInv(u, s) && Mirror(s, row) && s.order && s.trigger.Some?
    requires (s', row', del) == FinishTrigger(s, row, result)
    ensures UnitInv(u, s') && Mirror(s', row')
  {
    FinishTriggerFrame(u, s, row, result, s', row', del);
  }

  // ---------------------------------------------------------------- when the flag is left behind

  function Pending(id: nat, k: Kind): Job {
    Job(id, 0, k, Attr(false, false, false, false), FirstRunKind(k), Wait)
  }

  /** A start is running, a stop is pending and will interrupt it. */
  const INTERRUPTING := UnitState(
    map[Stop := Pending(2, Stop)], Some(Pending(1, Start).(stage := Running)),
    true, [Handle(2, 0, Stop)], true, false, false, false, true, true)

  /** Cancelling that stop, or flushing the unit, makes the assertion fire. */
  lemma CancelledInterrupterAsserts(row: Row, active: bool)
    ensures UnitInv(0, INTERRUPTING)
    ensures var (s, row1, _) := RemoveSuspend(INTERRUPTING, row, Stop, Cancelled);
            !Conflict(s.suspends) && !ReadyAsserts(Reshuffle(s, row1, active).0)
    ensures var (s, row1) := FlushSuspends(INTERRUPTING, row);
            !Conflict(s.suspends) && !ReadyAsserts(Reshuffle(s, row1, active).0)
  {
    assert UnitInv(0, INTERRUPTING);
    var (s, row1, _) := RemoveSuspend(INTERRUPTING, row, Stop, Cancelled);
    RemoveIsRemoveKinds(0, INTERRUPTING, row, Stop, Cancelled);
    assert s.suspends == map[];
    ReshuffleAssertExact(0, s, row1, active, Reshuffle(s, row1, active).0);
    var (f, row2) := FlushSuspends(INTERRUPTING, row);
    ReshuffleAssertExact(0, f, row2, active, Reshuffle(f, row2, active).0);
  }

  /** A stop and a nop are pending. */
  function StopAndNop(id: nat, id': nat): UnitState {
    var m := map[Stop := Pending(id, Stop), Nop := Pending(id', Nop)];
    UnitState(m, None, true, [Handle(id, 0, Stop)], false, false, false, false, true, true)
  }

  /** Triggering a pending job leaves everything else queued in its running order if and only if no nop
      was pending with a stop. */
  lemma NopStaysExact(u: Unit, s: UnitState, row: Row, answer: Answer, s': UnitState)
    requires UnitInv(u, s) && CalcReady(s) == Some(true) && HasNext(s) && TriggerStages(s)
    requires s' == DoTrigger(s, row, answer).0
    ensures s'.sq == Canon(s'.suspends) <==> !(Stop in s.suspends && Nop in s.suspends)
    ensures Stop in s.suspends && Nop in s.suspends ==> s'.suspends.Keys == {Nop} && s'.sq == []
  {
    OrderedHasNext(u, s);
    CanonTail(s.suspends);
  }

  /** The nop is left out of the running order once the stop is triggered: the unit still holds it,
      yet nothing is queued to run it. */
  lemma NopStaysBehindStop(id: nat, id': nat, row: Row, answer: Answer)
    ensures UnitInv(0, StopAndNop(id, id'))
    ensures HasNext(StopAndNop(id, id')) && TriggerStages(StopAndNop(id, id'))
    ensures DoTrigger(StopAndNop(id, id'), row, answer).0.suspends.Keys == {Nop}
    ensures DoTrigger(StopAndNop(id, id'), row, answer).0.sq == []
  {
    var s := StopAndNop(id, id');
    PickUnfold(s.suspends);
    assert s.sq == Canon(s.suspends);
    assert UnitInv(0, s);
    TriggerStagesHold(0, s);
    NopStaysExact(0, s, row, answer, DoTrigger(s, row, answer).0);
  }
}
