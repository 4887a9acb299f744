/** Ordering cannot deadlock: as long as the before relation has no cycle, some unit may always run. */
module JobOrder {
  import opened Jobs
  import opened JobUnits
  import opened JobUnitLaws
  import opened JobTables
  import opened JobStepLaws

  // ---------------------------------------------------------------- finite relations without cycles

  type Rel = set<(Unit, Unit)>

  ghost predicate IsPath(r: Rel, p: seq<Unit>) {
    forall i :: 0 <= i < |p| - 1 ==> (p[i], p[i + 1]) in r
  }

  ghost predicate Acyclic(r: Rel) {
    forall p :: |p| >= 2 && IsPath(r, p) ==> p[0] != p[|p| - 1]
  }

  ghost function Inverse(r: Rel): Rel {
    set p | p in r :: (p.1, p.0)
  }

  ghost function Reversed(p: seq<Unit>): seq<Unit> {
    seq(|p|, i requires 0 <= i < |p| => p[|p| - 1 - i])
  }

  lemma InverseAcyclic(r: Rel)
    requires Acyclic(r)
    ensures Acyclic(Inverse(r))
  {
    forall p | |p| >= 2 && IsPath(Inverse(r), p)
      ensures p[0] != p[|p| - 1]
    {
      var q := Reversed(p);
      forall i | 0 <= i < |q| - 1
        ensures (q[i], q[i + 1]) in r
      {
        var j := |p| - 2 - i;
        assert (p[j], p[j + 1]) in Inverse(r);
      }
      assert IsPath(r, q);
    }
  }

  ghost predicate HasSuccessor(r: Rel, s: set<Unit>, u: Unit) {
    exists v :: v in s && (u, v) in r
  }

  /** If every member has a successor that is a member, walks of any length stay inside. */
  lemma {:induction false} LongWalk(r: Rel, s: set<Unit>, n: nat) returns (p: seq<Unit>)
    requires s != {}
    requires forall u {:trigger HasSuccessor(r, s, u)} :: u in s ==> HasSuccessor(r, s, u)
    ensures |p| == n + 1 && IsPath(r, p)
    ensures forall i :: 0 <= i < |p| ==> p[i] in s
  {
    if n == 0 {
      var u :| u in s;
      p := [u];
    } else {
      var q := LongWalk(r, s, n - 1);
      assert HasSuccessor(r, s, q[|q| - 1]);
      var v :| v in s && (q[|q| - 1], v) in r;
      p := q + [v];
    }
  }

  lemma {:induction false} TooLongRepeats(s: set<Unit>, p: seq<Unit>) returns (i: nat, j: nat)
    requires |p| > |s| && forall k :: 0 <= k < |p| ==> p[k] in s
    ensures i < j < |p| && p[i] == p[j]
    decreases |p|
  {
    var last := p[|p| - 1];
    if k: nat :| k < |p| - 1 && p[k] == last {
      i, j := k, |p| - 1;
    } else {
      var q, s' := p[..|p| - 1], s - {last};
      assert |s'| == |s| - 1;
      i, j := TooLongRepeats(s', q);
    }
  }

  lemma RepeatIsCycle(r: Rel, p: seq<Unit>, i: nat, j: nat)
    requires Acyclic(r) && IsPath(r, p) && i < j < |p|
    ensures p[i] != p[j]
  {
    var q := p[i..j + 1];
    assert IsPath(r, q);
    assert q[0] == p[i] && q[|q| - 1] == p[j];
  }

  /** A finite set has a member without a successor in the set. */
  lemma MaximalIn(r: Rel, s: set<Unit>) returns (u: Unit)
    requires Acyclic(r) && s != {}
    ensures u in s && forall v :: v in s ==> (u, v) !in r
  {
    if m :| m in s && !HasSuccessor(r, s, m) {
      u := m;
    } else {
      var p := LongWalk(r, s, |s|);
      var i, j := TooLongRepeats(s, p);
      RepeatIsCycle(r, p, i, j);
      assert false;
    }
  }

  lemma MinimalIn(r: Rel, s: set<Unit>) returns (u: Unit)
    requires Acyclic(r) && s != {}
    ensures u in s && forall v :: v in s ==> (v, u) !in r
  {
    InverseAcyclic(r);
    u := MaximalIn(Inverse(r), s);
    assert forall w :: (w, u) in r ==> (u, w) in Inverse(r);
  }

  // ---------------------------------------------------------------- what a unit waits with

  /** The unit holds a job that takes part in ordering by kind. */
  predicate Busy(s: UnitState) {
    || (s.trigger.Some? && !s.trigger.value.runKind.Nop?)
    || (exists k :: k in s.suspends && !k.Nop?)
  }

  predicate HoldsStop(s: UnitState) {
    || (s.trigger.Some? && s.trigger.value.runKind.Stop?)
    || (exists k :: k in s.suspends && StopLike(k))
  }

  /** In a unit that can go on, a job that stops the unit is always the next one. */
  lemma StopIsNext(u: Unit, s: UnitState)
    requires CleanUnit(u, s) && NaturalReady(s).Some?
    ensures HasNext(s)
    ensures HoldsStop(s) <==> Next(s).runKind.Stop?
    ensures Next(s).runKind.Nop? <==> Next(s).kind.Nop?
  {
    OrderedHasNext(u, s);
    if s.suspends != map[] {
      KeyedPending(u, s);
      CanonShape(s.suspends);
    }
    if NaturalReady(s).value {
      assert PendingOk(u, s.sq[0].kind, Next(s));
    }
  }

  function BusyUnits(t: Table): set<Unit> {
    set v | v in t.data && Busy(t.data[v])
  }

  function StoppingUnits(t: Table): set<Unit> {
    set v | v in t.data && HoldsStop(t.data[v])
  }

  /** A unit ordered after this one is going to be stopped. */
  ghost predicate StopAhead(t: Table, g: Graph, u: Unit) {
    exists v :: v in StoppingUnits(t) && v in Later(g, u)
  }

  /** A unit ordered before this one has something to do. */
  ghost predicate WorkAhead(t: Table, g: Graph, u: Unit) {
    exists v :: v in BusyUnits(t) && v in Earlier(g, u)
  }

  /** Stopping waits only for later units that stop; everything else waits for these and for all
      earlier units. */
  ghost predicate Waits(t: Table, g: Graph, u: Unit) {
    StopAhead(t, g, u) || (WorkAhead(t, g, u) && u !in StoppingUnits(t))
  }

  /** As long as the before relation has no cycle, not everybody waits. */
  lemma SomebodyIsFree(t: Table, g: Graph) returns (u: Unit)
    requires Acyclic(g.before) && BusyUnits(t) != {}
    ensures u in BusyUnits(t) && !Waits(t, g, u)
  {
    if StoppingUnits(t) != {} {
      u := MaximalIn(g.before, StoppingUnits(t));
      assert StopLike(Stop) && !StopLike(Nop);
    } else {
      u := MinimalIn(g.before, BusyUnits(t));
    }
  }

  /** A job of the unit that others have to respect, and that stops the unit. */
  ghost predicate OrderedStop(s: UnitState) {
    || (s.trigger.Some? && !s.trigger.value.attr.ignoreOrder && s.trigger.value.runKind.Stop?)
    || (exists k :: k in s.suspends && !s.suspends[k].attr.ignoreOrder && StopLike(k))
  }

  /** A job of the unit that others have to respect. */
  ghost predicate OrderedWork(s: UnitState) {
    || (s.trigger.Some? && !s.trigger.value.attr.ignoreOrder && !s.trigger.value.runKind.Nop?)
    || (exists k :: k in s.suspends && !s.suspends[k].attr.ignoreOrder && !k.Nop?)
  }

  lemma BlockedExact(a: Job, s: UnitState, u: Unit)
    requires JobsOk(u, s) && !a.attr.ignoreOrder && !a.runKind.Nop?
    ensures BlockedBy(a, s, Before) <==> OrderedStop(s)
    ensures BlockedBy(a, s, After) <==> OrderedWork(s) && !a.runKind.Stop?
  {
    forall k | k in s.suspends
      ensures MustWait(a, s.suspends[k], Before) <==> !s.suspends[k].attr.ignoreOrder && StopLike(k)
      ensures MustWait(a, s.suspends[k], After) <==> !s.suspends[k].attr.ignoreOrder && !k.Nop? && !a.runKind.Stop?
    {
      assert PendingOk(u, k, s.suspends[k]);
    }
  }

  /** What the order check says, job by job: a unit is held back if and only if its next job respects
      order and a later unit has a stop that does, or, unless it is a stop itself, an earlier unit has
      any job that does. */
  ghost predicate HeldBackNow(t: Table, g: Graph, u: Unit)
    requires u in t.data && HasNext(t.data[u])
  {
    var next := Next(t.data[u]);
    && !next.attr.ignoreOrder && !next.runKind.Nop?
    && (|| (exists v :: v in Later(g, u) && v in t.data && OrderedStop(t.data[v]))
        || (!next.runKind.Stop? && exists v :: v in Earlier(g, u) && v in t.data && OrderedWork(t.data[v])))
  }

  lemma LaterExact(t: Table, g: Graph, u: Unit, next: Job)
    requires UnitsClean(t) && !next.attr.ignoreOrder && !next.runKind.Nop?
    ensures (forall v :: v in Later(g, u) && v in t.data ==> !BlockedBy(next, t.data[v], Before))
            <==> !(exists v :: v in Later(g, u) && v in t.data && OrderedStop(t.data[v]))
  {
    forall v | v in t.data
      ensures BlockedBy(next, t.data[v], Before) <==> OrderedStop(t.data[v])
    {
      BlockedExact(next, t.data[v], v);
    }
  }

  lemma EarlierExact(t: Table, g: Graph, u: Unit, next: Job)
    requires UnitsClean(t) && !next.attr.ignoreOrder && !next.runKind.Nop?
    ensures (forall v :: v in Earlier(g, u) && v in t.data ==> !BlockedBy(next, t.data[v], After))
            <==> !(!next.runKind.Stop? && exists v :: v in Earlier(g, u) && v in t.data && OrderedWork(t.data[v]))
  {
    forall v | v in t.data
      ensures BlockedBy(next, t.data[v], After) <==> OrderedWork(t.data[v]) && !next.runKind.Stop?
    {
      BlockedExact(next, t.data[v], v);
    }
  }

  lemma NextIsNop(t: Table, u: Unit)
    requires TableInv(t) && u in t.data && HasNext(t.data[u])
    ensures Next(t.data[u]).kind.Nop? <==> Next(t.data[u]).runKind.Nop?
  {
    CleanAt(t, u);
    StopIsNext(u, t.data[u]);
  }

  lemma HeldBackIs(t: Table, g: Graph, u: Unit)
    requires UnitsClean(t) && u in t.data && HasNext(t.data[u])
    requires Next(t.data[u]).kind.Nop? <==> Next(t.data[u]).runKind.Nop?
    ensures !Runnable(t, g, u) <==> HeldBackNow(t, g, u)
  {
    var next := Next(t.data[u]);
    if !next.attr.ignoreOrder && !next.runKind.Nop? {
      LaterExact(t, g, u, next);
      EarlierExact(t, g, u, next);
    }
  }

  lemma HeldBackExact(t: Table, g: Graph, u: Unit)
    requires TableInv(t) && u in t.data && NaturalReady(t.data[u]).Some? && HasNext(t.data[u])
    ensures !Runnable(t, g, u) <==> HeldBackNow(t, g, u)
  {
    NextIsNop(t, u);
    HeldBackIs(t, g, u);
  }

  lemma OrderedIsBusy(s: UnitState)
    ensures OrderedStop(s) ==> HoldsStop(s)
    ensures OrderedWork(s) ==> Busy(s)
  {
  }

  /** A unit whose next job is held back by the order check has a reason to wait by kind alone, which is
      what stays when attributes change. */
  lemma HeldBackWaits(t: Table, g: Graph, u: Unit)
    requires TableInv(t) && u in t.data && NaturalReady(t.data[u]).Some? && HasNext(t.data[u])
    requires !Runnable(t, g, u)
    ensures Waits(t, g, u)
  {
    HeldBackExact(t, g, u);
    CleanAt(t, u);
    StopIsNext(u, t.data[u]);
    forall v | v in t.data
      ensures OrderedStop(t.data[v]) ==> v in StoppingUnits(t)
      ensures OrderedWork(t.data[v]) ==> v in BusyUnits(t)
    {
      OrderedIsBusy(t.data[v]);
    }
  }

  /** If no unit is held up by a running job, then among the units with something to do there is one
      whose next job the order check lets through. */
  lemma OrderingNeverDeadlocks(t: Table, g: Graph) returns (u: Unit)
    requires TableInv(t) && Acyclic(g.before) && BusyUnits(t) != {}
    requires forall v :: v in BusyUnits(t) ==> NaturalReady(t.data[v]).Some?
    ensures u in BusyUnits(t) && HasNext(t.data[u]) && Runnable(t, g, u)
  {
    u := SomebodyIsFree(t, g);
    CleanAt(t, u);
    OrderedHasNext(u, t.data[u]);
    if !Runnable(t, g, u) { HeldBackWaits(t, g, u); }
  }
}
