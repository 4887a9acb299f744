/** The ready queue, the identifiers of jobs and the counters by kind, as the objects that are updated
    in place. */
module JobQueue {
  import opened Jobs
  import opened JobTables

  // ---------------------------------------------------------------- the ready units

  predicate Ascending(q: seq<Unit>) {
    forall i, j :: 0 <= i < j < |q| ==> q[i] < q[j]
  }

  ghost function Members(q: seq<Unit>): set<Unit> {
    set u | u in q
  }

  lemma MembersAdd(q: seq<Unit>, u: Unit)
    ensures Members(q + [u]) == Members(q) + {u}
  {
  }

  ghost predicate IsGreatest(u: Unit, us: set<Unit>) {
    u in us && forall v :: v in us ==> v <= u
  }

  lemma {:induction false} HasLeast(us: set<Unit>) returns (u: Unit)
    requires us != {}
    ensures u in us && forall v :: v in us ==> u <= v
    decreases us
  {
    var x :| x in us;
    if us == {x} {
      u := x;
    } else {
      var w := HasLeast(us - {x});
      u := if w < x then w else x;
      assert forall v :: v in us ==> v == x || v in us - {x};
    }
  }

  /** A sorted set to put units into, and a stack to take them from, at most one of them in use. */
  class ReadyQueue {
    var tReady: set<Unit>
    var readys: seq<Unit>

    ghost predicate Valid()
      reads this
    {
      (tReady == {} || readys == []) && Ascending(readys)
    }

    ghost function Contents(): set<Unit>
      reads this
    {
      tReady + Members(readys)
    }

    constructor ()
      ensures Valid() && Contents() == {}
    {
      tReady, readys := {}, [];
    }

    method Backfill()
      requires Valid()
      modifies this
      ensures Valid() && readys == [] && Contents() == old(Contents())
    {
      var i, moved := 0, readys;
      readys := [];
      ghost var before := tReady;
      while i < |moved|
        invariant i <= |moved| && readys == [] && tReady == before + Members(moved[..i])
      {
        tReady := tReady + {moved[i]};
        assert moved[..i + 1] == moved[..i] + [moved[i]];
        MembersAdd(moved[..i], moved[i]);
        i := i + 1;
      }
      assert moved[..i] == moved;
    }

    method Fill()
      requires Valid()
      modifies this
      ensures Valid() && Contents() == old(Contents()) && (readys == [] ==> Contents() == {})
      ensures tReady == {}
    {
      if readys != [] { return; }
      while tReady != {}
        invariant Ascending(readys) && Contents() == old(Contents())
        invariant forall i, v :: 0 <= i < |readys| && v in tReady ==> readys[i] < v
        decreases tReady
      {
        ghost var least := HasLeast(tReady);
        var u :| u in tReady && forall v :: v in tReady ==> u <= v;
        MembersAdd(readys, u);
        assert tReady + Members(readys) == (tReady - {u}) + (Members(readys) + {u});
        readys := readys + [u];
        tReady := tReady - {u};
      }
    }

    method Insert(u: Unit)
      requires Valid()
      modifies this
      ensures Valid() && Contents() == old(Contents()) + {u}
    {
      Backfill();
      tReady := tReady + {u};
    }

    method Remove(u: Unit)
      requires Valid()
      modifies this
      ensures Valid() && Contents() == old(Contents()) - {u}
    {
      Backfill();
      tReady := tReady - {u};
    }

    /** Take the greatest ready unit. */
    method Pop() returns (u: Option<Unit>)
      requires Valid()
      modifies this
      ensures Valid()
      ensures u.None? <==> old(Contents()) == {}
      ensures u.Some? ==> IsGreatest(u.value, old(Contents())) && Contents() == old(Contents()) - {u.value}
      ensures u.None? ==> Contents() == {}
    {
      Fill();
      if readys == [] { return None; }
      var n := |readys| - 1;
      var last := readys[n];
      assert readys == readys[..n] + [last];
      MembersAdd(readys[..n], last);
      assert last !in readys[..n] && Contents() == Members(readys);
      readys := readys[..n];
      u := Some(last);
    }

    /** Take one unit if it is ready. */
    method PopUnit(u: Unit) returns (found: bool)
      requires Valid()
      modifies this
      ensures Valid() && Contents() == old(Contents()) - {u} && (found <==> u in old(Contents()))
    {
      Backfill();
      found := u in tReady;
      tReady := tReady - {u};
    }

    method IsReady() returns (r: bool)
      requires Valid()
      ensures r <==> Contents() != {}
    {
      r := tReady != {} || readys != [];
      if readys != [] { assert readys[0] in Contents(); }
    }
  }

  // ---------------------------------------------------------------- identifiers

  const LIMIT: nat := 0x1_0000_0000

  /** The greatest value of a counter. */
  const MAX_COUNT: nat := 0xffff_ffff_ffff_ffff

  /** Where counting on from `from` by `n` gets, with wrap-around. */
  function Ahead(from: nat, n: nat): nat {
    (from + n) % LIMIT
  }

  /** Everything up to the n-th after `from` is taken. */
  ghost predicate Taken(ids: set<nat>, from: nat, n: nat) {
    forall m {:trigger Ahead(from, m)} :: 1 <= m <= n ==> Ahead(from, m) in ids
  }

  class JobAlloc {
    var ids: set<nat>
    var lastId: nat

    constructor ()
      ensures ids == {} && lastId == 0
    {
      ids, lastId := {}, 0;
    }

    /** The first identifier after the last one that is not taken, counting with wrap-around. As long
        as not all are taken the search ends. */
    method AllocId(ghost free: nat) returns (id: nat)
      requires lastId < LIMIT && free < LIMIT && free !in ids
      modifies this
      ensures id < LIMIT && id !in old(ids) && ids == old(ids) + {id} && lastId == id
      ensures exists n: nat :: id == Ahead(old(lastId), n + 1) && Taken(old(ids), old(lastId), n)
    {
      ghost var n := 0;
      ghost var away := (free + LIMIT - lastId - 1) % LIMIT;
      Reaches(lastId, free);
      while true
        invariant n <= away && lastId == Ahead(old(lastId), n) && ids == old(ids)
        invariant Taken(ids, old(lastId), n)
        decreases away - n
      {
        OneAhead(old(lastId), n);
        id := (lastId + 1) % LIMIT;
        lastId := id;
        if id !in ids {
          ids := ids + {id};
          return;
        }
        assert n < away;
        n := n + 1;
      }
    }
  }

  lemma OneAhead(from: nat, n: nat)
    ensures Ahead(from, n + 1) == (Ahead(from, n) + 1) % LIMIT
  {
  }

  lemma Reaches(from: nat, free: nat)
    requires from < LIMIT && free < LIMIT
    ensures Ahead(from, 0) == from && Ahead(from, (free + LIMIT - from - 1) % LIMIT + 1) == free
  {
  }

  // ---------------------------------------------------------------- counters

  ghost function Below(n: nat): (r: set<nat>)
    ensures forall i: nat :: i in r <==> i < n
    ensures |r| == n
  {
    if n == 0 then {} else Below(n - 1) + {n - 1}
  }

  ghost function IdsOf(hs: set<Handle>): set<nat> {
    set h | h in hs :: h.id
  }

  /** The jobs have distinct identifiers of 32 bits. */
  ghost predicate Identified(hs: set<Handle>) {
    && (forall h :: h in hs ==> h.id < LIMIT)
    && (forall h, i :: h in hs && i in hs && h.id == i.id ==> h == i)
  }

  lemma {:induction false} AsManyIds(hs: set<Handle>)
    requires Identified(hs)
    ensures |IdsOf(hs)| == |hs|
  {
    if hs != {} {
      var h :| h in hs;
      var rest := hs - {h};
      AsManyIds(rest);
      assert IdsOf(hs) == IdsOf(rest) + {h.id};
      assert h.id !in IdsOf(rest);
    }
  }

  /** So there are never more of them than a counter can count. */
  lemma FewJobs(hs: set<Handle>, k: Kind)
    requires Identified(hs)
    ensures |OfKind(hs, k)| <= LIMIT
  {
    var some := OfKind(hs, k);
    AsManyIds(some);
    Subset(IdsOf(some), Below(LIMIT));
  }

  lemma Subset(a: set<nat>, b: set<nat>)
    requires a <= b
    ensures |a| <= |b|
  {
    assert b == a + (b - a);
  }

  function SetOf(hs: seq<Handle>): set<Handle> {
    set h | h in hs
  }

  ghost predicate Distinct(hs: seq<Handle>) {
    forall i, j :: 0 <= i < j < |hs| ==> hs[i] != hs[j]
  }

  lemma SizeOfMore(hs: set<Handle>, h: Handle, k: Kind)
    requires h !in hs
    ensures |OfKind(hs + {h}, k)| == |OfKind(hs, k)| + if h.kind == k then 1 else 0
  {
    if h.kind == k {
      assert OfKind(hs + {h}, k) == OfKind(hs, k) + {h};
    } else {
      assert OfKind(hs + {h}, k) == OfKind(hs, k);
    }
  }

  lemma NextOf(hs: seq<Handle>, i: nat)
    requires Distinct(hs) && i < |hs|
    ensures SetOf(hs[..i + 1]) == SetOf(hs[..i]) + {hs[i]} && hs[i] !in SetOf(hs[..i])
  {
    assert hs[..i + 1] == hs[..i] + [hs[i]];
  }

  /** The number of live jobs of each kind. */
  class KindNum {
    var start: nat
    var stop: nat
    var reload: nat
    var restart: nat
    var verify: nat
    var nop: nat

    constructor ()
      ensures Counts({})
    {
      start, stop, reload, restart, verify, nop := 0, 0, 0, 0, 0, 0;
      new;
      assert forall k :: OfKind({}, k) == {};
    }

    function Get(k: Kind): int
      reads this
    {
      match k
      case Start => start
      case Stop => stop
      case Reload => reload
      case Restart => restart
      case Verify => verify
      case Nop => nop
      case _ => 0
    }

    /** Each counter is the number of these jobs that are of its kind. */
    ghost predicate Counts(live: set<Handle>)
      reads this
    {
      forall k :: IsBasic(k) ==> Get(k) == |OfKind(live, k)|
    }

    method Add(k: Kind)
      requires IsBasic(k) && Get(k) < MAX_COUNT
      modifies this
      ensures forall l :: IsBasic(l) ==> Get(l) == old(Get(l)) + if l == k then 1 else 0
    {
      match k
      case Start => start := start + 1;
      case Stop => stop := stop + 1;
      case Reload => reload := reload + 1;
      case Restart => restart := restart + 1;
      case Verify => verify := verify + 1;
      case Nop => nop := nop + 1;
    }

    method Sub(k: Kind)
      requires IsBasic(k) && Get(k) > 0
      modifies this
      ensures forall l :: IsBasic(l) ==> Get(l) == old(Get(l)) - if l == k then 1 else 0
    {
      match k
      case Start => start := start - 1;
      case Stop => stop := stop - 1;
      case Reload => reload := reload - 1;
      case Restart => restart := restart - 1;
      case Verify => verify := verify - 1;
      case Nop => nop := nop - 1;
    }

    method AddAll(adds: seq<Handle>, ghost live: set<Handle>)
      requires Counts(live) && Distinct(adds) && SetOf(adds) !! live && forall h :: h in adds ==> IsBasic(h.kind)
      requires Identified(live + SetOf(adds))
      modifies this
      ensures Counts(live + SetOf(adds))
    {
      var i := 0;
      assert live + SetOf(adds[..0]) == live;
      while i < |adds|
        invariant i <= |adds| && Counts(live + SetOf(adds[..i]))
      {
        NextOf(adds, i);
        ghost var before := live + SetOf(adds[..i]);
        assert live + SetOf(adds[..i + 1]) == before + {adds[i]};
        assert adds[i] in SetOf(adds);
        forall k: Kind { SizeOfMore(before, adds[i], k); }
        assert before <= live + SetOf(adds) by { assert SetOf(adds[..i]) <= SetOf(adds); }
        FewJobs(before, adds[i].kind);
        Add(adds[i].kind);
        i := i + 1;
      }
      assert adds[..i] == adds;
    }

    method SubAll(dels: seq<Handle>, ghost live: set<Handle>)
      requires Counts(live) && Distinct(dels) && SetOf(dels) <= live && forall h :: h in dels ==> IsBasic(h.kind)
      modifies this
      ensures Counts(live - SetOf(dels))
    {
      var i := 0;
      assert live - SetOf(dels[..0]) == live;
      while i < |dels|
        invariant i <= |dels| && Counts(live - SetOf(dels[..i]))
      {
        NextOf(dels, i);
        ghost var after := live - SetOf(dels[..i + 1]);
        assert dels[i] in SetOf(dels);
        assert live - SetOf(dels[..i]) == after + {dels[i]};
        forall k: Kind { SizeOfMore(after, dels[i], k); }
        Sub(dels[i].kind);
        i := i + 1;
      }
      assert dels[..i] == dels;
    }

    /** Additions first, then deletions: no counter overflows as long as jobs have distinct identifiers,
        none falls below zero as long as only live jobs are deleted, and each counter still tells the
        number of live jobs of its kind. */
    method Update(adds: seq<Handle>, dels: seq<Handle>, ghost live: set<Handle>)
      requires Counts(live) && Distinct(adds) && Distinct(dels)
      requires SetOf(adds) !! live && SetOf(dels) <= live + SetOf(adds) && Identified(live + SetOf(adds))
      requires (forall h :: h in adds ==> IsBasic(h.kind)) && (forall h :: h in dels ==> IsBasic(h.kind))
      modifies this
      ensures Counts(live + SetOf(adds) - SetOf(dels))
    {
      AddAll(adds, live);
      SubAll(dels, live + SetOf(adds));
    }
  }
}
