/** One unit's jobs: the pending ones by kind, their running order, the triggered one, and the flags
    that decide when the unit may be triggered next. */
module JobUnits {
  import opened Jobs

  datatype UnitState = UnitState(
    suspends: map<Kind, Job>,
    trigger: Option<Job>,
    order: bool,
    sq: seq<Handle>,
    interrupt: bool,
    retrigger: bool,
    dirty: bool,
    pause: bool,
    ready: bool,
    upReady: bool)

  const NEW_UNIT := UnitState(map[], None, true, [], false, false, false, false, false, false)

  // ---------------------------------------------------------------- readiness

  /** Some(true): the first suspended job is next; Some(false): the triggered job runs again. */
  function NaturalReady(s: UnitState): Option<bool> {
    if !s.order then None
    else if s.trigger.Some? && s.sq != [] then
      if s.interrupt then Some(true) else if s.retrigger then Some(false) else None
    else if s.trigger.Some? then
      if s.retrigger then Some(false) else None
    else if s.sq != [] then Some(true)
    else None
  }

  function CalcReady(s: UnitState): Option<bool> {
    if s.pause then None else NaturalReady(s)
  }

  /** The assertions met while computing readiness. */
  predicate ReadyAsserts(s: UnitState) {
    !s.pause && s.order && s.trigger.Some? != (s.sq != []) ==> !s.interrupt
  }

  function UpdateReady(s: UnitState): UnitState {
    s.(ready := CalcReady(s).Some?)
  }

  predicate IsEmpty(s: UnitState) {
    s.trigger.None? && s.suspends == map[]
  }

  // ---------------------------------------------------------------- conflicts

  predicate HasOthers(m: map<Kind, Job>) {
    exists k :: k in m && !k.Stop? && !k.Nop?
  }

  predicate Conflict(m: map<Kind, Job>) {
    Stop in m && HasOthers(m)
  }

  predicate ConflictWith(m: map<Kind, Job>, o: map<Kind, Job>) {
    (Stop in m || Stop in o) && (HasOthers(m) || HasOthers(o))
  }

  predicate Irreversible(m: map<Kind, Job>) {
    exists k :: k in m && m[k].attr.irreversible
  }

  predicate ReplaceWith(m: map<Kind, Job>, o: map<Kind, Job>)
    requires !Conflict(m) && !Conflict(o)
  {
    if HasOthers(m) && Stop in o then !Irreversible(m)
    else if Stop in m && HasOthers(o) then !Irreversible(m)
    else true
  }

  // ---------------------------------------------------------------- the running order

  function Slot(m: map<Kind, Job>, k: Kind): seq<Handle> {
    if k in m then [Ref(m[k])] else []
  }

  function Pick(m: map<Kind, Job>, ks: seq<Kind>): seq<Handle> {
    if ks == [] then [] else Slot(m, ks[0]) + Pick(m, ks[1..])
  }

  /** [stop] or [(restart|start|reload) -> verify -> nop]. */
  function Canon(m: map<Kind, Job>): seq<Handle> {
    if Stop in m then Pick(m, [Stop]) else Pick(m, [Restart, Start, Reload, Verify, Nop])
  }

  predicate AtMostOneMut(m: map<Kind, Job>) {
    && (Restart in m ==> Start !in m && Reload !in m)
    && (Start in m ==> Reload !in m)
  }

  predicate StopLike(k: Kind) {
    k.Stop? || k.Restart?
  }

  // ---------------------------------------------------------------- operations

  function InsertSuspend(s: UnitState, row: Row, job: Job, operate: bool): (UnitState, Row)
    requires IsBasic(job.kind)
    requires s.trigger.Some? ==> s.trigger.value.id != job.id
    requires job.kind !in s.suspends
    requires operate ==> job.stage.Init?
  {
    var (j, row') := if operate then WaitJob(job, row) else (job, row);
    (UpdateReady(s.(suspends := s.suspends[job.kind := j], order := false, dirty := true)), row')
  }

  function RemoveSuspend(s: UnitState, row: Row, kind: Kind, result: JobResult): (UnitState, Row, Option<Job>)
    requires kind in s.suspends ==> s.suspends[kind].stage.Wait? || s.suspends[kind].stage.Running?
  {
    var s' := UpdateReady(s.(suspends := s.suspends - {kind}, order := false, dirty := true));
    if kind in s.suspends then
      var (j, row', _) := FinishJob(s.suspends[kind], row, result);
      (s', row', Some(j))
    else
      (s', row, None)
  }

  /** Removing the pending jobs of several kinds, one after the other. */
  function RemoveKinds(s: UnitState, row: Row, ks: set<Kind>): (UnitState, Row) {
    (UpdateReady(s.(suspends := s.suspends - ks, order := false, dirty := true)),
     row.(susp := row.susp - ks * s.suspends.Keys))
  }

  function FlushSuspends(s: UnitState, row: Row): (UnitState, Row) {
    (UpdateReady(s.(suspends := map[], order := false, dirty := true)),
     row.(susp := row.susp - s.suspends.Keys))
  }

  /** The union of the pending jobs with those of a staged unit, kind by kind. */
  function UnionSuspends(m: map<Kind, Job>, o: map<Kind, Job>): map<Kind, Job> {
    map k | k in m.Keys + o.Keys ::
      if k in m && k in o then m[k].(attr := Or(m[k].attr, o[k].attr))
      else if k in m then m[k]
      else o[k].(stage := Wait)
  }

  function AddSuspends(s: UnitState, row: Row, o: map<Kind, Job>): (UnitState, Row) {
    var m := UnionSuspends(s.suspends, o);
    var known := o.Keys <= s.suspends.Keys;
    (s.(suspends := m, order := s.order && known, dirty := s.dirty || !known, ready := s.ready && known),
     row.(susp := row.susp + map k | k in o :: m[k].attr))
  }

  function MergeSuspends(s: UnitState, row: Row, o: map<Kind, Job>): (UnitState, Row) {
    if ConflictWith(s.suspends, o) then
      var (b, brow) := FlushSuspends(s, row);
      AddSuspends(b, brow, o)
    else
      AddSuspends(s, row, o)
  }

  /** The pending kinds that are merged away before ordering. */
  function MergedKinds(m: map<Kind, Job>, active: bool): set<Kind> {
    if Stop in m then {}
    else if Restart in m then {Start, Reload} * m.Keys
    else if Start in m && Reload in m then (if active then {Start} else {Reload})
    else {}
  }

  function Leftover(s: UnitState, active: bool): map<Kind, Job> {
    if s.order then s.suspends else s.suspends - MergedKinds(s.suspends, active)
  }

  function NewSq(s: UnitState, active: bool): seq<Handle> {
    if s.order then s.sq else Canon(Leftover(s, active))
  }

  function Reshuffle(s: UnitState, row: Row, active: bool): (UnitState, Row)
    requires !Conflict(s.suspends)
  {
    var q := NewSq(s, active);
    (UpdateReady(s.(order := true,
                    suspends := Leftover(s, active),
                    sq := q,
                    interrupt := if s.trigger.Some? && q != [] then StopLike(q[0].kind) else s.interrupt)),
     if s.order then row else row.(susp := row.susp - MergedKinds(s.suspends, active)))
  }

  function Pause(s: UnitState): UnitState
    requires s.order
  {
    UpdateReady(s.(dirty := true, pause := true))
  }

  function Resume(s: UnitState): UnitState
    requires s.order
  {
    UpdateReady(s.(dirty := true, pause := false))
  }

  /** The pending job that a member of `sq` refers to. */
  predicate Refers(s: UnitState, h: Handle) {
    h.kind in s.suspends && Ref(s.suspends[h.kind]) == h
  }

  predicate HasNext(s: UnitState) {
    && NaturalReady(s).Some?
    && (NaturalReady(s).value ==> Refers(s, s.sq[0]))
  }

  /** The job that runs when the unit is triggered next. */
  function Next(s: UnitState): Job
    requires HasNext(s)
  {
    if NaturalReady(s).value then s.suspends[s.sq[0].kind] else s.trigger.value
  }

  /** What a unit answers when a job acts on it. */
  datatype Answer = RunOk | RunAgain | RunEnd(result: JobResult)

  /** The job that the next trigger interrupts and merges away, if any. */
  function Interrupted(s: UnitState): Option<Job> {
    if CalcReady(s) == Some(true) && s.interrupt then s.trigger else None
  }

  function DoNextTrigger(s: UnitState): UnitState
    requires CalcReady(s).Some? && HasNext(s)
  {
    if CalcReady(s).value then
      UpdateReady(s.(interrupt := false,
                     retrigger := s.retrigger && !s.interrupt,
                     trigger := Some(Next(s)),
                     sq := s.sq[1..],
                     suspends := s.suspends - {s.sq[0].kind},
                     dirty := true))
    else
      UpdateReady(s.(retrigger := false, dirty := true))
  }

  predicate TriggerStages(s: UnitState)
    requires CalcReady(s).Some? && HasNext(s)
  {
    && (Next(s).stage.Wait? || Next(s).stage.Running?)
    && (Interrupted(s).Some? ==> Interrupted(s).value.stage.Running? && Next(s).stage.Wait?)
  }

  /** The job that is run, with the attributes of an interrupted job of the same kind, and the rows
      after finishing the interrupted job and running this one. */
  function RunNext(s: UnitState, row: Row): (Job, Row)
    requires CalcReady(s).Some? && HasNext(s) && TriggerStages(s)
  {
    var prev := Interrupted(s);
    if prev.Some? then
      var (j, row1) := if prev.value.kind == Next(s).kind
                       then MergeAttr(Next(s), prev.value.attr, row) else (Next(s), row);
      RunJob(j, FinishJob(prev.value, row1, Merged).1)
    else
      RunJob(Next(s), row)
  }

  /** Take the next job, finish the one it interrupts, run it, and record the unit's answer: a unit
      that asks to be tried again is paused. */
  function DoTrigger(s: UnitState, row: Row, answer: Answer): (UnitState, Row)
    requires CalcReady(s).Some? && HasNext(s) && TriggerStages(s)
  {
    var (j, row') := RunNext(s, row);
    (UpdateReady(DoNextTrigger(s).(trigger := Some(j), pause := answer.RunAgain?, retrigger := answer.RunAgain?)),
     row')
  }

  function InsertTrigger(s: UnitState, job: Job): UnitState
    requires s.trigger.None? && s.suspends == map[] && IsBasic(job.kind) && s.order
  {
    UpdateReady(s.(trigger := Some(job), retrigger := true, dirty := true))
  }

  function FinishTrigger(s: UnitState, row: Row, result: JobResult): (UnitState, Row, Option<Job>)
    requires s.trigger.Some? && s.order && s.trigger.value.stage.Running?
  {
    var (j, row', retry) := FinishJob(s.trigger.value, row, result);
    if retry then
      (UpdateReady(s.(trigger := Some(j), retrigger := true, dirty := true)), row', None)
    else
      (UpdateReady(s.(trigger := None, interrupt := false, retrigger := false, dirty := true)), row', Some(j))
  }

  // ---------------------------------------------------------------- the invariant of a live unit

  predicate PendingOk(u: Unit, k: Kind, j: Job) {
    j.unit == u && j.kind == k && IsBasic(k) && j.stage.Wait? && j.runKind == FirstRunKind(k)
  }

  predicate TriggerOk(u: Unit, j: Job) {
    j.unit == u && IsBasic(j.kind) && j.stage.Running? && RunKindOk(j.kind, j.runKind)
  }

  ghost predicate JobsOk(u: Unit, s: UnitState) {
    && (forall k :: k in s.suspends ==> PendingOk(u, k, s.suspends[k]))
    && (s.trigger.Some? ==> TriggerOk(u, s.trigger.value))
  }

  /** `sq` is the running order of everything pending. The one exception is a nop that was left
      behind when the stop it was pending with has been triggered. */
  ghost predicate SqOk(s: UnitState) {
    || s.sq == Canon(s.suspends)
    || (s.sq == [] && s.suspends.Keys == {Nop})
  }

  ghost predicate OrderedOk(s: UnitState) {
    && !Conflict(s.suspends)
    && AtMostOneMut(s.suspends)
    && SqOk(s)
    && s.interrupt == (s.trigger.Some? && s.sq != [] && StopLike(s.sq[0].kind))
  }

  ghost predicate UnitInv(u: Unit, s: UnitState) {
    && JobsOk(u, s)
    && (s.trigger.None? ==> !s.interrupt && !s.retrigger)
    && (s.order ==> OrderedOk(s))
    && (!s.order ==> s.dirty)
    && s.ready == CalcReady(s).Some?
  }

  /** The persisted rows say exactly which job is triggered and which ones are pending. */
  ghost predicate Mirror(s: UnitState, row: Row) {
    && row.trig == (if s.trigger.Some? then Some(TrigData(s.trigger.value.kind, s.trigger.value.attr)) else None)
    && row.susp.Keys == s.suspends.Keys
    && forall k :: k in s.suspends ==> row.susp[k] == s.suspends[k].attr
  }

  /** A unit staged by a transaction: fresh jobs only, none of them waiting or running. */
  ghost predicate StagedOk(u: Unit, o: map<Kind, Job>) {
    && (forall k :: k in o ==>
          o[k].unit == u && o[k].kind == k && IsBasic(k) && o[k].stage.Init? && o[k].runKind == FirstRunKind(k))
    && !Conflict(o)
  }
}
