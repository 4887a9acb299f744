/** The job entry: kinds, attributes, the stage machine of one job and the rows it persists.

    A shared job object is identified by its immutable part, a `Handle`; its mutable part
    (attributes, run kind, stage) lives in the slot of the unit that holds it. */
module Jobs {

  datatype Option<+T> = None | Some(value: T)

  /** Units are known here by an identifier with a total order only. */
  type Unit = nat

  datatype Kind =
    | Start | Stop | Reload | Restart
    | Verify | Nop
    | TryReload | TryRestart | ReloadOrStart

  predicate IsBasic(k: Kind) {
    k.Start? || k.Stop? || k.Reload? || k.Restart? || k.Verify? || k.Nop?
  }

  datatype Attr = Attr(ignoreOrder: bool, irreversible: bool, force: bool, noRelevancy: bool)

  function Or(a: Attr, b: Attr): Attr {
    Attr(a.ignoreOrder || b.ignoreOrder, a.irreversible || b.irreversible,
         a.force || b.force, a.noRelevancy || b.noRelevancy)
  }

  datatype JobResult =
    | Done | Cancelled | TimeOut | Failed | Dependency | Skipped
    | Invalid | Assert | UnSupported | Collected | Once | Merged

  datatype Stage = Init | Wait | Running | End(result: JobResult)

  datatype Mode =
    | Fail | Replace | ReplaceIrreversible | Isolate | Flush
    | IgnoreDependencies | IgnoreRequirements | Trigger

  datatype Handle = Handle(id: nat, unit: Unit, kind: Kind)

  datatype Job = Job(id: nat, unit: Unit, kind: Kind, attr: Attr, runKind: Kind, stage: Stage)

  function Ref(j: Job): Handle {
    Handle(j.id, j.unit, j.kind)
  }

  /** What the two persisted job tables hold for one unit: the row of `jtrigger` keyed by the
      unit and the rows of `jsuspends` keyed by the unit and a kind. */
  datatype TrigData = TrigData(kind: Kind, attr: Attr)
  datatype Row = Row(trig: Option<TrigData>, susp: map<Kind, Attr>)

  const EMPTY_ROW := Row(None, map[])

  // ---------------------------------------------------------------- run kinds

  function FirstRunKind(k: Kind): Kind {
    if k.Restart? then Stop else k
  }

  function NextRunKind(kind: Kind, last: Kind): Kind {
    if kind.Restart? && (last.Stop? || last.Start?) then Start else kind
  }

  /** The run kinds a job of kind `k` goes through: a restart stops and then starts. */
  predicate RunKindOk(k: Kind, rk: Kind) {
    if k.Restart? then rk.Stop? || rk.Start? else rk == k
  }

  // ---------------------------------------------------------------- the stage machine

  function NewJob(id: nat, u: Unit, k: Kind): Job {
    Job(id, u, k, Attr(false, false, false, false), FirstRunKind(k), Init)
  }

  function InitAttr(j: Job, mode: Mode): Job
    requires j.stage.Init?
  {
    j.(attr := Attr(j.attr.ignoreOrder || mode.IgnoreDependencies? || j.kind.Nop?,
                    j.attr.irreversible || mode.ReplaceIrreversible?,
                    j.attr.force, j.attr.noRelevancy))
  }

  function WaitJob(j: Job, row: Row): (Job, Row)
    requires j.stage.Init?
  {
    (j.(stage := Wait), row.(susp := row.susp[j.kind := j.attr]))
  }

  function MergeAttr(j: Job, other: Attr, row: Row): (Job, Row)
    requires j.stage.Wait?
  {
    var a := Or(j.attr, other);
    (j.(attr := a), row.(susp := row.susp[j.kind := a]))
  }

  function RunJob(j: Job, row: Row): (Job, Row)
    requires j.stage.Wait? || j.stage.Running?
  {
    (j.(stage := Running),
     if j.stage.Wait? then Row(Some(TrigData(j.kind, j.attr)), row.susp - {j.kind}) else row)
  }

  /** Finishing either retries (a restart whose stop is done) or ends the job and drops its row. */
  function FinishJob(j: Job, row: Row, result: JobResult): (Job, Row, bool)
    requires j.stage.Wait? || j.stage.Running?
  {
    var rk := if result.Done? then NextRunKind(j.kind, j.runKind) else j.runKind;
    var j' := j.(runKind := rk);
    if rk != j.runKind then
      (j'.(stage := Running), row, true)
    else if j.stage.Wait? then
      (j'.(stage := End(result)), row.(susp := row.susp - {j.kind}), false)
    else
      (j'.(stage := End(result)), row.(trig := None), false)
  }

  // ---------------------------------------------------------------- ordering of two jobs

  datatype Atom = Before | After

  function OrderCompare(a: Kind, b: Kind, atom: Atom): int
    decreases atom.After?
  {
    if a.Nop? || b.Nop? then 0
    else if atom.After? then -OrderCompare(b, a, Before)
    else if b.Stop? then 1 else -1
  }

  /** Does job `a`, whose unit stands in relation `atom` to the unit of `b`, have to wait for `b`? */
  predicate MustWait(a: Job, b: Job, atom: Atom) {
    !a.attr.ignoreOrder && !b.attr.ignoreOrder && OrderCompare(a.runKind, b.runKind, atom) > 0
  }

  /** The comparison seen from the two ends agrees: exactly one of two related jobs waits. */
  lemma OneSideWaits(a: Job, b: Job)
    requires !a.attr.ignoreOrder && !b.attr.ignoreOrder && !a.runKind.Nop? && !b.runKind.Nop?
    ensures MustWait(a, b, Before) != MustWait(b, a, After)
    ensures MustWait(a, b, After) != MustWait(b, a, Before)
  {
  }

  // ---------------------------------------------------------------- kinds and the state of the unit

  /** A request in the words of the basic kinds. Trying does nothing to a unit that is not active. */
  function MergeUnit(k: Kind, active: bool): (r: Kind)
    ensures IsBasic(r) && (IsBasic(k) ==> r == k)
    ensures r.Nop? <==> k.Nop? || (!active && (k.TryReload? || k.TryRestart?))
    ensures r.Start? <==> k.Start? || (!active && k.ReloadOrStart?)
    ensures r.Reload? <==> k.Reload? || (active && (k.TryReload? || k.ReloadOrStart?))
    ensures r.Restart? <==> k.Restart? || (active && k.TryRestart?)
  {
    match k
    case TryReload => if active then Reload else Nop
    case TryRestart => if active then Restart else Nop
    case ReloadOrStart => if active then Reload else Start
    case _ => k
  }

  // ---------------------------------------------------------------- kinds after a crash

  predicate TriggerIsKept(k: Kind) {
    k.Stop? || k.Verify? || k.Nop?
  }

  function MergeTriggerKind(k: Kind): Kind {
    if TriggerIsKept(k) then k else Restart
  }
}
