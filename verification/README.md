# A verified model of the job engine, its persistence and the service life cycle

This project models three parts of the init daemon in Dafny and proves what they promise.

* **The job engine** (`core/bin/job`). A request is expanded through the unit dependencies into a scratch
  stage, checked, and merged into the live table as a whole. Each unit's pending jobs are merged and ordered;
  ready units are popped, triggered or paused on the before/after order; jobs are finished, retried or fall
  back along failure relations. The state is spread over the units' flags, the identifier index, the ready
  queue, the counters and two persisted tables, which have to agree all the time.
* **The reliability store** (`core/lib/rel`) and job recovery: write-behind tables committed together, the
  recorded "last words", and what comes back after a crash.
* **The service life cycle** (`coms/service/src/mng.rs`): the cascade of `enter_*` states under arbitrary
  answers of the environment, and the persistence of half-consumed command queues.

## How the model is built

| module | what it holds |
|---|---|
| `Jobs` | job kinds, attributes, the stage machine of one job, order comparison |
| `JobUnits`, `JobUnitLaws` | one unit's jobs and flags: operations as functions of the state, the unit invariant, what each operation keeps and exactly when one does not |
| `JobUnitObject` | the unit entry as a class updated in place, with the source's own assertions, proved against those functions |
| `JobTables`, `JobTableLaws`, `JobStepLaws`, `JobTableExact` | the live table: operations as functions, the table invariant `TableInv`, the exact conditions for keeping it |
| `JobQueue` | the two-part ready queue, the identifier allocator and the counters as classes |
| `JobTableObject`, `JobCommitObject` | the live table as a class, its loops and the passes of a commit, proved against the functions |
| `JobManagerObject` | executing a request on the live objects |
| `JobOrder` | the waits-for relation and why it cannot deadlock |
| `JobRuns`, `JobProgress`, `JobStranded` | whole runs: agreement, no lost wake-up, draining; exactly which events break draining, with a run that does |
| `JobLoop`, `JobReports`, `JobSurprises` | the trigger loop and when it ends; reports of units and when one is unexpected; runs from the empty table that meet an assertion or never end |
| `Transactions` | expansion, verification, all-or-nothing execution |
| `ExpansionLaws`, `RequestLaws` | what a request pulls in, relation by relation; exactly when it fails or is refused; what is pending after a commit |
| `JobFallback` | failing along the failure relations |
| `Reliability` | the write-behind store and the recorded last words |
| `Recovery`, `JobRows` | compensating and rebuilding the jobs; the two job tables inside the store |
| `RecoveryRuns`, `RecoveryReruns`, `RecoveryStranded` | running, crashing and recovering as steps with a crash allowed anywhere; running recovered jobs again; the runs where that goes wrong |
| `Services`, `ServiceTables`, `ServiceRuns` | the service manager as a class, and where everything leads as a function of the state before and the answers; what that is in a world that does what it is asked for; runs that end where nobody wants them |

Units are natural numbers with their order. The before relation is an arbitrary finite set of pairs, so that
before and after mirror each other. What a unit answers to start, stop or reload is an arbitrary `Answer`;
what the service manager asks of its environment is answered by an arbitrary function `world`. A shared job
object is a `Handle` (identifier, unit, kind); its changing part lives in the slot that holds it. The two
persisted job tables are grouped by unit as a `Row`.

`TableInv` says at once: every unit is consistent, ordered and clean; `sq` is the running order of what is
pending; at most one pending job changes the unit; a stop is pending with nothing but a nop; the interrupt flag
is set exactly when a stop or restart is in front of a triggered job; the persisted rows tell exactly which job
is triggered and which are pending with which attributes; the ready set is exactly the ready units; the index
holds exactly the live jobs with distinct identifiers; every counter is the number of live jobs of its kind.

## What turned out not to hold

Each of these is kept as the code has it and proved with its exact condition.

* `jobs_merge_trigger_prepare` does not reset `interrupt` when nothing is pending any more. Cancelling or
  flushing all that is pending in a unit whose triggered job is about to be interrupted fires the assertion at
  junit.rs:762 (`CancelledInterrupterAsserts`; three events lead there: `CancellingIsReached`; exactly when:
  `ReshuffleAssertExact`), and is the only way a removal or a flushing commit breaks the table (`RemoveExact`,
  `CommitExact`).
* A nop is left out of `sq` once a stop it was pending with is triggered (`NopStaysBehindStop`), and only then
  (`NopStaysExact`).
* A pending restart that is finished with the result done is not ended and leaves its row behind
  (`RemoveMirrorExact`). The callers never pass that result for a pending job.
* A transaction that gives a stop to a unit which waits for earlier units does not resume it. Four events
  suffice to leave two units waiting for each other with nothing running (`ReplacingStrands`). Ending the
  triggered job of a unit that was asked to come back later strands what is pending behind it
  (`EndedVerifyStrands`). `CarefulIsExact` says exactly which events do this.
* Recovery is documented as re-entrant, and it is as long as the engine has not committed since the rows were
  compensated. But the recovered jobs are run again, with commits, while the last unit is still recorded. A crash
  after such a commit makes the next recovery restart a unit whose job was done (`RecoveryRestartsDoneUnit`,
  and from every such recovery: `DoneJobComesBack`). `RepeatedRecoveryExact` says exactly when the next recovery
  adds a job that is not on disk, `CrashKeepsEveryJob` exactly when it adds one to the last commit.
* `trigger_unit` asserts that a recovered unit has something to run when its turn comes. Before its turn that is so
  if and only if it has any job left, and `TurnExact` says for every event exactly when it takes the last one away
  (for whole runs: `TurnFindsJob`, `TurnFailsIfCleared`). The failing turn of another unit does, if and only if
  nothing is persisted for the unit but starts and verifies (`FailedTurnExact`); two recovered verifies where it
  happens are in `SkippedVerifyTakesTurn`.
* A report on a unit with a triggered verify or nop that is not paused meets `unreachable!` in `job_process_unit`. A
  verify that was asked to come back later is in that state from the moment it is resumed until it is triggered again
  (`SecondReportIsUnreachable` is a run; `StrayExact` says exactly which events lead there, `OrderlyIsTidy` that only
  ready units can be in it).
* The loop of `run` ends whatever the units answer (`LoopEnds`), with one exception: a unit that asks to be tried
  again and reports a new state while it is asked is resumed at once, which leaves the engine where it was
  (`AgainAndReport`, `LoopsForever`; `StartLoopsForever` is a run).
* Recovery takes one frame off the recorded stack, so frames that were nested at the crash linger
  (`NestedFramesLinger`).
* A request that requires, through others, something of a unit that cannot be acted on is meant to fail. Where
  something doomed in this way is merely liked by some staged job, it depends on the order of the dependencies
  (`OrderDecides`); where nothing is, it fails exactly then (`AcceptedExact`).
* A start requested as irreversible loses that when it makes way for a pending restart, or for a reload of an active
  unit (`IrreversibleStart`, exactly when).
* The promise that a stopped service does not restart ends with the service: ending clears the prohibition, and
  the watchdog that was set at its start is still set. When it elapses, the service can come back
  (`LateWatchdogRestarts`). It can, with some answers of the environment, if and only if a restart is due after the
  result as it is, or after a watchdog failure if there is none (`WatchdogRestartExact`; for every other cascade of
  signals: `CascadeRestartExact`). What else can leave an ended service is in `Handle`.
* A simple service whose command after starting cannot be spawned keeps its old state, with a main process and
  perhaps a timer; the end of the process, or the timer, then runs into `unreachable!` (`FailedPostSurprises`,
  `FailedPostTimesOut`). `ChildExited` and `TimerElapsed` say exactly when that is so; `Handle` says that nothing
  else leads there.
* `control_command_fill` leaves the queue alone when the list is not configured, and signals keep it: the second
  command before starting is run while the service is already stopping (`AbortedStartRunsOn`). `NextFor` says
  exactly when a command comes from the list it is meant for, `RunNextControl` from which list it comes.
* Isolating is meant to stop the units that a request does not need. `is_unit_empty` (table.rs:747-749) answers the
  opposite of its name, so what is stopped are exactly the units that something is staged for
  (`IsolationStopsStaged`, `IsolationIsLeastClosure`); other units keep running (`IsolationSparesOthers`), and the
  request conflicts with itself unless all it wants to act on is exempt (`IsolationWantsExempt`).
* `stop_action` lists FinalWatchdog twice and FinalSigkill not at all; the model follows the code.

## Model

| member | source | states |
|---|---|---|
| `Jobs.OneSideWaits` | core/bin/job/entry.rs:453-462 | of two related jobs that take part in ordering exactly one waits, seen from either end |
| `Jobs.MergeUnit` | core/bin/job/entry.rs:642-652 | every request becomes a basic kind; exactly when it becomes a nop, a start or a reload |
| `JobUnitLaws.CanonShape` | core/bin/job/junit.rs:633-658 | the running order holds every pending job (up to a nop beside a stop), at most three, with the stopping job in front |
| `JobUnitLaws.CanonOrder` | core/bin/job/junit.rs:633-658 | a stop is alone; otherwise the job that changes the unit, then the verify, then the nop |
| `JobUnitLaws.CanonTail` | core/bin/job/junit.rs:584-607 | taking the first job leaves the running order of the rest if and only if it is not a stop that a nop is pending with |
| `JobUnitLaws.CanonOfAttrs` | core/bin/job/junit.rs:309-321 | merging attributes does not change the running order |
| `JobUnitLaws.FlushKeeps` | core/bin/job/junit.rs:273-294 | cancelling all pending jobs keeps the unit invariant and the persisted rows in step |
| `JobUnitLaws.MergeKeeps` | core/bin/job/junit.rs:296-324 | merging a staged unit, by union or by replacement, leaves a consistent, persisted, conflict-free unit |
| `JobUnitLaws.MergedLeavesOneMut` | core/bin/job/junit.rs:614-631 | merging leaves at most one job that changes the unit, never loses a stop or restart and never empties the unit |
| `JobUnitLaws.SurvivorsExact` | core/bin/job/junit.rs:675-690 | ordering leaves exactly the jobs that make no way: start and reload for a restart, a start for a reload of an active unit, a reload for a start of one that is not |
| `JobUnitLaws.ReshuffleMirror` | core/bin/job/junit.rs:326-354 | the rows of merged jobs go exactly when the jobs go |
| `JobUnitLaws.ReshuffleExact` | core/bin/job/junit.rs:326-354 | ordering keeps the unit invariant if and only if it leaves no interrupt flag with nothing pending |
| `JobUnitLaws.ReshuffleAssertExact` | core/bin/job/junit.rs:736-773 | the assertions while computing readiness hold if and only if that flag is not left on an unpaused unit |
| `JobUnitLaws.CancelledInterrupterAsserts` | core/bin/job/junit.rs:660-673 | a concrete unit on which removing, or flushing, fires the assertion |
| `JobUnitLaws.OrderedHasNothingToMerge` | core/bin/job/table.rs:873-876 | the merge list that `remove_entry` throws away is always empty |
| `JobUnitLaws.RemoveIsRemoveKinds` | core/bin/job/junit.rs:252-271 | a removal that ends the job ends exactly that job with that result |
| `JobUnitLaws.RemoveMirrorExact` | core/bin/job/entry.rs:391-423 | a removal keeps the persisted rows in step if and only if the result ends the job |
| `JobUnitLaws.RemoveKeeps` | core/bin/job/junit.rs:252-271 | removals keep the unit invariant and the rows in step |
| `JobUnitLaws.PauseResumeKeep` | core/bin/job/junit.rs:356-374 | pausing and resuming keep the invariant; a paused unit is not ready |
| `JobUnitLaws.OrderedHasNext` | core/bin/job/junit.rs:714-724 | a unit that can go on has a next job, and it is the one in front of `sq` or the triggered one |
| `JobUnitLaws.ReadyExact` | core/bin/job/junit.rs:736-773 | exactly when the first job in the running order is next, and exactly when the triggered one runs again |
| `JobUnitLaws.DoTriggerKeeps` | core/bin/job/junit.rs:68-98 | triggering runs and persists the next job, replaces a triggered job only by reporting it as merged, and leaves the unit not ready |
| `JobUnitLaws.TriggeredAttrs` | core/bin/job/junit.rs:68-98 | the job that runs has its own attributes and those of an interrupted job of its kind |
| `JobUnitLaws.FinishTriggerFrame` | core/bin/job/junit.rs:418-443 | a finished job is deleted unless it is a restart whose stop is done, which goes on with its start |
| `JobUnitLaws.FinishTriggerKeeps` | core/bin/job/junit.rs:418-443 | finishing keeps the unit invariant and the rows in step |
| `JobUnitLaws.NopStaysExact` | core/bin/job/junit.rs:584-607 | triggering leaves everything else queued in its running order if and only if no nop was pending with a stop |
| `JobUnitLaws.NopStaysBehindStop` | core/bin/job/junit.rs:633-658 | a stop and a nop pending: after the trigger the nop is held and queued nowhere |
| `JobUnitObject.JobUnit.ComputeReady` | core/bin/job/junit.rs:726-773 | computes readiness; its assertions hold on every unit that satisfies `ReadyAsserts` |
| `JobUnitObject.JobUnit.Insert` | core/bin/job/junit.rs:228-250 | new state and rows of inserting a pending job |
| `JobUnitObject.JobUnit.Remove` | core/bin/job/junit.rs:252-271 | new state and rows of removing a pending job with any result; validity if and only if the result ends it |
| `JobUnitObject.JobUnit.Flush` | core/bin/job/junit.rs:273-294 | the loop over the cancelled jobs leaves the flushed state and rows |
| `JobUnitObject.JobUnit.MergeIn` | core/bin/job/junit.rs:296-324 | flush on conflict and the loop over the staged jobs give the merged state, whatever the order |
| `JobUnitObject.JobUnit.OrderSq` | core/bin/job/junit.rs:633-658 | pushing back kind by kind gives the running order; both length assertions hold |
| `JobUnitObject.JobUnit.Reorder` | core/bin/job/junit.rs:326-354 | merging, ordering, preparing the interruption: new state, rows, merged jobs, exactly which jobs survive; exactly when the assertion fires, and exactly when the unit stays in order |
| `JobUnitObject.JobUnit.PauseIt` | core/bin/job/junit.rs:356-364 | new state of pausing, validity |
| `JobUnitObject.JobUnit.ResumeIt` | core/bin/job/junit.rs:366-374 | new state of resuming, validity |
| `JobUnitObject.JobUnit.TakeNext` | core/bin/job/junit.rs:376-383 | the next job and the interrupted one, with the assertions of both branches |
| `JobUnitObject.JobUnit.Trigger` | core/bin/job/junit.rs:68-98 | new state and rows of triggering, the merged job, validity, not ready |
| `JobUnitObject.JobUnit.AdoptTrigger` | core/bin/job/junit.rs:399-416 | new state of adopting a triggered job after a crash |
| `JobUnitObject.JobUnit.FinishTriggered` | core/bin/job/junit.rs:418-443 | new state, rows and deleted job of finishing, validity |
| `JobTableLaws.ApplyKeeps` | core/bin/job/table.rs:99-238 | an operation made of sound unit steps keeps units, rows, ready set, index and counters in agreement |
| `JobTableLaws.CountsConserved` | core/bin/job/stat.rs:164-196 | additions and deletions are counted exactly and no counter falls below zero |
| `JobStepLaws.CommitKeepsTable` | core/bin/job/table.rs:99-135 | a commit keeps the table in agreement |
| `JobStepLaws.ResumeAllKeeps` | core/bin/job/table.rs:881-897 | resuming keeps the table in agreement |
| `JobStepLaws.RemoveKeepsTable` | core/bin/job/table.rs:137-161 | removing pending jobs keeps the table in agreement when it leaves something to interrupt for |
| `JobStepLaws.FinishKeepsTable` | core/bin/job/table.rs:179-194 | finishing keeps the table in agreement |
| `JobStepLaws.TryTriggerKeepsTable` | core/bin/job/table.rs:346-373 | a ready unit is there to be triggered; triggering or pausing it keeps the table in agreement and it is not ready afterwards |
| `JobTableExact.RemoveExact` | core/bin/job/table.rs:853-879 | removing keeps the table in agreement if and only if the unit is not about to be interrupted or something stays pending |
| `JobTableExact.CommitExact` | core/bin/job/table.rs:524-556 | a flushing commit keeps the table in agreement if and only if no flushed unit is about to be interrupted |
| `JobQueue.ReadyQueue.Backfill` | core/bin/job/table.rs:933-942 | moves the stack back into the set without losing a unit |
| `JobQueue.ReadyQueue.Fill` | core/bin/job/table.rs:944-950 | moves the set into an ascending stack without losing a unit |
| `JobQueue.ReadyQueue.Insert` | core/bin/job/table.rs:907-918 | adds exactly that unit; never both parts in use |
| `JobQueue.ReadyQueue.Remove` | core/bin/job/table.rs:920-931 | removes exactly that unit |
| `JobQueue.ReadyQueue.Pop` | core/bin/job/table.rs:669-688 | takes the greatest ready unit, or none when there is none |
| `JobQueue.ReadyQueue.PopUnit` | core/bin/job/table.rs:669-688 | takes the given unit if it is ready |
| `JobQueue.ReadyQueue.IsReady` | core/bin/job/table.rs:724-736 | tells whether the queue holds any unit |
| `JobQueue.JobAlloc.AllocId` | core/bin/job/alloc.rs:113-124 | the first free 32-bit identifier after the last one with wrap-around; the search ends |
| `JobQueue.KindNum.Update` | core/bin/job/stat.rs:164-196 | additions then deletions: no overflow for jobs with distinct 32-bit identifiers, no underflow, each counter stays the number of live jobs of its kind |
| `JobTableObject.JobTable.Sync` | core/bin/job/table.rs:899-931 | the queue holds exactly the units marked as told to it, before and after |
| `JobTableObject.JobTable.Collect` | core/bin/job/table.rs:952-960 | an empty entry is dropped and its assertions hold |
| `JobTableObject.JobTable.CalcReady` | core/bin/job/table.rs:724-736 | something is to be triggered if and only if the table is in sync and a unit is ready |
| `JobTableObject.JobTable.ResumeUnit` | core/bin/job/table.rs:881-897 | new table of resuming one unit, agreement |
| `JobTableObject.JobTable.ResumeEach` | core/bin/job/table.rs:375-393 | visiting the order neighbours one by one is resuming them together |
| `JobTableObject.JobTable.FinishTriggered` | core/bin/job/table.rs:179-194 | new table of finishing, the deleted job, agreement |
| `JobTableObject.JobTable.RemovePending` | core/bin/job/table.rs:137-161 | new table of removing one or two kinds in turn with any result; exactly when the removal would break the agreement |
| `JobTableObject.JobTable.TryTriggerNext` | core/bin/job/table.rs:164-177 | the greatest ready unit (or the given one) is triggered or paused; nothing changes when nothing is ready |
| `JobCommitObject.MergePass` | core/bin/job/table.rs:558-581 | flushing and merging unit by unit, in any order, with the jobs reported |
| `JobCommitObject.OrderPass` | core/bin/job/table.rs:583-602 | ordering, telling the queue and dropping empty units, in any order |
| `JobCommitObject.CommitStage` | core/bin/job/table.rs:99-135 | the passes together are the commit; the table stays in agreement |
| `JobManagerObject.JobManager.AllocAll` | core/bin/job/alloc.rs:90-124 | identifiers for a whole request are new and distinct |
| `JobManagerObject.JobManager.Exec` | core/bin/job/manager.rs:397-427 | a refused request leaves the table and what is persisted as they were; otherwise the plan is committed; exactly which plans would break the agreement |
| `JobOrder.StopIsNext` | core/bin/job/junit.rs:714-724 | in a unit that can go on, a job that stops the unit is always the next one |
| `JobOrder.HeldBackExact` | core/bin/job/junit.rs:532-559 | the order check holds a unit back if and only if its next job respects order and a later unit has a stop that does or, unless it is a stop, an earlier unit has a job that does |
| `JobOrder.SomebodyIsFree` | core/bin/job/entry.rs:654-667 | over an acyclic before relation not everybody waits |
| `JobOrder.OrderingNeverDeadlocks` | core/bin/job/table.rs:789-811 | with no unit held up by a running job, some unit with work passes the order check |
| `JobRuns.StepKeeps` | core/bin/job/table.rs:99-194 | every event keeps the table in agreement and every unit waiting for order has a neighbour with a job |
| `JobRuns.NextTableWakes` | core/bin/job/table.rs:375-393 | whoever leaves the table has resumed its order neighbours |
| `JobRuns.EveryRunAgrees` | core/bin/job/manager.rs:439-480 | agreement and no lost wake-up after every run from the empty table |
| `JobProgress.CarefulStepKeeps` | core/bin/job/table.rs:346-393 | careful events keep: whoever waits has a reason now, and every pause is explained |
| `JobProgress.CarefulIsExact` | core/bin/job/table.rs:99-194 | an event keeps that if and only if it is careful |
| `JobProgress.TransactExact` | core/bin/job/table.rs:558-581 | a transaction keeps every reason to wait if and only if each stop it silently gives to a waiting unit has a later stop to wait for |
| `JobProgress.EndExact` | core/bin/job/junit.rs:418-443 | ending a job leaves every pause explained if and only if the unit is not paused for a retry with others pending |
| `JobProgress.QuiescentIsDone` | core/bin/job/table.rs:789-811 | nothing triggered and nothing ready: all that is left are nops, queued nowhere, in units that are not paused |
| `JobProgress.EveryCarefulRunDrains` | core/bin/job/manager.rs:439-480 | every careful run over an acyclic order, whenever it is quiescent, has left nothing but such nops |
| `JobLoop.WorkFalls` | core/bin/job/manager.rs:439-480 | every trigger and every end brings the loop closer to its end, and no removal takes it back |
| `JobLoop.LoopEnds` | core/bin/job/manager.rs:439-480 | without requests and reports the number of triggers and ends is bounded in any state, whatever the units answer and whatever falls back |
| `JobLoop.AgainAndReport` | core/bin/job/manager.rs:448-463 | a unit that asks to be tried again and reports while it is asked leaves the engine where it was |
| `JobLoop.LoopsForever` | core/bin/job/manager.rs:439-480 | such a unit keeps the loop going for any number of rounds |
| `JobReports.StrayIsUnreachable` | core/bin/job/entry.rs:506-517 | a report is unreachable if and only if the unit has a triggered verify or nop and is not paused |
| `JobReports.ReportExact` | core/bin/job/entry.rs:586-640 | for every report on a unit that is not paused, exactly when a start, stop or reload is done, has failed or goes on |
| `JobReports.ReportEnds` | core/bin/job/manager.rs:579-587 | a report that ends the job deletes it, ended with that result; a restart whose stop is done goes on to its start |
| `JobReports.ReactionIsEvent` | core/bin/job/manager.rs:563-605 | any other report resumes the unit, ends its job or does nothing, and keeps agreement and wake-ups |
| `JobReports.StrayExact` | core/bin/job/manager.rs:563-605 | for every event exactly when a report is unexpected afterwards |
| `JobReports.OrderlyIsTidy` | core/bin/job/entry.rs:544-564 | after every run in which verifies and nops answer as they do, a report is unexpected only for a unit in the ready set |
| `JobSurprises.SecondReportIsUnreachable` | core/bin/job/entry.rs:506-517 | a run from the empty table after which every report on the unit is unreachable |
| `JobSurprises.StartLoopsForever` | core/bin/job/manager.rs:439-480 | a run from the empty table after which the loop can go on for ever |
| `JobSurprises.CancellingIsReached` | core/bin/job/junit.rs:660-673 | a run from the empty table to the unit whose cancelled stop fires the assertion |
| `JobStranded.ReplacingStrands` | core/bin/job/junit.rs:296-324 | a run of four events after which two units wait for each other and nothing runs |
| `JobStranded.EndedVerifyStrands` | core/bin/job/transaction.rs:387-411 | a run of four events after which a unit is paused with a pending job, no job is triggered and no other unit is there |
| `Transactions.Expand` | core/bin/job/transaction.rs:24-55 | expansion ends on cyclic dependencies, only adds to the stage, records the request, and is a bad request if and only if the request itself is |
| `Transactions.ExpandWithin` | core/bin/job/transaction.rs:117-223 | expansion stages only what every closed set around the request holds |
| `Transactions.ExpandComplete` | core/bin/job/transaction.rs:117-223 | without a failing strict dependency, everything pulled in is staged |
| `Transactions.ExpansionIsLeastClosure` | core/bin/job/transaction.rs:24-243 | the staged jobs are the least closed set around the mapped request |
| `ExpansionLaws.CheckExact` | core/bin/job/transaction.rs:93-115 | exactly when a unit can be acted on |
| `ExpansionLaws.EdgesAreRelations` | core/bin/job/transaction.rs:117-223 | along which relations which job is required, and along which one is merely liked |
| `ExpansionLaws.StagedHasOrigin` | core/bin/job/transaction.rs:117-223 | whatever is staged beyond the request was brought about by something staged, along one of the relations |
| `ExpansionLaws.ExpansionByRelation` | core/bin/job/transaction.rs:117-223 | what is staged for each relation of a start, restart, stop and reload |
| `ExpansionLaws.AcceptedExact` | core/bin/job/transaction.rs:126-155 | where nothing doomed is merely liked, a request succeeds if and only if it does not require, directly or through what it requires, something of a unit that cannot be acted on |
| `ExpansionLaws.HinderedRequestFails` | core/bin/job/transaction.rs:126-155 | a request that requires something of a unit that cannot be acted on fails, whatever else there is |
| `ExpansionLaws.OrderDecides` | core/bin/job/transaction.rs:126-142 | where something doomed is merely liked, the order of the dependencies decides: a request that succeeds in one order and fails in the other |
| `Transactions.IsolationStopsStaged` | core/bin/job/transaction.rs:245-274 | of the units that are not exempt and can be stopped, isolating stops exactly those that something is staged for |
| `Transactions.IsolationIsLeastClosure` | core/bin/job/transaction.rs:245-274 | whatever the order of the units, isolating stages the least set that holds the request, is closed under pulling in, and stops each of its units that is not exempt |
| `Transactions.IsolationSparesOthers` | core/bin/job/table.rs:747-749 | two units: isolating one leaves the other running, and conflicts with itself unless the one is exempt |
| `Transactions.IsolationWantsExempt` | core/bin/job/manager.rs:397-427 | an isolating request is refused unless every unit it wants to act on, itself included, is exempt or cannot be stopped |
| `Transactions.TriggerStagesStops` | core/bin/job/transaction.rs:276-303 | mode trigger stages stops only: the request, all units that trigger it and can be stopped, and nothing but what these pull in |
| `Transactions.TriggerFitsItself` | core/bin/job/transaction.rs:305-311 | a trigger request never conflicts with itself |
| `Transactions.PlanIsLegal` | core/bin/job/manager.rs:397-427 | a request that is not refused is a legal transaction of the engine if and only if it flushes no unit that is about to be interrupted |
| `Transactions.ReplacedIsReversible` | core/bin/job/junit.rs:517-530 | a conflict is replaced only where nothing irreversible is pending |
| `Transactions.ExecSparesJobs` | core/bin/job/transaction.rs:305-328 | mode fail cancels nothing; in every mode a conflict flushes no unit with an irreversible pending job; only modes flush and isolate cancel more, in the units they name |
| `RequestLaws.RefusedExact` | core/bin/job/transaction.rs:305-328 | a request is refused if and only if mode and kind do not fit, expansion fails, the stage is at odds with itself, or it collides with a live unit in mode fail or with an irreversible job; otherwise the plan holds exactly the staged jobs, their attributes by mode |
| `RequestLaws.IrreversibleKeepsStopOut` | core/bin/job/transaction.rs:313-328 | an irreversible job keeps every stop of its unit out, in every mode |
| `RequestLaws.CommittedJobs` | core/bin/job/junit.rs:296-354 | after a commit exactly what came together and made no way is pending, with the attributes of both sides |
| `RequestLaws.IrreversibleStart` | core/bin/job/junit.rs:675-690 | a start requested as irreversible is irreversible while it is pending, and exactly when it made way for a job that is not |
| `Transactions.RequestsArePending` | core/bin/job/manager.rs:397-427 | after a success every staged job is pending, or one in its place that does what it was to do, by the activity of the unit |
| `JobFallback.FailingIsEvents` | core/bin/job/transaction.rs:387-411 | failing a unit is a finish and a removal of the engine, so every run keeps agreement and wake-ups through a fallback |
| `JobFallback.FailTriggerKeeps` | core/bin/job/transaction.rs:396-404 | ending a triggered start or verify removes exactly that job and keeps the table in agreement |
| `JobFallback.FailPendingKeeps` | core/bin/job/transaction.rs:406-408 | ending pending starts and verifies removes exactly these |
| `JobFallback.VictimsAreHandedOut` | core/bin/job/transaction.rs:396-410 | what is reported is what finishing and removing hand out |
| `JobFallback.Fallback` | core/bin/job/transaction.rs:330-350 | fallback ends; each lost job is reported once, as it was and ended with the given result; no unit reached still has a start or verify |
| `JobFallback.FallbackAll` | core/bin/job/transaction.rs:342-347 | the same for the dependants of all lost jobs |
| `JobFallback.FallbackReaches` | core/bin/job/transaction.rs:352-385 | no start or verify is left along the start failure relation of a failed start or verify, and along the stop failure relation of a failed stop |
| `JobFallback.FallbackOnlyReaches` | core/bin/job/transaction.rs:330-350 | no job is lost but those of units that the failed job or a lost one leads to |
| `JobFallback.ReloadFailsAlone` | core/bin/job/transaction.rs:352-365 | a failed reload, restart or nop leads nowhere |
| `Reliability.ReDb.Insert` | core/lib/rel/base.rs:97-112 | new table of a write; the overlay is kept |
| `Reliability.ReDb.Remove` | core/lib/rel/base.rs:114-128 | new table of an erasure; the overlay is kept |
| `Reliability.ReDb.CacheToDb` | core/lib/rel/base.rs:167-180 | the export loops put on disk exactly what the process sees |
| `Reliability.ReDb.DbToCache` | core/lib/rel/base.rs:182-198 | the import loop shows exactly what is on disk and starts the overlay |
| `Reliability.ReDb.constructor` | core/lib/rel/base.rs:70-82 | a table starts with an empty memory over any disk |
| `Reliability.OverlayStarts` | core/lib/rel/base.rs:84-90 | the overlay holds from an import or a clear on; a new table has it if and only if the disk is empty |
| `Reliability.PutKeepsOverlay` | core/lib/rel/base.rs:97-112 | a write keeps memory equal to the disk overlaid by the pending writes |
| `Reliability.DeleteKeepsOverlay` | core/lib/rel/base.rs:114-128 | an erasure keeps it too |
| `Reliability.ExportSettles` | core/lib/rel/base.rs:167-180 | after a commit disk and memory are equal |
| `Reliability.ActKeeps` | core/lib/rel/history.rs:70-98 | every action, on tables and on last words, keeps all tables overlaid, the snapshot on disk, and no pending write without an open frame or a recovery |
| `Reliability.CrashRestoresLastCommit` | core/lib/rel/history.rs:70-90 | a crash after any run brings back one snapshot of all tables and the last words; with no frame recorded, outside a recovery, nothing is lost |
| `Reliability.TopIsInnermost` | core/lib/rel/last.rs:108-155 | the recorded top is the innermost open frame |
| `Reliability.NestedFramesLinger` | core/lib/rel/api.rs:146-162 | recovery leaves no stale frame if and only if at most one was recorded |
| `Recovery.CompensateTwice` | core/bin/job/manager.rs:348-361 | compensating the persisted triggers twice is compensating them once |
| `Recovery.InsertedInAnyOrder` | core/bin/job/manager.rs:363-380 | reading the persisted pending jobs in any order rebuilds the same unit |
| `Recovery.RecoverUnitOk` | core/bin/job/table.rs:56-68 | rebuilding a unit merges nothing away and leaves its rows as they are |
| `Recovery.RecoverTableOk` | core/bin/job/manager.rs:363-387 | the rebuilt table is in full agreement, counters included |
| `Recovery.UnitComesBack` | core/bin/job/junit.rs:793-807 | pending jobs wait again with their attributes; a triggered stop, verify or nop comes back as itself, anything else as a restart |
| `Recovery.InventedExact` | core/bin/job/manager.rs:75-87 | recovery adds no triggered job if and only if the last unit, if recorded, has one |
| `JobRows.ReadBack` | core/bin/job/rentry.rs:129-196 | reading the two tables gives the rows they hold |
| `JobRows.WritesExist` | core/bin/job/rentry.rs:129-196 | whatever the rows are to be, there are writes to the store that make the tables hold them |
| `RecoveryRuns.MoveKeeps` | core/lib/rel/api.rs:146-162 | every step of running, crashing and recovering keeps store, disk, last words and engine in agreement |
| `RecoveryRuns.LastUnitExact` | core/lib/rel/api.rs:274-282 | the recorded unit counts if and only if a frame is recorded; once taken back it stays so over a crash |
| `RecoveryRuns.CrashKeepsEveryJob` | core/bin/job/manager.rs:348-387 | after any run with crashes anywhere, also inside recoveries, the rebuilt table is in agreement and holds the jobs of the engine's last commit; no other triggered job if and only if the last unit has one there |
| `RecoveryRuns.RecoveryWorks` | core/lib/rel/api.rs:146-162 | from every crash a recovery can get to rebuilding the jobs, from the same commit and with the same last unit |
| `RecoveryRuns.RepeatedRecoveryExact` | core/lib/rel/station.rs:62-79 | the next recovery leaves the triggered jobs that are on disk if and only if the last unit still has one; it changes nothing as long as the engine has not committed |
| `RecoveryReruns.TurnExact` | core/bin/job/manager.rs:153-158 | for every event but its own turn: a recovered unit is ready afterwards, so that its turn finds something, if and only if it was and has not lost its last job, or was given one |
| `RecoveryReruns.TurnFindsJob` | core/bin/job/manager.rs:89-104 | for every run up to its turn: the turn finds something if and only if no event took the last job away since one was given |
| `RecoveryReruns.TurnFailsIfCleared` | core/bin/job/manager.rs:89-104 | without new requests the turn fails if and only if some event of the run takes the last job away |
| `RecoveryReruns.RecoveredAwaits` | core/bin/job/table.rs:63-68 | after a recovery every unit awaits its turn, and those with a job that was triggered are ready |
| `RecoveryReruns.FallbackTurnExact` | core/bin/job/transaction.rs:330-411 | a failure that leads to a unit takes its turn away if and only if it holds nothing but starts and verifies; any other unit keeps its turn |
| `RecoveryReruns.FailedTurnExact` | core/bin/job/manager.rs:649-678 | after a recovery, for all persisted rows: the failing turn of one unit takes the turn of another if and only if nothing but starts and verifies is persisted for that one |
| `RecoveryReruns.SkippedVerifyTakesTurn` | core/bin/job/manager.rs:153-158 | two recovered verifies where the assertion is met |
| `RecoveryStranded.DoneJobComesBack` | core/bin/job/manager.rs:439-480 | from every recovery about to run the last unit's stop, verify or nop again, a crash can follow after which the next recovery restarts the unit without a job |
| `RecoveryStranded.RecoveryRestartsDoneUnit` | core/lib/rel/api.rs:146-162 | a run from the first start of the process that does so |
| `Services.ServiceMng.constructor` | coms/service/src/mng.rs:143-167 | a new service is dead with empty queues |
| `Services.ServiceMng.SetState` | coms/service/src/mng.rs:767-865 | which queues, processes and timer survive a change of state; what may report back is expected in the new state |
| `Services.ForgettingStates` | coms/service/src/mng.rs:781-850 | the states that forget the main process, the control process and the timer |
| `Services.ServiceMng.MainFill` | coms/service/src/mng.rs:962-967 | the main queue is what is left of the configured list |
| `Services.ServiceMng.ControlFill` | coms/service/src/mng.rs:982-989 | the control queue is what is left of the list its kind names; an unconfigured list changes nothing |
| `Services.ServiceMng.NextFor` | coms/service/src/mng.rs:982-993 | which command comes next for a purpose; from its own list if and only if that list is configured |
| `Services.ServiceMng.MainUpdate` | coms/service/src/mng.rs:973-980 | filling and popping restores the suffix of the saved length |
| `Services.ServiceMng.ControlUpdate` | coms/service/src/mng.rs:995-1006 | the same for the control queue and its kind |
| `Services.LengthIsEnough` | coms/service/src/mng.rs:107-124 | a suffix is known by its length |
| `Services.SaveAndRestore` | coms/service/src/mng.rs:75-124 | a new manager with the same configuration gets both queues back |
| `Services.ServiceMng.EnterDead` | coms/service/src/mng.rs:551-632 | restarts if and only if forced, allowed by policy, without a stop job and with a timer; otherwise ends dead or failed by the first failure; the prohibition is cleared |
| `Services.RestartByPolicy` | coms/service/src/mng.rs:1184-1222 | for every policy exactly the results after which a restart is due |
| `Services.ServiceMng.EnterSignal` | coms/service/src/mng.rs:691-765 | terminates; exactly which state and which result it leads to, for all answers; with restart forbidden only stopping or ended states are entered |
| `Services.ServiceMng.EnterStopPost` | coms/service/src/mng.rs:522-549 | runs the first command of its list if it can be spawned; exactly where it leads otherwise |
| `Services.ServiceMng.EnterStop` | coms/service/src/mng.rs:473-504 | runs the first command of its list if it can be spawned; exactly where it leads otherwise |
| `Services.ServiceMng.EnterRunning` | coms/service/src/mng.rs:445-471 | running if alive and without failure, exited if configured to remain, otherwise on the way down; exactly where, for all answers |
| `Services.ServiceMng.EnterStartPost` | coms/service/src/mng.rs:415-443 | sets the watchdog; runs its first command if it can be spawned; a failed spawn leaves state and main process as they were, and is the only way to leave something unexpected |
| `Services.ServiceMng.EnterStart` | coms/service/src/mng.rs:335-413 | which process becomes main or control for each service type; exactly where it leads, for all answers; something unexpected is left only by a simple service with commands after starting |
| `Services.ServiceMng.EnterPrestart` | coms/service/src/mng.rs:312-333 | runs its first command, starts if there is none, ends if it cannot be spawned |
| `Services.ServiceMng.EnterCondition` | coms/service/src/mng.rs:287-310 | runs its first command, goes on if there is none, ends if it cannot be spawned |
| `Services.ServiceMng.ReloadRequested` | coms/service/src/mng.rs:634-660 | runs its first command, is up again without one or if it cannot be spawned; the reload result |
| `Services.ServiceMng.StartRequested` | coms/service/src/mng.rs:169-202 | a start request while stopping or starting changes nothing; exactly where it leads otherwise, for all answers |
| `Services.ServiceMng.StopRequested` | coms/service/src/mng.rs:231-276 | from every state the service is on its way down afterwards; exactly where it leads from each state |
| `Services.ServiceMng.MainGone` | coms/service/src/mng.rs:1398-1458 | exactly where the end of the main process leads, by state, service type and result; `unreachable!` exactly in states that expect no main process |
| `Services.ServiceMng.ControlGone` | coms/service/src/mng.rs:1467-1604 | exactly where the end of a control process leads, by state, service type and result; `unreachable!` exactly in states that expect no control process |
| `Services.ServiceMng.RunNextControl` | coms/service/src/mng.rs:879-918 | the next command is the next of the queue, from the list the queue's kind names, whatever the state; exactly where it leads if it cannot be spawned |
| `Services.ServiceMng.RunNextMain` | coms/service/src/mng.rs:920-935 | the spawned process becomes the main one; no change of state |
| `Services.ServiceMng.ChildExited` | coms/service/src/mng.rs:1358-1607 | exactly where the end of a process leads, and exactly when it runs into `unreachable!`; never while everything is expected, cleaning aside; a stopping service stays on its way down |
| `Services.ServiceMng.TimerElapsed` | coms/service/src/mng.rs:2296-2386 | exactly where a timer that is set leads from each state; `unreachable!` exactly in dead, failed and exited |
| `Services.ServiceMng.RestartDue` | coms/service/src/mng.rs:662-689 | the service stays as it is while a stop job is there or the restart is made, and ends for a lack of resources otherwise |
| `Services.CascadeRestartExact` | coms/service/src/mng.rs:691-765 | a signal can end in a restart, with some answers, if and only if one is due for a lack of resources on top of the result, or for the result itself with no command after stopping in the way |
| `Services.WatchdogRestartExact` | coms/service/src/mng.rs:1254-1258 | a watchdog can bring a service back, with some answers, if and only if a restart is due after the result as it is, or after a watchdog failure if there is none |
| `Services.ServiceMng.WatchdogElapsed` | coms/service/src/mng.rs:2453-2462 | a watchdog that is set acts in every state: the result it leaves, a restart only if one is due after that result, and always then if the answers fail all they can |
| `Services.ServiceMng.Notified` | coms/service/src/mng.rs:1622-1698 | what each message does; a stopping service stays on its way down |
| `Services.ServiceMng.Handle` | coms/service/src/mng.rs:1321-1607 | what can leave an ended service; something unexpected is left only by a simple service with commands after starting; anything but a reload keeps a stopping service on its way down |
| `Services.ServiceMng.StopAndHandle` | coms/service/src/mng.rs:231-276 | after a stop request, for every sequence of happenings but reloads and all answers, never restarting until ended |
| `ServiceRuns.LateWatchdogRestarts` | coms/service/src/mng.rs:2453-2462 | start, running, stop, dead, and the watchdog set at the start brings the service back |
| `ServiceRuns.FailedPostSurprises` | coms/service/src/mng.rs:415-443 | a failed spawn after starting followed by the end of the main process meets `unreachable!` |
| `ServiceRuns.FailedPostTimesOut` | coms/service/src/spawn.rs:83-87 | the timer which that spawn had set meets `unreachable!` as well |
| `ServiceRuns.AbortedStartRunsOn` | coms/service/src/mng.rs:1460-1465 | the second command before starting is run while the service is stopping |
| `ServiceRuns.PreThenUp` | coms/service/src/mng.rs:1478-1484 | a simple service whose command before starting succeeds is up |
| `ServiceTables.WhereStartLeads` | coms/service/src/mng.rs:287-413 | a start request checks the conditions, or runs what comes before starting, or starts by the service type |
| `ServiceTables.WhereReloadLeads` | coms/service/src/mng.rs:634-660 | a reload runs its first command, and without one the service is up |
| `ServiceTables.WhereStopLeads` | coms/service/src/mng.rs:231-276 | which state a stop request leads to from each state |
| `ServiceTables.WhereSuccessLeads` | coms/service/src/mng.rs:1471-1484 | a control process that succeeds on the way up is followed by what comes next |
| `ServiceTables.WhereControlLeads` | coms/service/src/mng.rs:1471-1541 | a control process that fails on the way up leads to termination; one that forked leads on |
| `ServiceTables.WhereControlLeadsLater` | coms/service/src/mng.rs:1542-1578 | after the commands after starting and after a reload the service is up, or terminated by a failure |
| `ServiceTables.WhereControlLeadsDown` | coms/service/src/mng.rs:1579-1604 | the end of a control process while stopping |
| `ServiceTables.WhereMainLeads` | coms/service/src/mng.rs:1401-1426 | the end of the main process on the way up, by service type |
| `ServiceTables.WhereMainLeadsLater` | coms/service/src/mng.rs:1428-1458 | the end of the main process later on, waiting for a control process |
| `ServiceTables.WhereTimerLeads` | coms/service/src/mng.rs:2296-2386 | which state a timeout leads to from each state |
| `ServiceTables.WhereFailedSpawnLeads` | coms/service/src/mng.rs:287-443 | where a command that cannot be spawned leads, for all answers |
| `ServiceTables.WhereFailureLeads` | coms/service/src/mng.rs:891-916 | where a further control command that cannot be spawned leads |

## Left out

- JobManagerObject.JobManager.Exec: a plan that would break the agreement is not carried out, where the code goes on
  until the assertion fires; identifiers are allocated after the expansion for all staged jobs at once.
- `remove_unit`: it drops jobs without finishing them and does not touch the stack of ready units.
- Requests made from inside a unit's start, stop or reload, `trigger` callbacks of other units, and OnFailure
  and OnSuccess notifications: no effect on the table during a step.
- The loop of `run`: its steps are modelled as events in any order, and reports with requests of their own are not.
- JobUnitObject.JobUnit: a job's own timer and its subscription to events are not modelled; the rows persisted
  for the unit are a field of the unit.
- JobTableObject.JobTable: entries are held as values, so sharing of an entry between table and queue is not
  captured; counters are updated with the operation instead of by the caller afterwards.
- JobTableObject.JobTable.RemovePending: a removal that would break the agreement is not carried out, where the code
  fires the assertion or, for a pending restart with the result done, leaves its row behind.
- JobCommitObject.MergePass: flushing and merging are one pass here; in the source they are two passes over
  disjoint sets of units.
- The counters of results and operations (history).
- Transactions.Exec: a request is refused with a cause, not with the full error code of the source.
- JobFallback.Fallback: works on the table as a value; it consists of finishes and removals, which
  JobTableObject models in place. The result done, with which a restart would go on.
- RecoveryRuns.CrashKeepsEveryJob: the writes of an engine step are any writes that make the tables hold the
  step's rows, not the source's own sequence; the coldplug of timers is not modelled.
- JobOrder.HeldBackWaits: a reason by kind outlasts a change of attributes; the check itself is exact in
  JobOrder.HeldBackExact.
- Serialisation and the database itself: an atomic map.
- The event loop, epoll, signals, real time, file descriptors kept over a restart, and the daemon's debug switches.
- Services.ServiceMng.ControlGone: pid files and their inotify.
- Services.ServiceMng: service types Idle and Exec (the source stops with `todo!`), the error number and watchdog
  time sent by message, restart counters, runtime directories and a manager without an attached unit. Whether a timer
  is set after a spawn is an answer of the environment.
- Unit loading, the dependency database, sockets, mounts and configuration parsing.
