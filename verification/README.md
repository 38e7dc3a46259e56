# PrimeFlow's durable run lifecycle, verified

PrimeFlow runs flows: user code whose state lives in a Postgres table of runs and
a table of task checkpoints, moved by atomic SQL statements that any number of
workers, schedulers, push receivers and operators issue at the same time. This
project models that protocol and what is executed on top of it, and proves what
the system promises. Verify it with `dafny verify dfyconfig.toml`.

| file | part of the system |
|---|---|
| Base, States, Rows | shared types, the rule table, one row and the effect of each statement on it |
| Dispatch, Store | dispatch order; the run store, one method per store operation |
| Protocol, Statements | the store under interleaving: lease statements lock and commit, state changes read and then write; the store's methods as runs of it |
| Claims, Ownership, Execution, Finishing, Capacity | who claims a run, who holds it, who executes it, who finishes it, how many run at once, over every interleaving |
| Engine, Scheduler, Retry | executing and settling a run, the janitor, how often a run can be dispatched |
| Attempts, Keys, Replay, Visits, Limits, Sdk, Cache | the task attempt loop, checkpoint keys, checkpoint and replay, one visit to a step, the edges of replay, the SDK calls, the result cache |
| Lineage | sub-flow family trees and the recursion guard |
| Schedule, Push | interval schedules and materialisation, push dispatch |
| Slots, TokenBucket | worker slots, the two rate limiters |

Imperative code is modelled by methods over the fields it changes (`Store.Store`,
`Sdk.Context`, `Cache.TaskRuns`, the two limiters); what holds under interleaving
or across crashes is proved on state machines whose steps are the same statements.
`Statements.Issue` ties the methods of `Store.Store` to the steps of `Protocol`, and
`Sdk.Context` is tied to the machine of `Replay` step by step, so the theorems
about every run of that machine are about this code.

## Assumptions

- One database clock; statements are atomic. A lease statement holds its row locks
  until it ends and skips locked rows; a state change is a read followed by a
  conditional write; a push claim is two statements.
- In `Replay`, one attempt of a run executes at a time. Flow code is sequential and
  deterministic: what it does next depends only on the answers it had so far. A
  save may be lost, or stored without the caller being told.
- Flow code, wherever it can get to, keeps out of the checkpoints of sub-flow steps
  (`Replay.Mannered`). Nothing in the SDK enforces it; `Replay.CivilExactly` says that
  this asks no more than it must, and `Limits.CollisionLosesAResult` is a run in which
  a completed result is lost without it.
- A sub-flow answers the same on every replay while completed children are left alone
  (`Replay.LeavesCompleted`); `Limits.RerunChildDiverges` is a run in which one is not.
- The result of a run is on record while no save of a borrowed cached result is lost;
  `Limits.LostBorrowDiverges` is a run in which one is.
- Run ids contain neither `:` nor `@`, as UUIDs do not.
- A push claim is never forced, as in ClaimPushRun (`Claims.ClaimsByTheRules`).
- The claims about unforced writes say so: `settle` writes by force when the rules
  refuse it, and then neither the rule table nor the single finisher holds.
- `Capacity.LimitHolds` holds queue configuration fixed and takes the lease
  statements on a queue one after the other; for that queue it excludes push claims
  and moves into it, which do not look at the limit, and starts from other states
  than PENDING.

## Where the code and its comments differ

The model follows the code.

- internal/engine/engine.go:230-231 says a suspended attempt does not count against
  the budget; every lease bumps run_count (internal/store/postgres/runs.go:471), so
  it does: `Retry.SuspensionsSpendTheBudget`.
- internal/engine/engine.go:107-112 says nothing returns without settling the run;
  a refused start does: `Engine.Execute`.
- internal/store/postgres/runs.go:304-307 and internal/scheduler/pushdispatch.go:31-33
  say a held, unclaimed run ends up CRASHED by the janitor; the janitor looks at
  RUNNING, PENDING and CANCELLING only, so it is offered again instead:
  `Push.HeldIsNeverReclaimed`.
- internal/store/postgres/runs.go:45-46 gives the schedule key as
  `<deployment>:<instant>`; the scheduler writes `<deployment>@<unix second>`.
- internal/store/postgres/runs.go:515-516 says renewal tells a worker that it was
  reclaimed. No write compares worker ids on a start, so a stale worker can start a
  requeued run and then renew it: `Ownership.HolderOwnsStep` has the exact condition.
- internal/store/postgres/runs.go:362-363 says the loser of a race to finish gets a
  conflict; it can also get a no-op or an invalid transition
  (`Finishing.LosersLearn`), and one that reads the terminal state can still requeue
  the run (`Finishing.StaleRequeueReopens`).
- internal/engine/runtime.go:225-227 says a target that is already in the chain is
  refused; the walk leaves out the run's own deployment
  (internal/store/postgres/runs.go:158), so a deployment may follow itself once:
  `Lineage.LineageIsBounded`, `Lineage.AtMostTwice`.
- Cancelling need not end CANCELLED (`Finishing.CancelCanPark`); when it does is
  `Retry.CancelledExactly`. A run cancelled while PENDING is never started
  (`Engine.Execute`), so only the janitor ends it, parked or FAILED
  (`Retry.LapsedCancelIsParkedOrFailed`). The safety half holds
  (`Finishing.CancelIsSticky`, `Finishing.CancelStops`,
  `Engine.CancelledUnlessSuspended`).
- internal/engine/engine.go:157-158 says a start fails if the run was reclaimed
  underneath the worker; when it was reclaimed and started again in the meantime, the
  start is a no-op without an error and the code runs twice at once:
  `Execution.SecondExecutorExactly`.
- internal/store/postgres/runs.go:602-604 puts a run moved to the back behind all
  others; the priority drop of 25 leaves it ahead of runs more than 25 below it:
  `Dispatch.BackOfTheLine`.
- The crash budget ignores the flow's default retries
  (internal/scheduler/scheduler.go:211): `Retry.CrashingRun`.
- `NextRuns` never looks before now, even with catch-up, and is exact only under the
  condition of `Schedule.ExactWhen`.

## Model

| member | source | states |
|---|---|---|
| `Replay.ReplayRefinesOneRun` | pkg/sdk/task.go:64-171 | Durable replay. Over any sequence of attempts, each of which may crash, fail, suspend or lose a write at any point, every result an attempt ever returned is that of one crash-free run of the flow code, in which a durable step succeeds only with the single result on record for its key or with a cached result borrowed for it, a wait only by being over, and a sub-flow only with a result seen of its child; the rest are errors and ephemeral results of that attempt. Every result on record was returned by the step's body or borrowed. |
| `Replay.OutcomesDifferByAnAnswer` | pkg/sdk/task.go:64-171 | Two attempts of one run, of any flow, return different results only if at the first step they differ in, one of them got an error, a suspension, an ephemeral result or an unsaved cached one, or they saw different results of a sub-flow. |
| `Replay.SettledOutcomesAgree` | pkg/sdk/task.go:64-171 | While completed children are left alone, any two attempts that got through on records, waits and sub-flows return the same result. |
| `Replay.SubAnswersAgree` | pkg/sdk/sdk.go:420-428 | While completed children are left alone, every attempt is told the same result at one sub-flow step. |
| `Replay.SawIsTrue` | pkg/sdk/sdk.go:420-434 | Every result an attempt was told of a sub-flow was, at some moment, that of the COMPLETED run that owns the step's key. |
| `Limits.SuccessesAreRecorded` | pkg/sdk/task.go:119-131 | Unless the save of a cached result is lost, every success of a durable task that an attempt built its result on is the one on record for its key. |
| `Limits.UnlentStep` | pkg/sdk/task.go:119-127 | An answer that nothing on record backs enters an attempt exactly through a cache hit whose save is lost: its error is ignored. |
| `Limits.LostBorrowDiverges` | pkg/sdk/task.go:119-127 | The failing input: one cached task, no failure, two attempts, two results. |
| `Limits.RerunChildDiverges` | internal/store/postgres/runs.go:639-653 | The failing input for sub-flows: a completed child run again makes two replays of one step return different results. |
| `Limits.CollisionLosesAResult` | pkg/sdk/sdk.go:389-410 | What breaks when a task is pinned to a sub-flow's key: its completed result is overwritten by the sub-flow's checkpoint, and its body is called a second time. |
| `Replay.CompletedIsFinal` | pkg/sdk/task.go:71-171 | A COMPLETED checkpoint is never lost or changed, and its body is never called again, whatever follows. |
| `Replay.BodyRunsUnlessRecorded` | pkg/sdk/task.go:94-137 | From an attempt that has come to a durable task, some continuation calls the body, for the first time or again, if and only if no result is on record for its key. |
| `Replay.WaitsHold` | pkg/sdk/task.go:274-307 | Once the wake instant of a wait is recorded, code behind the wait has run only at or after it, and every attempt the wait suspended was suspended until that same instant. |
| `Visits.FirstInstantIsAsked` | pkg/sdk/task.go:274-307 | Over every run of the machine: what is on record for a wait in the end was put there in the middle of a call of a wait, and it is the instant that call named, or the instant of the call plus the duration it named. |
| `Visits.CallsPerVisit` | pkg/sdk/task.go:175-208 | Over every run of the machine: from one SDK call of an attempt to the next, a task's body is called at most retries+1 times. |
| `Visits.StepsGetTheirOwnKeys` | pkg/sdk/sdk.go:244-252 | Two steps of one attempt that draw from the same counter never get the same key, however far apart they are. |
| `Visits.CounterKey` | pkg/sdk/sdk.go:238-252 | A step's key is the author's, or the name of its counter and one more than the count so far. |
| `Replay.WaitAnswers` | pkg/sdk/task.go:290-306 | In any reachable state, a wait answered Ok only if its recorded instant has passed, and asked for suspension only until it. |
| `Replay.OneChildPerWait` | pkg/sdk/sdk.go:380-435 | Every attempt that gets to a given sub-flow step holds the same child run, and no other run ever carries the step's key. |
| `Replay.ChildrenAreNotShared` | pkg/sdk/sdk.go:401-404 | Two sub-flow steps, of one parent or of two, never hold the same child. |
| `Replay.InsertKeeps` | internal/store/postgres/runs.go:77-98 | Creating a run keeps keys unique and every row's key, and gives back a row with the key asked for. |
| `Replay.InvStep` | internal/engine/runtime.go:38-110 | Every step of an attempt or of the outside world keeps: sourced results, known children, explained outcomes, and the agreement of the current attempt with the uninterrupted run. |
| `Replay.InvAlways` | internal/engine/runtime.go:38-110 | The same over every run of the machine. |
| `Replay.KeyKinds` | pkg/sdk/sdk.go:381 | No durable task or wait of flow code that keeps out of sub-flow checkpoints ever uses the key of a sub-flow step. |
| `Replay.CivilExactly` | pkg/sdk/task.go:89-92 | That demand on flow code is no more than needed: a durable task fails it if and only if it shares a key with some sub-flow step for some counters. |
| `Sdk.Context.Task` | pkg/sdk/task.go:71-171 | The imperative call is a sequence of machine steps ending with its result as the next answer. The body is called at most retries+1 times, and exactly that often if every call fails plainly; a recorded result is returned without a call or a write; a cancelled context calls nothing and touches no checkpoint, and no counter but that of an unnamed wait; a fresh success is on record before it is returned, and for a wait it is the instant asked for. |
| `Sdk.Context.RunBody` | pkg/sdk/task.go:175-208 | The attempt loop is the machine's body and backoff steps and ends with the result to record, after at most retries+1 calls, each of them in the log, and exactly that many if none of them settles it. |
| `Sdk.Context.SaveOutcome` | pkg/sdk/task.go:139-170 | A suspension leaves the checkpoint alone, a failure is saved as FAILED and returned even if the save fails, a success whose save is not acknowledged is turned into an error. |
| `Sdk.Context.WaitUntil` | pkg/sdk/task.go:274-307 | Returns only at or after the recorded wake instant, or suspends until exactly it and only when it is further off than the threshold. A wait reached for the first time goes by the instant asked for: the one named, or the time of the call plus the duration; with the saves stored it suspends if and only if that lies further off than the threshold. |
| `Sdk.Context.RunDeploymentAndWait` | pkg/sdk/sdk.go:380-435 | A replay that finds a child on the checkpoint creates nothing, writes nothing and answers for that child; success means it is COMPLETED and carries its result, a FAILED or CANCELLED child is a permanent error, and an unfinished one suspends for thirty seconds. |
| `Sdk.Context.StartChild` | internal/engine/runtime.go:176-223 | An unknown deployment is a plain error and what the recursion guard refuses a permanent one, and neither creates anything. |
| `Sdk.Context.TriggerDeployment` | internal/engine/runtime.go:209-222 | Inserts under the step's idempotency key, or finds the run that has it. |
| `Sdk.Context.DrawKey` | pkg/sdk/sdk.go:244-252 | Bumps the step's own counter and no other, and renders name-n from it. |
| `Attempts.RunAttempts` | pkg/sdk/task.go:175-208 | At most retries+1 calls, all but the last of them retryable failures; no call after a success, suspension, permanent error or cancellation; the recorded count is the number of calls, plus one only when cancelled while backing off. |
| `Attempts.Backoff` | pkg/sdk/task.go:240-256 | The loop with wrapping 64-bit doubling computes the specified delay. |
| `Attempts.BackoffIsExact` | pkg/sdk/task.go:249-255 | All delays up to an attempt equal min(base*2^(n-1), max) if and only if no doubling on the way starts in [2^62, max). |
| `Attempts.BackoffUnderCap` | pkg/sdk/task.go:249-255 | With max at most 2^62 ns the delay is always that minimum, and never shrinks from one attempt to the next. |
| `Attempts.BackoffCanOverflow` | pkg/sdk/task.go:249-255 | Beyond that cap it fails: concrete options whose second backoff is negative. |
| `Keys.GeneratedInjective` | pkg/sdk/sdk.go:247-252 | name-n determines name and n. |
| `Keys.RenderInjective` | pkg/sdk/task.go:89-92 | No two kinds or occurrences of steps share a checkpoint row, provided authors leave the reserved prefixes and the name-n form alone. |
| `Keys.ChildKeyInjective` | pkg/sdk/sdk.go:402 | A child's key determines the parent run and the checkpoint. |
| `Keys.ScheduleKeyInjective` | internal/scheduler/scheduler.go:177 | A scheduled run's key determines the deployment and the second. |
| `Keys.ChildIsNotScheduled` | internal/scheduler/scheduler.go:177 | No sub-flow key is ever a schedule key. |
| `Keys.DecIntRoundTrip` | internal/scheduler/scheduler.go:177 | The rendered second reads back as the same second, negative ones included. |
| `States.SuccessNeedsExecution` | internal/core/state.go:74-84 | No lawful history leads from SCHEDULED to COMPLETED without RUNNING or CANCELLING in between. |
| `States.TerminalOnlyRequeues` | internal/core/state.go:80-83 | A terminal state permits SCHEDULED and nothing else. |
| `States.WhereFrom` | internal/core/state.go:71-95 | For each state, exactly the states that lead to it: only a held run can crash, whatever is not over can be cancelled at once, all but a run being cancelled can go back on the queue. |
| `Store.Store.CreateFlowRun` | internal/store/postgres/runs.go:49-103 | Inserts a SCHEDULED row with the columns asked for, on the default queue and at priority 50 where none was named, or returns the row that has the key, and reports a conflict exactly when nothing was inserted. |
| `Store.CreateIsIdempotent` | internal/store/postgres/runs.go:77-98 | Creating with a key leaves exactly one row with it, and creating again with it, later and by anyone, changes nothing and returns that row. |
| `Store.Store.PendingInQueue` | internal/store/postgres/runs.go:245-272 | Some legal listing of the waiting rows, cut to the page size. |
| `Store.Store.LeaseQueue` | internal/store/postgres/runs.go:442-476 | The rows it takes are a legal selection, and exactly those rows change. It conserves work: if a due run of a known, open queue is left behind, then all that was asked for was handed out or the queue's RUNNING and PENDING runs have reached its limit; a paused or unknown queue gives nothing. |
| `Store.Store.LeaseFlowRuns` | internal/store/postgres/runs.go:433-504 | Each queue in its turn gives a legal selection for the capacity left over, and exactly the rows returned are leased, until the lease asked for, sixty seconds by default, in whole milliseconds. At most Max runs, no run twice, and afterwards no polled queue that is known and open keeps a due run waiting while Max is not reached and its limit, if it has one, is not either. |
| `Store.LeaseServes` | internal/store/postgres/runs.go:442-476 | Any legal selection for one queue conserves work: room is left only when nothing due is, or the limit is reached. |
| `Store.DispatchIsBounded` | internal/store/postgres/runs.go:478-503 | A poll never hands out more than Max, never a run twice, and only due runs of known, unpaused queues that were polled, however the queue list overlaps. |
| `Store.Store.RenewLease` | internal/store/postgres/runs.go:515-530 | Extends the lease exactly for the worker named in a held row, to the time asked for in whole milliseconds. |
| `Store.Store.SetFlowRunState` | internal/store/postgres/runs.go:360-420 | Not found, a no-op when the row has the state already and that is not SCHEDULED, an invalid transition exactly when the table forbids it and force is off, and otherwise the conditional write. |
| `Store.Store.ClaimPushRun` | internal/store/postgres/runs.go:333-350 | Succeeds exactly on a SCHEDULED run, or a PENDING one already held by the same worker, and then the run is PENDING under that worker's lease, with one attempt more only if it was waiting; otherwise nothing changes. |
| `Store.Store.ReclaimExpiredLeases` | internal/store/postgres/runs.go:532-562 | Crashes exactly the held rows whose lease has lapsed, and returns exactly those. |
| `Store.Store.MarkPushDispatched` | internal/store/postgres/runs.go:304-324 | Holds exactly a waiting row with no live hold, under the push holder's name for the time asked for. |
| `Store.Store.ClearPushDispatch` | internal/store/postgres/runs.go:326-331 | Lets go exactly of a push-dispatch hold. |
| `Store.Store.RequestCancel` | internal/store/postgres/runs.go:615-637 | The run is flagged and neither waiting nor active any more, and a worker that holds it still does; no other row changes. |
| `Store.Store.RescheduleRun` | internal/store/postgres/runs.go:639-653 | From any state the run is due from the chosen time on, and whoever held it can no longer renew; no other row changes. |
| `Store.Store.ResumeSuspendedRun` | internal/store/postgres/runs.go:655-669 | Moves the time of a SCHEDULED row and of no other. |
| `Store.Store.MoveRunToFront` | internal/store/postgres/runs.go:586-600 | A waiting run is the first in every preview of its queue afterwards; no other row changes. |
| `Statements.Issue` | internal/store/postgres/runs.go:49-671 | The methods of the store are runs of the protocol: any one of them, called while nothing comes between its statements, leaves the table exactly as its own protocol steps do, so what is proved of every interleaving of those steps is about these methods. |
| `Dispatch.LeaseRefinesPreview` | internal/store/postgres/runs.go:248-271 | What a lease may take from a queue is exactly the first n due rows of some listing that the preview may show: both directions, ties included. |
| `Dispatch.PreviewPrefixIsLegal` | internal/store/postgres/runs.go:245-271 | The due rows at the head of any preview are a legal lease. |
| `Dispatch.LegalIsPreviewPrefix` | internal/store/postgres/runs.go:442-463 | Every legal lease is such a head of some preview. |
| `Dispatch.NothingJumpsTheLine` | internal/store/postgres/runs.go:425-432 | No run left behind outranks one that was taken: pins first, then priority, then scheduled time, then age. |
| `Dispatch.FrontPosition` | internal/store/postgres/runs.go:588-600 | The pin given is below every pin in the queue, and is one below the least, or zero when there is none. |
| `Dispatch.FrontRunLeads` | internal/store/postgres/runs.go:586-600 | A waiting run moved to the front heads every preview of its queue, followed by a listing of the others. |
| `Dispatch.OldOrderStaysLegal` | internal/store/postgres/runs.go:586-600 | Conversely, the former order with the run pulled out and put first is a legal preview: the others keep their relative order. |
| `Dispatch.ControlsOnlyMove` | internal/store/postgres/runs.go:575-613 | The queue controls change a run's place in the order or its queue and nothing else about it, and priorities stay between 0 and 100. |
| `Dispatch.BackOfTheLine` | internal/store/postgres/runs.go:602-608 | A run sent to the back waits behind every pinned run, and behind an earlier unpinned one if and only if that one's priority is at most 25 below, or not below zero. |
| `Claims.NoDoubleClaim` | internal/store/postgres/runs.go:339-350 | In every interleaving of skip-locked leases and push claims by any number of workers with everything else, the claims on a run are as many as its moves from SCHEDULED to PENDING, which is its run_count, and each attempt was granted to exactly one worker. |
| `Claims.ClaimIsMove` | internal/store/postgres/runs.go:442-476 | A step that moves a run from SCHEDULED to PENDING grants exactly one claim, to the worker it writes into the row, and adds one to run_count; every other step grants none and adds nothing. |
| `Claims.MovesAreCounted` | internal/store/postgres/runs.go:471 | run_count counts those moves, from any state on. |
| `Claims.ClaimedOnlyFromTheQueue` | internal/store/postgres/runs.go:339-350 | Between two claims that take effect on a run, however far apart, it was put back on the queue: no claim takes a run from a worker. |
| `Protocol.LocksSoundStep` | internal/store/postgres/runs.go:454-463 | A row locked by an open lease statement stays SCHEDULED and unflagged until that statement ends. |
| `Ownership.HolderOwnsStep` | internal/store/postgres/runs.go:360-420 | The worker named in a held row is the claimant of its latest attempt, and stays so after a step if and only if the step is not a start by somebody who does not own the attempt. |
| `Ownership.OnlyTheOwnerRenews` | internal/store/postgres/runs.go:512-530 | Without such starts, a renewal succeeds only for the one owner of the latest attempt, over every run. |
| `Ownership.RecoverableStep` | internal/store/postgres/runs.go:308-350 | Every held row keeps a worker and a lease, every waiting row neither or a complete hold, after a step if and only if the step is not a start or claim that takes effect on a row without a lease. |
| `Ownership.NothingIsStranded` | internal/store/postgres/runs.go:517-562 | With push claims taken whole and starts taken from PENDING, in every reachable state every PENDING, RUNNING or CANCELLING run has a worker and a lease that can lapse, and every SCHEDULED run neither or a complete push-dispatch hold. |
| `Ownership.RecoverableAlways` | internal/store/postgres/runs.go:308-350 | The same over every run without a step that strands, push claims cut in two included. |
| `Ownership.StartFromPendingIsSafe` | internal/engine/engine.go:157-166 | A start taken from PENDING is never such a step. |
| `Ownership.WholeClaimIsSafe` | internal/store/postgres/runs.go:333-350 | A push claim whose two statements run back to back leaves the run recoverable. |
| `Ownership.SilentHolderIsReclaimed` | internal/store/postgres/runs.go:532-562 | A recoverable held run whose lease has lapsed is crashed by the next janitor pass. |
| `Ownership.StrandedStep` | internal/store/postgres/runs.go:546-549 | A stranded run stays so after a step unless the worker it names renews it, a write that takes effect ends or requeues it, or an operator reschedules it; the janitor does nothing to it. |
| `Ownership.StrandedIsNeverReclaimed` | internal/store/postgres/runs.go:546-549 | So over every run without such a step it stays out of the janitor's reach for good. |
| `Finishing.FinishBalance` | internal/store/postgres/runs.go:360-420 | Conservation: over every interleaving without a forced write, the writes that finished a run equal the steps that reopened it, plus one exactly if it is terminal now and was not at the start. |
| `Finishing.SingleFinisher` | internal/store/postgres/runs.go:360-420 | From a run in flight, with no forced write on it, no reschedule of it once finished and no other write reopening it, at most one terminal write takes effect, and one exactly if the run is terminal. |
| `Finishing.ReopensExactly` | internal/store/postgres/runs.go:360-420 | A terminal run is reopened by exactly an operator's reschedule and by writes that take effect and ask for no terminal state. |
| `Finishing.TwoFinishers` | internal/core/state.go:81-83 | Without that exclusion the claim is false: an unforced history without a reschedule in which two terminal writes take effect. |
| `Finishing.LosersLearn` | internal/store/postgres/runs.go:364-375 | Whatever state a loser read, its unforced finish of a terminal run is a no-op, a conflict or an invalid transition, and changes nothing. |
| `Finishing.StaleRequeueReopens` | internal/core/state.go:81-83 | A worker that reads a terminal state can still requeue the run without force. |
| `Finishing.CancelIsSticky` | internal/store/postgres/runs.go:457 | After the flag is set, over every run without a reschedule, it stays set and no lease statement has the run locked. |
| `Finishing.CancelStops` | internal/store/postgres/runs.go:615-637 | After a cancel request, over every run without a reschedule, start or push claim of it, the run is never PENDING or RUNNING again. |
| `Finishing.StaysDownStep` | internal/store/postgres/runs.go:333-350 | A step makes a flagged, inactive run active if and only if it is a start or a push claim that takes effect: neither looks at the flag. |
| `Finishing.CancelCanPark` | internal/engine/engine.go:232-237 | A run cancelled while running whose flow suspends ends up SCHEDULED with the flag set. |
| `Capacity.LimitHolds` | internal/store/postgres/runs.go:442-503 | Queue limit over whole runs: with lease statements of a queue serialised, the runs of the queue in state RUNNING or PENDING never exceed the limit, nor a load above it that was there before. |
| `Capacity.LeaseFits` | internal/store/postgres/runs.go:443-462 | A lease adds at most the room it read, and from at or above the limit nothing. |
| `Capacity.OnlyLeasesOccupy` | internal/store/postgres/runs.go:360-420 | No other disciplined step adds an occupant to a queue. |
| `Capacity.ConcurrentLeasesOverrun` | internal/store/postgres/runs.go:446-450 | The serialisation is needed: two overlapping leases put two runs into a queue with limit one. |
| `Engine.Settle` | internal/engine/engine.go:290-314 | The row ends in the state asked for, by the rules or by force, and a parent that waits for nothing else is made due. |
| `Engine.Finish` | internal/engine/engine.go:226-288 | The row afterwards, column by column: a suspension parks it until the instant named; otherwise a flag, a state CANCELLING or CANCELLED, or a reported cancellation ends it CANCELLED; otherwise a value completes it with that result; otherwise the run's retries, or the flow's when it has none, and the run's delay, or the flow's, or thirty seconds, times the attempts, decide when it is tried again or that it FAILED. COMPLETED only if nobody asked to cancel. |
| `Engine.Execute` | internal/engine/engine.go:107-213 | Returns the run to the queue when the flow is unknown, leaves it alone when the start is refused, and otherwise runs and settles it as Finish does, waking the parent; it runs exactly from SCHEDULED, PENDING, RUNNING or PAUSED. |
| `Engine.LastChildWakes` | internal/engine/engine.go:310-347 | A waiting parent is made due by the settlement of its last unfinished child and of no other, and no third run is touched. |
| `Engine.SettledForGood` | internal/engine/engine.go:226-314 | Whatever the outcome, a settled run is waiting or terminal with its lease cleared, and COMPLETED only if the flow returned. |
| `Engine.CancelledUnlessSuspended` | internal/engine/engine.go:232-247 | A finish that finds the flag set, or the state CANCELLING or CANCELLED, settles CANCELLED if and only if the flow did not suspend. |
| `Engine.CancelReachesFinish` | internal/engine/engine.go:232-247 | After an operator's request to cancel, whatever the flow comes back with, the finish neither completes nor fails the run nor has it tried again. |
| `Engine.RetryWaits` | internal/engine/engine.go:261-284 | A plain failure is requeued if and only if attempts do not exceed the run's own retries, or the flow's when it has none, never due at once, and later the more attempts there were; otherwise FAILED. |
| `Engine.ResumeParentIfReady` | internal/engine/engine.go:331-347 | Moves the parent's time exactly when it waits and no child is unfinished; changes nothing else. |
| `Retry.DispatchesAreBounded` | internal/engine/engine.go:261-288 | A run is dispatched at most max(budget, retries+1)+1 times, plus once per suspension, unregistered worker and reschedule, over every sequence of events. |
| `Retry.FailingRun` | internal/engine/engine.go:263-288 | Always failing retryably: exactly budget+1 dispatches, then FAILED. |
| `Retry.CrashingRun` | internal/scheduler/scheduler.go:209-236 | Always crashing: exactly retries+2 dispatches, then FAILED, whatever the flow's default. |
| `Retry.SuspensionsSpendTheBudget` | internal/engine/engine.go:230-237 | After as many suspensions as the budget, the first plain failure is final: suspended attempts do count. |
| `Retry.StoreDispatchesAreBounded` | internal/store/postgres/runs.go:442-476 | The dispatch bound over every interleaving of the run store in which the run is settled by its owners, the janitor and push receivers. |
| `Retry.StepProjects` | internal/store/postgres/runs.go:360-420 | Each step of such a history is one event of the run, or none. |
| `Retry.CancelledExactly` | internal/engine/engine.go:239-247 | An event leaves a flagged run CANCELLED if and only if it settles code that did not suspend, or a cancel request finds it waiting. |
| `Retry.LapsedCancelIsParkedOrFailed` | internal/scheduler/scheduler.go:209-236 | A flagged run whose lease lapses is never CANCELLED: it is parked, waiting and flagged, while its dispatches do not exceed its retries by more than one, and FAILED otherwise. |
| `Execution.OneExecutor` | internal/engine/engine.go:157-166 | Over every interleaving a run's code is executed by at most one process at a time, as long as no run is taken away while it is executed and no worker starts on having read RUNNING. |
| `Execution.SecondExecutorExactly` | internal/store/postgres/runs.go:369-371 | Beside an executor that still has its run, a second one starts if and only if it read RUNNING: the write is a no-op and the start is not refused. |
| `Execution.EvictsExactly` | internal/store/postgres/runs.go:532-562 | A run is taken from its executor by exactly a lapsed lease, a reschedule, or a write that takes effect and is no start. |
| `Execution.EvictionLetsASecondIn` | internal/store/postgres/runs.go:639-653 | A run rescheduled under its executor can be started a second time at once. |
| `Scheduler.Reclaim` | internal/scheduler/scheduler.go:196-237 | One janitor pass changes exactly the RUNNING, PENDING and CANCELLING rows whose lease has lapsed: each is requeued after its own delay, or ten seconds, while its attempts exceed its retries by one at most, and FAILED beyond that. |
| `Lineage.LineageIsBounded` | internal/engine/runtime.go:225-246 | In every reachable table parent links point to earlier rows, no run has more ancestors than the limit, and a deployment recurs on a chain only right after itself. |
| `Lineage.AtMostTwice` | internal/store/postgres/runs.go:158-165 | So a deployment occurs at most twice on a chain. |
| `Lineage.CutOffIsHarmless` | internal/engine/runtime.go:233-245 | The walk cut off at max+2 gives the guard the answer the whole chain would: both directions. |
| `Lineage.GuardSubflow` | internal/engine/runtime.go:228-246 | The loop over the cut-off walk says yes exactly when the run's whole chain is no longer than the limit, eight unless configured, and no ancestor on it runs the target. |
| `Lineage.ChainClimbs` | internal/store/postgres/runs.go:146-165 | The chain is the run, its parent and so on up to a run without one. |
| `Lineage.NewChildIsBounded` | internal/engine/runtime.go:176-223 | A child let through by the guard keeps the bounds. |
| `Lineage.GuardStaysOpen` | internal/engine/runtime.go:181-183 | Nothing that happens between the guard's question and the insert can turn its yes into a no. |
| `Lineage.WalkIsPrefix` | internal/store/postgres/runs.go:146-157 | The recursive query returns the chain's first rows, as many as the depth allows. |
| `Lineage.AncestorsAre` | internal/store/postgres/runs.go:140-166 | The query returns the deployments of the run's ancestors, nearest first, as far as the depth asked for, sixteen by default. |
| `Lineage.StepsKeepLinks` | internal/store/postgres/runs.go:360-420 | No statement of the protocol but creation touches parent or deployment. |
| `Schedule.NextRuns` | internal/scheduler/scheduler.go:278-310 | With catch-up the answer lists the soonest `max` instants on the phase in the window, or all of them, in order, leaving out none that is earlier than a listed one; without it at most the single soonest. The window is (now, horizon] for a deployment created by now, and starts the remainder later for one dated ahead. Unparsable and sub-second intervals are refused. |
| `Schedule.TicksExact` | internal/scheduler/scheduler.go:296-309 | The ticks are, in increasing order, exactly the instants on the phase from the first tick to the horizon. |
| `Schedule.ExactWhen` | internal/scheduler/scheduler.go:290-309 | They are all instants CreatedAt + k*every in (now, horizon] if and only if CreatedAt is not in the future, or is a whole number of intervals off, or its remainder lies beyond the horizon. |
| `Schedule.NoTickMissed` | internal/scheduler/scheduler.go:165-192 | Without catch-up, cycles at most one interval apart with at least that lookahead materialise every instant on the phase between the first and the last cycle. |
| `Schedule.RunKeyInjective` | internal/scheduler/scheduler.go:177 | The whole-second key tells the instants of a schedule apart. |
| `Schedule.OneRunPerInstant` | internal/scheduler/scheduler.go:146-194 | However many schedulers overlap and repeat themselves, whatever other runs are created and whatever becomes of any run meanwhile, each instant has exactly one run in the end: the one that the first of them created for that very instant. |
| `Schedule.OthersAreForeign` | internal/scheduler/scheduler.go:177 | Runs without a key, sub-flows and the runs of other deployments never take a schedule's keys. |
| `Schedule.Materialise` | internal/scheduler/scheduler.go:146-194 | One deployment's share of a cycle: a paused deployment or a refused schedule changes nothing; otherwise every instant of the cycle has its run in the end, every new row is a run for one of them with the deployment's queue, priority, retries and delay, and no row that was there changes. |
| `Push.PushReadyRuns` | internal/store/postgres/runs.go:274-302 | Due rows that nobody holds, or only under a lapsed hold, at most as many as the page, and whatever is left out comes after every listed row and only when the page is full. |
| `Push.PushDispatch` | internal/scheduler/pushdispatch.go:31-56 | On the table as it was, the first twenty ready runs of each push pool with an endpoint that is not paused are held for 120 seconds, or let go when the endpoint did not take them, and no other row changes. |
| `Push.DispatchOne` | internal/scheduler/pushdispatch.go:58-86 | Held for 120 seconds under the push holder's name when delivered, let go when not, untouched when not waiting or under a live hold. |
| `Push.NotifyOnlyHolds` | internal/store/postgres/runs.go:304-331 | Notification changes nothing but the hold; an undelivered run is ready again at once, a delivered one when the hold lapses. |
| `Push.HeldIsNeverReclaimed` | internal/store/postgres/runs.go:546-549 | A held run that nobody claims is never crashed by the janitor; it becomes ready again. |
| `Push.OneReceiverClaims` | internal/store/postgres/runs.go:333-350 | A run that was told of can be claimed, and then by nobody else. |
| `Cache.TaskRuns.FindCachedResult` | internal/store/postgres/obs.go:93-112 | Returns the newest live completed result under the key, and nothing only if there is none. |
| `Cache.TaskRuns.UpsertTaskRun` | internal/store/postgres/obs.go:67-91 | Replaces the row of its run and key and no other; a live completed result saved last is what lookups under its cache key find. |
| `Cache.HitsRenew` | pkg/sdk/task.go:113-131 | A hit renews the time to live: under frequent use the value computed once is served for ever. |
| `Cache.SharedFor` | internal/engine/runtime.go:74-81 | A saved result is shared under its key alone, only once complete, for its time to live, and for ever without one. |
| `Slots.SlotsSafe` | internal/worker/worker.go:120-192 | In every interleaving, active <= occupied slots <= Concurrency, and when Run has returned nothing is in flight. |
| `Slots.IdleAsksForWhatIsFree` | internal/worker/worker.go:158-190 | An idle worker leases exactly while fewer executions run than it may run, and can take on just as many as are missing. |
| `Slots.SendNeverWaitsForWork` | internal/worker/worker.go:174-178 | The slot send can proceed, at once or after a step of an execution that has already counted itself out. |
| `Slots.DrainProgresses` | internal/worker/worker.go:140-150 | A draining worker that cannot return or take a slot has an execution with a step to take. |
| `Slots.DrainTerminates` | internal/worker/worker.go:140-150 | Every such step brings the drain closer to its end. |
| `TokenBucket.RateLimiter.Allow` | internal/apiauth/apiauth.go:284-322 | Adopts a changed limit, refills, decides and charges exactly one bucket; no limit means no bucket; a refused caller is told to wait until its token is whole and at most a millisecond longer. |
| `TokenBucket.ConstantLimit` | internal/apiauth/apiauth.go:303-308 | At a constant limit a call only refills and spends. |
| `TokenBucket.WindowBound` | internal/apiauth/apiauth.go:287-322 | In any window, with any starting balance, the calls let through number at most burst + rate * length. |
| `TokenBucket.BurstIsServed` | internal/apiauth/apiauth.go:315-318 | The bound is met: a bucket lets exactly its whole tokens through at once. |
| `TokenBucket.RetryIsAdmitted` | internal/apiauth/apiauth.go:319-321 | A lone retry after the advised wait is allowed. |
| `TokenBucket.AdmittedExactlyFrom` | internal/apiauth/apiauth.go:315-321 | A refused caller alone is let in from the moment its token is whole and not before. |
| `TokenBucket.RedisLimiter.Allow` | internal/ratelimit/redis.go:99-121 | The script's reads and writes, with the key's expiry, compute the specified entry, decision and retry; the retry covers the time until the token is whole, rounded up to a millisecond, and the key lives for 61 seconds. |
| `TokenBucket.ScriptRetryIsAdmitted` | internal/ratelimit/redis.go:84-92 | A lone retry after the script's retry time is allowed, expired key or not. |
| `TokenBucket.ScriptAdmitsExactlyFrom` | internal/ratelimit/redis.go:75-92 | The same for the script, whose advice is within a millisecond of that moment. |
| `TokenBucket.ExpiredIsFull` | internal/ratelimit/redis.go:90-91 | A key that has expired would have been full at any limit. |
| `TokenBucket.ExpiryIsInvisible` | internal/ratelimit/redis.go:66-92 | Expiring idle keys never changes a decision or an advised retry, for any calls under any changing limits. |
| `TokenBucket.LimitersAgree` | internal/ratelimit/redis.go:66-92 | The in-process and the shared limiter make the same decisions on the same calls. |

## Left out

- Tasks called from inside task bodies, goroutines in flow code, and `Suspend` without a checkpoint other than as an error that flow code returns.
- Replay.ReplayRefinesOneRun: one attempt executes at a time; exactly when two do is the subject of `Execution`, and what two attempts then do to one checkpoint table is not modelled.
- Timeouts: a flow or task timeout acts like a cancelled context or an error of the body.
- started_at, ended_at, messages, names, parameters, tags and trace context of a run; the started_at rule of a checkpoint.
- Row deletion, and with it parent links set to NULL; dropping a deployment is modelled.
- Cron schedules and time zones; the interval text is taken as parsed.
- The 32-bit range of queue_position and priority in the database, and the 64-bit range of durations everywhere except in the backoff.
- Floating-point rounding and millisecond clock reads in the limiters; the failing-open of the shared limiter when Redis is down.
- Database errors outside `Replay` and `Sdk`, clock skew, isolation anomalies other than the unlocked count.
- MoveRunToQueue registering the target queue, and a starting worker rewriting queue configuration.
- PAUSED: in the rule table, but no operation shown enters it.
- JSON: parameters and results are opaque values, marshalled without loss.
- HTTP, CLI, console, sign-in, events, buses, metrics, logs, artifacts, automations, git sync, leader election, retention: none of them decides what a run does.
- Push.OneReceiverClaims: each claim is taken whole; a claim cut between its two statements is what `Ownership.RecoverableStep` is about.
- Engine.Execute: nothing else touches the run meanwhile; interleavings are the subject of `Protocol` and the modules on top of it.
- Store.Store.SetFlowRunState: nothing comes between its read and its write, so the conflict never arises in it; `Protocol` separates the two, and `Finishing.LosersLearn` has the conflict.
- Schedule.NextRuns: cron expressions and their time zones.
- TokenBucket.WindowBound: exact arithmetic over the reals, at a constant limit and with a clock that does not go back.
- Schedule.OneRunPerInstant: a single deployment whose schedule and creation instant stay fixed.
- Statements.Issue: one queue's lease at a time, a poll of several being one after the other; the queue controls other than MoveRunToFront are modelled by their effect on the row (`Dispatch.ControlsOnlyMove`).
