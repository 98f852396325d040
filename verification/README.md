# Verified model of the local manager

The local manager supervises worker processes, dispatches a durable task queue, lets review
agents and a recurring seeder write to the same queue, audits source trees in resumable windows,
and publishes bounded activity and event lists. It is built to survive being killed at any
moment. This project models the parts whose correctness depends on that, and proves what they
keep over whole runs.

## What is modelled

**Worker supervisor.** `Supervisor.dfy` is the ten-state machine of `manager/supervisor.py` on
values; clock readings, health signals, confirmed or unconfirmed terminations and the outcome of
a start are inputs of each step. `SupervisorLedger.dfy` proves that the event list is a faithful
ledger and bounds restarts over every window of every timed run; `SupervisorEscalation.dfy` proves
bounded escalation; `SupervisorReset.dfy` says exactly when the retry budget is reset. `WorkerHost.dfy` adds live processes, the PID lease and every durable write an
operation makes, in order, so that a manager crash can fall between any two of them;
`WorkerStart.dfy` says what starting and stopping a worker does to the machine: who is adopted, what
becomes of an ailing survivor, when a process is created, what an ended job leaves behind.
`WorkerUniqueness.dfy` proves that at most one worker is alive over any sequence of manager
lives, and that each hypothesis is needed. `WorkerSupervisor.dfy` is the object itself: its
methods are proved equal to those machines.

**Durable queue.** `TaskTable.dfy` is the tasks table with each store method as one atomic step.
`Dispatch.dfy`, `Agents.dfy` and `Recurring.dfy` are the machines of the dispatchers, of the agent
coordinator and of the seeder; `QueueSystem.dfy` puts them on one table together with other
submissions, crashes between any two store writes, and recovery at start-up. On top of it:
ownership and finality (`QueueSystem.dfy`), retry budgets (`QueueBudget.dfy`), gapless numbering
and spacing of recurring work (`QueueRecurring.dfy`), one review per agent (`QueueReviews.dfy`), and
no waiting behind a claim, also after a crash (`QueueProgress.dfy`). `DispatchResults.dfy` tells a
dispatcher step by the fields of the rows; `AgentTurns.dfy` says which agents run, how far apart their
turns are and what a turn does.
`StateStore.dfy`, `Dispatchers.dfy`, `Coordinator.dfy`, `Seeder.dfy` and `MainLoop.dfy` are the
objects; every call is proved to be a run of the machines, and which run.

**Bounded algorithms.** `EventLog.dfy` (the retention-limited event table), `Balance.dfy` (the two
kind-balanced selections; `BalanceOrder.dfy` tells their order in places), `Merge.dfy` (the deduplicating event merge), `Audit.dfy` and
`AuditCycles.dfy` (one audit pass, and coverage of chained passes), `AuditFindings.dfy` (what a report
says, by lines, rules and matches), `Evidence.dfy` (the
coordinator that keeps the audit cursor).

**Start-up.** `Startup.dfy`: host-boot reset, one-time operator resume, and supervisors rebuilt from
persisted counters, with a crash possible between any two actions.

`Basics.dfy`, `Chains.dfy` and `Text.dfy` hold shared vocabulary, runs of several steps, and text
order and decimal rendering. Steps of a machine that Python performs while holding a lock or
inside one SQLite transaction are atomic here.

## Where code and documentation differ

`docs/LOCAL_MANAGER.md:29-34` says the retry budget is reset after a worker has been continuously
healthy. The code looks at the present reading and at the time since the last start only.
The model follows the code. `SupervisorReset.ResetExactly` says, for every run, exactly when a
reset comes, `SupervisorReset.SameWorkerExactly` which unhealthy ticks can lie between the start
and the reset, and `SupervisorReset.ResetDespiteStall` is a tick-driven life with such a tick.

The comment at `manager/supervisor.py:469-470` promises never to end an unrelated process that
happens to own a recorded PID. This holds when a worker is adopted. An adopted handle knows the
bare PID only, so later calls end whatever lives there: `WorkerHost.SparesExactly` is the exact
condition and `WorkerUniqueness.AdoptedPidReused` a run that breaks the promise.

## Hypotheses

- Between lives, one worker at a time needs these conditions on the steps, each with an
  if-and-only-if and a run that ends with two workers without it: the image of a live PID can be
  read when a job is started; no crash falls between a process and its PID file; a worker whose
  PID file cannot be written is confirmed dead; a job is started before anything else is done to it.
- A handle of a spawned process speaks of that process only, also when its PID is given away. A
  handle of an adopted process speaks of whatever has its PID. New processes get unused PIDs.
- Bounds on restarts and resets, and the distance between recurring tasks, need a clock that does
  not go back. The faithful ledger, the exact reset condition and the rise of due times do not.
- Appending an event never fails after its task has been changed: in the source such a failure
  re-queues a finished task (`QueueSystem.RecordFailureUndoes`).
- A new review id is unused. Nobody but the seeder writes ids under its prefix
  (`QueueRecurring.SubmissionKeepsNumbers` is the exact condition, `SubmissionBreaksNumbers` a run
  that breaks it), and nobody but the coordinator writes reviews (`QueueReviews.EnqueueKeepsOneEach`
  and `SeedKeepsOneEach`, `ReviewTemplateBreaksIt`).
- The dispatcher's limits and the templates with their intervals are the same in all lives of a run.
- One manager at a time (the instance lock).

Smaller lemmas beside the definitions state single facts, among them
`SupervisorEscalation.HealthyTickIsFree`, `WorkerHost.RecoverCases`, `TaskTable.ClaimMakesProgress` and
`Startup.EscalationEndsWithTheLife`.

## Model

| member | source | states |
|---|---|---|
| Text.TaskIdInjective | manager/recurring.py:162-163 | A recurring task id determines its template and its sequence, though template ids may hold dashes and digits and sequences may pass six digits |
| Text.LastDash | manager/recurring.py:162-163 | The last dash of an id separates template and number |
| Text.SixDigitsReadsBack | manager/recurring.py:163 | Reading the padded number back gives the sequence, and it holds no dash |
| Text.SixDigitsShape | manager/recurring.py:163 | At least six digits, and the plain decimal form from a million on |
| Text.LessExactly | manager/state_store.py:489 | The text order of the queries: the first place where two texts differ decides, and a proper prefix comes first |
| SupervisorLedger.LedgerIsFaithful | manager/supervisor.py:333-395 | In every run the events chain from QUEUED, and folding them gives the state, the attempt count, the restarts since the last reset, the start time of the present worker and the reset flag, whatever the clock does |
| SupervisorLedger.WritesKeepBooks | manager/supervisor.py:365-395 | Each single event written keeps the ledger faithful, the restarts capped, the times sorted and the resets apart |
| SupervisorLedger.RunKeeps | manager/supervisor.py:530-750 | Every operation is a sequence of single writes with non-decreasing times, so a claim kept by each write is kept by every run |
| SupervisorLedger.ResetsAreApart | manager/supervisor.py:307-331 | Two budget resets of a timed run are at least the reset interval apart |
| SupervisorLedger.RestartsBetweenResets | manager/supervisor.py:709-741 | A stretch of the ledger with k resets holds at most (k + 1) times the restart limit |
| SupervisorLedger.ResetsInWindow | manager/supervisor.py:307-331 | A window of length w holds at most 1 + floor(w / R) resets |
| SupervisorLedger.RestartsInAnyWindow | manager/supervisor.py:709-741 | Any window of length w of any timed run holds at most max_restarts * (2 + floor(w / R)) restarts |
| SupervisorEscalation.EscalatesWithinBudget | manager/machine_manager.py:126-136 | If every reading is unhealthy, max(0, max_restarts - restart_count) + 1 ticks outside startup grace escalate the job, however spawns, adoptions and terminations end |
| SupervisorEscalation.AilingTick | manager/machine_manager.py:126-136 | An unhealthy tick outside grace escalates or spends one retry; inside grace it gives none back |
| SupervisorEscalation.NotBefore | manager/supervisor.py:709-741 | With confirmed terminations, as many ticks as retries are left do not escalate |
| SupervisorEscalation.EscalatedStaysForever | manager/supervisor.py:657-741 | After escalation no tick, observation, recovery or start changes the state, the process or the attempts |
| SupervisorEscalation.EscalatedStays | manager/supervisor.py:657-741 | One such call adds at most budget-reset events to an escalated job |
| SupervisorEscalation.ObservedStates | manager/supervisor.py:657-707 | At any point of any life an observation reads the state of an unfinished job off the three signals and the age of the present worker in the ledger, and records it, as a health check exactly when the state stays the same |
| SupervisorEscalation.TickRecoversExactly | manager/machine_manager.py:126-136 | At any point of any life a tick recovers exactly when that is wanted, the job is unfinished, the reading unhealthy and the worker past its grace |
| SupervisorEscalation.RecoveryOutcome | manager/supervisor.py:709-741 | A recovery of an ailing job escalates exactly without retries or without a confirmed stop, and otherwise spends one retry and is VERIFYING or FAILED as the start went |
| SupervisorReset.ResetExactly | manager/supervisor.py:307-331 | At any point of any life an observation resets the budget if and only if it is healthy and the present worker was obtained at least R ago, with retries behind it and no reset since; no reading in between matters |
| SupervisorReset.SameWorkerExactly | manager/machine_manager.py:126-136 | A worker outlives a stretch of ticks if and only if each unhealthy tick is in startup grace, taken back by the second reading, on a finished or exhausted job, or fails to stop or start a worker: the unhealthy readings that can precede a reset |
| SupervisorReset.ResetDespiteStall | manager/machine_manager.py:126-136 | A tick-driven life in which the budget is reset although a tick found the worker stalled since its start |
| WorkerHost.OneWorkerPerLife | manager/supervisor.py:454-575 | After every step of one life every live process it spawned or adopted is the one held, with no condition on identities, leases, confirmations or reused PIDs |
| WorkerHost.SparesExactly | manager/supervisor.py:553-575 | No write of a call ends a process with another image, if and only if the call does not end a held PID that passed from a dead adopted worker to such a process |
| WorkerHost.StrangersNeedReuse | manager/supervisor.py:209-239 | Such a PID is held only after a process with another image took it from the dead worker of an adopted handle |
| WorkerHost.RespawnOnlyAfterDeath | manager/supervisor.py:709-741 | A process is created only when the one held before is dead; an unconfirmed termination escalates and writes nothing |
| WorkerStart.AdoptsExactly | manager/supervisor.py:454-490 | A start adopts if and only if the lease names a live PID whose image can be read and is not foreign and whose heartbeat and resource are good; it then writes nothing and holds that PID |
| WorkerStart.StuckRaises | manager/supervisor.py:464-478 | A survivor that cannot be identified, or ails and cannot be ended, makes the start raise: it stays alive and leased and nothing is created |
| WorkerStart.SurvivorBeforeSpawn | manager/supervisor.py:454-490 | Whenever a start creates a process, an ailing survivor with the worker's image is dead and its lease gone, and a survivor with another image has lost its lease only |
| WorkerStart.SpawnsExactly | manager/supervisor.py:492-528 | A start creates and leases a process if and only if there is nobody to adopt, nobody is stuck and both steps of the spawn succeed; of the others only an ailing survivor has been ended |
| WorkerStart.UnleasedProcess | manager/supervisor.py:514-518 | A process whose PID file cannot be written is dead exactly when its end was confirmed, held either way, nothing is leased and the start raises |
| WorkerStart.FailedSpawn | manager/supervisor.py:492-513 | When no process can be created the start raises; a stale or foreign lease is gone and of all processes only an ailing survivor has been ended |
| WorkerStart.StartOutcome | manager/supervisor.py:530-543 | A start begins an attempt exactly when it obtains a worker, with the two ledger events that say how; outside QUEUED and RETRYING it does nothing |
| WorkerStart.StopEnds | manager/supervisor.py:553-575 | A stop succeeds exactly when the held process is dead or its end is confirmed; it ends that PID only, takes away its lease, and changes nothing when it fails |
| WorkerStart.EndedJob | manager/supervisor.py:743-750 | Cancelling or completing a job ends its worker exactly when that is confirmed and leaves its state, counters and handle as stated |
| WorkerStart.ExhaustedJob | manager/supervisor.py:715-723 | A recovery without retries left escalates and ends the worker when that is confirmed |
| WorkerUniqueness.AtMostOneWorkerEver | manager/supervisor.py:454-528 | However often the manager crashes and restarts, at most one worker is alive, under the three stated conditions |
| WorkerUniqueness.SafeStep | manager/supervisor.py:454-575 | Every step, and a crash inside any call except between process and PID file, keeps the live worker held or leased |
| WorkerUniqueness.OneHeldProcessEver | manager/supervisor.py:454-575 | Without any condition, after every step of every life the only live process it spawned or adopted is the one held |
| WorkerUniqueness.StrangersSpared | manager/supervisor.py:454-575 | Over all lives without such reuse no call ends a process with another image |
| WorkerUniqueness.AdoptedPidReused | manager/supervisor.py:209-239 | A run, within the conditions of AtMostOneWorkerEver, that ends a process with another image under the PID of an adopted worker |
| WorkerUniqueness.CleanMachineIsSafe | manager/supervisor.py:271-305 | A machine with no worker, whatever else runs there and whatever lease is left over, satisfies the starting assumption |
| WorkerUniqueness.UnreadableIdentityIsTheGap | manager/supervisor.py:464-467 | Starting over a leased live worker stays safe if and only if its identity can be read |
| WorkerUniqueness.BeforeStartIsTheGap | manager/supervisor.py:553-558 | Observing, recovering, cancelling or completing a job before its start stays safe if and only if no worker is alive |
| WorkerUniqueness.UnwrittenLeaseIsTheGap | manager/supervisor.py:514-518 | A start that cannot write its PID file stays safe if and only if the new worker is confirmed dead or none was needed |
| WorkerUniqueness.TornSpawnIsTheGap | manager/supervisor.py:505-515 | A crash inside any call of a started job stays safe if and only if it does not fall right after the creation of a process |
| WorkerUniqueness.UnreadableIdentityDuplicates | manager/supervisor.py:555-558 | A run with an unreadable identity that ends with two live workers |
| WorkerUniqueness.CancelBeforeStartDuplicates | manager/supervisor.py:747-750 | A run with a cancel before the start that ends with two live workers |
| WorkerUniqueness.TornSpawnDuplicates | manager/supervisor.py:505-515 | A run with a crash between process and PID file that ends with two live workers |
| WorkerUniqueness.UnwrittenLeaseDuplicates | manager/supervisor.py:514-518 | A run with an unwritten PID file and an unconfirmed termination that ends with two live workers |
| WorkerSupervisors.WorkerSupervisor.constructor | manager/supervisor.py:271-305 | A supervisor begins QUEUED with its initial counters |
| WorkerSupervisors.WorkerSupervisor.MaybeResetRetryBudget | manager/supervisor.py:307-331 | Equals the reset of the machine |
| WorkerSupervisors.WorkerSupervisor.Transition | manager/supervisor.py:365-395 | One event with the state before and after |
| WorkerSupervisors.Host.ClearPidFile | manager/supervisor.py:424-438 | With a PID the lease goes only if it names it, without one it always goes |
| WorkerSupervisors.WorkerSupervisor.AdoptExisting | manager/supervisor.py:454-490 | The verdict, the whole new state (handle, and attempt, start time and event when a worker is taken) and every durable write equal the machine's adoption, which AdoptsExactly, StuckRaises and SurvivorBeforeSpawn decide |
| WorkerSupervisors.WorkerSupervisor.SpawnProcess | manager/supervisor.py:492-528 | The whole new state (handle, and attempt, start time and event on success) and every durable write of a spawn |
| WorkerSupervisors.WorkerSupervisor.Start | manager/supervisor.py:530-543 | The whole new state and the journal of writes equal the machine's; it raises exactly outside QUEUED and RETRYING |
| WorkerSupervisors.WorkerSupervisor.TerminateProcess | manager/supervisor.py:553-575 | True exactly when the process is gone, with the writes that took |
| WorkerSupervisors.WorkerSupervisor.ReadHealth | manager/supervisor.py:577-579 | Alive exactly when the held handle polls alive |
| WorkerSupervisors.WorkerSupervisor.Observe | manager/supervisor.py:657-707 | Equals the observation of the machine |
| WorkerSupervisors.WorkerSupervisor.Recover | manager/supervisor.py:709-741 | State, writes and result of a recovery equal the machine's |
| WorkerSupervisors.WorkerSupervisor.MarkComplete | manager/supervisor.py:743-745 | State and writes equal the machine's |
| WorkerSupervisors.WorkerSupervisor.Cancel | manager/supervisor.py:747-750 | State and writes equal the machine's |
| WorkerSupervisors.WorkerSupervisor.TickJob | manager/machine_manager.py:126-136 | Observe, then recover outside startup grace: state and writes equal the machine's |
| TaskTable.SelectionDistinct | manager/state_store.py:463-511 | A claim selects no row twice |
| Dispatch.StepOwned | manager/dispatcher.py:215-388 | Every dispatcher step keeps: the dispatcher holds exactly the running rows outside the reserved kinds, items agree with their rows, slots are not exceeded; rows move only as allowed |
| Dispatch.StepCounts | manager/dispatcher.py:215-261 | Only a claim counts an attempt, one for each row it hands out |
| Dispatch.StepRequeues | manager/dispatcher.py:134-213 | A running row returns to the queue only below its attempt limit, or because the step interrupted it |
| DispatchResults.ClaimExactly | manager/state_store.py:463-511 | A claim hands out ripe rows only, without repetition, in order of schedule and id, within the clamped limit and the free slots; a ripe row is left only when as many as allowed come before it; exactly the handed rows run, with one more attempt |
| DispatchResults.ReplyDecides | manager/dispatcher.py:110-213 | A handler's reply decides its row and no other: completed or failed exactly as asked, tried again exactly when asked for or in error below the limit, after the right delay, escalated otherwise |
| DispatchResults.GivenBack | manager/dispatcher.py:231-244 | Work without a handler waits for the deferral delay, work released at a close is due at once, and no other row changes |
| Agents.StepOwned | manager/agents.py:321-573 | Every coordinator step keeps: it holds exactly the running reviews; other kinds are left alone; the branch that fails a refused start is never taken |
| AgentTurns.TurnsExactly | manager/agents.py:506-527 | A tick runs exactly the enabled idle agents that have never run or last ran at least an interval ago, once each and in configuration order, and notes exactly that |
| AgentTurns.TurnsApart | manager/agents.py:519-526 | Over any ticks, with any clock, two turns of an agent are at least its interval apart |
| AgentTurns.TurnExactly | manager/agents.py:321-346 | A turn takes the agent's first waiting review, or a new one if there is none, counts one attempt, and completes it or leaves it running under the agent's name; nothing else changes |
| AgentTurns.CallEnds | manager/agents.py:464-494 | The end of a pooled call completes its review, a shutdown makes it due at once, and the agent is free of it |
| QueueSystem.StepOwned | manager/run.py:861-893 | Every step of every component, every submission, crash and recovery keeps the division of the running rows and moves rows only as allowed |
| QueueSystem.OwnershipAlways | manager/run.py:585-586 | In every run with crashes the RUNNING rows are exactly the disjoint union of what dispatcher and coordinator hold, split by the reserved kind, with pending items equal to their rows and within the slots |
| QueueSystem.TerminalRowsAreFinal | manager/state_store.py:720-741 | In every run no row is lost, kind, objective and payload never change, attempts never drop and an ended row never changes again, although finish_task has no guard |
| QueueSystem.UnguardedFinish | manager/state_store.py:731-741 | A requeue by finish_task preserves ended rows if and only if its row has not ended |
| QueueSystem.RecordFailureUndoes | manager/dispatcher.py:123-133 | If recording an outcome raises, the ended row survives the error path if and only if it was escalated with no attempts left |
| QueueSystem.RequeueClears | manager/state_store.py:706-718 | Recovery leaves nothing RUNNING and nothing owned |
| QueueBudget.AttemptsBounded | manager/dispatcher.py:134-213 | In every run a dispatched row has at most max_attempts attempts plus one per interruption, a review one plus one per interruption, and one less while it is queued |
| QueueBudget.ExhaustedRowsEnd | manager/dispatcher.py:134-213 | A dispatched row that has used up its attempts and interruptions and is no longer held has ended |
| QueueBudget.StepAccounts | manager/dispatcher.py:183-213 | Every return to the queue is within the budget or an interruption that the step names |
| QueueBudget.ClaimsBounded | manager/dispatcher.py:215-261 | n dispatched rows take at most n * max_attempts claims plus one per interruption |
| QueueBudget.QueueDrains | manager/dispatcher.py:215-261 | After that many claims without interruption no dispatched row is queued |
| QueueBudget.EmptyStore | manager/state_store.py:24-60 | An empty store satisfies every starting assumption |
| QueueProgress.DueWorkIsTaken | manager/state_store.py:463-511 | In every run a row that is due at a claim has been taken by then, unless that claim is filled to its limit with rows before it |
| QueueProgress.RecoveryMakesDue | manager/state_store.py:706-718 | Recovery queues exactly the RUNNING rows, due at that time, with their work and attempts as they were, and leaves all others alone |
| QueueProgress.InterruptedWorkIsTaken | manager/run.py:585-586 | Work cut off by a crash has been taken by the first claim at or after the recovery, in every run of the next life, unless that claim is filled with rows before it |
| QueueProgress.StepKeepsWaiting | manager/state_store.py:463-511 | A queued row of an unreserved kind changes only by being claimed, whatever step any component makes |
| QueueRecurring.NumberingAlways | manager/recurring.py:136-204 | In every run with crashes the stored tasks of a template are exactly 1..k, k the cursor or one more, and only the newest can be queued or running |
| QueueRecurring.NewRowNumbered | manager/recurring.py:162-182 | An insert under the next id extends the numbering by one |
| QueueRecurring.CursorCatchesUp | manager/recurring.py:162-182 | Writing the cursor after its insert, or after a crash in between, keeps the numbering |
| QueueRecurring.SpacingAlways | manager/recurring.py:143-182 | With a clock that does not go back, successive tasks of a template are created at least one interval apart, however many ticks were missed, postponed or lost |
| QueueRecurring.NextDueIncreases | manager/recurring.py:143-182 | Over every run, with any clock, a template's next due time rises strictly if its cursor is written and stays the same otherwise |
| QueueRecurring.StepMovesDue | manager/recurring.py:143-182 | One step moves it forward exactly when it writes that cursor |
| QueueRecurring.SubmissionKeepsNumbers | manager/machine_manager.py:70-100 | A row submitted under a fresh id keeps the numbering if and only if the id is no recurring id, or the next one of a template with nothing unfinished |
| QueueRecurring.SubmissionBreaksNumbers | manager/machine_manager.py:70-100 | A run in which a submission under a later recurring id leaves a gap |
| QueueRecurring.SeedsTheTemplate | manager/recurring.py:162-182 | Insert and cursor write together: a queued copy of the template under the next number, named by the cursor, and no other template touched |
| QueueRecurring.EmptyStoreNumbered | manager/recurring.py:132-134 | An empty store satisfies the starting assumptions |
| QueueReviews.OneReviewEachAlways | manager/agents.py:321-354 | In every run with crashes, closes and restarts an agent has at most one queued or running review |
| QueueReviews.InterruptedReviewIsResumed | manager/agents.py:321-354 | After a restart an agent can only resume its interrupted review |
| QueueReviews.EnqueueKeepsOneEach | manager/state_store.py:435-461 | An insert keeps one review per agent if and only if it adds none for an agent with an unfinished one |
| QueueReviews.SeedKeepsOneEach | manager/recurring.py:164-182 | A seeder insert keeps one review per agent if and only if it adds none for an agent with an unfinished one |
| QueueReviews.ReviewTemplateBreaksIt | manager/recurring.py:164-182 | A run of a valid configuration from an empty store in which a template of the review kind gives an agent a second unfinished review |
| StateStores.StateStore.EnqueueTask | manager/state_store.py:435-461 | Inserts a queued, untried row and leaves an existing id alone |
| StateStores.StateStore.SelectDue | manager/state_store.py:463-490 | Returns the first due rows of the allowed kinds in order, all of them if they fit |
| StateStores.StateStore.ClaimDueTasks | manager/state_store.py:463-511 | Exactly the selected rows become RUNNING with one more attempt, and the items returned are the rows as they are then |
| StateStores.StateStore.FindQueuedTask | manager/state_store.py:513-541 | The first queued row of a kind with a payload value, or none if there is none |
| StateStores.StateStore.StartTask | manager/state_store.py:692-704 | Starts a row exactly when it is queued |
| StateStores.StateStore.RequeueRunningTasks | manager/state_store.py:706-718 | The table becomes that of the machine's recovery, which RecoveryMakesDue spells out, and the number of RUNNING rows is returned |
| StateStores.StateStore.FinishTask | manager/state_store.py:720-741 | Sets the status, and the schedule when one is given, whatever the row was |
| StateStores.WorkScheduler.Fail | manager/scheduler.py:112-116 | With a retry time the row is queued again, otherwise it fails |
| StateStores.WorkScheduler.Defer | manager/scheduler.py:118-120 | The row is queued for the given time |
| StateStores.WorkScheduler.Escalate | manager/scheduler.py:122-124 | The row is escalated |
| Dispatchers.ApplyOutcome | manager/dispatcher.py:110-181 | The table becomes what the verdict on the outcome says; an unsupported outcome raises before any write |
| Dispatchers.ApplyError | manager/dispatcher.py:183-213 | The row is escalated at the attempt limit and deferred below it |
| Dispatchers.WorkDispatcher.Dispatch | manager/dispatcher.py:215-261 | A call is a run of the machine: one claim, then for each claimed item in order its handler's verdict or a deferral |
| Dispatchers.BackgroundWorkDispatcher.CollectCompleted | manager/dispatcher.py:309-328 | A run that collects each finished handler once and nothing else |
| Dispatchers.BackgroundWorkDispatcher.Dispatch | manager/dispatcher.py:330-365 | A run: collect what has finished, then claim for the free slots only and submit or defer each item; nothing once closed |
| Dispatchers.BackgroundWorkDispatcher.Close | manager/dispatcher.py:367-388 | A run: collect, stop taking work, requeue each unfinished item once; a second call changes nothing |
| Coordinators.AgentCoordinator.StartTask | manager/agents.py:321-384 | Resumes the first queued review of the agent, or creates one, and starts it |
| Coordinators.AgentCoordinator.CollectCompleted | manager/agents.py:464-494 | A run that completes the review of each finished agent once |
| Coordinators.AgentCoordinator.RunAgent | manager/agents.py:505-559 | One agent's turn is three steps of the machine, to the pool or answered at once |
| Coordinators.AgentCoordinator.Tick | manager/agents.py:496-559 | A run: collect, then a turn for exactly the enabled, idle agents whose interval has passed, in order |
| Coordinators.AgentCoordinator.Close | manager/agents.py:561-573 | A run that requeues each unfinished review once |
| Seeders.RecurringTaskSeeder.TickTemplate | manager/recurring.py:143-182 | Nothing when not due; a postponement when the previous task is unfinished; otherwise insert and cursor; afterwards it is not due |
| Seeders.SeedsExactly | manager/recurring.py:136-204 | A tick, template by template: disabled or not due keeps its cursor and gets no row; due with an unfinished task is put off by its interval, at most a minute; any other due one gets its next number with a queued row and waits one interval |
| Seeders.RecurringTaskSeeder.Tick | manager/recurring.py:136-204 | A run that visits exactly the enabled templates in order; afterwards none of them is due |
| MainLoop.QueueManager.Pass | manager/run.py:861-893 | One pass is a run of the whole-queue machine, and which run: the coordinator's collections and the sessions of exactly the agents whose turn has come, the seeding of the due templates, each finished handler collected once, and with room exactly one claim with the limit and time of the pass and a step for each claimed item. It keeps ownership and finality; afterwards no enabled template is due; with room, every waiting row that was due is taken or the claim is filled with rows before it, and the number of claims rises |
| MainLoop.QueueManager.Recover | manager/run.py:585-586 | Start-up recovery is the machine's boot |
| MainLoop.QueueManager.Close | manager/run.py:966-1005 | Shutdown is a run, and leaves nothing RUNNING |
| EventLog.RetainedRows | manager/state_store.py:140-174 | After any appends with distinct ids the table is what one trim of the whole history would leave |
| EventLog.RetainedAreTheGreatest | manager/state_store.py:164-174 | An event is retained exactly when fewer than R events outrank it by (timestamp, insertion) |
| EventLog.RecentFromHistory | manager/state_store.py:180-191 | recent_events is the tail of the stable sort of the whole history |
| EventLog.Sorts | manager/state_store.py:180-191 | The query order is a permutation in timestamp order |
| EventLog.SortIsStable | manager/state_store.py:180-191 | Events of one timestamp stay in insertion order |
| EventLog.AppendIgnored | manager/state_store.py:148-174 | An append changes nothing if and only if its id is stored, or the table is full and the event is older than every row |
| EventLog.AcceptedPrefix | manager/state_store.py:176-178 | The events stored before append_events raises |
| EventLog.EventTable.AppendEvent | manager/state_store.py:140-174 | Raises without id or timestamp; otherwise inserts and trims |
| EventLog.EventTable.AppendEvents | manager/state_store.py:176-178 | Stores exactly the events before the first rejected one |
| EventLog.EventTable.RecentEvents | manager/state_store.py:180-191 | Rows in timestamp order, as many as there are up to the limit, at least one and at most R allowed, and no row left out is newer than one returned |
| Balance.SelectLoop | manager/state_store.py:601-618 | The loops select the first `limit` rows of the interleaving by (place in bucket, kind) |
| Balance.Select | manager/state_store.py:601-618 | Each kind contributes a prefix of its bucket: level rows, one more before a cut in the kind order |
| Balance.RoundRobinLength | manager/state_store.py:601-618 | Exactly min(limit, total) rows are selected |
| Balance.CutFirstIsHarmless | manager/state_store.py:577-618 | Cutting every kind to `limit` rows first selects the same list |
| Balance.LevelIsWaterFilling | manager/state_store.py:601-618 | The contribution of a single kind to a partly filled selection |
| Balance.RankedGroups | manager/state_store.py:577-599 | The kind_rank filter cuts every bucket and loses no kind |
| BalanceOrder.SelectionExactly | manager/state_store.py:601-618 | The selected rows stand in order of place in the bucket, then kind, and a row is left only when the limit is reached with rows before it |
| BalanceOrder.BucketExactly | manager/telemetry.py:358-367 | A bucket holds exactly the rows of its kind in list order |
| BalanceOrder.SeenExactly | manager/telemetry.py:358-367 | The kinds of the snapshot stand in the order of their first rows |
| BalanceOrder.KindsExactly | manager/state_store.py:599-602 | The kinds of the activity list stand by the update time of their first row, the latest first, then by name |
| Balance.TaskActivity | manager/state_store.py:577-618 | The result is the selection over all rows of each kind, kinds ordered by latest update and name |
| Balance.OneKindOrder | manager/state_store.py:599-602 | The kind order is unique, so the selection is determined by the rows |
| Balance.Group | manager/telemetry.py:358-367 | Buckets hold the rows of their kind in order, kinds in order of first appearance |
| Balance.Snapshot | manager/telemetry.py:355-383 | A short list is unchanged, a longer one is balanced over kinds in order of first appearance |
| Merge.MergeMeaning | manager/run.py:144-166 | Every name occurs exactly once, with the last record of it in the list, nameless events are all kept in order, nothing else gets in |
| Merge.FirstPlaceKept | manager/run.py:155-166 | A named event stands where its first record stood |
| Merge.MergePublicEvents | manager/run.py:144-166 | The index-map loop returns the last max(1, limit) entries of that list |
| Audit.ConstraintAuditor.FindStart | manager/evidence.py:513-519 | The first file behind the cursor, or the beginning |
| Audit.ConstraintAuditor.ScanLines | manager/evidence.py:537-554 | The findings of the lines, until the limit; FindingsExactly says which they are |
| Audit.ConstraintAuditor.ScanFiles | manager/evidence.py:521-556 | The findings are the first ones of the window; the scan ends with the file that fills the limit; every file counted once |
| Audit.ConstraintAuditor.Run | manager/evidence.py:509-580 | The report of a whole pass, and the cursor it leaves |
| AuditFindings.FindingsExactly | manager/evidence.py:537-556 | The findings of some files are one for each line that a rule matches, by the first rule that matches, in file and line order |
| AuditFindings.ReportExactly | manager/evidence.py:509-580 | A report starts at the first file behind the cursor; its findings are lines of the files that had their turn, each with the first rule that matches it, in order; every matching line of these files is among them but for those behind the last one when the limit was reached; every such file is counted as scanned or skipped; the pass is to be continued exactly when files remain or the limit cut it off |
| AuditCycles.ReportIsSound | manager/evidence.py:557-565 | The cursor a pass leaves names the last file that had its turn, or is empty only at the end |
| AuditCycles.OneTurnPerCycle | manager/evidence.py:509-580 | A file in every listing up to the start of the next cycle has its turn exactly once, whatever files come and go and wherever passes are truncated |
| AuditCycles.CycleLength | manager/evidence.py:509-580 | A cycle over a fixed tree of N files takes at most max(1, N) passes |
| AuditCycles.NextPassResumes | manager/evidence.py:513-519 | A pass resumes right behind the file before it if and only if that name has no backslash and differs from the next after case folding |
| AuditCycles.BackslashStalls | manager/evidence.py:513 | With a backslash in a name and no other name in between, one file per pass scans the same file and leaves the same cursor again |
| AuditCycles.BackslashStarves | manager/evidence.py:513 | A tree on which the auditor reports such passes for ever: the first file has a turn in every one, the second, always listed, in none |
| AuditCycles.CollisionSkips | manager/evidence.py:516 | Of two names equal up to case the second is passed over |
| AuditCycles.CollisionStarves | manager/evidence.py:516 | A tree with names equal up to case on which one reported pass is a whole cycle and the second file has no turn |
| EvidenceCoordinators.RecordedAlways | manager/evidence.py:712-757 | In every run with failed audits and crashes the recorded passes chain and the durable cursor is where the last one stopped |
| EvidenceCoordinators.StepRecorded | manager/evidence.py:718-731 | A failed audit or a crash moves no cursor and records nothing |
| EvidenceCoordinators.CoverageAlways | manager/evidence.py:712-757 | Between two cycle starts of such a run a file that stays has its turn exactly once |
| EvidenceCoordinators.BeginsExactly | manager/evidence.py:698-757 | At any point of any run an audit may begin if and only if none of its target is under way, and none has finished or the last one that finished saw another signature or was at least an interval ago; it begins where that one stopped |
| EvidenceCoordinators.PendingExactly | manager/evidence.py:749-757 | A tick starts exactly the wanted audits behind their recorded cursors and leaves those under way alone |
| EvidenceCoordinators.RecordsExactly | manager/evidence.py:712-732 | Finished audits are recorded with cursor, signature and time, and a failed one leaves its record as it was |
| EvidenceCoordinators.EvidenceCoordinator.IsDue | manager/evidence.py:698-706 | Due when not pending and never scanned, differently configured, or the interval has passed |
| EvidenceCoordinators.EvidenceCoordinator.Tick | manager/evidence.py:708-767 | Finished audits are recorded, failed ones dropped, and exactly the due targets start from their recorded cursors |
| Startup.PendingResume | manager/run.py:278-303 | A resume id is returned exactly for a well-formed unconsumed request for the escalated primary job |
| Startup.ResumedAtMostOnce | manager/run.py:515-575 | Over all lives and crashes a resume id reaches start_all at most once |
| Startup.ConsumedStaysConsumed | manager/run.py:558-559 | A consumed id never resumes anything again, even if its life died before start_all |
| Startup.LostExactlyByDying | manager/run.py:558-559 | Once consumed, the id is used if and only if its life gets to start_all |
| Startup.FairAlways | manager/run.py:249-275 | At every start_all each job begins QUEUED with its persisted attempts; its budget is the persisted one except for a whole-manager reset or the named escalated primary job |
| Startup.ResetOnlyAfterReboot | manager/run.py:78-85 | Over all lives and crashes start_all resets the whole manager if and only if the resume flag is set, or the boot identity is known and differs from that of the life before that knew its own |
| Startup.SameBootKeepsBudgets | manager/run.py:515-529 | Under one boot identity, without flag and resume, every start_all keeps every persisted budget |
| Startup.ResetLostByDying | manager/run.py:78-85 | A life that dies after recording a new boot identity uses the reset up: the next one keeps the old budgets |
| Startup.AbandonedStart | manager/run.py:966-1005 | An error before start_all leaves each job queued with the counters it was built with |
| Startup.EmptyInstallation | manager/state_store.py:24-60 | A first installation satisfies every starting assumption |
| Startup.ManagerStore.UpdateHostBootMarker | manager/run.py:78-85 | The answer and the recorded identity are the machine's; ResetOnlyAfterReboot says over runs when the answer is yes |
| Startup.ManagerStore.ManagerFromConfig | manager/run.py:249-275 | One supervisor per configured job with the counters the machine gives it |
| Startup.ManagerStore.StartUp | manager/run.py:515-575 | The start-up sequence is the run boot, look up, build, mark, start |

## Left out

- SQLite, threads and locks as such: every store method is one atomic step; a future is done, raised or not done, and a rowid is the place among the surviving rows.
- Real processes, signals, PID-file bytes and image names: alive or not, worker or look-alike or foreign, readable or not, confirmed or not.
- Health probes: heartbeat and resource readings are given booleans; one call sees one liveness of its process.
- WorkerSupervisors.WorkerSupervisor.ReadHealth: the age of the heartbeat file and the verdict of the resource probe are inputs, because their thresholds are branches on measurements only.
- Termination signals that do not end a process: an unconfirmed termination leaves its process as it is, and it may die later on its own.
- A worker without a PID file: the file is taken to be configured.
- Handlers, models, uploads and other network work: a handler returns an outcome or raises.
- Event texts, metrics and the result lists of dispatch, tick and observe: event kind, states and times only; the events of dispatcher and agents are not modelled.
- Store calls that fail and are swallowed (agents and shutdown): a store call succeeds, or the manager dies there.
- Failures inside a pass of the main loop (a raising seeder or dispatcher is logged and skipped): a crash may stop the run at any step instead.
- Redaction, response parsing, capability, charter and workstream records, dashboards and scripts: text filtering and display.
- Configuration parsing and its clamps: limits are given, with the bounds the parsers enforce.
- Worker profiles of the evidence coordinator: display records with no effect on audits.
- Directory walking and rule patterns of the audit: the listing, the lines and which rule matches are given; case folding is any folding of single characters.
- queue_objective_change and register_job: an ordinary submission and a map insert.
- The random part of review ids: a fresh id is a parameter.
- WorkerUniqueness.AtMostOneWorkerEver: assumes the four conditions of the hypotheses above, each shown to be needed by its gap lemma.
- QueueReviews.OneReviewEachAlways: assumes that submissions and templates do not use the review kind, which the source does not check.
- AuditCycles.OneTurnPerCycle: assumes names without backslashes that stay distinct after case folding, the exact condition of NextPassResumes; BackslashStarves and CollisionStarves are trees that break it.
- QueueRecurring.SpacingAlways: assumes a clock that does not go back and the same intervals in all lives.
- EventLog.RetainedRows: assumes distinct ids; AppendIgnored says exactly when a repeated id is harmless.
