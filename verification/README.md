# django-tasks-scheduler, verified

A Dafny model of the job queue protocol of this repository, with the record of scheduled tasks, the saving of broker
hashes, the dequeue loop of a worker, and the calendar code beside it. Python objects that change their fields are
classes here (`Queue`, `LockStore`, `WorkerScheduler`, `Worker`, `TaskRecord`, `HashModel`, `PersonalCalendar`); every
method is proved against a function on values, and the results about runs are lemmas about those functions.

How the broker is shown:

- a sorted set is a map from names to scores, ordered by (score, name); a name is its rank in byte order;
- one `Queue` object stands for one queue's part of the broker: its job hashes and its six registries;
- a job hash has its status, its times to live, its expiry, and whether it is whole: a partial save can re-create a
  key that had gone, and such a hash exists but cannot be loaded;
- the clock is an integer that is passed to every operation; the random order of a shuffle, the failure callbacks that
  raise, the arrivals of jobs and what a cron string gives are parameters too.

The files, from the bottom up: `SortedSet`, `JobQueue` (one queue as a value), `Queues` (the class), `Leases`,
`Protocol` (all schedulers, workers and users as steps, and the invariant), `Effects` (what each operation means for a
job), `Lifecycle` (the life of one job), `Safety` (what holds of every run), `Withdrawals` (cancelling and deleting),
`Recovery` (schedulers that die), `Races` (runs that go wrong), `Scheduling` (the scheduler class, and its methods as
protocol steps), `Fifo`, `Workers`, `CatchUp`, `Tasks`, `HashModels`, `Calendars`.

## What a run is

A run of `Protocol` interleaves: the clock, any number of schedulers, each for its own queues, that ask for the locks
of these one at a time when they start and again after their fallback period, refresh their registries, extend their
locks, stop, die at any moment with their locks still stored, and pass over due jobs; workers of every queue that take
a job, finish it or fail it; users who create jobs for now or for a time, and cancel and delete them whenever they
like; and the registries' cleanup and the abandoned-job pass. A pass is not one step: it reads the due names and loads
their jobs, and then enqueues them one by one while everything else goes on. That a job is taken at most once
therefore rests on the exclusion of the schedulers, and `TwoHoldersTakeTwice` shows what happens without it. Two
things are assumed of a run (`Protocol.Enabled`): a scheduler that is alive sends a heartbeat before its lock expires
(`LateHeartbeatIff` says what happens otherwise), and job names are new.

Nothing keeps users from withdrawing a job while a pass has it in hand. Such a job can run after all
(`WithdrawalSticksIff` says exactly when, and `WithdrawalSticksWhen` when a caller can be sure that it does not). If
it was cancelled, and not deleted, it can then be in two registries (`RegistriesOverlapIff`), and `RegistriesAgree`
leaves out just the names cancelled so. `RaceIsReachable` is a run in which all that happens. Lease exclusion, taking
a job once, and not before its time hold all the same.

A run of `Tasks` follows one scheduled task, with anything else that leaves its jobs alone happening on its queue.
Schedulers load its record and save it later, while others change it, and read its job some time before they enqueue it.
Five things are assumed (`Tasks.Enabled`), beside new names, and for each the exact outcome of what else the code allows is
stated, for every kind of task:

- the clock goes on while a job executes (`SameSlotIsPlannedAgainIff`);
- an executing job is not dropped from the active registry (`CleanupPlansAgainIff`);
- a task is not unscheduled while its job executes (`UnscheduledWhileRunningIff`);
- nor while a pass has its job in hand (`UnscheduledInHandIff`);
- a record that was loaded earlier is saved only while the job that it names is on the queue, or when nothing was planned
  since. The code does not ensure that: `StaleSaveIff` says exactly when such a save plans a second job,
  `StaleSaveAfterDoneIff` and `TwoSavesOfOneRecordIff` what that means after a job is done and for two schedulers.

## Where the code and its documentation differ

The model follows the code.

- The job life cycle in `JobStatus` allows canceling from queued and stopping from started only. In the code a
  scheduled, finished or failed job that is cancelled becomes stopped, and a worker may still report afterwards
  (`Flows` and `StepStaysGood` in `Lifecycle`).
- `cancel_job` promises that the job never runs, and `delete_job` that it is gone from the queue; see
  `CancelSticksIffNotInFlight` and `DeletionSticksIff`.
- On a queue that is not asynchronous, `enqueue_job` leaves a job in the scheduled registry, so every pass runs it again while
  its hash is there (`InlineRunIsRepeatedIff`).
- A job cancelled while it executes is in the finished registry at once; if it then fails, it is there as a failed job
  (`DoneSettlesIff`).
- A job created for a time before the epoch is never read by a pass (`NoJobIsStranded`).
- A job enqueued "at the front" gets the current time for its score, so it never precedes a job with an earlier score
  (`EnqueueAppends`). For a scheduled job the flag is not stored at all, so promotion always enqueues at the back.
- The queue is called first-in first-out. Jobs that arrive while it is not empty all get the last job's score, so they
  leave in the order of their names (`EnqueueAppends`).
- The abandoned-job pass tests `has_failure_callback` without calling it, so it does not skip jobs without a callback;
  and it adds the timeout to a score that already has it, so a job is abandoned after twice its timeout.
- A model that was loaded without a field whose default is not None is not saved completely by a partial save
  (`LoadedIsInSyncIff`).

## Model

| member | source | states |
|---|---|---|
| `SortedSet.Least` | scheduler/redis_models/registry/base_registry.py:113-117 | the popped member is the one before all others by score and then name |
| `SortedSet.SortedOrder` | scheduler/redis_models/registry/base_registry.py:45-56 | a registry's list has every member once, each before all it precedes |
| `SortedSet.LastScore` | scheduler/redis_models/registry/base_registry.py:77-81 | nothing for an empty registry, otherwise the score of a member that no other exceeds |
| `JobQueue.DueNamesAreDue` | scheduler/redis_models/registry/queue_registries.py:80-89 | the names a pass reads are distinct, scheduled, and due at its time |
| `JobQueue.DueNamesComeFirst` | scheduler/redis_models/registry/queue_registries.py:80-89 | they are the first thousand due names by score and name, or all of them, in that order |
| `JobQueue.OneMoreAbandoned` | scheduler/helpers/queues/queue_logic.py:132-152 | failing one more abandoned job and cleaning all registries equals failing the larger set at once, so order and the cleanup inside the loop do not matter |
| `JobQueue.OverFailing` | scheduler/helpers/queues/queue_logic.py:132-152 | the loop over distinct names, from any queue in which some were already failed, ends in the queue where exactly the wanted names before the first raising one were failed |
| `JobQueue.PassCleansRight` | scheduler/helpers/queues/queue_logic.py:126-152 | over every queue: if no abandoned job's callback raises, all abandoned jobs are failed and no other; if one does, exactly those read before it, and the pass raises if and only if there is such a job |
| `JobQueue.CleanedMeans` | scheduler/helpers/queues/queue_logic.py:120-152 | what the pass leaves, registry by registry: unless a job was failed only dead queued names are gone; otherwise active and finished keep just the scores outside 0 to the cleaning time, failed keeps those and has the failed jobs for a year, these have status failed; scheduled and canceled are untouched; and which jobs were failed |
| `JobQueue.FailedAreKept` | scheduler/helpers/queues/queue_logic.py:146-152 | the failed registry ends with what its cleanup keeps and exactly the abandoned jobs, if and only if the cleaning time is before now plus the failure TTL |
| `Queues.Queue.CreateAndEnqueueJob` | scheduler/helpers/queues/queue_logic.py:186-251 | the new hash and its place in queued or scheduled, or the error for a name that exists and no change |
| `Effects.CreateNowMeans` | scheduler/helpers/queues/queue_logic.py:224-247 | all that is known of a new job: a whole hash with status queued, and its score |
| `Effects.CreateAtMeans` | scheduler/helpers/queues/queue_logic.py:224-255 | a whole hash with status scheduled, in scheduled at its time |
| `Effects.CreateRefused` | scheduler/helpers/queues/queue_logic.py:224-247 | a name that is taken changes nothing |
| `Queues.Queue.EnqueueJob` | scheduler/helpers/queues/queue_logic.py:397-424 | status queued, out of scheduled, into queued with the last score or the time |
| `Effects.EnqueueMeans` | scheduler/helpers/queues/queue_logic.py:397-424 | all that is known of the job afterwards: queued, out of scheduled, with the present for a score or, behind others, their greatest unless that is 0 |
| `Effects.EnqueueTouchesOne` | scheduler/helpers/queues/queue_logic.py:397-424 | and nothing of any other job changes |
| `Queues.Queue.EnqueueInline` | scheduler/helpers/queues/queue_logic.py:289-299 | the branch of enqueue_job for a queue that is not asynchronous: the whole state after the run in the caller |
| `Effects.InlineMeans` | scheduler/helpers/queues/queue_logic.py:289-299 | the job ends in the registry of its outcome with the status for it, its hash gone or expiring by its info TTL, and no other registry of it changes |
| `JobQueue.InlineRunIsRepeatedIff` | scheduler/helpers/queues/queue_logic.py:397-432 | a job run inline is in the registry of its outcome and still scheduled if it was; the next pass can run it again exactly if it was and its info TTL is not 0 |
| `Queues.Queue.PrepareForExecution` | scheduler/redis_models/job.py:117-134 | status started, start time, active until the timeout, key persistent |
| `Effects.TakeMeans` | scheduler/redis_models/job.py:122-136 | a taken job: started now, out of queued, active until its timeout, and its hash does not expire |
| `Effects.WorkTouchesOne` | scheduler/redis_models/job.py:122-152 | taking, reporting and abandoning a job changes nothing of any other |
| `Queues.Queue.AfterExecution` | scheduler/redis_models/job.py:136-152 | out of active, into the next registry unless the TTL is 0, partial save of the status |
| `Queues.Queue.HandleSuccess` | scheduler/worker/worker.py:716-747 | the whole state after save_all, job_handle_success and the success expiry |
| `Effects.SucceedMeans` | scheduler/helpers/queues/queue_logic.py:252-269 | a job that succeeded: status finished, out of active, in finished until its info TTL is over unless that is 0, its hash gone, expiring or as it was by its success TTL |
| `Queues.Queue.HandleFailure` | scheduler/helpers/queues/queue_logic.py:271-287 | out of active, into failed for the failure TTL, with the status given |
| `Effects.FailMeans` | scheduler/helpers/queues/queue_logic.py:271-287 | a job that failed or was stopped: that status, out of active, in failed for a year, its hash's expiry as it was |
| `Effects.AbandonMeans` | scheduler/helpers/queues/queue_logic.py:132-148 | an abandoned job: status failed, out of active, in failed for a year |
| `Queues.Queue.Expire` | scheduler/redis_models/job.py:110-115 | TTL 0 deletes the hash, a positive one sets its expiry, a negative one does nothing |
| `Effects.TickMeans` | scheduler/redis_models/job.py:110-115 | as time goes on just the hashes whose expiry has come are gone |
| `Queues.Queue.CancelJob` | scheduler/helpers/queues/queue_logic.py:351-378 | which error is raised, and otherwise canceled only if queued, stopped if not, and the registries that follow |
| `Effects.CancelMeans` | scheduler/helpers/queues/queue_logic.py:351-378 | a cancelled job: canceled and in no other registry if it was queued, otherwise stopped and finished for a year; nothing if it cannot be loaded or was cancelled already |
| `Queues.Queue.DeleteJob` | scheduler/helpers/queues/queue_logic.py:380-395 | gone from all six registries, and the hash expiring after its info TTL if asked |
| `Effects.DeleteMeans` | scheduler/helpers/queues/queue_logic.py:380-395 | a deleted job: in no registry, its hash gone, expiring or as it was |
| `Queues.Queue.Compact` | scheduler/redis_models/registry/queue_registries.py:21-26 | exactly the queued names without a hash are gone |
| `Effects.CleanMeans` | scheduler/redis_models/registry/base_registry.py:17-20 | a registry's cleanup drops just its own scores from 0 to now |
| `Queues.Queue.EnqueueScheduledJobs` | scheduler/worker/scheduler.py:143-154 | all due jobs of the snapshot are enqueued in order, or nothing if one cannot be loaded |
| `Queues.Queue.CleanRegistries` | scheduler/helpers/queues/queue_logic.py:120-152 | the pass moves exactly the loadable jobs of its snapshot whose start plus twice the timeout has passed, up to the first whose callback raises |
| `Queues.PopAny` | scheduler/redis_models/registry/base_registry.py:112-118 | the least member of the first registry that has one, and nothing else changes |
| `Queues.DequeueAny` | scheduler/helpers/queues/queue_logic.py:301-335 | the least live job of the first queue that has one, nothing exactly when no queue has, only dead names and that job removed, the two timeout errors |
| `Leases.AttemptGetsTheFree` | scheduler/worker/scheduler.py:70-74 | asking for locks one after the other gets exactly those that were free |
| `Scheduling.LockStore.Acquire` | scheduler/redis_models/lock.py:15-17 | set if absent or expired, with owner and expiry |
| `Scheduling.LockStore.Extend` | scheduler/redis_models/lock.py:19-20 | a live key gets a new expiry, whoever asks |
| `Scheduling.LockStore.Release` | scheduler/redis_models/lock.py:22-23 | the key is gone, whoever asks |
| `Scheduling.WorkerScheduler.AcquireLocks` | scheduler/worker/scheduler.py:63-83 | the free queues' keys are set, they join the locks held, and the registries become all locks held |
| `Scheduling.WorkerScheduler.BeginRound` | scheduler/worker/scheduler.py:121-131 | a round stops and releases when asked to, and otherwise acquires locks again when the last attempt is older than the fallback period |
| `Scheduling.WorkerScheduler.Heartbeat` | scheduler/worker/scheduler.py:100-107 | all live keys of its locks are extended by interval and grace |
| `Scheduling.WorkerScheduler.Stop` | scheduler/worker/scheduler.py:109-119 | all keys of its locks are deleted, and it is stopped |
| `Scheduling.AcquireLocksIsSteps` | scheduler/worker/scheduler.py:56-83 | the method equals the protocol's single lock steps and a refresh, which are possible when the scheduler may ask for the locks of its queues |
| `Scheduling.AskingMeans` | scheduler/worker/scheduler.py:63-83 | the keys of its queues that were missing or expired are its own for interval and a minute, no other changes, it looks at all queues whose locks it has, and the time is noted |
| `Scheduling.HeartbeatIsSteps` | scheduler/worker/scheduler.py:100-107 | extending the locks one by one in any order equals the method, and is possible |
| `Scheduling.HeartbeatMeans` | scheduler/worker/scheduler.py:100-107 | each key of its locks is its own for interval and a minute from now, and no other key changes |
| `Scheduling.StopMeans` | scheduler/worker/scheduler.py:109-119 | the keys of its locks are gone and no other, so that others can get them at once |
| `Scheduling.EnqueueScheduledJobsIsSteps` | scheduler/worker/scheduler.py:143-154 | an uninterrupted pass of single steps has the method's result |
| `Scheduling.DequeueIsTake` | scheduler/helpers/queues/queue_logic.py:317-334 | what a dequeue removes beside the job it returns cannot be loaded; with prepare_for_execution it is one purge and one take step |
| `Protocol.Exclusion` | scheduler/redis_models/lock.py:15-17 | two running schedulers do not both have a queue's lock |
| `Protocol.LocksKeptIffInTime` | scheduler/worker/scheduler.py:100-107 | as time goes on, running schedulers keep owning their locks exactly if all their heartbeats come in time |
| `Protocol.StepKeepsInv` | scheduler/worker/scheduler.py:121-163 | every step of schedulers, workers, users and clock, deaths of schedulers and withdrawals at any time included, keeps the invariant on all names, locks and passes |
| `Protocol.RunKeepsInv` | scheduler/worker/scheduler.py:121-155 | so does every run |
| `Safety.OneSchedulerPerQueue` | scheduler/worker/scheduler.py:63-83 | in every run, with schedulers dying and leases expiring, at most one running scheduler has a queue's lock, and the stored key is live and its own |
| `Safety.TwoHoldersTakeTwice` | scheduler/worker/scheduler.py:143-154 | were two schedulers in a pass over the same job, it would be taken twice |
| `Safety.TakenAtMostOnce` | scheduler/helpers/queues/queue_logic.py:301-335 | over all queues of any run, whatever is withdrawn or interrupted in it, a job is taken at most once, and not before its time |
| `Safety.RegistriesAgree` | scheduler/redis_models/job.py:25-37 | in any run, for all names but those cancelled while a pass had them in hand, scheduled, queued, active, finished and canceled are disjoint and live members have a status of their registry; a finished job is finished or stopped unless its failure was reported late; an executing job is not scheduled, queued or canceled; an active score is start plus timeout; a queued job has its hash unless it was deleted while a pass had it in hand |
| `Lifecycle.StepStaysGood` | scheduler/redis_models/job.py:25-37 | a step that does not cancel a job in flight keeps it in one registry with the right status; one that does not withdraw it in flight keeps its time, lets takes only grow, leaves it alone once it is neither pending nor taken, and changes its status only in the ways that occur |
| `Lifecycle.DoneGoesOn` | scheduler/helpers/queues/queue_logic.py:343-349 | no action but its own cancellation or deletion takes a scheduled name away or gives it another time |
| `Lifecycle.RunEvolves` | scheduler/helpers/queues/queue_logic.py:343-432 | the same over runs, and a pending job that nobody withdraws is pending or taken in the end |
| `Lifecycle.RunStaysShaped` | scheduler/helpers/queues/queue_logic.py:343-432 | over any run that does not cancel it in flight, deletions in flight included, a job is in at most one registry, with the status for it |
| `Lifecycle.DoneSettlesIff` | scheduler/helpers/queues/queue_logic.py:271-287 | an action leaves a failed job in the finished registry exactly if it reports a failure of one that was there already |
| `Lifecycle.FinishedStatusIs` | scheduler/helpers/queues/queue_logic.py:252-287 | a job in finished has the status that the last report or cancellation gave it |
| `Safety.NeverEarlyNeverLost` | scheduler/redis_models/registry/queue_registries.py:64-89 | in any run, a job created for a time is never taken before it, and unless withdrawn is still scheduled for that time, queued, or taken once |
| `Withdrawals.NeverAfterWithdrawal` | scheduler/helpers/queues/queue_logic.py:351-395 | in any run, a job cancelled or deleted before it was taken, and while no pass had it in hand, is never taken later |
| `Withdrawals.CancelSticksIffNotInFlight` | scheduler/worker/scheduler.py:145-154 | a cancelled scheduled job can still be taken exactly if a pass had read its name |
| `Withdrawals.DeletionSticksIff` | scheduler/helpers/queues/queue_logic.py:380-395 | a deleted scheduled job can still be taken exactly if a pass had read its name and its hash is not made to expire at once |
| `Withdrawals.WithdrawalSticksIff` | scheduler/helpers/queues/queue_logic.py:343-395 | the same for any job not taken yet, in any reachable state: it can be taken exactly if a pass has it in hand and a hash that can be loaded remains |
| `Withdrawals.WithdrawalSticksWhen` | scheduler/helpers/queues/queue_logic.py:351-395 | what a caller can check: before its time, once it is queued, or while no scheduler has the lock, a withdrawn job is never taken |
| `Withdrawals.RegistriesOverlapIff` | scheduler/helpers/queues/queue_logic.py:343-395 | a withdrawal can put a job into two registries exactly if it is a cancellation that finds a job which a pass has in hand |
| `Races.RaceIsReachable` | scheduler/worker/scheduler.py:145-154 | a run from the start reaches such a state; cancelled there, the job can be in two registries, and can be taken |
| `Recovery.TakenOverOnlyAfterExpiry` | scheduler/worker/scheduler.py:158-163 | the key of a scheduler that died stays as it was, and its lock with nobody, until it expires; as long as the key is that one, an attempt gets the lock exactly if it has expired |
| `Recovery.LateHeartbeatIff` | scheduler/redis_models/lock.py:15-20 | a second running scheduler gets a lock too exactly if the first one's heartbeat is later than its expiry |
| `Races.LateTickTakesTwice` | scheduler/worker/scheduler.py:121-136 | from the start, for any interval, one tick that a heartbeat should have come before leads to a job taken twice |
| `Recovery.InterruptedPass` | scheduler/worker/scheduler.py:138-163 | a job that a scheduler had in hand when it died is taken once at most, and unless withdrawn is scheduled for its time, queued or taken |
| `Recovery.NoJobIsStranded` | scheduler/worker/scheduler.py:63-155 | in every reachable state a scheduled job can still be taken exactly if some scheduler runs for its queue and its time is not before the epoch |
| `Recovery.InterruptedPassIsResumedIff` | scheduler/worker/scheduler.py:63-163 | what a dead scheduler had in hand can still be taken exactly if another one runs for the same queue |
| `Fifo.EnqueueAppends` | scheduler/helpers/queues/queue_logic.py:417-423 | a job, asked to the front or not, goes to the end exactly if its name is greater than all names queued with its score, which is the greatest one queued, or the present |
| `Fifo.RegistryIsList` | scheduler/redis_models/registry/base_registry.py:77-118 | with increasing names the queue does what a list with append and remove-first does, over any run |
| `Workers.RotationAgain` | scheduler/worker/worker.py:519-522 | a reordered rotation of the configured queues is again one |
| `Workers.Worker.ReorderQueues` | scheduler/worker/worker.py:502-525 | the new order under each strategy, a rotation unless random, and no queue lost |
| `Workers.Worker.TakeNext` | scheduler/worker/worker.py:387-391 | a dequeue over the ordered queues serves the first that has a live job, takes that job and else only dead names from them, and round-robin then rotates the order there |
| `Workers.DequeuedIsFirstLive` | scheduler/worker/worker.py:387-391 | the queue that dequeue_any takes a job from is the first live one of the order, at the place where reorder_queues rotates |
| `Workers.ServedInTurn` | scheduler/worker/worker.py:519-522 | a queue at index i that keeps having jobs is served within i + 1 dequeues |
| `Workers.DequeueAndMaintainTtl` | scheduler/worker/worker.py:373-406 | with or without a timeout and a maximal idle time: a timeout of 0 is passed only if given, and refused; the loop ends, and gives up no earlier than the maximal idle time and less than a second later, apart from the last round's lateness; without one it ends with a job |
| `CatchUp.JumpIsStepping` | scheduler/models/task.py:282-284 | the ceiling step equals stepping one interval at a time until not in the past, and lands within one interval from now |
| `CatchUp.EnoughIff` | scheduler/models/task.py:283 | the repeats are enough exactly if now is not past the last slot |
| `Tasks.NextSlot` | scheduler/models/task.py:275-286 | when planning moves the time on, to where, and that time plus interval times repeat stays the same |
| `Tasks.ExhaustedForGood` | scheduler/models/task.py:283-286 | a budget that does not reach now never applies later |
| `Tasks.StepKeepsInv` | scheduler/models/task.py:324-353 | every save, save of a record loaded earlier, reading by a pass, promotion, take, finish with callback and unschedule keeps record and queue in agreement |
| `Tasks.SaveLoadedIsSave` | scheduler/worker/scheduler.py:26-30 | a record that was loaded earlier, and whose job is on the queue or which nothing replaced, is saved like the stored one |
| `Tasks.OneJobPerTask` | scheduler/models/task.py:185-202 | in every run the jobs of a task that are scheduled, queued or active are at most the one it names |
| `Tasks.SaveAgrees` | scheduler/models/task.py:324-353 | right after a save a job is on the queue exactly if the record names it, and why none is |
| `Tasks.RunBudget` | scheduler/models/task.py:275-286 | started slots strictly increase, lie whole intervals after the first, and are at most repeat + 1; a run-once task starts once at most |
| `Tasks.SameSlotIsPlannedAgainIff` | scheduler/models/task.py:335-340 | after its job a task plans the same slot again exactly if it is no cron task and the slot is not past |
| `Tasks.CleanupPlansAgainIff` | scheduler/models/task.py:185-202 | for tasks of every kind, a save during an execution plans a second job exactly if the cleanup of the active registry dropped the executing one and the task is enabled and has a time to plan |
| `Tasks.UnscheduledWhileRunningIff` | scheduler/models/task.py:264-273 | unscheduling an executing task, saving it and ending its job leaves two planned jobs exactly if the task is enabled and has a time to plan both times |
| `Tasks.UnscheduledInHandIff` | scheduler/models/task.py:264-273 | unscheduling a task while a pass has its job in hand puts the job back on the queue unnamed, and the next save plans a second one exactly if the task is enabled and has a time to plan |
| `Tasks.StaleSaveIff` | scheduler/worker/scheduler.py:26-30 | a save of any record plans a job beside what is on the queue exactly if no job that it names is on the queue and it has a time to plan |
| `Tasks.StaleSaveAfterDoneIff` | scheduler/worker/scheduler.py:26-30 | a record loaded before its job was done and saved afterwards plans a job exactly if it has a time to plan, and the job that the callback planned stays |
| `Tasks.TwoSavesOfOneRecordIff` | scheduler/worker/scheduler.py:26-30 | two schedulers that save one record, which names no job on the queue, plan two jobs exactly if both have a time to plan |
| `Tasks.TaskRecord.CheckScheduled` | scheduler/models/task.py:185-202 | whether the named job is on the queue, and a stale name forgotten |
| `Tasks.TaskRecord.ScheduleTime` | scheduler/models/task.py:275-286 | the next time and the remaining repeats per kind of task |
| `Tasks.TaskRecord.SaveAndSchedule` | scheduler/models/task.py:324-353 | record and queue after planning, in every branch |
| `Tasks.PlanningIff` | scheduler/models/task.py:324-353 | when a job is planned, with which hash and at which time, and that nothing else on the queue changes |
| `Tasks.NameTakenPlansNothing` | scheduler/models/task.py:338-340 | a name that is taken leaves the queue and the stored time as they were |
| `Tasks.TaskRecord.UnscheduleFrom` | scheduler/models/task.py:264-273 | the named job deleted and forgotten |
| `Tasks.UnscheduledMeans` | scheduler/models/task.py:264-273 | the named job is in no registry, its hash expires after its info TTL, and no other job changes |
| `Tasks.TaskRecord.JobDone` | scheduler/models/task.py:37-60 | the done job is forgotten before the next is planned |
| `HashModels.PartialIsFullIffInSync` | scheduler/redis_models/base.py:188-205 | a partial save leaves the hash of a full save exactly if every field that is not dirty is stored as it is |
| `HashModels.OperationKeepsSync` | scheduler/redis_models/base.py:126-129 | which operations keep that, assignments to undeclared names included: all but a `set_field` that leaves a clean attribute different |
| `HashModels.PartialSaveIsFullSave` | scheduler/redis_models/base.py:188-238 | after any such operations a save leaves every declared field with its attribute's value, as a full save would |
| `HashModels.SaveAfterSave` | scheduler/redis_models/base.py:188-205 | after a save the next one writes, to any hash, just the declared fields assigned since, with the values last given |
| `HashModels.SaveAfterLoad` | scheduler/redis_models/base.py:131-136 | so does the first save of a loaded handle, whose attributes are the stored ones or the defaults |
| `HashModels.FirstSaveIsFull` | scheduler/redis_models/base.py:122-124 | the first save of a new handle writes every declared field, and so do the first one after a deletion, which leaves no field, and a save of everything |
| `HashModels.SetFieldWrites` | scheduler/redis_models/base.py:229-238 | set_field writes its field at once and no other |
| `HashModels.LoadedIsInSyncIff` | scheduler/redis_models/base.py:131-136 | a loaded handle starts in sync exactly if every field missing from the hash has None for a default |
| `HashModels.DisjointSavesCommute` | scheduler/redis_models/base.py:188-205 | two handles with disjoint changes can be saved in either order, and both changes are kept |
| `HashModels.HashModel.SetAttr` | scheduler/redis_models/base.py:126-129 | attribute and dirty mark; an undeclared name is marked, and then raises |
| `HashModels.HashModel.SetFieldOf` | scheduler/redis_models/base.py:229-238 | hash and, if asked, attribute after set_field |
| `HashModels.HashModel.SaveTo` | scheduler/redis_models/base.py:188-205 | hash, dirty marks and full-save flag after a save |
| `HashModels.HashModel.DeleteFrom` | scheduler/redis_models/base.py:207-214 | no hash, and the next save is a full one |
| `Calendars.ClashIsCommonMinute` | scheduler/views/project_views.py:224-228 | the conflict test is a common minute, for sessions that end after they start |
| `Calendars.NextTarget` | scheduler/views/project_views.py:210-215 | after a visit the branch that adds a week is not reached, and the next target is seven days on |
| `Calendars.VisitsEverySeventhDay` | scheduler/views/project_views.py:206-251 | the loop visits the closed form: first such weekday from the start plus multiples of seven, as many as weeks and end date allow |
| `Calendars.VisitedIff` | scheduler/views/project_views.py:206-251 | the loop visits just the days of the weekday in the first weeks from the start and within the project |
| `Calendars.KthSession` | scheduler/views/project_views.py:206-251 | the k-th session is on the first such day plus 7 k, and is a session of the schedule |
| `Calendars.TasksSlotsIff` | scheduler/views/project_views.py:195-251 | the slots of a run are just the sessions of the chosen tasks' active schedules: day, start, and the minute of the day at which they end |
| `Calendars.GeneratingMeans` | scheduler/views/project_views.py:192-261 | a run stores and reports such sessions and nothing else, and each of them is stored or reported |
| `Calendars.SlotsCount` | scheduler/views/project_views.py:204-251 | the number of visits of all loops together |
| `Calendars.FillingKeepsApart` | scheduler/views/project_views.py:223-248 | non-break tasks stay without overlap, nothing stored is lost, created plus conflicts are all visits |
| `Calendars.VisitedTwice` | scheduler/views/project_views.py:220-228 | a placed session is found again exactly if it ends after it starts |
| `Calendars.FillingIsMaximal` | scheduler/views/project_views.py:223-248 | every visited slot overlaps a stored task in the end, unless its end wrapped at midnight or it has no length |
| `Calendars.GeneratingTwice` | scheduler/views/project_views.py:204-261 | for all schedules, a second run creates as many tasks as the first stored slots that wrap, and reports the rest; if it creates nothing it reports every visit |
| `Calendars.SecondRunCreatesNothing` | scheduler/views/project_views.py:204-261 | with sessions that end before midnight a second run creates nothing and reports every visit |
| `Calendars.FreeAfterFilling` | scheduler/views/project_views.py:223-248 | the slots that a run leaves free are those that wrap and that it stored |
| `Calendars.MidnightSessionIsStoredAgain` | scheduler/views/project_views.py:220-248 | a session that crosses midnight is stored again by a second run |
| `Calendars.PersonalCalendar.PlaceWeeks` | scheduler/views/project_views.py:206-251 | the week loop fills the visited slots in order |
| `Calendars.PersonalCalendar.GenerateSchedule` | scheduler/views/project_views.py:192-261 | calendar, count and conflicts of the nested loops, and the marked tasks |
| `Calendars.InsertedBreak` | scheduler/views/personal_task_views.py:24-53 | an inserted break overlaps nothing but its parent, starts when that ends, and lasts ten minutes exactly if that ends before 23:50 |
| `Calendars.WithBreakMeans` | scheduler/views/personal_task_views.py:15-53 | a break is inserted exactly after a task of an hour or more with no other entry in the ten minutes after it |
| `Calendars.CreateMeans` | scheduler/views/personal_task_views.py:222-254 | the calendar after a new task, entry by entry |
| `Calendars.EditMeans` | scheduler/views/personal_task_views.py:268-298 | the calendar after an edit, entry by entry |
| `Calendars.DeleteMeans` | scheduler/views/personal_task_views.py:314-322 | a deleted task is gone with its breaks and nothing else changes |
| `Calendars.OperationKeepsBreaks` | scheduler/views/personal_task_views.py:222-322 | create, edit, delete, generation and copying keep every break with its one task; breaks stay right after their tasks exactly if none is edited to be elsewhere |
| `Calendars.RunKeepsBreaks` | scheduler/views/personal_task_views.py:222-322 | in every run each task has at most one break, whose task is stored; and it comes right after the task unless it is edited away |
| `Calendars.PersonalCalendar.AutoInsertBreaks` | scheduler/views/personal_task_views.py:15-53 | when a break is inserted, and which |
| `Calendars.PersonalCalendar.CreatePersonalTask` | scheduler/views/personal_task_views.py:222-254 | the stored task and its break, or nothing when the form is refused |
| `Calendars.PersonalCalendar.EditPersonalTask` | scheduler/views/personal_task_views.py:268-298 | the changed task with its old break replaced, or nothing when the form is refused |
| `Calendars.PersonalCalendar.DeletePersonalTask` | scheduler/views/personal_task_views.py:314-322 | the task gone with its breaks |
| `Calendars.PersonalCalendar.CopyFromYesterday` | scheduler/views/personal_task_views.py:514-587 | the calendar and the ids not found after the loop over the ids |
| `Calendars.CopiedFromIsRun` | scheduler/views/personal_task_views.py:514-587 | the loop copies what was stored at first: no copy is copied again, and the missing ids are those that are not of the day before |

## Left out

- Redis and Valkey clients, pipelines, forking, signals, death-penalty timers and pub/sub: only their effect as steps.
- EnqueueJob: queues in runs are asynchronous; `EnqueueInline` is the branch for the others, where a job is not taken at most once.
- CreateAndEnqueueJob: parsing of timeouts and argument checks of `JobModel.create` are not modelled; the attributes are given.
- HandleFailure: an exception raised by a success callback, after the full save, is shown as any other failure.
- DequeueAny: jobs that arrive while a blocking pop waits are not modelled; a call sees the queues as they are.
- PrepareForExecution: in runs, popping a job and preparing it are one step. Between the two a job is in no registry, and a cancellation there would not keep it from running.
- Stop: releasing all locks and stopping are one step. Release does not check the owner, so a scheduler that loses its lease while stopping could delete another's key.
- A scheduler object is started once; restarting a stopped one, whose locks are not forgotten, is not modelled.
- Re-enqueueing from the views: `enqueue_job` takes a name only out of scheduled, so such a name can be in several registries.
- `Task.enqueue_to_run`: its callback forgets the planned job's name while that job is pending, so one job per task does not hold with it.
- TakeNext: an order that lists one queue twice is not modelled.
- `QueuedJobRegistry.empty`, the sets of all names, results, worker records and their heartbeats.
- Cron expressions: the next time they give is a parameter that lies after now.
- Encoding and decoding of attributes, and in-place changes of a mutable attribute, which do not mark it dirty.
- DequeueAndMaintainTtl: without a maximal idle time the loop runs until a job arrives, so one is assumed to arrive; lost connections and their retries are not modelled.
- CreatePersonalTask: whether the form accepts the date and the category is a parameter.
- Forms, subtasks, statistics, prayers, admin pages and templates.

Nothing here runs the application.
