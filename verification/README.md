# A verification model of BoomPar

BoomPar is a set of monitors (a mutex, one or two condition variables and some fields each)
composed into a thread pool, together with a few stand-alone monitors. This project models
them in Dafny and proves what they guarantee over every run: any number of threads, any
interleaving, spurious wake-ups and timeouts at any point of a wait.

Each component has the same three layers.

- **Critical sections** are functions on a value that holds what the lock protects. One
  section is the code a thread runs from taking the lock, or from coming out of a wait, to
  giving the lock up or to the next wait. A condition variable (`CondVars`) holds its waiting
  threads and those of them still asleep; the rest have been woken and have not run yet. A
  signal wakes at least one sleeper, chosen by nobody in particular.
- **Runs** are lists of steps over a state that adds the calls in progress and ghost logs. A
  step that is not enabled changes nothing, so a statement about every schedule is a statement
  about every interleaving (`Runs`).
- **Objects** are classes with the fields of the C structure, whose methods are the C
  functions with their wait loops, counters, bit vectors and 64-bit arithmetic. During a wait
  the fields become whatever the other threads have made of them: the method is given the
  state it finds at each wake-up. Each method is proved equal to the chain of critical
  sections that the runs are made of.

| files | source |
|---|---|
| `SyncQueue.dfy`, `SyncLLQueue.dfy`, `JobQueue.dfy`, `QueueRuns.dfy` | the two closable queues, the job queue that selects one, and their runs |
| `Promise.dfy`, `Job.dfy` | write-once promises and the life of a job |
| `Executor.dfy` | the executor with its workers as a step system |
| `ExecutorCounts.dfy`, `ExecutorWaits.dfy`, `ExecutorJobs.dfy`, `ExecutorPhases.dfy` | its invariants: counters, waits, job ownership, phases of its life |
| `ExecutorTheorems.dfy`, `ExecutorStories.dfy`, `ExecutorSteps.dfy`, `ExecutorProgress.dfy`, `ExecutorLimits.dfy` | what it promises, what becomes of each job, what decides each step, why it cannot deadlock, and on what exactly its promises depend |
| `ExecutorMonitor.dfy` | the executor and worker functions as methods |
| `Limiter.dfy` | the resource usage limiter |
| `PeriodicJob.dfy`, `AlarmJob.dfy`, `Runners.dfy` | the two timed jobs, and the thread that runs either |
| `SyncPipe.dfy` | the byte pipe |
| `Base.dfy`, `CondVars.dfy`, `Runs.dfy`, `Threads.dfy`, `QueueTypes.dfy` | machine words, condition variables, runs, counting threads, what the queues share |

## What the proofs brought to light

- `update_max_capacity_sync_queue` wakes pushers only when the array list is full at that
  moment. If a pop has just freed a slot, the wake-ups that a raised limit calls for are lost:
  `QueueRuns.RaisingTheLimitCanStrandAPusher` is a run of seven steps, and
  `SyncQueue.RaiseIsSafeExactlyWhenFullOrNobodySleeps` says exactly when a raise is safe.
- A write of 2^63 bytes to a pipe asks for a capacity that wraps to 0 and takes nothing
  (`SyncPipe.OverflowingWriteTakesNothing`, with the exact condition beside it). No object of a
  64-bit C program is that large; where `cy_uint` is narrower the same happens at half its range.
- `inc/boompar/alarm_job.h` says that returning BLOCKING pauses an alarm job. In the code it
  stays in the waiting state with the longest period; the model follows the code
  (`AlarmJob.PausesAfterARunExactlyWhenAsked`).
- Whether an executor drains depends on the timeout of its workers and not on its kind. With
  BLOCKING, cached executors drain as fixed ones do; with any timeout that can pass, an accepted
  job can stay queued with nobody to take it, and a shutdown then does not execute it
  (`ExecutorLimits.NobodyIsMissingExactlyWhen`, `ExecutorLimits.ShutdownDrainsExactlyWhen`).
- Calling `delete_executor` before the first `shutdown_executor` has returned is safe exactly
  when that shutdown is not immediate and the executor is fixed or can have no workers
  (`ExecutorLimits.DeletingOutOfOrderIsSafeExactlyWhen`). A second `shutdown_executor` returns
  at once and says nothing about the first.
- An array list that a woken pusher fails to expand costs a wake-up in the same way as a raised
  limit (`QueueRuns.AFailedExpansionCanStrandAPusher`).

## Model

| member | source | states |
|---|---|---|
| `SyncQueue.PushOutcomeExactlyWhen` | src/sync_queue.c:99-127 | When a push sleeps and when it succeeds (if and only if), told on the limit, the capacity and the closed flag; what it leaves in the queue, when the capacity grows, and that a popper is signalled exactly on success |
| `SyncQueue.PopShrinksAndSignalsExactlyWhen` | src/sync_queue.c:148-161 | A pop signals a pusher exactly when it took an element, and shrinks the array list exactly when it is more than three times too large |
| `SyncQueue.PushCallIsDecided` | src/sync_queue.c:99-127 | Over all its waits a push is decided by the first state it sees that is closed, not full, or below the limit, or in which its time is over; it sleeps while there is no such state |
| `SyncQueue.PopCallIsDecided` | src/sync_queue.c:138-161 | Over all its waits a pop waits again after every wake-up that finds the queue open and empty in time; the first other state decides: its front element, or NULL exactly when it is empty and closed or late |
| `SyncQueue.PushKeeps` | src/sync_queue.c:91-128 | A push, whether it blocks, fails or succeeds, keeps the queue sound and leaves an awake popper for every element while a popper sleeps |
| `SyncQueue.PopWakeKeeps` | src/sync_queue.c:130-162 | A popper that is new, woken, timed out or spuriously woken keeps the same: a wake-up that races with a timeout is not wasted |
| `SyncQueue.PushWakeCoversPushers` | src/sync_queue.c:91-128 | A push keeps every free slot covered by a woken pusher, unless an expansion fails for a pusher that was waiting |
| `SyncQueue.FailedExpansionIsSafeExactlyWhenSpared` | src/sync_queue.c:116-120 | A failed expansion of a waiting pusher wastes its wake-up exactly when there is no spare one (if and only if) |
| `SyncQueue.PopCoversPushers` | src/sync_queue.c:149-158 | A pop that frees a slot wakes a pusher for it |
| `SyncQueue.RaiseIsSafeExactlyWhenFullOrNobodySleeps` | src/sync_queue.c:61-73 | Raising the limit keeps the pushers covered for every new limit if and only if the array list is full or no pusher sleeps |
| `SyncQueue.LoweringIsSafe` | src/sync_queue.c:61-73 | Lowering the limit never strands a pusher |
| `SyncQueue.Monitor.constructor` | src/sync_queue.c:18-28 | A new queue is open and empty, nobody waits, the limit is the one given |
| `SyncQueue.Monitor.Push` | src/sync_queue.c:91-128 | The imperative push with its wait loop and counters leaves, for any interference during its waits, the queue and result of the chain of critical sections that the theorems about runs are about |
| `SyncQueue.Monitor.PushNow` | src/sync_queue.c:109-127 | After the loop: refused when closed, expanded below the limit, appended when there is room; the guarded signal equals an unguarded one |
| `SyncQueue.Monitor.Pop` | src/sync_queue.c:130-162 | The imperative pop with its wait loop equals the chain of its critical sections |
| `SyncQueue.Monitor.PopNow` | src/sync_queue.c:148-161 | After the loop: the front element or NULL, one pusher signalled unless closed, shrunk when three times too large |
| `SyncQueue.Monitor.Close` | src/sync_queue.c:164-181 | Close broadcasts to both conditions the first time and stays closed |
| `SyncQueue.Monitor.UpdateMaxCapacity` | src/sync_queue.c:61-73 | The new limit is stored and pushers are woken exactly when it was raised on a full array list |
| `SyncQueue.Monitor.GetThreadsWaitingOnEmpty` | src/sync_queue.c:183-189 | The counter is the number of threads that wait on the empty queue |
| `SyncLLQueue.PushKeeps` | src/sync_ll_queue.c:43-62 | A push to the linked list keeps it sound and loses no popper |
| `SyncLLQueue.PopWakeKeeps` | src/sync_ll_queue.c:64-88 | A pop, woken for whatever reason, keeps it sound and loses no popper |
| `SyncLLQueue.PushSucceedsExactlyWhen` | src/sync_ll_queue.c:43-62 | A push never sleeps and succeeds exactly when the list is open and takes the element, which then is at its end |
| `SyncLLQueue.PopCallIsDecided` | src/sync_ll_queue.c:64-88 | Over all its waits a pop is decided by the first state it sees that is closed, not empty or late, as for the array list |
| `SyncLLQueue.Monitor.constructor` | src/sync_ll_queue.c:14-21 | A new list queue is open, empty and has no waiters |
| `SyncLLQueue.Monitor.Push` | src/sync_ll_queue.c:43-62 | The imperative push equals its critical section |
| `SyncLLQueue.Monitor.Pop` | src/sync_ll_queue.c:64-88 | The imperative pop with its wait loop equals the chain of its critical sections |
| `SyncLLQueue.Monitor.Close` | src/sync_ll_queue.c:90-105 | Close wakes all poppers the first time and stays closed |
| `JobQueue.Initialize` | src/job_queue.c:16-29 | Capacity 0, and no other, selects the linked list; an array list starts with the limit given, so at least 1; both start open and empty |
| `JobQueue.PushHasEffect` | src/job_queue.c:127-144 | For both implementations: a push appends exactly on success, fails when closed, sleeps only when open and without a wait error, and keeps the queue sound |
| `JobQueue.PushWakeHasEffect` | src/job_queue.c:127-144 | The same for a pusher that comes out of its wait |
| `JobQueue.PopHasEffect` | src/job_queue.c:146-163 | For both implementations: a pop takes exactly the front element, or NULL exactly when the queue is empty and closed or timed out, or sleeps exactly when it is empty, open and not timed out |
| `JobQueue.PopWakeHasEffect` | src/job_queue.c:146-163 | The same for a popper that comes out of its wait |
| `JobQueue.CloseHasEffect` | src/job_queue.c:165-180 | For both implementations: close keeps the elements and leaves nobody asleep |
| `JobQueue.UpdateMaxCapacityHasEffect` | src/job_queue.c:73-87 | For both implementations the elements and the waiters stay; an array list stores the new limit and wakes its pushers exactly when it was raised while full |
| `JobQueue.PushOutcomeExactlyWhen` | src/job_queue.c:127-144 | For both implementations: a push, new or resumed, sleeps exactly on an open array list that is full and at its limit, and succeeds exactly when there is room or room is made |
| `JobQueue.PushCallIsDecided` | src/job_queue.c:127-144 | A whole push is decided by the last state it looks at, in whichever queue it is, and all states before were full, open, at the limit and in time |
| `JobQueue.PopCallIsDecided` | src/job_queue.c:146-163 | A whole pop is decided by the last state it looks at, in whichever queue it is, and all states before were empty, open and in time |
| `JobQueue.Monitor.constructor` | src/job_queue.c:16-29 | The object owns exactly one of the two queues, chosen by the capacity |
| `JobQueue.Monitor.Push` | src/job_queue.c:127-144 | Dispatches to the queue it owns and has the effect of that queue's whole call |
| `JobQueue.Monitor.Pop` | src/job_queue.c:146-163 | Dispatches to the queue it owns and has the effect of that queue's whole call |
| `JobQueue.Monitor.IsEmpty` | src/job_queue.c:108-125 | True exactly when the queue it owns holds no element |
| `JobQueue.Monitor.Close` | src/job_queue.c:165-180 | Closes the queue it owns |
| `JobQueue.Monitor.UpdateMaxCapacity` | src/job_queue.c:73-87 | Changes the limit of an array list and nothing of a linked list |
| `QueueRuns.FirstInFirstOut` | src/job_queue.c:127-180 | In every run, for both implementations, the elements pushed are the elements popped followed by the elements queued, in order |
| `QueueRuns.ClosedQueueOnlyDrains` | src/sync_queue.c:109-114 | From a closed queue on, in every run, nothing is pushed and a prefix of the contents is popped in order |
| `QueueRuns.PopsReturnExactlyWhen` | src/job_queue.c:146-163 | In a run a pop goes on waiting exactly while the queue is open and empty and its time is not over, and takes the front element exactly when there is one |
| `QueueRuns.PushesReturnExactlyWhen` | src/job_queue.c:127-144 | In a run a push goes on waiting exactly while the queue makes pushers wait and its time is not over, and appends exactly when there is room |
| `QueueRuns.ClosedExactlyWhenCalled` | src/job_queue.c:165-180 | In every run, for both implementations, the queue is closed exactly when somebody has closed it |
| `QueueRuns.LastLimitTakesHold` | src/job_queue.c:73-87 | In every run the queue is the one chosen at its creation, and an array list has the limit that was last asked for |
| `QueueRuns.NoPopperIsStranded` | src/sync_queue.c:117-145 | In every run, for both implementations, with single signals, barging, timeouts and spurious wake-ups: while a popper sleeps there are at least as many woken poppers as elements, and nobody sleeps on a closed queue |
| `QueueRuns.NoPusherIsStranded` | src/sync_queue.c:99-120 | In every run without a careless raise or a wasted expansion: while a pusher sleeps, elements plus woken pushers reach the limit, so pushers and poppers never all sleep when the limit is at least 1 |
| `QueueRuns.RaisingTheLimitCanStrandAPusher` | src/sync_queue.c:61-73 | A run of seven steps in which raising the limit on a queue that is not full leaves a pusher asleep on a queue that is far below its limit |
| `QueueRuns.AFailedExpansionCanStrandAPusher` | src/sync_queue.c:116-120 | A run of five steps in which a woken pusher that fails to expand the array list leaves another asleep on an empty queue |
| `Promise.CallbackRunsExactlyOnce` | src/promise.c:22-105 | In every run, callbacks run plus callbacks owed are 1 if there were a call that set a result and one that set a callback and 0 otherwise; once nobody owes it, exactly the callback of the first such call has run, with the result of the first such call |
| `Promise.SetAnswersExactlyWhenFirst` | src/promise.c:22-105 | Each setter answers 1 exactly when it is the first of its kind and then stores its argument; it is given the callback to run exactly when both are there then |
| `Promise.StepsTakeEffect` | src/promise.c:22-105 | A call by an idle thread is made, an owed callback can run, and a getter returns the result exactly when it is there and sleeps otherwise |
| `Promise.GetCallIsDecided` | src/promise.c:55-69 | Over all its waits a getter returns the result of the first state it sees in which there is one, and sleeps while there is none |
| `Promise.EverybodySeesTheFirstResult` | src/promise.c:55-69 | In every run each getter and the callback see the argument of the first call that set the result, and nobody sleeps once it is there |
| `Promise.ResultIsFinal` | src/promise.c:31-44 | A result never changes, whatever is called afterwards |
| `Promise.Monitor.constructor` | src/promise.c:13-20 | A new promise has no result and no callback |
| `Promise.Monitor.SetResult` | src/promise.c:22-53 | Sets the result once, wakes all getters, and hands the callback to run to the setter only |
| `Promise.Monitor.SetCallback` | src/promise.c:82-105 | Sets the callback once, and hands it to its setter to run exactly when the result was there |
| `Promise.Monitor.GetResult` | src/promise.c:55-69 | The imperative wait loop equals the chain of its critical sections |
| `Job.LifeOfAJob` | src/job.c:45-82 | An untouched job is executed once with its promise set to the output, or cancelled once with its promise set to NULL; a promise fulfilled before stays as it was |
| `Job.EndSettles` | src/job.c:53-62 | A started job ends COMPLETED with its promise set once, to the output |
| `Job.OnlyCreatedJobsAreTouched` | src/job.c:45-82 | Executing starts, and cancelling cancels, exactly the jobs in state CREATED, and only executing calls the function |
| `Job.FulfillingWakesGetters` | src/job.c:53-80 | A promise that the job fulfils is ready with that result, and all its getters are woken |
| `Job.SettledJobsStaySettled` | src/job.c:45-82 | A settled job refuses to be executed or cancelled again |
| `Job.JobObject.constructor` | src/job.c:15-23 | A new job is CREATED |
| `Job.JobObject.Execute` | src/job.c:45-63 | Runs a CREATED job to its end and fulfils its promise, and leaves any other job alone |
| `Job.JobObject.CancelJob` | src/job.c:65-82 | Cancels a CREATED job, calls back, sets the promise to NULL, and leaves any other job alone |
| `ExecutorTheorems.InvHolds` | src/executor.c:135-244 | Every reachable state of the executor keeps the joint invariant of counters, waits, jobs and phases |
| `ExecutorTheorems.EveryAcceptedJobIsInOnePlace` | src/worker.c:71-149 | In every run an accepted job is exactly once in the queue, or with one worker, or with one discarder, or settled |
| `ExecutorStories.JobsEndAsTheirTakersMust` | src/worker.c:96-147 | In every run every job has the promise and callback it was submitted with, and an accepted job that nobody holds any more was executed once with the output that its function returned if a worker took it, and was cancelled once and never called if a discarder took it |
| `ExecutorStories.WithoutWorkersJobsAreCancelled` | src/worker.c:96-107 | In every run in which no worker was started, every accepted job that is neither queued nor held was cancelled once |
| `ExecutorStories.OnlyWorkersRunJobs` | src/worker.c:133-134 | A step of a thread that is not a worker changes no job's calls and no output |
| `ExecutorTheorems.RefusedJobsAreUntouched` | src/worker.c:85-93 | In every run a job whose push did not succeed never runs, is never cancelled, and its promise is untouched |
| `ExecutorTheorems.LeftoversAreInOrder` | src/worker.c:96-107 | In every run after a shutdown the queue is closed and holds existing, untouched jobs, each once |
| `ExecutorTheorems.DeletedExecutorHasSettledEveryJob` | src/executor.c:168-244 | Once delete_executor has returned 1, every accepted job was executed once or cancelled once and its promise was set once, to the output or to NULL; the delete was called after the first shutdown had returned, or the executor is fixed and the shutdown not immediate |
| `ExecutorTheorems.DeletedExecutorWithoutWorkersHasSettledEveryJob` | src/executor.c:168-244 | The same in any order for an executor that can have no workers, unless the shutdown is immediate |
| `ExecutorTheorems.NonBlockingExecutorHasNoWorkers` | src/worker.c:46-47 | In every run an executor whose workers would not wait at all never has one |
| `ExecutorTheorems.PatientWorkersLeaveNothingQueued` | src/worker.c:123-147 | In every run, for both kinds of executor with BLOCKING workers: once there was a worker and none is left, a shutdown was requested and the queue is empty |
| `ExecutorTheorems.GracefulShutdownExecutesEveryJob` | src/executor.c:168-231 | For both kinds of executor with BLOCKING workers of which one was started, no immediate shutdown and, if cached, no delete out of order: when the workers are gone the queue is empty and every accepted job was executed |
| `ExecutorTheorems.ImmediateShutdownEmptiesTheQueue` | src/executor.c:192-194 | In every run, once an immediate first shutdown has returned the queue is empty |
| `ExecutorTheorems.CountersAreExact` | src/executor.c:137-163 | In every run submitters_count and active_worker_count are the numbers of threads they stand for, and the worker limit is kept |
| `ExecutorTheorems.ShutdownIsABarrier` | src/executor.c:168-190 | After the first shutdown has returned, in every continuation: no submitter, no successful push, and the number of workers only falls, so a zero is final |
| `ExecutorTheorems.SleepersHaveReason` | src/executor.c:186-216 | In every run a shutdown sleeps only while a submitter is inside, a waiter only while a worker counts, and no pusher or worker sleeps after the close |
| `ExecutorTheorems.QueuedJobsHaveWorkersComing` | src/worker.c:123-147 | In every run, while a worker sleeps there are at least as many woken workers as queued jobs; with BLOCKING workers of which one was started, a queued job always has a worker that neither sleeps nor leaves |
| `ExecutorSteps.SubmissionsEnterExactlyBeforeShutdown` | src/executor.c:137-147 | A submission is turned away exactly after a shutdown was requested, and counted otherwise |
| `ExecutorSteps.SubmissionIsAcceptedExactlyWhen` | src/worker.c:71-94 | A submission sleeps exactly when the queue makes pushers wait and its time is not over, and its job is accepted and queued last exactly when there is room; only a cached executor then looks for workers |
| `ExecutorSteps.WorkerIsAskedForExactlyWhen` | src/executor.c:151-153 | Whatever the others do between its two looks, an accepted submission asks for a worker exactly when nobody was waiting for jobs at the first and a job is queued at the second |
| `ExecutorSteps.EntriesAndExitsAreCounted` | src/executor.c:18-163 | Submitters and workers are counted in unless it is too late or the limit is reached, and counted out; exactly the last one out wakes those who wait for that, submitters only after a shutdown was requested |
| `ExecutorSteps.WorkerIsCountedExactlyBelowTheLimit` | src/executor.c:37-50 | create_worker counts a worker exactly below the limit, and otherwise does nothing |
| `ExecutorSteps.FailedWorkersAreTakenBack` | src/executor.c:52-65 | A worker that cannot be started is taken off again, whatever the others do in between, and whoever waits for the last worker is woken if it was the last |
| `ExecutorSteps.WorkerStartsExactlyWhen` | src/worker.c:41-69 | A counted worker can be started exactly when it would wait for jobs at all, and begins with a pop |
| `ExecutorSteps.ConstructorMakesEveryAttempt` | src/executor.c:128-130 | In every run the constructor of a fixed executor has called create_worker exactly as often as there may be workers before anybody can use it, whatever became of them; that of a cached one never |
| `ExecutorSteps.WorkerQuitsExactlyWhen` | src/worker.c:123-131 | A worker takes the front job exactly when there is one, and otherwise quits exactly when the queue is closed or its wait has timed out, and sleeps if not |
| `ExecutorSteps.WorkerRunsTheJobItTook` | src/worker.c:133-134 | A worker calls the function of the job that it took, for the first time |
| `ExecutorSteps.WorkerComesBack` | src/worker.c:120-143 | After a job it comes back to the queue, whatever the others have done |
| `ExecutorSteps.FirstShutdownDecides` | src/executor.c:172-184 | In every run the queue is closed exactly when there was a call of shutdown_executor, and jobs are to be discarded exactly when the first such call said so |
| `ExecutorSteps.FirstDeleteDecides` | src/executor.c:223-231 | In every run a delete counts as in order exactly when the first shutdown had returned when delete_executor was first called |
| `ExecutorSteps.ShutdownGoesOnExactlyWhen` | src/executor.c:186-194 | The first shutdown sleeps exactly while there are submitters, and then discards exactly if it was to |
| `ExecutorSteps.LaterShutdownsDoNothing` | src/executor.c:172-177 | A later shutdown returns at once and changes nothing |
| `ExecutorSteps.WaitsBeginExactlyAfterShutdown` | src/executor.c:199-211 | Before a shutdown a wait and a delete return and change nothing; after one they go on to the workers |
| `ExecutorSteps.WaitGoesOnExactlyWhen` | src/executor.c:213-231 | A wait sleeps exactly while there are workers, and then returns, or discards for a delete |
| `ExecutorSteps.DiscarderReturnsExactlyWhen` | src/worker.c:98-107 | A discarder returns exactly when it sees an empty queue |
| `ExecutorSteps.DiscarderTakesTheFront` | src/worker.c:98-107 | Whatever the others do between its look and its pop, a discarder takes the job that is then in front, or looks again when there is none, and never sleeps |
| `ExecutorProgress.SubmitterAdvances` | src/executor.c:145-163 | Every step of a submitter after the close, whatever it is, brings it nearer to its exit: it cannot go back to sleep |
| `ExecutorProgress.SubmitterCanMove` | src/executor.c:145-163 | After the close a submitter is never stuck, whether jobs can be created, workers started and waits time out or not |
| `ExecutorProgress.SubmittersTakeFewSteps` | src/executor.c:145-163 | In every schedule after a shutdown request a submitter makes at most 8 more steps inside the submit window |
| `ExecutorProgress.WorkersTakeFewSteps` | src/worker.c:123-147 | In every schedule after the first shutdown has returned a worker makes at most four steps for each queued job and four more |
| `ExecutorProgress.DiscardersTakeFewSteps` | src/worker.c:96-107 | In every schedule a discarder makes at most three steps for each queued job and two more |
| `ExecutorProgress.ShutdownCanAlwaysReturn` | src/executor.c:168-195 | From every reachable state with a shutdown requested, and for every strategy of the libraries, the clock and the job functions, there is a way on to the return of the first shutdown whose every step is made, turns out as the strategy decides, and is no new call |
| `ExecutorProgress.WaitAndDeleteCanAlwaysReturn` | src/executor.c:199-231 | From every reachable state with a thread that waits for the workers, and for every strategy, there is such a way on to its return, and to the return of delete_executor |
| `ExecutorLimits.DeletingOutOfOrderIsSafeExactlyWhen` | src/executor.c:168-231 | For every executor: a delete called before the first shutdown has returned leaves every accepted job settled, in all runs, if and only if the shutdown is not immediate and the executor is fixed or its workers would not wait |
| `ExecutorLimits.DeleteCanOvertakeAnImmediateShutdown` | src/executor.c:192-231 | A run of every executor, fixed ones included, in which such a delete returns 1 while the immediate shutdown holds an accepted job |
| `ExecutorLimits.DeleteCanOvertakeASubmitter` | src/executor.c:149-231 | A run of every cached executor that may have workers in which such a delete returns 1 while a worker holds an accepted job |
| `ExecutorLimits.NobodyIsMissingExactlyWhen` | src/executor.c:43-48 | For every executor: while no shutdown was requested, an executor that had a worker and has none left has an empty queue, in all runs, if and only if its timeout is BLOCKING or NON_BLOCKING |
| `ExecutorLimits.NeverDeserted` | src/executor.c:88-101 | With such a timeout there is no run at all in which the workers leave before a shutdown |
| `ExecutorLimits.ImpatientExecutorCanLeaveAJob` | src/executor.c:43-48 | A run of every executor with another timeout that leaves an accepted job queued with nobody inside; with a limit of one worker because the one that timed out still counts |
| `ExecutorLimits.ShutdownDrainsExactlyWhen` | src/executor.c:168-231 | For every executor: an orderly shutdown that is not immediate has every accepted job executed by the time the workers are gone, in all runs, if and only if the timeout is BLOCKING or NON_BLOCKING |
| `ExecutorMonitor.ProcessDealsWithEachOnce` | src/worker.c:96-107 | Working off a queue deals with each queued job once and touches no other |
| `ExecutorMonitor.QueuedJobsAreSettled` | src/worker.c:96-147 | Discarding cancels each queued job once, a last worker executes each once with its output, and neither touches another job |
| `ExecutorMonitor.NewExecutor` | src/executor.c:76-133 | NULL exactly when asked for zero workers; otherwise a configuration the theorems cover, and a creation loop that leaves as many active workers as attempts to start one worked, whatever the workers started so far do to the queue meanwhile |
| `ExecutorMonitor.NewExecutorsAreStaffed` | src/executor.c:119-130 | A new executor has as many workers as attempts that worked, out of exactly worker_count_limit attempts if it is fixed and of none if it is cached; nothing is requested and nobody waits |
| `ExecutorMonitor.Monitor.CreateWorker` | src/executor.c:37-74 | Counts a worker below the limit, and takes it back exactly when starting it failed, whatever others did in between |
| `ExecutorMonitor.Monitor.CleanUp` | src/executor.c:18-34 | Takes a worker off the count and wakes the waiters at zero |
| `ExecutorMonitor.Monitor.SubmitEnter` | src/executor.c:137-147 | Enters the submit window unless a shutdown was requested |
| `ExecutorMonitor.Monitor.SubmitExit` | src/executor.c:157-163 | Leaves the submit window and wakes the shutdown at zero |
| `ExecutorMonitor.Monitor.Shutdown` | src/executor.c:168-190 | Closes the queue once and waits for the submitters, for any interference during the wait; a later call returns at once |
| `ExecutorMonitor.AwaitSubmittersCallIsDecided` | src/executor.c:186-188 | The wait of a shutdown is over at the first state it sees without submitters, and sleeps while there is none |
| `ExecutorMonitor.Monitor.WaitForAllWorkersToComplete` | src/executor.c:199-221 | Returns 0 before a shutdown, and otherwise waits until no worker counts, for any interference between its two locks and during its waits |
| `ExecutorMonitor.AwaitWorkersCallIsDecided` | src/executor.c:215-217 | The wait for the workers is over at the first state it sees without workers, and sleeps while there is none |
| `ExecutorMonitor.Monitor.DiscardLeftoverJobs` | src/worker.c:96-107 | The loop equals the chain of its looks, pops and cancellations, for any interference before each lock |
| `ExecutorMonitor.DiscardRound` | src/worker.c:98-106 | Under any interference a round ends the loop exactly when it finds the queue empty, and else cancels the job that is in front when it pops, if there still is one, and no other |
| `ExecutorMonitor.DiscardAloneCancelsAll` | src/worker.c:96-107 | Without interference that chain empties the closed queue and cancels its jobs in order |
| `ExecutorMonitor.Monitor.WorkerFunction` | src/worker.c:111-149 | The loop equals the chain of its pops, waits and executions, for any interference and any timeouts; when it ends the worker cleans up |
| `ExecutorMonitor.WorkerRound` | src/worker.c:123-144 | Under any interference a round executes the job in front and no other exactly when there is one, and else quits exactly when the queue is closed or the wait has timed out |
| `ExecutorMonitor.WorkerAloneExecutesAll` | src/worker.c:123-147 | Without interference that chain empties the closed queue, executes its jobs in order, and ends |
| `Limiter.GrantIsMaximal` | src/resource_usage_limiter.c:103-112 | A grant lies in the requested range, leaves the total within the count without overflow, and is the largest such amount; after a shutdown or a break-out it is 0 |
| `Limiter.GivingBackUndoesAGrant` | src/resource_usage_limiter.c:103-143 | A grant that is given back is accepted, restores what was granted before, and wakes everybody |
| `Limiter.NothingIsLostOrInvented` | src/resource_usage_limiter.c:36-143 | In every run the granted count is the sum of all grants less the sum of all that was given back |
| `Limiter.NobodyIsStranded` | src/resource_usage_limiter.c:94-100 | In every run a sleeping requester has too little left now but not too little in total, no shutdown and no break-out; a sleeping deleter waits for resources still granted |
| `Limiter.OnlySetCountOverdraws` | src/resource_usage_limiter.c:36-63 | The overdraft grows only in a step that lowers the count, and a step that grants leaves none |
| `Limiter.ShutdownOnlyTakesBack` | src/resource_usage_limiter.c:158-167 | After a shutdown, in every continuation, nothing is granted and the granted count only falls |
| `Limiter.DeleterLeavesNothingGranted` | src/resource_usage_limiter.c:169-183 | A deleter that stops waiting finds nothing granted, and that stays so |
| `Limiter.LastCallsTakeHold` | src/resource_usage_limiter.c:36-167 | In every run the count is the argument of the last valid call before the shutdown, or the initial one; the limiter is shut down and a variable set exactly when somebody called for it |
| `Limiter.SettingTheCount` | src/resource_usage_limiter.c:36-63 | An accepted count is stored and wakes everybody exactly if it is new; a refused one, 0 or after a shutdown, changes nothing |
| `Limiter.GivingBackExactlyWhen` | src/resource_usage_limiter.c:119-143 | What is given back is accepted exactly when that much is granted, and wakes everybody exactly when something is left then |
| `Limiter.BreakingOutAndShuttingDown` | src/resource_usage_limiter.c:145-167 | A break-out sets the variable and wakes everybody exactly the first time; a shutdown is set and wakes everybody each time |
| `Limiter.WaitsGoOnExactlyWhile` | src/resource_usage_limiter.c:94-100 | In a run a request goes on waiting exactly while there is too little left but not too little in total, without shutdown, break-out or timeout; a deletion exactly while something is granted |
| `Limiter.RequestCallIsDecided` | src/resource_usage_limiter.c:90-116 | Over all its waits a request is decided by the first state it sees in which it need not wait: the largest amount in range that fits there, and nothing after a shutdown or break-out |
| `Limiter.AwaitReturnsCallIsDecided` | src/resource_usage_limiter.c:175-183 | The deletion waits for the first state it sees in which nothing is granted |
| `Limiter.NewResourceUsageLimiter` | src/resource_usage_limiter.c:7-23 | NULL exactly for a count of 0; otherwise a new limiter that has granted nothing |
| `Limiter.Monitor.GetResourcesLeft` | src/resource_usage_limiter.c:66-73 | What is left and what is granted add up to the count, unless more is granted than there is: then nothing is left |
| `Limiter.Monitor.Request` | src/resource_usage_limiter.c:75-117 | Invalid ranges get 0 at once; otherwise the imperative wait loop equals the chain of its critical sections, and the 64-bit addition is exact |
| `Limiter.Monitor.GiveBack` | src/resource_usage_limiter.c:119-143 | Accepts what is at most granted, and wakes everybody exactly when something is left |
| `Limiter.Monitor.SetResourceCount` | src/resource_usage_limiter.c:36-63 | Refuses 0 and a limiter that is shut down, and otherwise stores the count and wakes everybody if it is new |
| `Limiter.Monitor.BreakOut` | src/resource_usage_limiter.c:145-156 | Sets the variable once and wakes everybody |
| `Limiter.Monitor.Shutdown` | src/resource_usage_limiter.c:158-167 | Shuts down and wakes everybody |
| `Limiter.Monitor.AwaitReturns` | src/resource_usage_limiter.c:175-183 | The imperative wait loop of the deletion equals the chain of its critical sections |
| `PeriodicJob.SubtractionNeverWraps` | src/periodic_job.c:111-113 | The time to wait is computed only with less waited than the period, so it is positive and exact in 64 bits |
| `PeriodicJob.TimingIsExact` | src/periodic_job.c:95-125 | In every run, under any period updates and spurious wake-ups, the accumulated total is the time really waited, never overflows, and an undisturbed sleep ends with the current period |
| `PeriodicJob.RunsWhenThePeriodIsOver` | src/periodic_job.c:51-64 | Without an event a waiting job starts to run exactly when it has waited for the period then in force |
| `PeriodicJob.MostUrgentEventWins` | src/periodic_job.c:14-84 | The most urgent pending event decides the next state |
| `PeriodicJob.UndisturbedTurn` | src/periodic_job.c:14-80 | Where the job goes when no event is pending, for every state: after a run it waits, after a single shot it is where it was |
| `PeriodicJob.AfterARunExactly` | src/periodic_job.c:41-49 | A runner that comes back from a run pauses exactly on a pause without a shutdown, goes exactly on a shutdown, and else waits for the whole period |
| `PeriodicJob.AfterASingleShotExactly` | src/periodic_job.c:30-74 | The same after a single shot: one on a paused job ends paused unless it was resumed, one on a waiting job ends waiting unless it was paused |
| `PeriodicJob.TurnExactly` | src/periodic_job.c:82-124 | A turn takes all events, wakes the waiters exactly when the job stops, and calls the function, waits for the period, waits for a signal or ends as the new state says |
| `PeriodicJob.EventsAreAcceptedExactlyWhenTheyMatter` | src/periodic_job.c:9-12 | An event is accepted exactly in the states in which it makes a difference to the next turn |
| `PeriodicJob.RefusedEventsLeaveNoTrace` | src/periodic_job.c:220-290 | A refused event changes nothing and an accepted one only adds itself |
| `PeriodicJob.LastPeriodTakesHold` | src/periodic_job.c:188-207 | In every run the period is the last valid one asked for, or the initial one |
| `PeriodicJob.NewPeriodsWakeTheRunner` | src/periodic_job.c:188-207 | A new period wakes the runner from its wait |
| `PeriodicJob.WaitersWaitExactlyWhile` | src/periodic_job.c:292-310 | In a run a wait for the stop goes on exactly while the job has not stopped |
| `PeriodicJob.NoEventIsLost` | src/periodic_job.c:220-290 | In every run the pending events fit the state, so the next turn takes up the most urgent one; none is pending after SHUTDOWN |
| `PeriodicJob.AcceptedEventDecides` | src/periodic_job.c:220-290 | In every run an accepted event wakes the runner and decides its next turn, unless a more urgent one is pending |
| `PeriodicJob.NobodySleepsInVain` | src/periodic_job.c:96-120 | In every run a runner that sleeps unsignalled has no pending event, and a waiter sleeps only while the job has not stopped |
| `PeriodicJob.ShutdownIsHonoured` | src/periodic_job.c:274-290 | After an accepted shutdown the function starts at most once more, ever, and SHUTDOWN is final |
| `PeriodicJob.PauseIsHonoured` | src/periodic_job.c:238-254 | After an accepted pause the function starts at most once more until a resume or a single shot is accepted |
| `PeriodicJob.AtMostOneStartAfterShutdown` | src/periodic_job.c:98-129 | In every run, whatever precedes and follows, at most one more start after an accepted shutdown |
| `PeriodicJob.AtMostOneStartAfterPause` | src/periodic_job.c:98-129 | In every run at most one more start after an accepted pause, until a resume or a single shot is accepted |
| `PeriodicJob.RunnerIsGoneExactlyWhenShutDown` | src/periodic_job.c:98-129 | In every run the runner has gone if and only if the job is shut down, which is what the delete function waits for |
| `PeriodicJob.RunnerCanMove` | src/periodic_job.c:87-133 | The runner can always make a step, if and only if it is not gone |
| `PeriodicJob.RunnerIsGoneAfterThreeSteps` | src/periodic_job.c:98-129 | In every run the runner is gone after at most three steps of its own from an accepted shutdown |
| `PeriodicJob.JobStopsAfterThreeSteps` | src/periodic_job.c:238-310 | In every run, after an accepted pause and until a resume or a single shot is accepted, the runner makes at most three steps of its own before the job is paused or shut down, so one may wait for that |
| `PeriodicJob.SingleShotRunsOnce` | src/periodic_job.c:256-272 | A single shot that no event disturbs starts the function exactly once and returns to the state it came from |
| `PeriodicJob.NewPeriodicJob` | src/periodic_job.c:135-172 | NULL exactly for a NULL function and the two special periods; otherwise a new job that is PAUSED with no event pending |
| `PeriodicJob.Monitor.Resume` | src/periodic_job.c:220-236 | Accepted exactly in the states listed, sets its bit and signals the runner |
| `PeriodicJob.Monitor.Pause` | src/periodic_job.c:238-254 | Accepted exactly in the states listed, sets its bit and signals the runner |
| `PeriodicJob.Monitor.SingleShot` | src/periodic_job.c:256-272 | Accepted exactly in the states listed, sets its bit and signals the runner |
| `PeriodicJob.Monitor.Shutdown` | src/periodic_job.c:274-290 | Accepted in every state but SHUTDOWN, sets its bit and signals the runner |
| `PeriodicJob.Monitor.UpdatePeriod` | src/periodic_job.c:188-207 | Refuses the two special periods, and otherwise stores the period and signals the runner |
| `PeriodicJob.Monitor.ConsumeEventsAndUpdateState` | src/periodic_job.c:14-84 | The switch over the event bits equals the transition on event sets, and clears the vector |
| `PeriodicJob.Monitor.Run` | src/periodic_job.c:87-127 | The runner's inner loop with its 64-bit accumulation equals the chain of its turns, for any interference during its waits |
| `PeriodicJob.RunnerCallIsDecided` | src/periodic_job.c:95-124 | Over all its waits the runner takes one turn after the other on what it finds, with the time added up so far, until a turn ends the loop |
| `PeriodicJob.Monitor.WaitForStop` | src/periodic_job.c:292-310 | Both wait loops equal the chain of their critical sections |
| `PeriodicJob.WaitCallIsDecided` | src/periodic_job.c:292-310 | Over all its waits a wait for the stop ends with the first state it sees in which the job has stopped |
| `AlarmJob.SubtractionNeverWraps` | src/alarm_job.c:94-97 | The time to wait is exact for every period the set function may return, including 0 and the maximum |
| `AlarmJob.CallsAlternate` | src/alarm_job.c:68-113 | In every run the calls of the job function and of the set function strictly alternate, the job function first |
| `AlarmJob.TimingIsExact` | src/alarm_job.c:77-103 | In every run a timed wait is exactly what is left of the period |
| `AlarmJob.RunsWhenThePeriodIsOver` | src/alarm_job.c:38-51 | Without an event a waiting job runs exactly when it has waited for its period |
| `AlarmJob.PausesAfterARunExactlyWhenAsked` | src/alarm_job.c:28-37 | For every period the set function returns, BLOCKING included, a runner that comes back from a run pauses if and only if a pause and no shutdown is pending, and otherwise waits for that period or shuts down |
| `AlarmJob.PeriodIsAskedForExactlyAfterARun` | src/alarm_job.c:72-75 | The runner asks for a period exactly after a run, and the answer then is the period in force |
| `AlarmJob.UndisturbedTurn` | src/alarm_job.c:13-57 | Where the job goes when no event is pending, for every state |
| `AlarmJob.TurnExactly` | src/alarm_job.c:59-108 | A turn takes all events, wakes the waiters exactly when the job stops, and calls the function, waits or ends as the new state says |
| `AlarmJob.EventsAreAcceptedExactlyWhenTheyMatter` | src/alarm_job.c:9-11 | An event is accepted exactly in the states in which it makes a difference to the next turn |
| `AlarmJob.RefusedEventsLeaveNoTrace` | src/alarm_job.c:170-222 | A refused event changes nothing and an accepted one only adds itself |
| `AlarmJob.WaitersWaitExactlyWhile` | src/alarm_job.c:224-242 | In a run a wait for the stop goes on exactly while the job has not stopped |
| `AlarmJob.AcceptedEventDecides` | src/alarm_job.c:170-222 | In every run an accepted event wakes the runner and decides its next turn, unless a more urgent one is pending |
| `AlarmJob.NobodySleepsInVain` | src/alarm_job.c:83-103 | In every run a runner that sleeps unsignalled has no pending event, and a waiter sleeps only while the job has not stopped |
| `AlarmJob.ShutdownIsHonoured` | src/alarm_job.c:206-222 | After an accepted shutdown the job function starts at most once more, ever, and SHUTDOWN is final |
| `AlarmJob.PauseIsHonoured` | src/alarm_job.c:170-186 | After an accepted pause the job function starts at most once more until a wake-up is accepted |
| `AlarmJob.AtMostOneStartAfterShutdown` | src/alarm_job.c:83-112 | In every run, whatever precedes and follows, at most one more start after an accepted shutdown |
| `AlarmJob.AtMostOneStartAfterPause` | src/alarm_job.c:83-112 | In every run at most one more start after an accepted pause, until a wake-up is accepted |
| `AlarmJob.RunnerIsGoneExactlyWhenShutDown` | src/alarm_job.c:83-112 | In every run the runner has gone if and only if the job is shut down, which is what the delete function waits for |
| `AlarmJob.RunnerCanMove` | src/alarm_job.c:64-116 | The runner can always make a step, if and only if it is not gone |
| `AlarmJob.RunnerIsGoneAfterThreeSteps` | src/alarm_job.c:83-112 | In every run the runner is gone after at most three steps of its own from an accepted shutdown |
| `AlarmJob.JobStopsAfterThreeSteps` | src/alarm_job.c:170-242 | In every run, after an accepted pause and until a wake-up is accepted, the runner makes at most three steps of its own before the job is paused or shut down, so one may wait for that |
| `AlarmJob.NewAlarmJob` | src/alarm_job.c:118-154 | NULL exactly for a NULL job function; otherwise a new job that is PAUSED with period BLOCKING |
| `AlarmJob.Monitor.Pause` | src/alarm_job.c:170-186 | Accepted exactly in the states listed, sets its bit and signals the runner |
| `AlarmJob.Monitor.WakeUp` | src/alarm_job.c:188-204 | Accepted exactly in the states listed, sets its bit and signals the runner |
| `AlarmJob.Monitor.Shutdown` | src/alarm_job.c:206-222 | Accepted in every state but SHUTDOWN, sets its bit and signals the runner |
| `AlarmJob.Monitor.ConsumeEventsAndUpdateState` | src/alarm_job.c:13-61 | The switch over the event bits equals the transition on event sets, and clears the vector |
| `AlarmJob.Monitor.Run` | src/alarm_job.c:64-110 | The runner asks for a period only after a run, and its inner loop equals the chain of its turns |
| `AlarmJob.RunnerCallIsDecided` | src/alarm_job.c:77-108 | Over all its waits the runner takes one turn after the other on what it finds, with the time added up so far, until a turn ends the loop |
| `AlarmJob.Monitor.WaitForStop` | src/alarm_job.c:224-242 | Both wait loops equal the chain of their critical sections |
| `AlarmJob.WaitCallIsDecided` | src/alarm_job.c:224-242 | Over all its waits a wait for the stop ends with the first state it sees in which the job has stopped |
| `SyncPipe.GrowthGrows` | src/sync_pipe.c:62-67 | Without overflow the capacity asked for is strictly larger, within the limit, and holds the bytes there are |
| `SyncPipe.WriteAppends` | src/sync_pipe.c:69-78 | A write appends the first bytes of its data, and stops short only when the pipe is closed or full |
| `SyncPipe.WriteTakesNothingExactlyWhen` | src/sync_pipe.c:62-70 | A write of at least one byte to an open pipe takes nothing if and only if the capacity it ends up with is the number of bytes already there |
| `SyncPipe.WriteTakesAByteUnlessGrowthFails` | src/sync_pipe.c:62-70 | Without overflow, a write of at least one byte takes one if and only if the pipe was not full or the resize works |
| `SyncPipe.OverflowingWriteTakesNothing` | src/sync_pipe.c:65-66 | Writing 2^63 bytes to a new pipe takes nothing although the resize works, because the capacity asked for wraps to 0 |
| `SyncPipe.ReadTakesTheFront` | src/sync_pipe.c:86-103 | A read that returns takes as many bytes from the front as it may and there are, none of them exactly when the pipe is closed and empty |
| `SyncPipe.WriteGrowsExactlyWhen` | src/sync_pipe.c:51-67 | A write sleeps exactly on an open pipe that is full to its limit, and grows the buffer exactly below the limit when space runs short, to what was asked for if the resize works |
| `SyncPipe.ReadShrinksExactlyWhen` | src/sync_pipe.c:86-103 | A read sleeps exactly on an open empty pipe, shrinks a buffer exactly when it is more than three times too large, and wakes the writers of an open pipe exactly when it took a byte |
| `SyncPipe.ClosedExactlyWhenCalled` | src/sync_pipe.c:106-121 | In every run the pipe is closed exactly when somebody has called for that |
| `SyncPipe.WaitsGoOnExactlyWhile` | src/sync_pipe.c:51-88 | In a run a write goes on waiting exactly while the pipe is open and full to its limit, and a read exactly while it is open and empty |
| `SyncPipe.WriteCallIsDecided` | src/sync_pipe.c:51-78 | Over all its waits a write is decided by the first state it sees that is closed or not full to its limit: it appends a prefix there, and stops short only on a closed or full pipe |
| `SyncPipe.ReadCallIsDecided` | src/sync_pipe.c:86-103 | Over all its waits a read is decided by the first state it sees that is closed or not empty: it takes the front bytes there |
| `SyncPipe.NoByteIsLostOrReordered` | src/sync_pipe.c:47-104 | In every run the bytes written are the bytes read followed by the bytes buffered, and readable <= capacity <= limit |
| `SyncPipe.NobodyIsStranded` | src/sync_pipe.c:51-53 | In every run readers sleep only on an open empty pipe and writers only on an open pipe full to the limit |
| `SyncPipe.BothSidesSleepOnlyOnAZeroPipe` | src/sync_pipe.c:51-88 | Some run puts readers and writers to sleep at once if and only if the limit is 0 |
| `SyncPipe.ClosedPipeOnlyDrains` | src/sync_pipe.c:106-121 | From a closed pipe on, in every run, nothing is written and the buffered bytes are read in order |
| `SyncPipe.Monitor.constructor` | src/sync_pipe.c:22-29 | A new pipe is open, empty and has capacity 0 |
| `SyncPipe.Monitor.Write` | src/sync_pipe.c:47-79 | The imperative write with its wait loop equals the chain of its critical sections |
| `SyncPipe.Monitor.WriteNow` | src/sync_pipe.c:55-78 | After the loop: refused when closed, grown with 64-bit arithmetic, as much written as fits, readers woken |
| `SyncPipe.Monitor.Read` | src/sync_pipe.c:82-104 | The imperative read with its wait loop equals the chain of its critical sections |
| `SyncPipe.Monitor.ReadNow` | src/sync_pipe.c:90-103 | After the loop: the front bytes, a buffer shrunk when it is more than three times too large, writers woken unless closed |
| `SyncPipe.Monitor.Close` | src/sync_pipe.c:106-121 | Close wakes both sides the first time and stays closed |

## Left out

- Creation, destruction and memory: mutexes, conditions, thread attributes, stack sizes, thread cancellation and `free` do not appear; creation of jobs and workers may fail, other allocation failures are not modelled.
- The libraries: an array list is its elements and a capacity, where expanding may fail, shrinking keeps the elements, and which sleeper a signal wakes is arbitrary; a linked list is its elements; a byte pipe is its bytes and a capacity, where a resize below the bytes is refused. A timed wait returns with no more time than it was given, and a BLOCKING wait reports no timeout.
- Integer widths: `cy_uint` is taken to be 64 bits wide, and times, periods, resource counts and pipe capacities wrap as in C. The counts of waiting threads, of submitters and of workers are taken to stay below 2^64 when they grow, and three times the length of an array list does not overflow, as its elements are pointers in memory.
- Fairness and real time: what is proved is that everybody inside can always go on, and that submitters, workers and discarders need a bounded number of steps; that they are scheduled is not. The functions of the users return.
- `worker_startup` and `worker_finish`, and the completion callbacks of promises inside the executor: they are the users' code. Calls into the executor from inside a job are steps of another thread.
- Promises in the executor: from the submission on nobody but the job sets its promise, and two jobs do not share one; a promise that was fulfilled before is covered, and stays as it was. The shutdown flag, the close and the first look at the submitters are one step, as the lock is held throughout; so are the return of a job's function, its promise and its state, as only the worker can reach the job. `delete_executor` is called at most once.
- QueueRuns.NoPusherIsStranded: runs in which the limit is raised carelessly, or an expansion fails for a pusher whose wake-up cannot be spared, are excluded, because the code does lose wake-ups there, as the two runs beside it show; the conditions are exact for one step.
- PeriodicJob.Monitor.Run: the endless outer loops of both runners, around the calls of the user's functions, are only in the step systems. The condition on which a runner waits has one waiter, so it is a flag.
- `execute_job_async`, getters, `src/promise_completion_default_callback.c`, the tests and the makefile: they would add only easy members.
