# Verification of the concurrent core of concurrencpp

concurrencpp is a tasking runtime for C++20. This project models its concurrent protocols in Dafny and proves what they
keep in every run.

Each protocol is a *step system*: a state, events, and a function that applies an event. One event is one atomic operation,
one section under a mutex, one semaphore operation, one join, or a stretch of code that only its own thread can observe.
Events of any number of threads interleave freely and are sequentially consistent. `Runs` defines runs and the induction
over them; every theorem about a protocol is about all states of all its runs.

Where the source updates objects in place, classes with the same fields have one method per section or loop. A method's
contract says that it performs the event it stands for, or what its loop computes whatever other threads do in between.

| files | protocol |
|---|---|
| `ThreadPool`, `Pool*`, `WorkSplit`, `WorkHandOver`, `IdleWorkerSet` | `thread_pool_executor`: queues, donation, wake-up, ownership, joins, shutdown, idle set |
| `WhenAny*` | `when_any` over result states: registration, completion, rewind |
| `AsyncLock`, `AsyncLockObject`, `Slist`, `ConditionVariable` | `async_lock`, its waiter list, `async_condition_variable` |
| `TimerSet`, `TimerTurn`, `TimerPass`, `TimerTermination`, `TimerLifecycle`, `TimerRequests` | `timer_queue`: the ordered set and its index, the firing pass, the worker's lifecycle, making and cancelling timers |
| `WorkerThread`, `ThreadExecutor` | `worker_thread_executor` and `thread_executor` |
| `TaskOwnership`, `TaskStore` | `task`, `await_via_functor` |
| `Runs`, `Sequences` | shared |

Three properties that one might expect do not hold of the code, and the exact condition is proved instead:

- `when_any` reports the state it loaded before its swap (`source/results/impl/result_state.cpp:77`). A result that
  completes in between goes unnoticed. The coroutine stays suspended for ever exactly when this happens to every input.
- A pool worker that gives up waiting marks itself idle without another look at its queue
  (`source/executors/thread_pool_executor.cpp:302-310`). Exactly this step leaves tasks behind in an idle worker.
- The firing loop of the timer queue does not end for a periodic timer with frequency 0 while the clock stands still.

## Model

| member | source | states |
|---|---|---|
| `PoolTheorems.TasksAreConserved` | source/executors/thread_pool_executor.cpp:197-508 | in every state of every run, each accepted task is counted exactly once among executed, destroyed, private queues, public queues, held by a worker, and queues a shutdown has taken; so none runs twice and none vanishes, also when a donation throws |
| `PoolTheorems.ShutdownSettlesTasks` | source/executors/thread_pool_executor.cpp:633-642 | when the shutdown of the pool has returned, accepted = executed + destroyed as multisets |
| `PoolEffects.EveryTaskIsAccountedFor` | source/executors/thread_pool_executor.cpp:317-508 | at every moment of every run, the calls that were not refused have put in each task as often as it has been run to its end, was destroyed by a shutdown, or is still in a queue, running or taken out: counted over the events of the run, not over a record |
| `PoolEffects.RecordsAreTotals` | source/executors/thread_pool_executor.cpp:317-508 | the records of accepted, executed and destroyed tasks are the sums over the run of: all tasks of each enqueue that is not refused, each task when its worker is done running it, and what each shutdown took out of the queues |
| `PoolEffects.EnqueueDelivers` | source/executors/thread_pool_executor.cpp:382-462 | in every run, an enqueue on an aborted worker changes nothing; on any other, all tasks are appended to its public queue in order, an idle worker gets a thread, a waiting one is owed a permit, and no other worker or thread changes |
| `PoolEffects.TakesAllThatArrived` | source/executors/thread_pool_executor.cpp:265-364 | in every run, drain_queue exits exactly if aborted, waits exactly without tasks, and otherwise takes all tasks that have arrived, in order |
| `PoolEffects.DonatesWhenItCan` | source/executors/thread_pool_executor.cpp:197-217 | in every run, balance_work donates exactly if it has two tasks, the pool has another worker and somebody was claimed, and then to everybody claimed |
| `PoolEffects.DonationDelivers` | source/executors/thread_pool_executor.cpp:218-245 | in every run, the peer claimed for turn k receives the k-th piece of the fair split of the donor's queue, which keeps empty tasks in its place; a peer that was shut down ends the donation and nothing moves; no other worker changes |
| `PoolEffects.RunsTheNewest` | source/executors/thread_pool_executor.cpp:317-341 | in every run, the task that runs next is the newest of the private queue, and after an abort none is taken |
| `PoolTheorems.OneThreadPerBusyWorker` | source/executors/thread_pool_executor.cpp:366-410 | a worker is not idle if and only if some thread is inside its work loop; there is never a second one, and it is the thread the worker holds |
| `PoolTheorems.JoinsAreSafe` | source/executors/thread_pool_executor.cpp:382-410 | a thread is held by its worker, owed a join by exactly one other thread, or joined, and only one of these; the one waited for has left its work loop and waits for nobody |
| `PoolTheorems.JoinedOnce` | source/executors/thread_pool_executor.cpp:396-410 | every join is of a terminated thread that nobody has joined before |
| `PoolTheorems.ShutDownForEver` | source/executors/thread_pool_executor.cpp:480-508 | once shutdown has returned for a worker, it is idle and joined and both its queues are empty in every later state |
| `PoolTheorems.ParkedWorkersAreWoken` | source/executors/thread_pool_executor.cpp:265-315 | a parked worker with queued tasks has its found flag set and a permit available or owed by an enqueuer; under an abort, available or still owed by the shutdown |
| `PoolTheorems.OnlyTimeoutStrands` | source/executors/thread_pool_executor.cpp:302-310 | a step turns a worker into an idle one with queued tasks if and only if it is the exit at the idle timeout with tasks queued |
| `PoolTheorems.StrandingEnds` | source/executors/thread_pool_executor.cpp:382-423 | a worker left behind in this way ceases to be so exactly when tasks are handed to it again or the pool is shut down |
| `PoolTheorems.StrandingExists` | source/executors/thread_pool_executor.cpp:302-310 | such a step is reachable: a concrete run of one worker and two tasks leaves the second task in an idle worker |
| `PoolTheorems.WorkLoopNeverStuck` | source/executors/thread_pool_executor.cpp:317-364 | a thread in a work loop can always take its next step unless parked without a permit; the pop after the abort check finds a task, also after a donation |
| `PoolTheorems.QueueAssertionsHold` | source/executors/thread_pool_executor.cpp:247-260 | before a shutdown, with non-empty tasks only: the swap finds an empty private queue, during a donation exactly the tasks given away are empty, and exactly n / (peers + 1) >= 1 tasks stay |
| `PoolOwnership.StepOwned` | source/executors/thread_pool_executor.cpp:366-410 | each of the nine kinds of steps keeps the ownership of private queues by threads |
| `PoolJoins.StepJoins` | source/executors/thread_pool_executor.cpp:382-410 | each step keeps the account of who holds, owes or has made each join |
| `PoolShutdown.StepStages` | source/executors/thread_pool_executor.cpp:480-508 | each step keeps what the stages of a shutdown have established for the workers they passed |
| `PoolDonation.StepDonations` | source/executors/thread_pool_executor.cpp:197-263 | each step keeps a donation in progress consistent: distinct peers other than the donor, and a chunk left for the donor, unless it is going to throw |
| `PoolWakeUp.StepWakeUps` | source/executors/thread_pool_executor.cpp:382-423 | each step keeps the promise of a permit to a parked worker |
| `PoolConservation.StepConserved` | source/executors/thread_pool_executor.cpp:197-508 | each step keeps the balance of one task over all its places |
| `PoolConservation.DonorConserves` | source/executors/thread_pool_executor.cpp:218-245 | moving a chunk out of the private queue takes out of it exactly the tasks that are delivered |
| `PoolAsserts.StepQueues` | source/executors/thread_pool_executor.cpp:317-364 | each step keeps what the assertions on the private queue rely on |
| `PoolWorker.Pool.Advance` | source/executors/thread_pool_executor.cpp:197-508 | the record of the pool stays reachable by a run |
| `PoolWorker.ReachableInv` | source/executors/thread_pool_executor.cpp:197-508 | a reachable record satisfies everything that holds in every run |
| `PoolWorker.PoolWorker.BeginDrain` | source/executors/thread_pool_executor.cpp:343-364 | the first section of drain_queue, on the fields, is an event of the system from any reachable state: exits if aborted, waits without tasks, otherwise takes all of them; before a shutdown the swap finds the private queue empty |
| `PoolWorker.PoolWorker.TakePublic` | source/executors/thread_pool_executor.cpp:352-363 | with tasks or an abort to see: exits on abort or swaps its queues; before a shutdown the private queue is empty at the swap, so the public one is afterwards |
| `PoolWorker.PoolWorker.Acquire` | source/executors/thread_pool_executor.cpp:279-285 | a permit is taken and the worker goes on to look at its found flag |
| `PoolWorker.PoolWorker.LoadFound` | source/executors/thread_pool_executor.cpp:288-290 | without the found flag the worker waits again |
| `PoolWorker.PoolWorker.LookAgain` | source/executors/thread_pool_executor.cpp:290-315 | the section after a wake-up is an event of the system: waits again, exits, or takes a public queue that is not empty, before a shutdown with the private one empty |
| `PoolWorker.PoolWorker.GoIdle` | source/executors/thread_pool_executor.cpp:302-310 | the section that ends a work loop is an event of the system and marks the worker idle |
| `PoolWorker.PoolWorker.BeginBalance` | source/executors/thread_pool_executor.cpp:197-217 | the head of balance_work is an event of the system; it donates exactly if there are two tasks, another worker and somebody claimed, starts the cursors of the donation loop, and before a shutdown there are fewer peers than tasks |
| `PoolWorker.PoolWorker.MoveChunk` | source/executors/thread_pool_executor.cpp:223-245 | with begin, end and extra as they stand before turn k, exactly chunk k leaves the queue, in range, and the cursors stand as before turn k + 1 |
| `PoolWorker.PoolWorker.GiveChunk` | source/executors/thread_pool_executor.cpp:223-245 | a turn of the donation loop on both workers is an event of the system: the tasks between the cursors are appended to the queue of the peer they are meant for, a valid peer other than the donor, and before a shutdown begin is in range |
| `PoolWorker.PoolWorker.ChunkRefused` | source/executors/thread_pool_executor.cpp:438-442 | a turn whose peer was shut down is an event of the system that moves nothing, and happens only during a shutdown |
| `PoolWorker.PoolWorker.EraseDonated` | source/executors/thread_pool_executor.cpp:247-262 | before the erase exactly the tasks given away are empty, the rest non-empty before a shutdown if only such were enqueued; exactly n / (peers + 1) >= 1 tasks stay |
| `PoolWorker.PoolWorker.CheckAbortAndPop` | source/executors/thread_pool_executor.cpp:322-331 | the private queue is not empty when the abort check is reached, in every run; unless aborted, the newest task is taken |
| `PoolWorker.PoolWorker.EnqueueForeign` | source/executors/thread_pool_executor.cpp:382-462 | refuses exactly if aborted, and then changes nothing; otherwise it is an event of the system that appends all tasks in order, exactly these count as accepted, the worker is not idle, and what the caller then owes is the release or join that the system records |
| `PoolWorker.PoolWorker.EnqueueLocal` | source/executors/thread_pool_executor.cpp:464-478 | refuses exactly if aborted; otherwise exactly these tasks join the private queue and count as accepted, and all that holds in every run is kept |
| `PoolWorker.PoolWorker.ShutdownStage` | source/executors/thread_pool_executor.cpp:480-508 | each stage is an event of the system; the abort flag was not set before, the last stages find the worker idle and joined, and the queues taken are those destroyed |
| `WorkSplit.PiecesSplit` | source/executors/thread_pool_executor.cpp:592-622 | consecutive pieces of n / k tasks, one more for the first n % k, are a fair split: the input in order, sizes differing by at most one, none empty if k <= n, the last of size n / k |
| `WorkSplit.SplitIsUnique` | source/executors/thread_pool_executor.cpp:592-622 | there is only one fair split of a sequence among k receivers with larger parts first |
| `WorkHandOver.HandOut` | source/executors/thread_pool_executor.cpp:215-245 | the loop over begin, end and extra hands out exactly those pieces, in range, and leaves moved-from tasks behind |
| `WorkHandOver.MoveOut` | source/executors/thread_pool_executor.cpp:438-449 | a range of tasks is moved out in order and leaves empty tasks behind |
| `WorkHandOver.SplitAmongWorkers` | source/executors/thread_pool_executor.cpp:586-622 | bulk enqueue gives every task away, as the fair split among all workers |
| `WorkHandOver.Donate` | source/executors/thread_pool_executor.cpp:198-262 | donation gives away all but the last part of the fair split among the peers and the donor, and keeps exactly n / (peers + 1) >= 1 tasks |
| `IdleWorkerSet.CounterIsExact` | source/executors/thread_pool_executor.cpp:90-121 | in every interleaving the counter is the number of idle flags minus pending increments plus pending decrements |
| `IdleWorkerSet.EachTurnClaimedOnce` | source/executors/thread_pool_executor.cpp:90-121 | a worker that turned idle k times was claimed k times, or k - 1 times and is idle now |
| `IdleWorkerSet.FlagIsLastWritten` | source/executors/thread_pool_executor.cpp:90-121 | in every run a flag holds what the last operation on it wrote, idle after set_idle and active after set_active or try_acquire_flag; turns and claims are the operations that found it otherwise |
| `IdleWorkerSearch.TryIsTwoEvents` | source/executors/thread_pool_executor.cpp:108-121 | in every run, a load and an exchange by one thread claim the worker for it, once, exactly if both meet an idle flag, and otherwise change no claim |
| `IdleWorkerSearch.FindIdleWorker` | source/executors/thread_pool_executor.cpp:123-143 | whatever other threads do: the first flag acquired in the order of the search, never the caller, or -1 if the counter read no idle worker or none could be acquired |
| `IdleWorkerSearch.FindIdleWorkers` | source/executors/thread_pool_executor.cpp:145-170 | whatever other threads do: distinct peers, at most min(counter, limit), exactly the flags acquired, and the search stops early only when full |
| `WhenAnyTheorems.HandleCalledAtMostOnce` | source/results/impl/consumer_context.cpp:88-125 | a context's coroutine handle is called at most once, only after await_suspend returned true and while the coroutine is suspended |
| `WhenAnyTheorems.ContextsSettle` | source/results/impl/consumer_context.cpp:73-144 | in every run a status never leaves a result pointer, and what await_suspend returned stands |
| `WhenAnyTheorems.NotSuspendedNeverCalled` | include/concurrencpp/results/when_result.h:113-130 | if await_suspend returned false, no thread calls the handle at any later point |
| `WhenAnyTheorems.CoroutineLife` | include/concurrencpp/results/when_result.h:113-147 | in every run a round registers inputs while there is no winner, suspends or not, and rewinds its inputs in order before it returns; a suspended coroutine moves exactly when the winner's producer calls its handle; an await ends only when its result is done |
| `WhenAnyTheorems.AwaitIsResumed` | source/results/impl/result_state.cpp:38-57 | a coroutine suspended in an await has a producer that has not finished, or is just about to resume it |
| `WhenAnyTheorems.RoundKeepsInputs` | include/concurrencpp/results/when_result.h:107-130 | a round is over all inputs it was started with, at every later moment of the run |
| `WhenAnyTheorems.TryResumeTwoIterations` | source/results/impl/consumer_context.cpp:88-125 | no producer is ever in a third round of try_resume, nor swaps from k_processing in its second |
| `WhenAnyTheorems.WinnerAndRewind` | include/concurrencpp/results/when_result.h:132-147 | await_resume returns the index of exactly the completed input, which is done; every input is done, or idle with an empty consumer |
| `WhenAnyTheorems.AssertionsHold` | source/results/impl/result_state.cpp:38-78 | the assertions of registration, rewinding and completion hold in every state, and nobody else touches a consumer slot while it is written |
| `WhenAnyTheorems.ProducersInterfere` | source/results/impl/consumer_context.cpp:88-125 | a producer's step finishes results and moves statuses only towards a finished input, as the sequential loops assume |
| `WhenAnyTheorems.SuspensionExact` | source/results/impl/result_state.cpp:59-78 | while suspended without a winner, a done input has its producer inside try_resume, if and only if it did not complete between the load and the swap of its registration |
| `WhenAnyTheorems.StuckIffAllMissed` | source/results/impl/result_state.cpp:59-78 | once all producers of a round have returned, the coroutine is still suspended if and only if every completion fell into that window |
| `WhenAnyTheorems.StuckForever` | source/results/impl/result_state.cpp:59-78 | a coroutine suspended in that way is never resumed, however the run goes on |
| `WhenAnyTheorems.LostWakeUpExists` | source/results/impl/result_state.cpp:59-78 | a concrete run that ends in this way |
| `WhenAnyTheorems.ObservedVariantMissesNothing` | source/results/impl/result_state.cpp:66-77 | in the variant that returns the state its swap observed, a suspended coroutine with a finished producer is about to be called |
| `WhenAnyInvariant.StepInv` | source/results/impl/consumer_context.cpp:73-244 | every step of coroutine and producers keeps the invariant behind these results |
| `WhenAnyRound.Context.TryResume` | source/results/impl/consumer_context.cpp:88-125 | each load and swap of the loop is the event of this producer in the step system, whatever steps of others come in between: within two rounds some result has won, and it goes on to call the handle exactly if the step system has its producer call it |
| `WhenAnyRound.Context.Resume` | source/results/impl/consumer_context.cpp:88-125 | with the call: the producer returns, the calls made are those of the step system, and the system stays in a state that a run reaches |
| `WhenAnyRound.Round.AwaitSuspend` | include/concurrencpp/results/when_result.h:113-130 | returns false only with a finished input as the winner; suspends only with every input registered or done, and never if an input was done before the call |
| `WhenAnyRound.Round.Register` | source/results/impl/result_state.cpp:59-78 | leaves the input registered with the context or done; reports done only if it is, and always if it was before the call |
| `WhenAnyRound.Round.ResumeInline` | source/results/impl/consumer_context.cpp:127-140 | leaves a winner behind, this input or an earlier one |
| `WhenAnyRound.Round.AwaitResume` | include/concurrencpp/results/when_result.h:132-147 | returns the winner's index and restores for every input what AwaitSuspend requires |
| `WhenAnyRound.Round.TryRewind` | source/results/impl/result_state.cpp:102-120 | the input is done, or idle with its consumer cleared |
| `AsyncLock.MutualExclusion` | source/threads/async_lock.cpp:44-143 | m_locked holds if and only if a coroutine has acquired and not released, wherever it executes, and never two have |
| `AsyncLock.CounterAssertionsHold` | source/threads/async_lock.cpp:81-131 | the counter of the critical section reads 0 on every entry and 1 on every unlock; a failed resume_on finds the lock held |
| `AsyncLock.NoStranding` | source/threads/async_lock.cpp:17-143 | a non-empty waiter list implies that the lock is held or a popped waiter is about to retry; waiters leave in FIFO order, once per stay |
| `AsyncLock.LockEndsHolding` | source/threads/async_lock.cpp:29-89 | in every run a call of lock, wherever it has come to, ends only with the lock held, or after a failed resume_on with the lock given back; a popped waiter always tries again |
| `AsyncLock.TryLockEnds` | source/threads/async_lock.cpp:99-119 | in every run try_lock ends at its section, with the lock exactly if it was free, and never waits |
| `AsyncLock.Life` | source/threads/async_lock.cpp:17-143 | the whole life of a coroutine at the lock: from each place it moves only to the next one, by its own event or by the release that pops it, and its event always moves it |
| `AsyncLock.StepInv` | source/threads/async_lock.cpp:44-143 | every step keeps exclusion, the counter, the list and the absence of stranded waiters |
| `AsyncLockObject.AsyncLock.LockSection` | source/threads/async_lock.cpp:44-60 | the section on the real flag and linked list is the step of the system: acquire, or queue the awaiter at the back |
| `AsyncLockObject.AsyncLock.TrySection` | source/threads/async_lock.cpp:99-120 | acquires exactly if the lock is free, and never queues |
| `AsyncLockObject.AsyncLock.Enter` | source/threads/async_lock.cpp:81-84 | the counter is 0 on entry |
| `AsyncLockObject.AsyncLock.Unlock` | source/threads/async_lock.cpp:122-143 | refused exactly if the lock is free; otherwise it releases, finds the counter at 1 and returns the first waiter, or none if there is none |
| `AsyncLockObject.AsyncLock.FailSection` | source/threads/async_lock.cpp:63-77 | after a failed resume_on the lock is released and the first waiter returned |
| `Slist.Slist.PushBack` | include/concurrencpp/utils/slist.h:36-46 | appends the node; the list stays well-formed if and only if the node came without a link |
| `Slist.Slist.PopFront` | include/concurrencpp/utils/slist.h:48-60 | removes the first node, if there is one, and keeps the rest in order |
| `Slist.Slist.Move` | include/concurrencpp/utils/slist.h:26-29 | the new list takes all nodes and leaves the other one empty and valid |
| `Slist.Slist.IsEmpty` | include/concurrencpp/utils/slist.h:31-34 | true exactly for the empty list |
| `Slist.Drain` | source/threads/async_condition_variable.cpp:81-88 | pops until nothing is left, in order |
| `Slist.Requeue` | include/concurrencpp/utils/slist.h:36-60 | a popped node pushed again as it is ruins the list unless it was the only one |
| `Slist.NotifyAll` | source/threads/async_condition_variable.cpp:76-89 | the waiters are taken out at once and resumed in order, each exactly once |
| `ConditionVariable.RefinesLock` | source/threads/async_condition_variable.cpp:18-61 | every step of the condition variable is a step of the lock or leaves it alone |
| `ConditionVariable.LockStaysSafe` | source/threads/async_condition_variable.cpp:18-61 | with a condition variable in use the lock still excludes and strands nobody |
| `ConditionVariable.NoLostNotification` | source/threads/async_condition_variable.cpp:18-89 | whenever a notifier can pop, every coroutine that released its lock to wait and was not dequeued is in the queue; notify_all leaves none behind and notify_one takes the first |
| `ConditionVariable.FifoAndOncePerWait` | source/threads/async_condition_variable.cpp:66-89 | waiters leave in the order they joined, and each is dequeued and resumed once per wait |
| `ConditionVariable.AwaitReturnsWithLock` | include/concurrencpp/threads/async_condition_variable.h:39-48 | the predicate form returns only with the lock held and the predicate true, and nobody else holds the lock then |
| `ConditionVariable.AwaitEndsWithLock` | source/threads/async_condition_variable.cpp:54-59 | in every run, wherever an await has come to, it ends only with the lock held and nobody else holding it, unless resume_on or the relocking failed; the predicate form then checks again |
| `ConditionVariable.Life` | source/threads/async_condition_variable.cpp:18-89 | the whole life of a wait: release, queue, notification, resumption, relocking, in this order and by these events only |
| `ConditionVariable.EventsMove` | include/concurrencpp/threads/async_condition_variable.h:39-48 | a true predicate ends the wait and a false one goes on to release the lock; a notification takes exactly those it is for |
| `ConditionVariable.StepInv` | source/threads/async_condition_variable.cpp:18-89 | every step keeps the invariant behind these results |
| `TimerSet.InsertKeeps` | source/timers/timer_queue.cpp:41-45 | inserting a timer with a fresh node keeps set and map in agreement and the set ordered by deadline |
| `TimerSet.EraseKeeps` | source/timers/timer_queue.cpp:55-57 | erasing a node keeps both, and removes exactly its timer |
| `TimerSet.EntryPoints` | source/timers/timer_queue.cpp:47-57 | the map's entry of a timer is the node that holds it |
| `TimerSet.SortedElsewhere` | source/timers/timer.cpp:24-26 | a deadline may change while its timer is out of the set |
| `TimerPass.TimerQueueInternal.AddTimerInternal` | source/timers/timer_queue.cpp:41-45 | adds exactly this timer and keeps the agreement |
| `TimerPass.TimerQueueInternal.RemoveTimerInternal` | source/timers/timer_queue.cpp:47-58 | removes exactly this timer; one that is absent was cancelled |
| `TimerPass.TimerQueueInternal.ProcessRequestQueue` | source/timers/timer_queue.cpp:60-71 | applies the requests in order |
| `TimerPass.TimerQueueInternal.Fire` | source/timers/timer.cpp:24-33 | posts the timer, and sets its deadline to the clock reading plus its frequency in milliseconds, that is times 1,000,000 ns; the reading lies between the times before and after, and the set stays ordered |
| `TimerPass.TimerQueueInternal.ExtractFirst` | source/timers/timer_queue.cpp:96-113 | the earliest timer leaves the set while the map still has its entry |
| `TimerPass.TimerQueueInternal.Reinsert` | source/timers/timer_queue.cpp:123-129 | the timer is back in its place and the map points at its new node |
| `TimerPass.TimerQueueInternal.FireExpired` | source/timers/timer_queue.cpp:92-131 | the loop is the iteration of the turns of TimerTurn with what it found and read; it ends with nothing expired left first in the set, every timer it examined fired or skipped once, and every fired one due its frequency after its reading |
| `TimerPass.TimerQueueInternal.ProcessFirst` | source/timers/timer_queue.cpp:93-131 | one turn, equal to the turn of TimerTurn on set and deadlines: a cancelled timer is dropped, another is fired once, and stays in the set exactly if it is periodic, at its new deadline |
| `TimerPass.TimerQueueInternal.ProcessTimers` | source/timers/timer_queue.cpp:87-143 | terminates; each expired timer is either fired once or skipped as cancelled, in deadline order; dropped are fired one-shots and cancelled ones; others keep their place and deadline; each fired timer is due its own frequency, in ms, after a clock reading of this pass; the result is the least remaining deadline, past now, or now plus 24 hours |
| `TimerTermination.EndsUnlessRepeating` | source/timers/timer_queue.cpp:92-131 | whatever other threads do to frequencies and cancellations, the loop ends if and only if it is not so that from some turn on each turn fires a periodic timer with frequency 0 while the clock still reads now |
| `TimerTermination.EndsExactlyWhen` | source/timers/timer_queue.cpp:92-131 | with settings that stay as they are, the loop ends if and only if no expired, uncancelled, periodic timer has frequency 0, or the clock moves past the reading the pass goes by |
| `TimerTermination.Stuck` | source/timers/timer_queue.cpp:92-131 | while the clock stands still, such a timer is expired again after any number of turns |
| `TimerTermination.EndlessPassExists` | source/timers/timer_queue.cpp:92-131 | a concrete set of one timer for which the loop does not end |
| `TimerTermination.AfterIsTurns` | source/timers/timer_queue.cpp:92-131 | the turns of the real loop are those that the termination results are about |
| `TimerLifecycle.OneWorker` | source/timers/timer_queue.cpp:192-272 | at most one work loop is live; before the abort one is, exactly when the queue is not idle |
| `TimerLifecycle.IdleMeansEmpty` | source/timers/timer_queue.cpp:192-206 | before the abort, an idle queue has no pending add and no work loop owns a timer |
| `TimerLifecycle.EveryTimerIsOwned` | source/timers/timer_queue.cpp:160-228 | before the abort, a timer that is not finished is in exactly one of requests, batch and set, and a work loop is live; finished ones are one-shot or cancelled |
| `TimerLifecycle.FinishedForEver` | source/timers/timer_queue.cpp:47-143 | a removed or dropped timer never reappears in a request, a batch or a set |
| `TimerLifecycle.BatchIsAcceptable` | source/timers/timer_queue.cpp:41-58 | in every run the assertions of adding and removing hold: no add is for a timer in the set, and every remove is for a cancelled timer |
| `TimerRequests.CallsAreRecorded` | source/timers/timer_queue.cpp:160-190 | in every run a timer is accepted if and only if a call made it before the abort, and cancelled if and only if cancel was called for it |
| `TimerRequests.MakingQueuesTheRequest` | source/timers/timer_queue.cpp:177-190 | in every run making a timer queues its add request and leaves a worker running that the queue holds; after the abort it changes nothing |
| `TimerRequests.CancelTakesEffect` | source/timers/timer.cpp:69-77 | no cancellation is lost before the abort: a cancelled timer is finished, or its cancel is still under way, or its remove request is queued or being applied; a worker that has applied all requests holds no timer whose cancel has returned |
| `TimerRequests.RunCancels` | source/timers/timer_queue.cpp:41-71 | in every run no add of a timer is queued behind a remove of it, and all remove requests are for cancelled timers |
| `TimerLifecycle.OutcomeIsPass` | source/timers/timer_queue.cpp:87-143 | what ProcessTimers does to a set of timers is the firing pass of this system |
| `TimerLifecycle.NothingDestroyed` | source/timers/timer_queue.cpp:234-252 | before the abort no timer is lost |
| `TimerLifecycle.ShutdownSettles` | source/timers/timer_queue.cpp:234-252 | when shutdown has returned, every worker has returned and is joined or about to be, no worker was joined twice, and accepted = finished + destroyed |
| `TimerLifecycle.StepInv` | source/timers/timer_queue.cpp:160-272 | every step keeps the invariant behind these results |
| `TimerLifecycle.TimerQueue.AddTimer` | source/timers/timer_queue.cpp:177-190 | the section of add_timer is the step of the system: refused exactly after the abort, otherwise the request is queued and the queue is not idle; an old worker it replaces is owed a join |
| `TimerLifecycle.TimerQueue.RemoveInternalTimer` | source/timers/timer_queue.cpp:168-175 | queues the request, whether or not a worker runs |
| `TimerLifecycle.TimerQueue.WorkSection` | source/timers/timer_queue.cpp:196-221 | goes idle exactly with no timers, no requests and no abort; otherwise exits on abort or takes the whole batch |
| `TimerLifecycle.TimerQueue.ShutDown` | source/timers/timer_queue.cpp:234-252 | the section of shutdown is the step of the system; requests are dropped exactly if there is a worker to join |
| `WorkerThread.RunsInOrder` | source/executors/worker_thread_executor.cpp:27-40 | foreign tasks run in the order in which the lock accepted them, local tasks in the order of their enqueues |
| `WorkerThread.RunsWhatWasEnqueued` | source/executors/worker_thread_executor.cpp:27-40 | of the tasks of all calls that were not refused, in order and of each kind, those the worker has run are the first; once shutdown has returned, the rest are destroyed: counted over the events of the run |
| `WorkerThread.NothingStartsAfterAbort` | source/executors/worker_thread_executor.cpp:27-40 | once shutdown has stored the abort flag, no task starts and none is accepted at any later moment |
| `WorkerThread.WorkerLife` | source/executors/worker_thread_executor.cpp:27-86 | the worker starts with the first enqueue, moves by its own steps only, and each leads on: it takes all that has arrived, pops the oldest task, and runs it unless aborted |
| `WorkerThread.NoLostWakeUp` | source/executors/worker_thread_executor.cpp:42-58 | a parked worker with queued tasks has a permit available or owed; one that should exit has one available or the release of the shutdown still to come |
| `WorkerThread.SwapsWithEmptyQueue` | source/executors/worker_thread_executor.cpp:60-76 | the swap of the queues finds the private one empty |
| `WorkerThread.ShutdownSettles` | source/executors/worker_thread_executor.cpp:168-197 | when shutdown has returned, both queues are empty and the accepted tasks of each kind are, in order, those that ran followed by those destroyed |
| `WorkerThread.ShutDownForEver` | source/executors/worker_thread_executor.cpp:168-197 | from then on nothing is accepted, run or destroyed |
| `WorkerThread.StepInv` | source/executors/worker_thread_executor.cpp:27-197 | every step keeps the invariant behind these results |
| `WorkerThread.WorkerThreadExecutor.EnqueueForeign` | source/executors/worker_thread_executor.cpp:104-142 | the section is the step of the system; a permit is owed exactly if a started worker had an empty queue |
| `WorkerThread.WorkerThreadExecutor.EnqueueLocal` | source/executors/worker_thread_executor.cpp:88-102 | appends to the private queue unless aborted |
| `WorkerThread.WorkerThreadExecutor.LookForTask` | source/executors/worker_thread_executor.cpp:42-74 | wait, exit, or swap with an empty private queue |
| `WorkerThread.WorkerThreadExecutor.PopTask` | source/executors/worker_thread_executor.cpp:27-32 | takes the oldest task of the private queue |
| `WorkerThread.WorkerThreadExecutor.CheckAbort` | source/executors/worker_thread_executor.cpp:32-38 | the popped task is run exactly if no abort is stored |
| `WorkerThread.WorkerThreadExecutor.TakeAllQueues` | source/executors/worker_thread_executor.cpp:184-193 | takes away both queues |
| `ThreadExecutor.JoinsPredecessor` | source/executors/thread_executor.cpp:79-94 | m_last_retired holds at most one thread, and a retiring thread joins exactly the one that retired before it, so never itself and never in a cycle |
| `ThreadExecutor.JoinedOnce` | source/executors/thread_executor.cpp:79-94 | no thread is joined twice |
| `ThreadExecutor.ChainMoves` | source/executors/thread_executor.cpp:79-94 | the first retired thread that has not terminated can always finish its join, so the chain never locks up |
| `ThreadExecutor.ShutdownJoinsAll` | source/executors/thread_executor.cpp:59-77 | when shutdown has returned, every thread ever launched has terminated and was joined exactly once |
| `ThreadExecutor.ShutdownFindsOne` | source/executors/thread_executor.cpp:70-76 | shutdown finds at most one retired thread, which nobody has joined |
| `ThreadExecutor.ThreadPerTask` | source/executors/thread_executor.cpp:17-48 | in every run there are exactly as many threads as tasks in the enqueue calls that were not refused |
| `ThreadExecutor.ThreadLife` | source/executors/thread_executor.cpp:17-94 | a thread works until it retires and is retiring until it has joined whom it found retired before it, in its own steps only; an enqueue launches as many as it was given, or none if refused |
| `ThreadExecutor.StepInv` | source/executors/thread_executor.cpp:17-94 | every step keeps the chain of joins and the list of workers |
| `ThreadExecutor.ThreadExecutor.Enqueue` | source/executors/thread_executor.cpp:17-48 | refused exactly after the abort; otherwise as many new working threads as tasks, in front of the list, newest first |
| `ThreadExecutor.ThreadExecutor.RetireWorker` | source/executors/thread_executor.cpp:79-94 | takes over the handle of the previous retired thread, one at most, and leaves its own |
| `ThreadExecutor.ThreadExecutor.EndShutdown` | source/executors/thread_executor.cpp:66-76 | after the wait there is one thread to join, or none and shutdown returns |
| `TaskOwnership.InvokedAtMostOnce` | source/task.cpp:53-146 | after any sequence of operations on any number of tasks, each callable was invoked at most once and is held by exactly one task until it is released, once |
| `TaskOwnership.ReleasedExactlyOnce` | source/task.cpp:94-146 | when all tasks are empty every callable was released exactly once |
| `TaskOwnership.ResumedExactlyOnce` | source/results/impl/consumer_context.cpp:29-52 | a coroutine held by await_via_functor is resumed exactly once when its task lets go of it, with interrupted set if and only if it was not invoked |
| `TaskOwnership.ContentsAreTraced` | source/task.cpp:53-146 | after any sequence of operations each task holds the callable that a trace back through the moves and assignments ends at, or none |
| `TaskOwnership.InvokedWhenCalled` | source/task.cpp:98-113 | a callable is invoked each time a task that holds it is called, and at no other time |
| `TaskOwnership.StepInv` | source/task.cpp:53-146 | every operation keeps the account of each callable |
| `TaskStore.Store.Build` | include/concurrencpp/task.h:112-134 | a callable is stored inline or on the heap; the task then holds it |
| `TaskStore.Store.Default` | source/task.cpp:84 | a new task is empty |
| `TaskStore.Store.CallAndDestruct` | include/concurrencpp/task.h:69-73 | calling and then destroying a callable of any kind invokes it once and releases it once |
| `TaskStore.Store.MoveDestroy` | include/concurrencpp/task.h:58-67 | the generic move: the callable is in the destination and nothing is released |
| `TaskStore.Store.MoveBuffer` | source/task.cpp:59-73 | the special-cased paths, and the bytewise copy of trivial callables, do what the generic move does |
| `TaskStore.Store.BuildFrom` | source/task.cpp:53-74 | the destination holds what the source held, the source is empty, and nothing is invoked or released |
| `TaskStore.Store.ExecuteDestroy` | include/concurrencpp/task.h:69-79 | invokes once, releases once and frees the heap object, if there is one |
| `TaskStore.Store.DestroyCallable` | include/concurrencpp/task.h:81-89 | releases once without invoking and frees the heap object, if there is one |
| `TaskStore.Store.Invoke` | source/task.cpp:98-113 | an empty task does nothing; otherwise the callable is invoked and released once, and the task is empty |
| `TaskStore.Store.Clear` | source/task.cpp:125-146 | an empty task does nothing; otherwise the callable is released once without being invoked, on every path |
| `TaskStore.Store.Assign` | source/task.cpp:115-123 | drops what the target held and moves; assignment to itself does nothing |
| `TaskStore.Store.Call` | source/results/impl/consumer_context.cpp:48-52 | the call invokes, and with what the object's destructor still does afterwards it is exactly one invocation and one release; an await_via_functor resumes uninterrupted |
| `TaskStore.Store.Destruct` | source/results/impl/consumer_context.cpp:39-46 | destroying a functor: an armed await_via_functor resumes as interrupted, a moved-from object does nothing |

## Left out

- C++ memory orders, padding and allocation failure: every atomic operation is one sequentially consistent step.
- Sockets, asio and everything under include/concurrencpp/net: I/O, not part of this model.
- shared_result_state and result_state's wait and wait_for: resumption of many consumers of one result, and blocking waits on it, are not modelled.
- lazy_result, generator, result and result_promise: how results are made, handed over and destroyed, and deletion of a result state by the last of consumer and producer.
- manual_executor, inline_executor and runtime.cpp: loops that the user drives with counts and time limits, immediate execution, and the order in which a runtime shuts down its executors.
- Semaphores are unbounded naturals: the bound of binary_semaphore in section [thread.sema.cnt] of ISO C++20 is not claimed, as releases can accumulate.
- Tasks and predicates do not throw, an executor is not shut down from its own worker, resuming executors are queued, and only the holder unlocks an async_lock.
- Callers of a pool are not workers of another pool: the thread-local at source/executors/thread_pool_executor.cpp:561-566 does not tell pools apart.
- Choice of a worker by thread_pool_executor::enqueue: an enqueue may go to any worker, and a donation may claim any peers that find_idle_workers may return; the idle set is a system of its own.
- Fairness of async_lock and a global order of the tasks of a pool: the code does not provide them.
- scoped_async_lock::m_owns: exclusion is stated for the holder of the lock.
- ConditionVariable.RefinesLock: the condition variable itself is modelled on values, so updates in place are not captured, except for its list in Slist.
- TimerPass.TimerQueueInternal.ProcessTimers: periodic timers are read with frequencies of at least 1 ms, as a pass over one with frequency 0 may not end; TimerTermination.EndsUnlessRepeating and EndsExactlyWhen say when. One-shot timers have frequency 0, as in the source.
- The first deadline of a timer, its due time after its construction: a timer comes with some deadline.
- TaskStore.Store.Clear: what a destructor or a resumed coroutine does to other tasks during the call is not modelled.
- PoolTheorems.QueueAssertionsHold: stated before a shutdown is requested and for non-empty tasks only; moved-from tasks and a throwing donation break the assertions otherwise.
- Clocks, cancellation and changes of frequency by other threads are arbitrary values, within what their types promise: a clock never goes back and a cancelled timer stays cancelled.
