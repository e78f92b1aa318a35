# libpwq in Dafny

libpwq runs work items on pools of threads.  This project models its concurrent core and proves what
the pools promise for every number of threads and items and every interleaving.

| file | what it models |
|---|---|
| `PoolModel.dfy` | the non-overcommit pool of `src/posix/manager.c` as a concurrent program: one step is one atomic operation of one thread |
| `PoolLocks.dfy`, `PoolMask.dfy`, `PoolCounters.dfy`, `PoolItems.dfy`, `PoolWakeup.dfy`, `PoolManager.dfy` | one invariant of that pool each, and why every step keeps it |
| `PoolRuns.dfy` | the theorems about whole runs of that pool |
| `PoolCallbacks.dfy`, `PoolRouting.dfy`, `PoolSlowPath.dfy`, `PoolAlone.dfy` | that the work is done: items run once, entered into the queue asked for, workers that wait for a cause, and what a thread does that nobody disturbs |
| `PoolDecisions.dfy`, `PoolGrowth.dfy`, `PoolTick.dfy`, `PoolFloor.dfy`, `PoolStall.dfy` | why and exactly when the manager starts and stops workers, the floor it keeps, and runs in which the pool stalls |
| `RampDown.dfy` | the timer tick of `manager_main` with its loop, and its convergence |
| `Overcommit.dfy`, `OvercommitItems.dfy` | the overcommit pool of `src/posix/manager.c`, one step per critical section, and what becomes of its items |
| `WindowsMemory.dfy` | the legacy pool of `src/windows/manager.c`, one step per access to shared memory: lock words, list pointers, and the second initialisation of each spin lock |
| `WindowsPool.dfy` | the same pool with one step per queue visited by a scan and per section of the reader/writer lock |
| `WindowsRefinement.dfy` | when the first of these is the second, and what it then promises |
| `WindowsItems.dfy` | what becomes of its items |
| `WindowsRace.dfy` | what the first does otherwise |
| `RwLock.dfy` | the Windows XP reader/writer lock, as a class and as a protocol between threads |
| `Once.dfy` | `pthread_once` and `_pthread_once_raw` |
| `StailQueue.dfy` | the STAILQ macros on pointers, against sequences |
| `WitemCache.dfy` | the thread-specific work item cache, against plain allocation |
| `Sums.dfy` | sums of weights over threads; every "number of threads such that ..." is one |

## How to read the pool

`Plan` in `PoolModel.dfy` is the program text.  For a thread at a program counter it gives the next
counter and one `Effect` on shared memory; `Apply` is the meaning of the effect.  `PlanWorker` is
`worker_main` with `wqlist_scan`, `wqlist_scan_spin` and `wqlist_scan_wait` (src/posix/manager.c:388-526),
`PlanPost` is `manager_workqueue_additem` (829-862), `PlanManager` is `manager_main` (611-748) with
`worker_start` (528-547) as `PlanStart` and `worker_stop` (549-592) as `PlanStop`.  A worker inside a
callback may post items and ask the manager for threads, as any client may.

Assumptions: memory is sequentially consistent; `pthread_cond_signal` wakes a blocked waiter when there is
one, and waits may end spuriously (`pthread_cond_signal()` and `pthread_cond_timedwait()`, chapter 3 of the
System Interfaces volume of POSIX.1-2008); the set of queues is fixed before work is posted; user items have a function
(src/api.c:124).  What threads observe from outside (the load probe, the timer, whether a thread can be
created, which waiter a signal wakes) is an arbitrary choice at each step.

The argument for the absence of lost wakeups: a scan under the mutex that finds nothing saw no bit, or saw
a bit whose queue another worker emptied since.  That other worker took a regular item, because exit items
are taken only under the mutex, and it cannot go to sleep before the scanning worker does.  Exit items are
only in the first queue, so a scan under the mutex never overlooks one.  Hence, while some worker sleeps,
awake workers cover the queued exit items, and strictly outnumber them while signalled regular work waits.

In `WindowsMemory.dfy` calls into the library are numbered; call `t` runs as thread `t`, a queue or item
carries the number of the call that made it, and the thread of a call that added an item then stands for the
callback it submitted.  `AbsThread` and `Abs` in `WindowsRefinement.dfy` map each state to one of
`WindowsPool.dfy`: an insertion takes effect with the store through `stqh_last`, a visit with the test that
finds nothing or with the store of the removal.

## What the code does against expectation

- A failed `pthread_create` takes back `idle` and `count` but not `pending_thread_create`
  (src/posix/manager.c:539-543).  The growth test at line 650 then never passes again: `GrowthTest` says
  exactly when it passes, `RefusedForever` that the pool gets no further worker, and `StallIsReachable`
  exhibits a run that ends so although a worker is there.
- The same test asks for `scoreboard.count > 0`, so a pool that has lost all its workers, or never had one
  (PWQ_WMIN), gets none: `EmptyForever`, `EmptyIsReachable`.
- `idle - worker_idle_threshold` (src/posix/manager.c:731) wraps when workers became busy since the test at
  line 711; the limit of the loop is then no bound.  `SurplusWraps` says exactly when, and `FloorHolds` what
  holds in every run otherwise.
- `manager_workqueue_create` initialises the spin lock of the queue a second time after the queue is linked
  and the write lock released (src/windows/manager.c:51, first at src/api.c:99).  A callback that scans at
  that moment may hold the lock.  `GuardedExactly` says that the exclusion of the queue's sections lasts if
  and only if each of these initialisations finds its lock free, `TramplingLetsTwoIn` that otherwise the next
  client joins the callback inside the section, and `ItemIsLost` exhibits a run in which a callback returns
  without an item and another item is left without a callback.  When no callback is outstanding while queues are created, as
  src/windows/pthread_rw_lock.h:31-36 assumes, `QuietCreationIsClean` shows that all promises hold.
- The result of `pthread_create` for an overcommit worker is ignored (src/posix/manager.c:826):
  `RefusedItemIsStranded` exhibits an item left without a thread, and `CoveredExactly` says when this
  happens: the guarantee holds up to a moment if and only if no insertion before it met a refused creation
  with no idle thread and no thread about to scan to spare.
- The comment at src/windows/manager.c:54 says that the caller holds `wqlist_mtx`; the function takes it
  itself.  The model follows the code.

## Model

| member | source | states |
|---|---|---|
| PoolRuns.NeverAllAsleep | src/posix/manager.c:388-481 | in every run, when regular work is queued, no producer is between insertion and signal, and a worker is blocked, then the awake workers that will scan again, with the one that `worker_stop` is about to signal, strictly outnumber the queued exit items; when `worker_stop` is not about to signal, an awake worker is exhibited |
| PoolRuns.MaskAlwaysCoherent | src/posix/manager.c:367-424 | in every run set bits name queues, a non-empty queue has its bit set at every atomic step, and with its spin lock free the bit is set exactly when the list is not empty |
| PoolRuns.ScoreboardAlwaysExact | src/posix/manager.c:474-543 | in every run `idle`, `count`, `pending_thread_create` and the spinning count equal the numbers read off the program counters, none is negative, no more workers spin than PWQ_SPIN_THREADS, and every blocked worker is counted idle |
| PoolRuns.OwnedExactlyOnce | src/posix/manager.c:404-521 | in every run each allocated item is with one thread, queued once, or freed once, and no other item is anywhere |
| PoolRuns.FreedIsGone | src/posix/manager.c:471-521 | a freed item was freed exactly once, is in the hands of no thread, and is at no position of any queue |
| PoolCallbacks.CalledOnce | src/posix/manager.c:513-521 | in every run the function of an item is called at most once, never for an exit item or while the item is queued, and exactly once by the time the item is freed as work; a call is counted where a thread comes to be inside the callback, whatever brought it there |
| PoolCallbacks.RunBeforeFreed | src/posix/manager.c:515-521 | in every run, when a regular item has been freed, some worker was at its callback at an earlier state, which is exhibited |
| PoolCallbacks.BegunStep | src/posix/manager.c:513-521 | every step keeps that callbacks begun are under way or over with their item freed |
| PoolRouting.PostReachesItsQueue | src/posix/manager.c:829-852 | in every run, from a post to queue q on, the new item is on its way into q or has entered it, once in all, and is neither for any other queue |
| PoolRouting.PostedIsEntered | src/posix/manager.c:829-852 | once the poster has put its item down, the history of q has the item exactly once and that of every other queue does not have it |
| PoolRouting.EntersAtEnd | src/posix/manager.c:850 | the step by which an item enters appends it to one queue and changes no other |
| PoolRouting.RouteStep | src/posix/manager.c:404-421 | every step conserves, for each item and queue, the carriers and the entries, except that an allocation sends its new item to the queue asked for |
| PoolRuns.QueuesAreFifo | src/posix/manager.c:404-421 | for each queue, what left it followed by what is in it is what entered it, and these histories only grow along a run |
| PoolRuns.ExitsOnlyRetire | src/posix/manager.c:461-478 | a worker at its callback holds an item with a function, and the exit items made are on their way, queued, or have each retired one worker |
| PoolRuns.PoolCeiling | src/posix/manager.c:611-706 | in every run `count` is at most the largest of the three settings plus the requests granted, every request made is outstanding or granted, and once a growth test has passed, refused creations and created workers that have not begun are together at most one |
| PoolRuns.RefusedForever | src/posix/manager.c:528-547 | after a refused creation, once the manager is back in its loop, no run ever adds a worker |
| PoolRuns.EmptyForever | src/posix/manager.c:650 | in every run a pool without workers whose manager is past startup and past the test of `count` never gets one |
| PoolStall.StallIsReachable | src/posix/manager.c:528-547 | for every setting with two startup workers there is a run in which the first begins and the second is refused: the manager is back in its loop with `count` and `pending_thread_create` at 1 |
| PoolStall.EmptyIsReachable | src/posix/manager.c:611-650 | for every setting with one startup worker there is a run in which that creation is refused and the pool stays without any worker |
| PoolRuns.RacyScanPriority | src/posix/manager.c:388-424 | any item taken was the head of its queue, and at the earlier state where this worker read the mask every queue of higher priority was empty |
| PoolRuns.ScanOrigin | src/posix/manager.c:395-402 | a worker at the spin lock of a queue got there from a read of the mask that found this queue first, and did nothing else since |
| PoolRuns.UndisturbedScan | src/posix/manager.c:388-424 | without interference a scan takes the head of the least-index non-empty queue, unless it skips exit items and one is at that head |
| PoolSlowPath.WaitsForCause | src/posix/manager.c:430-463 | in every run a worker about to lock the mutex of the slow path was blocked before, or had found as many spinning workers as PWQ_SPIN_THREADS allows |
| PoolSlowPath.SpinsForCause | src/posix/manager.c:498-507 | in every run a worker turns to spinning only from a fast scan that found nothing |
| PoolAlone.UndisturbedCallback | src/posix/manager.c:513-521 | an undisturbed worker with an item calls its function and, when that returns, frees the item and scans again, and nothing else has changed |
| PoolAlone.UndisturbedRetirement | src/posix/manager.c:471-478 | an undisturbed worker with an exit item leaves `idle` and `count`, frees the item and ends |
| PoolAlone.PostLocks | src/posix/manager.c:830-848 | an undisturbed poster locks the queue and sets its bit if and only if the queue is empty |
| PoolAlone.PostInserts | src/posix/manager.c:850-852 | it then appends its item, unlocks the queue and changes no other |
| PoolAlone.UndisturbedSignal | src/posix/manager.c:854-862 | it then, with a worker counted idle and one asleep, wakes a sleeper and returns to its caller |
| PoolRuns.NoDeadlock | src/posix/manager.c:402-464 | in every run a thread that cannot move waits for a lock, and a thread is exhibited that can move on and owns that lock, or owns the spin lock that the owner of the awaited mutex waits for |
| PoolDecisions.GrowthIsJustified | src/posix/manager.c:649-706 | each worker started in the loop, in every run: at earlier instants of the same pass the manager executed its three tests and found no worker idle, the pool not empty and no creation pending, in this order, and then found a request and took it, or found none and the pool below the threshold, or found the pool below the maximum and again no worker idle |
| PoolGrowth.GrowthExactly | src/posix/manager.c:649-706 | each pass of the manager, in every run, on the values read by the steps that execute its tests: it starts a worker if and only if no worker was idle, the pool was not empty and no creation was pending, and a request waited, or the pool was below the threshold, or it was below the maximum, the load probe allowed it and again no worker was idle |
| PoolGrowth.StartAttemptsOne | src/posix/manager.c:528-547 | each call of `worker_start`, in every run, attempts exactly one creation, whoever else moves, and returns to where it was called |
| PoolGrowth.TakenIsStarted | src/posix/manager.c:652-658 | each request taken, in every run, is followed at once by a call of `worker_start` |
| PoolGrowth.AskIsRecorded | src/posix/manager.c:798-804 | each request made by a client or a callback adds one to the requests outstanding |
| PoolDecisions.StopIsJustified | src/posix/manager.c:709-746 | each exit item, in every run: in one pass that carries the timer tick the manager executed the test that found a surplus, had at least 15 idle thread-seconds, set its limit from those seconds and the surplus it then read, wrap-around included, and in this round, within the limit, executed the test that again found more idle workers than the threshold |
| PoolDecisions.RoundOrigin | src/posix/manager.c:737-744 | an exit item traces back to the step that executed the test of its own round of the loop, in the same pass, and found more idle workers than the threshold |
| PoolDecisions.LimitOrigin | src/posix/manager.c:731-735 | the limit of the stopping loop is the smaller of the multiples of 15 and the surplus read when it was set, in the same pass |
| PoolDecisions.StopsPerTick | src/posix/manager.c:737-744 | in every run the stopping loop of one tick makes at most as many exit items as its limit, one a round |
| PoolDecisions.CameFrom | src/posix/manager.c:615-748 | the manager's statement at any instant was reached by a step of the manager itself, and nothing moved it since |
| PoolRuns.InvStep | src/posix/manager.c:367-592 | every step of every thread keeps the whole invariant |
| PoolRuns.Reachable | src/posix/manager.c:367-748 | every state of every run satisfies the invariant |
| PoolModel.FirstFrom | src/posix/manager.c:395-400 | the search of `ffs` and of `worker_stop`: the result is the least set index, and no index before it is set |
| PoolLocks.LocksStep | src/posix/manager.c:402-464 | each spin lock and the mutex is held by exactly the thread whose program counter is in its section |
| PoolLocks.MutualExclusion | src/posix/manager.c:402-421 | two different threads are never in sections guarded by the same lock |
| PoolMask.MaskStep | src/posix/manager.c:830-852 | every step keeps the coherence of mask and lists, although other bits change concurrently |
| PoolMask.FirstBitIsFirstQueue | src/posix/manager.c:395-400 | the first set bit names a queue, all queues before it are empty, and no bit means that nothing is queued |
| PoolCounters.CountersStep | src/posix/manager.c:515-543 | every step keeps the four counters equal to the totals over the program counters |
| PoolCounters.ScoreboardBounds | src/posix/manager.c:474-491 | exact counters are not negative, and blocked workers are among the idle |
| PoolItems.ItemsStep | src/posix/manager.c:408-418 | exit items wait only in the first queue, are taken only under the mutex, and are held only by retiring workers |
| PoolItems.OwnerStep | src/posix/manager.c:850-852 | every step hands an item on without dropping or duplicating it |
| PoolItems.FifoStep | src/posix/manager.c:404-410 | every step keeps each queue first in, first out |
| PoolItems.ExitsStep | src/posix/manager.c:471-478 | every step keeps the balance between exit items made and workers retired |
| PoolWakeup.WakeupStep | src/posix/manager.c:454-481 | every step keeps the two wakeup invariants: the cover of exit items by awake workers, and what the scan under the mutex may conclude |
| PoolWakeup.AwakeApply | src/posix/manager.c:854-862 | falling asleep, signalling, deciding not to signal, posting and taking exit items all keep the cover |
| PoolWakeup.ScanReads | src/posix/manager.c:395-402 | what a mask read under the mutex implies: the first queue if an exit item waits, and an inserter or a second awake worker if the queue is empty |
| PoolWakeup.QueueWhileWaiting | src/posix/manager.c:402-404 | while the scan under the mutex waits for a spin lock, the queue keeps an item or an inserter, or another awake worker took the item |
| PoolManager.ManagerStep | src/posix/manager.c:649-706 | every step keeps the ceiling and the accounts of requests and pending workers |
| PoolManager.PastStartupStep | src/posix/manager.c:611-664 | every step keeps that the startup loop is over and that a growth test has passed or every created worker has begun: until that test passes, nothing is created |
| PoolRuns.AtMostOneUnbegun | src/posix/manager.c:611-664 | from any moment of any run when the startup loop is over and all workers created so far have begun, at most one created worker has not begun, for good |
| PoolManager.GrowthTest | src/posix/manager.c:650 | the growth test passes if and only if every created worker has begun and no creation was refused |
| PoolManager.StalledStep | src/posix/manager.c:539-543 | after a refused creation no step creates a worker |
| PoolManager.DesertedStep | src/posix/manager.c:650 | in an empty pool no step creates a worker |
| PoolFloor.FloorHolds | src/posix/manager.c:709-746 | in every run: when the surplus is computed with at least the threshold of idle workers, the pool keeps the threshold, less the exit items that were still out, until the next computation |
| PoolFloor.SurplusWraps | src/posix/manager.c:731-735 | the limit is at most the surplus if and only if idle is at least the threshold; otherwise the difference wraps, and unless the seconds gave almost 2^32 stops the limit is what they gave |
| PoolFloor.TickBudget | src/posix/manager.c:731-744 | from one computation of the limit to the next no more exit items are made than the limit, one a round |
| PoolFloor.LossIsExits | src/posix/manager.c:474-478 | between two states of a run the pool loses at most the exit items that were out and those made since |
| PoolTick.TickIsSpecified | src/posix/manager.c:616-748 | in every run, from a timer tick at the head of the loop until the manager is back there, when growth is not called for and only the manager moves, the exit items posted are exactly the stops of the specification and the accumulator carried over is exactly its accumulator |
| PoolTick.AccStaysSmall | src/posix/manager.c:711-730 | in every run the accumulator stays below 15 |
| RampDown.Converges | src/posix/manager.c:709-746 | from any pool at or above the threshold and any accumulator under 15: the pool never drops below the threshold, the accumulator stays under 15, and after 15 ticks per surplus worker idle is exactly the threshold for good |
| RampDown.TickProgress | src/posix/manager.c:711-735 | each tick keeps the accumulator under 15 and the pool at or above the threshold, and above the threshold it shrinks 15 times the surplus less the accumulator |
| RampDown.Manager.constructor | src/posix/manager.c:597-601 | the manager starts with an empty accumulator |
| RampDown.Manager.TimerTick | src/posix/manager.c:709-746 | the tick with its loop and `unsigned int` wrap-around posts exactly the stops of the unbounded specification; the subtraction at line 731 does not wrap |
| RampDown.Manager.Cycle | src/posix/manager.c:709-746 | a tick and the departure of the stopped workers is one step of the specification and keeps its invariant |
| RampDown.PoolManagerAgrees | src/posix/manager.c:709-735 | the racy manager of the pool computes the same accumulator and number of stops when no worker interferes |
| Overcommit.TokensExact | src/posix/manager.c:332-350 | in every run the threads in the timed wait number `ocwq_idle_threads` plus `ocwq_signal_count`, every signal has a thread already awake, and neither counter is negative |
| Overcommit.NoItemWaitsForACallback | src/posix/manager.c:308-350 | in every run queued items are at most the threads about to scan plus signals plus refused creations; without refusals each item has its own thread that is neither in a callback nor asleep |
| Overcommit.CoveredExactly | src/posix/manager.c:308-350 | in every run the threads about to scan and the signals cover the queued items in every state up to a moment if and only if no section before it was a refused creation with no idle thread and no thread about to scan to spare |
| Overcommit.CoverExact | src/posix/manager.c:812-828 | from a covered state each section keeps the cover if and only if it is not such a refused creation |
| Overcommit.LeavingStrandsNothing | src/posix/manager.c:343-349 | when a worker leaves after its timeout, the threads about to scan cover all queued items if and only if they were covered before, and without refused creations they are |
| Overcommit.ScanTakesFirst | src/posix/manager.c:311-321 | in every run a set bit has an item under it, queues before the first bit are empty, and each queue is first in, first out; what a scan then runs is `OvercommitItems.ScanRunsHead` |
| OvercommitItems.ScanRunsHead | src/posix/manager.c:310-341 | every scan in every run, by a new thread or after a signal: with nothing queued the thread goes to sleep; otherwise it runs the head of the first queue that is not empty, exactly that item leaves that queue, and all other queues stay |
| OvercommitItems.AddedIsEntered | src/posix/manager.c:812-818 | in every run the history of each queue has each item as often as it was added to that queue |
| OvercommitItems.BegunIsRemoved | src/posix/manager.c:313-326 | in every run callbacks are begun exactly as often as their items were removed |
| OvercommitItems.AddedIsQueuedOrBegun | src/posix/manager.c:308-350 | in every run what was added is queued or had its callback begun, as often as it was added |
| OvercommitItems.LeavesOnlyIdle | src/posix/manager.c:337-349 | in every run a worker that is gone left when its timed wait ended without a signal to account for |
| OvercommitItems.FinishedScansAgain | src/posix/manager.c:326-328 | a worker whose callback is over scans again |
| Overcommit.RefusedItemIsStranded | src/posix/manager.c:825-827 | a refused creation can leave an item with no thread at all |
| Overcommit.AddKeeps | src/posix/manager.c:812-828 | adding an item keeps mask, tokens and cover, whether it signals, creates or is refused |
| Overcommit.ScanKeeps | src/posix/manager.c:310-341 | a scan, by a new thread or after a signal, keeps mask, tokens and cover |
| Overcommit.InvStep | src/posix/manager.c:308-350 | every critical section and every wakeup keeps the invariant |
| WindowsRefinement.NoCallbackReturnsEmptyHanded | src/windows/manager.c:44-108 | in every run whose second initialisations of spin locks (line 51) found the locks free: no callback returns without an item or follows a null pointer, a scanning callback has an item ahead of it, and callbacks plus producers between store and submission equal the queued items |
| WindowsRefinement.PointersFormLists | src/windows/queue.h:274-305 | in every such run the pointers of each queue visit the items stored and not removed, each once, and while the lock is free the tail pointer addresses the end |
| WindowsRefinement.Refines | src/windows/manager.c:44-108 | each memory access is a step of the pool with atomic sections or does not show there |
| WindowsRefinement.InvStep | src/windows/manager.c:44-108 | every access, except a second initialisation that finds its lock held, keeps exclusion, pointers and abstraction |
| WindowsRefinement.ChainAppend | src/windows/queue.h:274-278 | the store through `stqh_last` appends the item to the list |
| WindowsRefinement.ChainPop | src/windows/queue.h:301-305 | the store into `stqh_first` drops the head of the list |
| WindowsItems.OwnedOnce | src/windows/manager.c:64-78 | in every such run an item that was stored is queued once or was removed by one callback, and nothing else is anywhere |
| WindowsItems.RunsWhatItRemoved | src/windows/manager.c:72-96 | in every such run a callback with an item, at its function or past it, removed that item earlier as the head of its queue, and the removal changed no other queue |
| WindowsItems.RunsOnce | src/windows/manager.c:91-98 | in every such run whoever is at the callback of an item at two moments is the same thread, at it all the time between |
| WindowsItems.DoneWasRun | src/windows/manager.c:95-98 | in every run a callback is over only after it was at the function of the item it took |
| WindowsItems.CallbackCompletes | src/windows/manager.c:82-98 | an undisturbed callback with an item gives the read lock back, runs that item and is over |
| WindowsItems.VisitTakesHead | src/windows/manager.c:65-78 | the accesses of one visit to a queue in order and not empty end with the head in hand, the rest in order and the lock free |
| WindowsItems.RemovedInOrder | src/windows/manager.c:72-105 | the histories of a queue only grow, and in every such run what callbacks removed followed by what is queued is what was stored |
| WindowsItems.StoredWhereAsked | src/windows/manager.c:101-105 | in every run an item added to a queue is on its way into it or was stored into it, once in all, and into no other queue |
| WindowsMemory.CreationExcludesScans | src/windows/manager.c:47-49 | in every run, whatever becomes of the spin locks, no callback is inside its scan while a queue is being linked |
| WindowsMemory.LockStep | src/windows/manager.c:46-83 | every memory access is a step of the reader/writer lock protocol or leaves that lock alone, so the lock stays exact and its holders exclusive |
| WindowsMemory.GuardStep | src/windows/manager.c:51 | a step makes a lock word disagree with the threads inside the section if and only if it is a second initialisation that finds the lock held |
| WindowsMemory.GuardedExactly | src/windows/manager.c:44-108 | in every run the lock words have agreed with the sections up to a moment if and only if every second initialisation so far found its lock free |
| WindowsMemory.HeldByCallback | src/windows/manager.c:46-52 | only a callback can hold the lock of a queue whose creation has not returned |
| WindowsMemory.QuietCreationIsClean | src/windows/pthread_rw_lock.h:31-36 | when no callback is outstanding at the end of each creation, all second initialisations find their locks free |
| WindowsRace.TramplingLetsTwoIn | src/windows/manager.c:51 | after any second initialisation of a held lock the next client of the queue and the callback are inside its sections together |
| WindowsRace.ItemIsLost | src/windows/manager.c:44-108 | a run in which a callback returns without an item while its item stays queued and no callback is outstanding |
| WindowsPool.NoCallbackReturnsEmptyHanded | src/windows/manager.c:55-108 | in every run of the pool with atomic sections no callback returns without an item, a scanning callback has an item ahead of it, and callbacks plus producers between insertion and submission equal the queued items |
| WindowsPool.HallMovesOn | src/windows/manager.c:63-70 | a callback that leaves an empty queue behind still has an item ahead for itself and for every callback ahead of it |
| WindowsPool.VisitKeeps | src/windows/manager.c:64-78 | visiting one queue keeps, for every position, that callbacks past it do not outnumber the items from it on |
| WindowsPool.InsertKeeps | src/windows/manager.c:103-105 | inserting an item keeps the balance and the inequality at every position |
| WindowsPool.SubmitKeeps | src/windows/manager.c:106-107 | submitting a callback keeps them |
| WindowsPool.LockRefines | src/windows/manager.c:45-83 | every step of the pool is a step of the reader/writer lock protocol or leaves the lock alone |
| WindowsPool.CreationExcludesScans | src/windows/manager.c:47-49 | in every run of the pool with atomic sections no callback scans while a queue is being linked |
| WindowsPool.LinkKeeps | src/windows/manager.c:47-49 | linking a queue at any position keeps balance and inequality, because nobody scans |
| WindowsPool.InvStep | src/windows/manager.c:55-108 | every step of the pool with atomic sections keeps the invariant |
| RwLock.InvStep | src/windows/pthread_rw_lock.h:68-138 | every spin-locked section keeps the fields equal to the numbers of readers, writers and waiting writers, and the holders exclusive |
| RwLock.WriterIsAlone | src/windows/pthread_rw_lock.h:81-96 | in every run, beside a writer there is no other writer and no reader |
| RwLock.UnlockReleasesOwn | src/windows/pthread_rw_lock.h:98-109 | unlock by a reader decrements the reader count only, by a writer it leaves the lock free of holders |
| RwLock.WriterPreference | src/windows/pthread_rw_lock.h:68-123 | along any stretch of a run with a writer waiting no read acquisition succeeds, and the reader count never grows |
| RwLock.WaitingWriterEnters | src/windows/pthread_rw_lock.h:86-93 | a waiting writer that looks gets in if and only if there is no holder |
| RwLock.Lock.constructor | src/windows/pthread_rw_lock.h:46-56 | nobody holds a new lock or waits for it, and the fields say so |
| RwLock.Lock.TryRead | src/windows/pthread_rw_lock.h:112-123 | a reader gets in if and only if nobody writes and no writer waits; it then joins the readers, otherwise nothing changes; the fields keep counting the holders exactly |
| RwLock.Lock.EnterWrite | src/windows/pthread_rw_lock.h:81-96 | the first section of wrlock: the writer is the only holder if and only if there was none, and otherwise joins the waiting writers |
| RwLock.Lock.RetryWrite | src/windows/pthread_rw_lock.h:86-95 | a waiting writer becomes the only holder and stops waiting if and only if there is no holder; otherwise it keeps waiting |
| RwLock.Lock.TryWrite | src/windows/pthread_rw_lock.h:125-138 | a writer becomes the only holder if and only if there is none, and may overtake waiting writers, which keep waiting |
| RwLock.Lock.Unlock | src/windows/pthread_rw_lock.h:98-109 | exactly the calling holder leaves, from the readers or from the writers as it holds the lock, and waiting writers keep waiting |
| Once.OneInside | src/windows/pthread_create.h:174-208 | in every run at most one caller is inside the function |
| Once.FinishedOnce | src/windows/pthread_create.h:174-241 | the function finishes at most once, no caller returns before it has, and the raw variant begins it at most once |
| Once.DoneForever | src/windows/pthread_create.h:191-195 | the done state is never left and the function is never begun again |
| Once.UndisturbedCaller | src/windows/pthread_create.h:174-208 | an undisturbed caller enters the function, finishes it and returns when the word is 0, returns at once when it is 1, and looks again when it is 2 |
| Once.EntersExactly | src/windows/pthread_create.h:184-189 | in every run a caller enters the function if and only if its exchange finds 0 |
| Once.ExchangeSawZero | src/windows/pthread_create.h:175-184 | in every run a caller at its exchange has read 0 |
| Once.CountsStep | src/windows/pthread_create.h:168-208 | every step, cancellation included, keeps the account of executions begun, finished and cancelled |
| StailQueue.Head.constructor | src/windows/queue.h:257-260 | a new head is empty and its tail addresses its own first pointer |
| StailQueue.Head.Reset | src/windows/queue.h:257-260 | reinitialising empties a head |
| StailQueue.Head.IsEmpty | src/windows/queue.h:242 | the emptiness test |
| StailQueue.Head.InsertTail | src/windows/queue.h:274-278 | appends the node |
| StailQueue.Head.RemoveHead | src/windows/queue.h:301-305 | drops the first node |
| StailQueue.Head.RemoveAfter | src/windows/queue.h:307-311 | drops the node after the given one |
| StailQueue.Head.Remove | src/windows/queue.h:288-299 | deletes the given node, wherever it is |
| StailQueue.Head.Concat | src/windows/queue.h:234-240 | appends the other list and empties the other head |
| StailQueue.Head.Swap | src/windows/queue.h:313-324 | exchanges two lists, empty ones included |
| StailQueue.ChainDistinct | src/windows/queue.h:217-228 | a list in this form visits no node twice |
| WitemCache.Cache.constructor | src/witem_cache.c:134-139 | all free lists are empty |
| WitemCache.Cache.Alloc | src/witem_cache.c:157-174 | returns an item that was neither in use nor given back, with the fields that plain allocation sets (lines 51-55), and marks it in use |
| WitemCache.Cache.Free | src/witem_cache.c:176-191 | any thread may free an item in use; it goes to the front of that thread's list and leaves the items in use |
| WitemCache.Cache.Cleanup | src/witem_cache.c:193-202 | terminates and gives each cached item of the thread back exactly once, in list order |
| WitemCache.Cache.CachedOnce | src/witem_cache.c:176-191 | free lists are acyclic, pairwise disjoint and disjoint from the items in use |

## Left out

- Load and thread probing, environment settings, process limits, signal masks, fork handling, debug output: system calls; their results are arbitrary choices or settings of the model.
- The manager's semaphore and suspend/resume: they only decide when the manager wakes, and the model lets it wake at any time.  `sem_timedwait_rv` keeps its value across the `sem_wait` branch (src/posix/manager.c:641), so a pass that carries the timer tick need not have timed out itself; the model allows both.
- Queue creation while the POSIX pool runs: a queue created below the first one would leave exit items in a queue that is no longer first.
- Bit-level mask words: a mask is the set of its bit indices; the retry loops around `atomic_or` and `atomic_and` never repeat, because each returns the word it stored.
- Once.CountsStep: the function of the raw variant is taken never to be cancelled; a cancellation at src/windows/pthread_create.h:223 would leave the word at 2 for good.
- Weak memory, fairness and progress: all results are safety properties.
- RampDown.Converges: speaks of ticks whose exit items have been taken before the next tick; in the running pool a slow worker lets a later tick count a departing worker again, which is the allowance in `PoolFloor.FloorHolds`.
- PoolFloor.SurplusWraps: no run is exhibited; one that takes the pool below the threshold needs thirty workers.
- WindowsMemory.GuardedExactly: names of items are not reused; in the code the memory of a finished item may be allocated again.
- Overcommit.TokensExact: the wait's other error codes abort the process and are not modelled.
- Failure of `QueueUserWorkItem`, which aborts the process.
- RwLock.InvStep: counters are unbounded; `w_ct` never exceeds 1, and `r_ct` and `w_pending` never exceed the number of threads.
- The Vista thread-pool branch, SRWLOCK and CONDITION_VARIABLE wrappers, thread-specific keys, the Windows XP condition variable, the libumem cache, attribute accessors, the kernel module and latency statistics.
