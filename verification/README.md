# Verification of the user-level thread library

A Dafny model of the synchronisation objects and the schedulers of a user-level threading library, and proofs about
them. The library multiplexes threads over virtual cores (vcores); its objects are correct only because of the order of
single memory accesses, so the protocols are small-step machines and the bodies that run undisturbed are classes.

**Machines.** One program counter for every thread (or vcore), any number of them, sequentially consistent memory. A
step is one access to shared memory; a stretch of code that runs under the lock protecting everything it touches may
be one step. A step function gives the next state, `Run` says that a sequence of states starts in the initial state
and takes any enabled step each time, `InvStep` shows that every step of everybody keeps the invariant, `InvRun` that
it holds in every state of every run, and the theorems are about runs. Fields named as history are written by the
steps and read neither by a step nor by what enables one. Faults that the code only asserts are recorded in a field
and proved absent. What is outside the modelled code is named where it is declared: the place where a thread sleeps
until a waker comes (`loc` in `Pvcq`), the owner of a control block that the allocator knows (`live` in `JoinExit`),
and what callers owe (`joiner` in `JoinExit`, `depth` in `CondVar`).

- `Barrier`: the sense-reversing barrier with its flags, two blocked queues and the spin-then-block path.
- `Semaphore`: the semaphore on a futex. `FutexTable`: the creation of futex lists.
- `CondVar`: any number of mutexes and a condition variable in one machine, with the callback that finishes a wait.
- `Pvcq`: the per-vcore run queues with work stealing. `Overlooked`: what an undisturbed dequeue misses. `Placement`: the
  round-robin choice of a queue.
- `JoinExit`: the join and exit handshake, with thread control blocks that are freed and used again.
- `Gq`: the global-queue scheduler and the one link its queues share.

**Objects.** Classes, arrays and loops for the same code run without interference: `BarrierObject` (tied to the
machine by `Represents`), `SemaphoreObject`, `TailQueue` (the linked STAILQ), `Futex`, `MutexObject`, `CondObject`,
`PvcqObject`, `GqObject`. `Seqs` holds counting facts about sequences, `ThreadState` the states of a thread and those
that pth_thread_runnable accepts.

**How the surroundings are modelled.** A spin or MCS lock is a field with its holder. `uthread_yield` takes the thread
off its vcore and runs the callback, which may still hold the caller's lock. `uthread_runnable`, `uthread_has_blocked`
and `uthread_paused` call into the scheduler. Random numbers, the thread that steps next, and what a program calls are
free choices. `assert` evaluates its argument and does nothing else (`src/common/internal/assert.h`).

**Where the code and its documentation disagree** the model follows the code. The work-stealing scan is there "to make
sure I don't miss anything" (`src/pvcq/upthread.c:234-235`), but `__pth_thread_dequeue` can return NULL while a thread
sits in a queue from before the call until after it: an enqueuer inserts the thread and counts it in a second store,
and everybody else only reads the count. `Overlooked.OverlookedExactly` says when: in every reachable state, an
undisturbed call can overlook a thread in a queue it has to look at if and only if every `tqsize` it reads is 0, and
then that thread is alone in its queue and not counted yet. `Overlooked.UncountedIsOverlooked` is a run that gets
there. Under any interference, `Pvcq.NothingLeftBehind` shows that no thread that was counted when the call began is
left behind. `upthread_barrier_wait`
returns 0 to every thread and `upthread_sem_post` the number of threads it woke, unlike the pages
`pthread_barrier_wait` and `sem_post` of IEEE Std 1003.1-2017.

## Model

| member | source | states |
|---|---|---|
| `Barrier.InvStep` | src/common/barrier.c:43-114 | every step of every thread keeps the invariant of rounds, flags, locks and queues |
| `Barrier.HistoryCounts` | src/common/barrier.c:56-114 | the history fields count exactly the fetch-and-adds and the returns that a run contains |
| `Barrier.RoundSafety` | src/common/barrier.c:56-114 | in every run, for any number of reuses, nobody returns from its r-th wait before everybody has made its r-th arrival, and completed rounds differ by one at most |
| `Barrier.OneReleaser` | src/common/barrier.c:67-89 | at most one thread is between its last arrival and the end of the release |
| `Barrier.NoEarlyFallThrough` | src/common/barrier.c:97-111 | a waiter sees its flag flipped only after everybody has arrived as often as it has |
| `Barrier.ReleaseLoopPigeonhole` | src/common/barrier.c:61-78 | a thread that arrives again while the releaser is at flag i gets a number below i, so its flag already has the value it waits on and the loop does not write it again |
| `Barrier.ArrivalOrder` | src/common/barrier.c:64-78 | an arrival gets a number below every flag still to be flipped, and the last arrival meets no releaser |
| `Barrier.RoomAtStore` | src/common/barrier.c:49-52 | in every run there is room in the array at every store into a blocked queue |
| `Barrier.NoFaults` | src/common/barrier.c:43-54 | no store past the end of a queue, no wake-up of a thread that is not blocked, and the callback unlocks with the node of the thread it blocks |
| `Barrier.WokenOnce` | src/common/barrier.c:84-86 | every entry the wake loop comes to is a thread that has left its vcore and stored a state that pth_thread_runnable accepts, and no other entry names it |
| `Barrier.ReleaseIsComplete` | src/common/barrier.c:81-88 | when no release is running, no thread of the previous round is in its queue or can still get into it |
| `Barrier.NeverAllWaiting` | src/common/barrier.c:97-111 | in no reachable state do all participants wait for their flags: one is not waiting, or its flag is flipped |
| `Barrier.SomebodyCanStep` | src/common/barrier.c:97-111 | in every reachable state some thread can take a step that is more than a turn of its spin loop |
| `BarrierObject.BarrierObject.constructor` | src/common/barrier.c:15-32 | an initialised barrier represents the initial state of the machine |
| `BarrierObject.ContextQueue.Append` | src/common/barrier.c:49-52 | stores the thread behind the others |
| `BarrierObject.ContextQueue.WakeAll` | src/common/barrier.c:84-87 | wakes every blocked thread, oldest first, and empties the queue |
| `BarrierObject.ReleaseAlone` | src/common/barrier.c:69-88 | the machine, with the releaser stepping alone, resets the count, flips flag and signals, empties the queue and sends its threads back to their spin loops |
| `BarrierObject.BarrierObject.FetchAndAddArrived` | src/common/barrier.c:64-67 | on the fields the arrival does the machine's step, and the number it returns is N - 1 exactly if the machine makes this thread the releaser |
| `BarrierObject.BarrierObject.SignalAll` | src/common/barrier.c:75-78 | the loop leaves every flag at the same new value |
| `BarrierObject.BarrierObject.Release` | src/common/barrier.c:67-88 | on the fields a whole undisturbed release ends in a state that the machine reaches by steps of the releaser alone, and wakes exactly the queue, oldest first |
| `BarrierObject.BarrierObject.Block` | src/common/barrier.c:43-54 | the callback on the arrays does the machine's step |
| `Semaphore.NoLostWakeup` | src/common/semaphore.c:46-76 | while somebody is listed or past the test under the list lock, the count is at most the posters that have not looked into the list plus the woken waiters that have not tried again |
| `Semaphore.QuiescentMeansExhausted` | src/common/semaphore.c:46-76 | without such posters and waiters, a waiter in the list means that the count is 0 |
| `Semaphore.ContentionIsCounted` | src/common/semaphore.c:54-73 | a poster that reads 0 waiters overlooks nobody |
| `Semaphore.ListIsExact` | src/common/futex.c:60-77 | the list holds exactly the threads blocked on it, each once, and only such threads are woken |
| `Semaphore.WakersFindAccepted` | src/common/futex.c:65-113 | whoever makes a thread runnable finds that its callback has stored an accepted state, and no other poster has that thread |
| `Semaphore.Conservation` | src/common/semaphore.c:36-76 | the count is the initial count plus posts minus successful waits, and never negative |
| `Semaphore.StepEffect` | src/common/semaphore.c:36-76 | posts and successful waits are counted where they happen, and the number of waiters never falls |
| `Semaphore.FailedCasMeansProgress` | src/common/semaphore.c:38-43 | a compare-and-swap fails only if another thread has updated the count since the read |
| `Semaphore.StuckMeansExhausted` | src/common/semaphore.c:46-76 | when no thread inside a call can step, all of them are blocked and the count is 0 |
| `SemaphoreObject.Sem.Init` | src/common/semaphore.c:18-29 | the error cases, and the initial fields |
| `SemaphoreObject.Sem.AtomicDecrementIfPositive` | src/common/semaphore.c:36-44 | whatever others store meanwhile, the returned count is the old one or one of theirs, it is the one that the deciding access found, and it is lowered if positive |
| `SemaphoreObject.WaitOrBlock` | src/common/semaphore.c:46-62 | a wait takes a unit, or is counted and sleeps behind the other waiters; a null semaphore changes nothing |
| `SemaphoreObject.Post` | src/common/semaphore.c:64-76 | a post adds a unit and wakes the oldest waiter if waiters were ever counted; it returns the number woken |
| `FutexTable.InvStep` | src/common/futex.c:32-57 | every step of every lookup keeps one list per address, and lists only get added |
| `FutexTable.ListsGrow` | src/common/futex.c:44-56 | in a run, lists only get added behind those that are there |
| `FutexTable.OneListPerAddress` | src/common/futex.c:32-57 | two lookups of a run, at whatever times they return, get the same list exactly if they ask for the same address |
| `Futex.FutexList.Insert` | src/common/futex.c:69 | a waiter goes behind the others |
| `Futex.FutexList.WakeOne` | src/common/futex.c:90-104 | wakes the oldest waiter, if there is one, and returns how many |
| `Futex.FutexList.UnblockQueue` | src/common/futex.c:106-116 | wakes all elements in order although each element may be overwritten once its owner is runnable |
| `Futex.FutexList.TakeSome` | src/common/futex.c:136-141 | the loop moves exactly the oldest min(max(count, 0), length) elements |
| `Futex.FutexList.WakeSome` | src/common/futex.c:130-145 | wakes exactly those threads, oldest first, and keeps the rest in order |
| `Futex.FutexList.WakeAll` | src/common/futex.c:118-128 | wakes all waiters, oldest first |
| `Futex.SpecialCounts` | src/common/futex.h:27-32 | the counts 1 and INT_MAX do what the two special calls do |
| `Futex.WakesAddUp` | src/common/futex.c:130-145 | two wakes in a row do what one wake with the sum of the counts does |
| `TailQueue.TailQ.InsertTail` | src/common/mutex.c:63 | STAILQ_INSERT_TAIL on the links appends |
| `TailQueue.TailQ.RemoveHead` | src/common/mutex.c:122 | STAILQ_REMOVE_HEAD on the links drops the first |
| `TailQueue.TailQ.Remove` | src/gq/upthread.c:330 | STAILQ_REMOVE finds the element by its links and drops it alone |
| `CondVar.InvStep` | src/common/condvar.c:31-94 | every step of every thread keeps the invariant of mutexes, queues and locks |
| `CondVar.MutualExclusion` | src/common/mutex.c:67-134 | a thread that has locked more often than unlocked is the owner, `locked` is its depth (1 for a normal mutex), and nobody else holds the mutex |
| `CondVar.FreeMutex` | src/common/mutex.c:118-123 | `locked` is 0 only if nobody owns or holds the mutex |
| `CondVar.NoLostMutexWakeup` | src/common/mutex.c:100-128 | although anybody may take a free mutex first, a free mutex with a queue has a thread that was taken from the queue and has not tested again |
| `CondVar.QueuesAreExact` | src/common/mutex.c:56-65 | the queues of mutexes and condition hold exactly the threads blocked on them, each once, and only such threads are woken |
| `CondVar.WakersFindAccepted` | src/common/mutex.c:62-128 | whoever makes a thread runnable finds it off its vcore with an accepted state stored, and nobody else is about to make it runnable |
| `CondVar.ReleaseAndWaitIsAtomic` | src/common/condvar.c:43-56 | once another thread holds the mutex of a waiter, the waiter is in the queue, unless it was taken out already |
| `CondVar.SignalTakesOldest` | src/common/condvar.c:64-67 | a signal with a waiter in the queue takes the oldest out |
| `CondVar.CallbackUsesOwnFields` | src/common/condvar.c:37-40 | `waiting_mutex` and `waiting_qnode` as the callback reads them are those of the thread it blocks, and the mutex is held once |
| `CondVar.WaitReturnsHolding` | src/common/condvar.c:54-55 | a wait returns with the mutex held once by the caller |
| `CondVar.TargetIsKept` | src/common/condvar.c:82-84 | the length of the log recorded by a broadcast is that of its first turn with the lock, and nothing changes it |
| `CondVar.BroadcastCoverage` | src/common/condvar.c:76-94 | when a broadcast is about to return, nobody in the queue has a place in the log below the recorded length |
| `CondVar.BroadcastTakesEverybody` | src/common/condvar.c:76-94 | in every run, each waiter queued when a broadcast first takes the lock is out of the queue at some later state before the broadcast returns |
| `CondVar.LocksAreReleased` | src/common/condvar.c:31-41 | while a lock of a mutex or of the condition is held, some thread inside a call can step, also in the callback that needs both |
| `CondVar.StuckMeansHeld` | src/common/mutex.c:89-134 | when no thread inside a call can step, each of them sleeps in the queue of a mutex that is held, or in the queue of the condition variable |
| `MutexObject.TryLock` | src/common/mutex.c:67-87 | result and new state in all cases, null included |
| `MutexObject.LockOrBlock` | src/common/mutex.c:89-110 | locks, or goes to the end of the queue and leaves the rest alone |
| `MutexObject.Unlock` | src/common/mutex.c:112-134 | lowers the depth; frees the mutex at 0 and takes out the oldest waiter |
| `MutexObject.UnlockUndoesLock` | src/common/mutex.c:95-130 | an unlock restores what was before the lock, at every depth |
| `MutexObject.HeldIsExclusive` | src/common/mutex.c:74-84 | nobody but the owner gets a held mutex |
| `CondObject.Block` | src/common/condvar.c:31-41 | the callback queues the thread, and unlocks the mutex found in the field |
| `CondObject.WaitBlock` | src/common/condvar.c:43-54 | a wait up to the context switch, errors included |
| `CondObject.Signal` | src/common/condvar.c:58-74 | takes out exactly the oldest waiter |
| `CondObject.PopAll` | src/common/condvar.c:82-91 | the loop ends after as many rounds as there are waiters and takes them in order |
| `CondObject.Broadcast` | src/common/condvar.c:76-94 | wakes exactly the queue, oldest first, and empties it |
| `Pvcq.InvStep` | src/pvcq/upthread.c:156-311 | every step of every vcore keeps the invariant of places, counts, locks and states |
| `Pvcq.ThreadConservation` | src/pvcq/upthread.c:156-246 | a thread is in one run queue at one place, or in the hands of one vcore, or running on one, or in none of these, and never in two |
| `Pvcq.SizeIsLength` | src/pvcq/upthread.c:165-187 | `tqsize` is the length of the queue exactly when no lock holder is between moving and counting a thread, in particular while the lock is free |
| `Pvcq.SizeZero` | src/pvcq/upthread.c:181 | what an unlocked read of 0 tells, in both directions |
| `Pvcq.NoOddState` | src/pvcq/upthread.c:275-311 | pth_thread_runnable finds only states it knows, a dequeued thread is runnable, a running one has the state running |
| `Pvcq.PreferredQueue` | src/pvcq/upthread.c:161-190 | a thread in queue i or running on vcore i has i as its preferred queue |
| `Pvcq.NextDistance` | src/pvcq/upthread.c:237-242 | each round of the scan is one queue further on, and it is back after all other queues |
| `Pvcq.LookedRun` | src/pvcq/upthread.c:206-243 | which queues a dequeue has seen at each of its points, all of them when it returns NULL with stealing on |
| `Pvcq.SeenStep` | src/pvcq/upthread.c:178-221 | a dequeue takes a queue for empty only when it has no thread, or one that is not counted yet |
| `Pvcq.WorkConservation` | src/pvcq/upthread.c:176-246 | if the dequeue returns NULL, every queue looked empty at some moment of that call |
| `Pvcq.NothingLeftBehind` | src/pvcq/upthread.c:176-246 | if the dequeue returns NULL, every thread that was in a queue and counted when the call began has been taken out by somebody during the call |
| `Overlooked.NullExactly` | src/pvcq/upthread.c:176-246 | in every reachable state, an undisturbed dequeue can return NULL exactly if every `tqsize` it has to read is 0, and then it changes no queue and no thread |
| `Overlooked.ZeroFindsNothing` | src/pvcq/upthread.c:206-243 | if every count is 0, an undisturbed dequeue finds nothing, whatever random choices it makes |
| `Overlooked.OverlookedExactly` | src/pvcq/upthread.c:167-243 | in every reachable state, a queued thread can be overlooked by an undisturbed dequeue exactly if every `tqsize` read is 0; then it is alone in its queue and not counted yet |
| `Overlooked.UncountedIsOverlooked` | src/pvcq/upthread.c:167-170 | a run from the initial state that overlooks a thread this way |
| `Pvcq.ShortCutRefinesYield` | src/pvcq/upthread.c:595-613 | with an empty local queue and nobody else running, the full yield comes back to the state that the short cut leaves alone |
| `PvcqObject.Scheduler.constructor` | src/pvcq/upthread.c:417-426 | the scheduler's initial state |
| `PvcqObject.Scheduler.SetNumVcores` | src/pvcq/upthread.c:383-387 | the smaller of number and limit, the first place, and exactly when new threads can be placed afterwards |
| `PvcqObject.Scheduler.TDequeue` | src/pvcq/upthread.c:178-192 | takes the head of one queue and leaves all other queues alone |
| `PvcqObject.Scheduler.Enqueue` | src/pvcq/upthread.c:156-174 | which queue, which end, and the round-robin place of a new thread |
| `PvcqObject.Scheduler.ThreadRunnable` | src/pvcq/upthread.c:288-311 | a thread back from a system call goes to the head of its queue, any other to the end, and an unknown state changes nothing |
| `PvcqObject.Scheduler.StealRest` | src/pvcq/upthread.c:213-217 | the loop moves exactly the threads after the head up to half of the queue |
| `PvcqObject.Scheduler.StealThreads` | src/pvcq/upthread.c:206-221 | returns q[0], appends q[1..ceil(n/2)) in order to the thief's queue and leaves q[ceil(n/2)..], also when the thief is the victim |
| `PvcqObject.StealIsPermutation` | src/pvcq/upthread.c:206-221 | a steal loses and duplicates nobody; from the own queue it permutes all but the head |
| `PvcqObject.BetterOfTwo` | src/pvcq/upthread.c:224-232 | of two random choices the larger foreign queue is tried first, the second on a tie, and the own queue only if both choices are |
| `PvcqObject.FirstFull` | src/pvcq/upthread.c:237-242 | the scan's result is the nearest queue with a thread, and the own number only if there is none |
| `PvcqObject.VictimIsEmptyLast` | src/pvcq/upthread.c:224-243 | undisturbed, choices and scan find a thread if any queue has one |
| `PvcqObject.Scheduler.Scan` | src/pvcq/upthread.c:237-242 | the loop ends and steals from that queue |
| `PvcqObject.Scheduler.Dequeue` | src/pvcq/upthread.c:176-246 | result and all queues in every case; NULL with stealing on exactly if every queue is empty |
| `Placement.RoundRobin` | src/pvcq/upthread.c:105-113 | the k-th successful swap returns (start + k) mod nr_vcores under any interleaving |
| `Placement.PlacementIsFair` | src/pvcq/upthread.c:105-113 | the numbers of threads placed on any two queues differ by one at most |
| `Placement.CountPlaced` | src/pvcq/upthread.c:105-113 | how often each queue has been chosen after m placements |
| `Placement.FailureIsProgress` | src/pvcq/upthread.c:110 | a failed swap means another placement since the read |
| `JoinExit.InvStep` | src/pvcq/upthread.c:507-590 | every step of every thread keeps the invariant of slots and control blocks |
| `JoinExit.NoStaleAccess` | src/pvcq/upthread.c:507-582 | nobody touches a freed control block, even when it belongs to a new thread, and every wake-up reaches a thread waiting in a join |
| `JoinExit.FreedOnce` | src/pvcq/upthread.c:94-103 | a control block is freed once at most, of a detached thread when it finishes, of a joined one exactly when the join is over |
| `JoinExit.JoinSeesExit` | src/pvcq/upthread.c:529-550 | a joiner goes on only after the exiter's swap, woken exactly once unless the early check succeeded, and reads the value given to exit |
| `JoinExit.NoLostJoiner` | src/pvcq/upthread.c:559-582 | the target of a blocked joiner has not swapped yet and will find it in the slot, or is about to wake it |
| `Gq.InvStep` | src/gq/upthread.c:70-135 | every step keeps links, counters, lock and states |
| `Gq.LinkIsExclusive` | src/gq/upthread.c:70-87 | a thread is in one of ready queue, active queue and the queues of mutexes and conditions, once, as its program point says |
| `Gq.RemovedBeforeReuse` | src/gq/upthread.c:325-332 | every insertion finds the thread in no queue, every removal finds it in its queue exactly once |
| `Gq.CountersAreLengths` | src/gq/upthread.c:76-77 | both counters are the lengths of their queues whenever queue_lock is free |
| `Gq.NoOddState` | src/gq/upthread.c:96-127 | the switch finds only states it knows, a dispatched thread is runnable, no removal misses its thread |
| `GqObject.Scheduler.constructor` | src/gq/upthread.c:257-267 | thread 0 starts in the active queue |
| `GqObject.Scheduler.SchedEntry` | src/gq/upthread.c:70-87 | on the links: the oldest ready thread becomes the last active one, counters included |
| `GqObject.Scheduler.Runnable` | src/gq/upthread.c:108-135 | on the links: the thread becomes the last ready one; its old state decides about the odd branch |
| `GqObject.Scheduler.GenericYield` | src/gq/upthread.c:325-332 | on the links: the thread leaves the active queue and nothing else moves |
| `GqObject.Scheduler.YieldCb` | src/gq/upthread.c:426-433 | a yield moves the thread from the active to the end of the ready queue |
| `GqObject.Scheduler.BlockOnSyscall` | src/gq/upthread.c:447-459 | a system call leaves the thread in no queue |
| `GqObject.Scheduler.BlockOn` | src/common/mutex.c:56-64 | a thread that blocks goes from the active queue to the end of the object's queue through the same link |
| `GqObject.Scheduler.WakeFrom` | src/common/mutex.c:120-128 | the oldest waiter goes from the object's queue to the end of the ready queue |
| `GqObject.ReuseBeforeRemoval` | src/gq/upthread.c:325-332 | inserting any active thread but the last elsewhere before its removal would cut the active queue off behind it |

## Left out

- Weak memory: memory is sequentially consistent, and `rmb`, `wmb` and `__sync_synchronize` do nothing.
- Context switches, locks, vcore requests, events, DTLS and the wait-free list come from other libraries; they are the
  abstract steps named above. src/juggle, src/lithe and src/common/dtls.c are not part of this model.
- Liveness: no fairness is assumed, and no thread is shown to be served in the end; stuck states are excluded instead.
  `MAXSTALLS` and `max_spin_count` are free choices to go on spinning or not.
- Integer width: `value`, `nwaiters`, `locked`, `tqsize` and the counters are unbounded. A barrier has at least one
  participant, and exactly its N participants use it.
- `upthread_barrier_destroy` and the other destroy functions, attributes, thread ids and printing are easy.
- Callers keep the rules: only the holder unlocks a mutex, a condition wait starts with the mutex locked once, each
  thread is joined by at most one thread, and thread 0 does not exit.
- A detached thread is detached when it is created; `upthread_detach` on a running thread races with join and exit, as
  the source says itself (src/pvcq/upthread.c:568, 617).
- nr_vcores is at least 1 and does not change while threads are placed; `get_next_queue_id_tls_aware` is never called.
- Semaphore.StepEffect: null semaphores and the results of the calls are in `SemaphoreObject` and `Futex` only.
- CondVar.InvStep: the test, the queue operations and the stores under one lock are single steps, one condition
  variable serves any number of mutexes, and null arguments are only in `MutexObject` and `CondObject`.
- Pvcq.InvStep: accesses to the fields of a thread that only one vcore can reach are merged into one step, what a waker
  does before it has its thread is not modelled, and a vcore waiting for work does nothing but dequeue.
- Gq.InvStep: an empty round of the scheduler is no step, an insertion into or a removal from the queue of a mutex or
  condition is one step, and the machine lets wakers come at any time.
- JoinExit.InvStep: a woken joiner runs again at once; its way through the run queues is in `Pvcq` and `Gq`. Both
  schedulers share this handshake, and src/gq/upthread.c:336-422 frees with `free` what src/pvcq/upthread.c keeps for
  use again.
- Pvcq.NoOddState: that one waker at a time reaches a thread, after its callback, is the guard of the step `Rouse`
  there, since the wakers are outside src/pvcq/upthread.c; it is proved of the code that wakes in `Barrier.WokenOnce`,
  `Semaphore.WakersFindAccepted`, `CondVar.WakersFindAccepted` and `JoinExit.NoStaleAccess`.
- Gq.NoOddState: for the same reason a wake-up is a step of the sleeping thread there, possible once its callback has
  queued or published it, so two wakers of one thread do not occur.
- SemaphoreObject.WaitOrBlock: the retry loop after a wake-up is in the machine `Semaphore`.
- MutexObject.LockOrBlock: the retry loop after a wake-up is in the machine `CondVar`.
- PvcqObject.Scheduler.Enqueue: the run queues are sequences here; their links are those of `TailQueue`.
- PvcqObject.Scheduler.Dequeue: runs undisturbed; what interference does to it is in `Pvcq`.
