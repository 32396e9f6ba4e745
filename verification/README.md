# A model of the Boost.Fiber scheduler and its synchronisation protocols

Boost.Fiber runs cooperative fibers on a thread: a scheduler keeps a queue of ready fibers and a queue of waiting ones,
and mutexes, condition variables, barriers, queues and futures suspend and ready fibers through it. This project models
that machinery in Dafny and proves what it promises over whole runs. `dafny verify dfyconfig.toml` checks everything.

The model follows the structure of the library, in three layers.

1. **Scheduler** (`WaitingOrder`, `SchedulerModel`, `SchedulerJoins`, `SchedulerRuns`, `SchedulerFailures`,
   `SchedulerLaws`, `SchedulerHeap`, `FiberManager`, `Handshake`, `HandshakeLaws`, `HandshakeFailures`). The waiting queue
   is a READY prefix followed by WAITING fibers sorted by deadline; the ready queue is a FIFO; both are intrusive lists
   over the same two link fields of the fibers. `SchedulerModel` is a state machine on values whose steps are the calls of
   a fiber or of the main context, and the invariants and run theorems are proved of it. `SchedulerHeap` and `FiberManager` are the objects with their links and
   back-pointers: every public method of `FiberManager` is proved to be one step of the machine. `Handshake` interleaves
   suspension, notification and sweeping across threads in steps of one access to shared state; `set_ready`, the push
   into a waiting queue, the test of a fiber by the sweep and its unlinking are one step each.
2. **Blocking primitives** (`Mutex`, `RecursiveMutex`, `Condition`, `Barrier`, `BarrierLimits`, `BarrierProgress`). A step is
   one critical section. The object's methods are proved against functions on values, and the runs are made of these functions.
   `Barrier` runs on `Condition`, which runs on `Mutex`.
3. **Channels, stealing and futures** (`QueueNodes`, `BoundedQueue`, `UnboundedQueue`, `WorkStealing`, `SharedState`,
   `Futures`, `FutureRuns`, `FutureLaws`, `FutureObjects`). The linked queues with watermarks and `close`, the work-stealing list, and
   the shared state of section 30.6.4 of ISO/IEC 14882:2011 with its promises, futures and shared futures. `FutureRuns`
   is a table of handles and states, of which the run theorems are proved; `FutureObjects` does the operations on
   pointers and reference counts and proves each to be one step of the table.

Beside the invariants, each machine has laws that say what every call answers and changes, in terms of what a user can
observe: who holds the mutex, what was pushed and popped, which fiber waits until when, what a future gives. Their names
end in `Exactly`; they hold in every state that satisfies the invariant.

The assertions in the code (`BOOST_ASSERT`) appear as preconditions of the object methods and are discharged by the
invariants of the machines, or are shown to fail, with the exact condition. A machine has no step past a failed
assertion.

## What is assumed

- In `Handshake` no step interrupts `set_ready`, the push into a waiting queue, the sweep's reading of a successor with the
  `fetch_ready` that follows, or the unlinking of a fiber; the code takes no lock around any of them.
- One thread, except in `Handshake`: what a fiber does between two suspension points is atomic. Only worker fibers block,
  and `run()` is called from the main context.
- `set_ready` is given a fiber that neither runs nor has terminated; `SetReadyExact` shows that placement survives exactly
  then. Interruption is a step of the scheduler machine (`Interrupt`), and so are notifications that reach a fiber blocked
  in `join`. In layers 2 and 3 nobody interrupts a blocked fiber and there are no timed waits.
- Time points are signed 64-bit counts of nanoseconds; clock readings are parameters and stay below `time_point::max()`.
- A promise or future object is not destroyed while another fiber is inside a call on it.

## Results that correct an expectation

- The early exit of the sweep rests on the waiting queue being sorted. That does not cover interruption: a fiber that
  enters the queue with the flag already set can sit behind one that is not due. `EarlyExitExact` gives the exact
  condition, `HiddenInterruptionReached` a run that meets it, and `SweepsAreFilters` the runs that never do.
- `join` does not wait for its target's end whatever happens. A joiner leaves the waiting state while its target lives
  exactly when it is notified or interrupted, or when it began the join with an interruption pending and the sweep comes
  to it (`LeavesJoinExactly` for a step, `JoinWaitsExactly` for runs). Such a joiner is resumed early, and the assertion
  that ends `join` fails: in every run from the start it fails only so (`JoinFailsOnlyDisturbed`, `DisturbedJoinFails`),
  and `JoinFailureReached` is such a run. Up to then `release` never readies a terminated fiber (`ReleaseNeverFails`).
- The sweep asserts that a fiber it has found READY is the head of the queue. Another thread's `set_ready` can move a
  fiber to the front between the test and the unlinking. `UnlinkExactly` says exactly when the assertion holds,
  `SweepSafe` that it holds in every run in which no notification reaches a queue while it is swept, and
  `UnlinkFailureReached` gives a run in which it fails.
- A `push` that was blocked on a full bounded queue does not look at `closed` again, so values can still be pushed after
  `close`. `NoPushAfterCloseExact` says exactly when not, `PushAfterCloseReached` gives the run.
- `bounded_queue::pop` waits on the wrong condition. On an open empty queue it fails its assertion instead of waiting; on
  a closed empty one it waits instead of reporting `closed`, and `PopWaitsForEverExactly` says when no such call ever
  returns. `PopFailuresReached` gives the runs.
- The boolean `cycle_` of a barrier stands for a generation count only if no more fibers take part than the barrier was
  made for (or it was made for one). `FaithfulExactly` proves both directions; `TooManyFibers` constructs the bad run for
  every size.
- `set_exception` accepts a null exception pointer, after which `get` reads an empty optional. `FirstOutcomeStays` and
  `CompletionDecides` show that it does so exactly then.
- `push_` of the work-stealing queue asserts that the fiber has no successor, which is also true of the last entry.
  `WorkStealingQueue.Push` states that the list survives exactly when the fiber was not queued.

## Model

| member | source | states |
|---|---|---|
| `WaitingOrder.ScanPos` | include/boost/fiber/detail/waiting_queue.hpp:75-113 | the scan of `push` stops at the first entry that is not READY and not due before the new one, or at the end |
| `WaitingOrder.ScanPosUnique` | include/boost/fiber/detail/waiting_queue.hpp:75-113 | these two properties determine the position |
| `WaitingOrder.PushKeepsOrder` | include/boost/fiber/detail/waiting_queue.hpp:40-115 | pushing any fiber, READY or WAITING with any deadline, keeps a READY prefix followed by WAITING fibers in nondecreasing deadline order |
| `WaitingOrder.PushedExactly` | include/boost/fiber/detail/waiting_queue.hpp:40-115 | a READY fiber goes first, one without a deadline last, any other behind the READY ones and the earlier deadlines and before all that are not earlier; the others keep their order |
| `WaitingOrder.MoveToFrontKeepsOrder` | include/boost/fiber/detail/waiting_queue.hpp:124-156 | moving a fiber that became READY to the front keeps that order and loses or repeats no entry |
| `WaitingOrder.SweepLenUnique` | include/boost/fiber/detail/waiting_queue.hpp:158-194 | the prefix the sweep takes is the longest one whose fibers all pass `fetch_ready` |
| `WaitingOrder.EarlyExitExact` | include/boost/fiber/detail/waiting_queue.hpp:187-191 | stopping at the first failure equals filtering the whole queue, remainder included, if and only if no flagged fiber sits behind one that fails the test |
| `WaitingOrder.EarlyExitByDeadline` | include/boost/fiber/detail/waiting_queue.hpp:187-191 | with no flagged WAITING entry the sweep takes exactly the fibers that are READY or due, in order |
| `SchedulerFailures.HiddenInterruptionReached` | src/fiber_manager.cpp:33-43 | a run from the start after which a flagged fiber sits behind one that is not due, and the sweep takes neither |
| `SchedulerHeap.LinkedNoDup` | include/boost/fiber/detail/waiting_queue.hpp:28-35 | a list linked in both directions holds no fiber twice |
| `SchedulerHeap.Fifo.Push` | include/boost/fiber/detail/fifo.hpp:39-59 | appends on the links, head and tail; the sole entry pushed again changes nothing |
| `SchedulerHeap.Fifo.Pop` | include/boost/fiber/detail/fifo.hpp:61-75 | removes the head and leaves it without links |
| `SchedulerHeap.WaitingQueue.Push` | include/boost/fiber/detail/waiting_queue.hpp:40-115 | the links, head, tail and back-pointers afterwards are those of the ordered insertion, in every branch |
| `SchedulerHeap.WaitingQueue.Scan` | include/boost/fiber/detail/waiting_queue.hpp:75-113 | the loop inserts at the specified position, at the head, between two entries or at the tail |
| `SchedulerHeap.WaitingQueue.PopHead` | include/boost/fiber/detail/waiting_queue.hpp:170-184 | the head leaves without links, without back-pointers and without deadline |
| `SchedulerHeap.WaitingQueue.Unlink` | include/boost/fiber/detail/waiting_queue.hpp:141-149 | closes the gap around a fiber that is not the head, at the tail or before it |
| `SchedulerHeap.WaitingQueue.ToFront` | include/boost/fiber/detail/waiting_queue.hpp:140-154 | the fiber is the new head and the others keep their order |
| `SchedulerHeap.WaitingQueue.MoveToRun` | include/boost/fiber/detail/waiting_queue.hpp:124-156 | through the fiber's own back-pointers the queue it is in gets it to the front; a fiber in no waiting queue stays |
| `FiberManagers.Queues.MoveToRun` | include/boost/fiber/detail/waiting_queue.hpp:124-156 | the other queue over the same link fields is untouched |
| `FiberManagers.Queues.AwakenHead` | include/boost/fiber/detail/waiting_queue.hpp:168-186 | the head moves from one list to the end of the other |
| `FiberManagers.Queues.Awakened` | src/round_robin.cpp:18-20 | a fiber of neither queue becomes the last of the ready queue; the waiting queue is untouched |
| `FiberManagers.Queues.PickNext` | src/round_robin.cpp:22-29 | the first of the ready queue, or null if there is none |
| `FiberManagers.Queues.Enqueue` | include/boost/fiber/detail/waiting_queue.hpp:40-115 | ordered insertion with the ready queue untouched |
| `FiberManagers.FiberManager.SetReady` | src/detail/worker_fiber.cpp:51-57 | state, queue and links afterwards are those of the model's `SetReady` |
| `FiberManagers.FiberManager.FetchReady` | src/fiber_manager.cpp:33-43 | answers the test of the sweep; a readied head is still the head |
| `FiberManagers.FiberManager.Sweep` | include/boost/fiber/detail/waiting_queue.hpp:158-194 | the loop is the model's sweep, and the head is always the fiber under test |
| `FiberManagers.FiberManager.Register` | src/detail/worker_fiber.cpp:80-87 | the joiner is appended to `waiting_` of its live target |
| `FiberManagers.FiberManager.Release` | src/detail/worker_fiber.cpp:71-73 | every joiner taken, none of which has terminated, is readied, in order |
| `FiberManagers.FiberManager.Run` | src/fiber_manager.cpp:116-148 | is the model's `Run`: sweep, then resume the first ready fiber; if there is none, the thread sleeps until `next_wakeup` by its own clock reading |
| `FiberManagers.FiberManager.WaitUntil` | src/fiber_manager.cpp:154-175 | is the model's `WaitUntil` |
| `FiberManagers.FiberManager.Yield` | src/fiber_manager.cpp:177-191 | is the model's `Yield` |
| `FiberManagers.FiberManager.Join` | src/fiber_manager.cpp:193-214 | is the model's `Join`, for live and for terminated targets |
| `FiberManagers.FiberManager.JoinReturn` | src/fiber_manager.cpp:223 | the assertion after resumption holds if and only if the model's target has terminated, and then the join is over; otherwise nothing changes |
| `FiberManagers.FiberManager.Terminate` | include/boost/fiber/detail/trampoline.hpp:79-80 | is the model's `Terminate`, for every running fiber that is not inside `join` |
| `FiberManagers.FiberManager.Notify` | src/detail/worker_fiber.cpp:51-57 | is the model's `Notify` |
| `FiberManagers.FiberManager.Interrupt` | src/detail/worker_fiber.cpp:98-105 | is the model's `Interrupt` |
| `FiberManagers.FiberManager.ClearInterrupt` | src/detail/worker_fiber.cpp:106-107 | is the model's `ClearInterrupt` |
| `FiberManagers.FiberManager.Spawn` | src/fiber_manager.cpp:107-114 | is the model's `Spawn` of a new fiber |
| `FiberManagers.FiberManager.NextWakeup` | src/fiber_manager.cpp:71-83 | is the model's `NextWakeup` |
| `SchedulerModel.NextPlaced` | src/fiber_manager.cpp:107-224 | every step keeps every live fiber in the one place its state names, the queues free of duplicates, the waiting queue ordered, and the deadline reset outside it |
| `SchedulerModel.SweepPlaced` | include/boost/fiber/detail/waiting_queue.hpp:158-194 | so does the whole sweep |
| `SchedulerModel.SetReadyExact` | src/detail/worker_fiber.cpp:51-57 | `set_ready` keeps placement if and only if its target neither runs nor has terminated |
| `SchedulerModel.ReleaseNeverFails` | src/detail/worker_fiber.cpp:54-73 | in every state that no failed `join` precedes, every fiber registered with the running one is live and not running: `release` meets the assertion of `set_ready` |
| `SchedulerJoins.NextJoined` | src/fiber_manager.cpp:193-224 | every step keeps the registrations exact: a fiber is registered once with the target of its join, as long as that lives, and nowhere else |
| `SchedulerJoins.RunInv` | src/fiber_manager.cpp:107-224 | placement and registrations hold after every run |
| `SchedulerJoins.LeavesJoinExactly` | src/fiber_manager.cpp:199-223 | a step makes a waiting joiner leave the waiting state while its target lives if and only if it notifies it, interrupts it, or is a sweep that reaches it, which only a pending interruption allows; the target's end readies it |
| `SchedulerJoins.JoinWaitsExactly` | src/fiber_manager.cpp:199-223 | over whole runs in which the target stays alive the joiner is still waiting if and only if no step was one of these |
| `SchedulerJoins.JoinFailsOnlyDisturbed` | src/fiber_manager.cpp:223 | in every run from the start that fails the assertion ending `join`, that join began at some step and was disturbed by a later one |
| `SchedulerJoins.DisturbedJoinFails` | src/fiber_manager.cpp:223 | a joiner that runs while its target lives fails it, and an undisturbed one does not run before its target's end |
| `SchedulerFailures.JoinFailureReached` | src/detail/worker_fiber.cpp:98-105 | a run from the start, with one interrupted join, at whose end the assertion fails and no step is left |
| `SchedulerJoins.TerminationReadiesJoiners` | src/detail/worker_fiber.cpp:59-73 | a fiber that waits for the ending one is registered exactly once, only with it, and is READY in the waiting queue afterwards |
| `SchedulerRuns.LiveExactlyOnce` | src/fiber_manager.cpp:45-148 | in every reachable state the queues and the active fiber hold each live fiber exactly once and no terminated one |
| `SchedulerRuns.Conservation` | src/fiber_manager.cpp:45-242 | only `spawn` adds a fiber, only its own end retires one, and for ever |
| `SchedulerRuns.SweepMovesPrefix` | include/boost/fiber/detail/waiting_queue.hpp:158-194 | the loop in closed form: the longest fetched prefix is appended to the ready queue in order, READY and without deadline; all else is unchanged |
| `SchedulerRuns.SweepLeavesWaiting` | include/boost/fiber/detail/waiting_queue.hpp:187-191 | what stays is WAITING, not due, and the head has the earliest deadline |
| `SchedulerRuns.ReadyReachesReadyQueue` | src/fiber_manager.cpp:121-123 | a READY fiber of the waiting queue is in the ready queue after the next sweep |
| `SchedulerRuns.RoundRobinAdvances` | src/round_robin.cpp:18-29 | a fiber at index k of the ready queue advances one place with each `run()`, whatever else happens, and is not resumed by the first k |
| `SchedulerRuns.RoundRobinBound` | src/fiber_manager.cpp:125-133 | the following `run()` resumes it |
| `SchedulerRuns.WakeupAdvances` | src/fiber_manager.cpp:116-133 | a READY fiber at index i of the waiting queue, behind m entries of the ready queue, is not resumed by the first m + i calls of `run()` and gets one place nearer with each |
| `SchedulerRuns.WakeupBound` | src/fiber_manager.cpp:116-133 | the next call resumes it |
| `SchedulerRuns.SweepsAreFilters` | include/boost/fiber/detail/waiting_queue.hpp:158-194 | in every run in which nobody waits with an interruption pending, every sweep takes exactly the fibers that are READY or due, in order |
| `SchedulerRuns.NoOversleep` | src/fiber_manager.cpp:71-83 | when `run()` resumes nothing, its sleep ends at the earliest queued deadline, or after one interval if none is finite, whatever the second clock reading |
| `SchedulerLaws.WaitsUntilDeadline` | src/fiber_manager.cpp:163-172 | a fiber that calls `wait_until` without a pending interruption, and that nobody notifies or interrupts, is WAITING with the deadline it asked for after every run in which each `run()` comes before it |
| `SchedulerLaws.WakesAtDeadline` | src/fiber_manager.cpp:33-43 | the first `run()` at or after that deadline leaves it in the ready queue or running, without a deadline |
| `SchedulerLaws.WaitingExactly` | src/fiber_manager.cpp:154-214 | in one step a fiber begins to wait exactly by `wait_until` or a `join` of a live fiber, and ceases exactly by a notification, an interruption, a sweep that takes it, or the end of the fiber it joins |
| `SchedulerLaws.TakenExactly` | src/fiber_manager.cpp:33-43 | the sweep takes a waiting fiber if and only if its deadline has come, or it is flagged and every fiber before it is READY, due or flagged |
| `SchedulerLaws.DeadlineExactly` | src/fiber_manager.cpp:168 | the deadline is the one asked for until a sweep takes the fiber; nothing else changes it |
| `SchedulerLaws.FlagExactly` | src/detail/worker_fiber.cpp:97-108 | the interruption flag is set exactly by a request for this fiber and cleared exactly by the fiber itself |
| `SchedulerLaws.JoiningExactly` | src/fiber_manager.cpp:193-224 | a fiber is inside `join` from its call to its return, whatever else happens |
| `SchedulerLaws.ActiveExactly` | src/fiber_manager.cpp:116-133 | after `run()` the first of the ready fibers runs, after a suspension or an end nobody, otherwise who ran before |
| `SchedulerLaws.SpawnExactly` | src/fiber_manager.cpp:107-114 | a new fiber is READY, unflagged and last in the ready queue, and changes no other |
| `SchedulerLaws.OthersUntouched` | src/fiber_manager.cpp:107-224 | a fiber that neither calls, nor is the target, nor is taken, resumed or released keeps its whole record |
| `SchedulerLaws.RegistersLast` | src/detail/worker_fiber.cpp:80-87 | `join` appends its caller to the list of a live target and leaves a terminated one alone |
| `SchedulerLaws.ComesFirst` | src/fiber_manager.cpp:177-191 | a fiber that yields, joins a terminated one, or is notified or interrupted in the waiting queue is READY and first there, and the others keep their order |
| `SchedulerLaws.FirstResumed` | src/fiber_manager.cpp:116-133 | such a fiber is resumed by exactly the (m + 1)-th call of `run()`, with m fibers in the ready queue |
| `SchedulerLaws.JoinOfTerminated` | src/fiber_manager.cpp:204-223 | a `join` of a terminated fiber never fails its assertion, in any run |
| `SchedulerLaws.JoinOfLive` | src/fiber_manager.cpp:199-213 | a `join` of a live fiber leaves its caller WAITING inside it |
| `SchedulerLaws.ReleaseOrder` | src/detail/worker_fiber.cpp:59-73 | the end of a fiber brings its joiners to the front of the waiting queue, the last to register first, and keeps the order of all others |
| `Handshakes.PushInv` | src/fiber_manager.cpp:167-169 | a fiber readied before its push goes to the front of the waiting queue |
| `Handshakes.SetReadyFindsWaiting` | src/detail/worker_fiber.cpp:51-57 | `set_ready` by a notifier finds its target WAITING wherever the target has got to |
| `Handshakes.TestInv` | include/boost/fiber/detail/waiting_queue.hpp:167-168 | the test of the sweep keeps the protocol's invariant: it readies only fibers that no notifier can still find |
| `Handshakes.UnlinkInv` | include/boost/fiber/detail/waiting_queue.hpp:170-186 | so does the unlinking of the head |
| `Handshakes.NextInv` | src/fiber_manager.cpp:154-175 | every interleaved step of any number of waiters, notifiers and sweeps keeps the protocol's invariant |
| `Handshakes.RunInv` | src/fiber_manager.cpp:154-175 | after every interleaving |
| `Handshakes.HandshakeSafe` | src/fiber_manager.cpp:163-169 | `set_ready` finds WAITING, `set_waiting` overwrites no wakeup, and no notifier takes a fiber between its registration and its becoming WAITING |
| `Handshakes.NoLostWakeup` | src/fiber_manager.cpp:154-175 | a readied fiber stays READY and, once queued, in the READY prefix, until its own thread's sweep takes it |
| `Handshakes.NotifiedUntilSwept` | src/fiber_manager.cpp:154-175 | the same over whole runs |
| `Handshakes.UnlinkExactly` | include/boost/fiber/detail/waiting_queue.hpp:167-171 | for a fiber that passes the test, whatever other threads do before it is unlinked, it is the head then if and only if it was due, or was the head at the test, and no fiber of the queue has been readied since |
| `Handshakes.SweepSafe` | include/boost/fiber/detail/waiting_queue.hpp:158-194 | in every run from the start that readies no fiber of a queue while it is swept, the sweep of that queue is always at its head and goes on with the second entry |
| `HandshakeLaws.WaitSuspends` | src/fiber_manager.cpp:163-172 | a fiber that calls `wait` on a free primitive ends up WAITING in the queue of its thread and last on the list, with the spinlock free |
| `HandshakeLaws.FiberSteps` | src/fiber_manager.cpp:163-172 | each step of `wait` and of a timed sleep does its part: spinlock, registration, state, deadline, place |
| `HandshakeLaws.NotifyOneWakes` | src/condition.cpp:28-43 | from every state with a waiter, `notify_one` leaves the first one READY and, once queued, in the READY prefix, wherever it is in `wait`, and the others on the list in order |
| `HandshakeLaws.NotifyAllWakes` | src/condition.cpp:45-63 | `notify_all` does so for every waiter and empties the list |
| `HandshakeLaws.TestExactly` | src/fiber_manager.cpp:33-43 | the sweep finds a fiber if and only if it is READY, due or flagged; otherwise it ends and nothing has changed |
| `HandshakeLaws.UnlinkTakes` | include/boost/fiber/detail/waiting_queue.hpp:170-186 | the found fiber and no other leaves the queue, READY and without deadline |
| `HandshakeLaws.SweepRefines` | include/boost/fiber/detail/waiting_queue.hpp:158-194 | the sweep in single steps, if nobody interferes, takes exactly the longest prefix of READY, due or flagged fibers, as the sweep at once does |
| `HandshakeFailures.UnlinkFailureReached` | include/boost/fiber/detail/waiting_queue.hpp:170-171 | a run from the start after which the fiber that the sweep has found is not the head |
| `Mutexes.MutexObject.LockTurnOf` | src/mutex.cpp:43-61 | one turn of `lock`: acquire a free mutex, else register at the end |
| `Mutexes.MutexObject.TryLock` | src/mutex.cpp:94-113 | acquire a free mutex, else change nothing |
| `Mutexes.MutexObject.Unlock` | src/mutex.cpp:115-132 | free the mutex and ready the first registered fiber |
| `Mutexes.NextInv` | src/mutex.cpp:37-132 | every lock turn, try_lock and unlock keeps: LOCKED iff exactly one holder, `waiting_` holds exactly the blocked fibers not yet readied and each once, UNLOCKED with waiters only while a readied fiber has still to retry |
| `Mutexes.RunInv` | src/mutex.cpp:37-132 | after every run, whoever barges in |
| `Mutexes.AssertionsHold` | src/mutex.cpp:50-56 | the assertions on owner, registration and unlocking hold in every reachable state: a fiber that starts or resumes `lock` is not registered |
| `Mutexes.WaitersAdvance` | src/mutex.cpp:122-127 | each unlock brings a registered fiber exactly one place forward |
| `Mutexes.WakesInOrder` | src/mutex.cpp:122-131 | the (k+1)-th unlock readies the fiber at index k |
| `Mutexes.MutexCalls` | src/mutex.cpp:37-132 | after every run of a new mutex an attempt makes its caller the only holder if and only if nobody holds it; otherwise `lock` registers it last and `try_lock` leaves no trace; `unlock` leaves no holder |
| `Mutexes.LockExactly` | src/mutex.cpp:43-61 | `lock` returns if and only if nobody holds the mutex; otherwise its caller is registered last; nobody else is concerned |
| `Mutexes.TryLockExactly` | src/mutex.cpp:94-113 | `try_lock` answers true and acquires if and only if nobody holds the mutex, else nothing changes |
| `Mutexes.UnlockExactly` | src/mutex.cpp:115-132 | afterwards nobody holds the mutex and exactly the first registered fiber is readied |
| `Mutexes.ServedInOrder` | src/mutex.cpp:43-132 | if nobody barges in, the mutex passes from the holder to every registered fiber in the order of registration |
| `RecursiveMutexes.RecursiveMutexObject.TryEnter` | src/recursive_mutex.cpp:108-133 | a free mutex or one's own is entered once more, any other is left alone |
| `RecursiveMutexes.RecursiveMutexObject.LockTurn` | src/recursive_mutex.cpp:45-69 | the same, or registration at the end |
| `RecursiveMutexes.RecursiveMutexObject.Unlock` | src/recursive_mutex.cpp:135-156 | one level less; the last one frees the mutex and readies the first registered fiber |
| `RecursiveMutexes.NextInv` | src/recursive_mutex.cpp:39-156 | every step keeps: `count_` is the owner's acquisitions minus its unlocks, everybody else's is 0, UNLOCKED iff it is 0, and no wakeup is lost |
| `RecursiveMutexes.RunInv` | src/recursive_mutex.cpp:39-156 | after every run |
| `RecursiveMutexes.OnlyLastUnlockWakes` | src/recursive_mutex.cpp:144-155 | while a fiber is inside no other enters, and exactly the unlock that brings the count to 0 readies a fiber |
| `RecursiveMutexes.EnterExactly` | src/recursive_mutex.cpp:39-133 | `lock` and `try_lock` take their caller one level deeper if and only if nobody else is inside; otherwise `try_lock` leaves no trace and `lock` registers it last |
| `RecursiveMutexes.LeaveExactly` | src/recursive_mutex.cpp:135-156 | `unlock` takes its caller one level up and nobody else, and from the last level readies exactly the first registered fiber |
| `Conditions.ConditionObject.Register` | include/boost/fiber/condition.hpp:83-86 | appends a fiber that is not registered yet |
| `Conditions.ConditionObject.NotifyOne` | src/condition.cpp:28-43 | takes the first waiter, if any |
| `Conditions.ConditionObject.NotifyAll` | src/condition.cpp:45-63 | the loop readies all waiters in order of registration and leaves none |
| `Conditions.MonitorNextInv` | include/boost/fiber/condition.hpp:72-102 | every step of mutex and condition keeps: removals follow registration order, a fiber inside `wait` does not hold the mutex, returns answer removals one to one |
| `Conditions.MonitorRunInv` | include/boost/fiber/condition.hpp:72-102 | after every run |
| `Conditions.WaitReturnsNotifiedAndHolding` | include/boost/fiber/condition.hpp:96-101 | `wait` returns only after a notification removed the fiber, once per removal, and the fiber then is the mutex's only holder |
| `Conditions.NotifyExactly` | src/condition.cpp:28-63 | `wait` gives the mutex up and sleeps last; `notify_one` gets exactly the longest sleeper up, `notify_all` everybody; calls on the mutex are those of the mutex |
| `Conditions.SleepersAdvance` | src/condition.cpp:34-38 | without `notify_all`, a fiber at index k sleeps through the first k calls of `notify_one`, whatever else happens, and gets one place nearer with each |
| `Conditions.NotifiedReturns` | include/boost/fiber/condition.hpp:96-101 | the next call gets it up, and when it finds the mutex free its `wait` returns with the mutex |
| `Barriers.BarrierObject.Create` | src/barrier.cpp:21-33 | a barrier unless the count is zero |
| `Barriers.BarrierObject.Arrive` | src/barrier.cpp:38-47 | counts down, or flips the cycle and starts over |
| `Barriers.EveryoneWaits` | src/barrier.cpp:40-46 | the last arrival finds every other participant waiting for the open generation |
| `Barriers.BarrierNextInv` | src/barrier.cpp:35-55 | every step of at most `initial_` fibers keeps the refinement and the tallies |
| `Barriers.BarrierRunInv` | src/barrier.cpp:35-55 | after every run |
| `Barriers.CycleRefinesGeneration` | src/barrier.cpp:39-53 | a waiter's saved cycle equals `cycle_` iff its generation is still open, iff it is asleep |
| `Barriers.OneLeaderPerGeneration` | src/barrier.cpp:40-54 | each completed generation had exactly `initial_` arrivals, one true return, `initial_` - 1 others; nobody left the open one |
| `BarrierProgress.TakeExactly` | src/barrier.cpp:37 | a call of `wait` begins by taking the mutex or queueing for it, and changes nothing else |
| `BarrierProgress.CompleteExactly` | src/barrier.cpp:40-47 | the arrival that `initial_` - 1 others preceded completes the generation: it returns true and gets every sleeper up |
| `BarrierProgress.SleepExactly` | src/barrier.cpp:38-52 | any other arrival sleeps, last |
| `BarrierProgress.LeaveExactly` | src/barrier.cpp:49-54 | a waiter that has the mutex again finds its generation completed and returns false |
| `BarrierProgress.StuckExactly` | src/barrier.cpp:35-55 | no step is left if and only if every participant sleeps |
| `BarrierProgress.NeverStuck` | src/barrier.cpp:35-55 | with exactly `initial_` participants some participant can go on after every run |
| `BarrierLimits.SleepAgain` | src/barrier.cpp:49-52 | a readied waiter that finds the cycle it saved goes back to sleep |
| `BarrierLimits.LeaveOneBehind` | src/barrier.cpp:35-55 | a generation can complete and all but one of its waiters return |
| `BarrierLimits.TooManyFibers` | src/barrier.cpp:35-55 | with more than `initial_` >= 2 fibers some run puts a waiter to sleep for a completed generation |
| `BarrierLimits.EveryoneReturns` | src/barrier.cpp:35-55 | for every size, `initial_` fibers can meet and all return |
| `BarrierLimits.FaithfulExactly` | src/barrier.cpp:35-55 | in all runs the boolean stands for the generation if and only if there are at most `initial_` fibers or `initial_` is 1 |
| `QueueNodes.Append` | include/boost/fiber/bounded_queue.hpp:206-208 | the dummy node receives the item and a new dummy follows: one item more, the others as before |
| `QueueNodes.ChainTail` | include/boost/fiber/bounded_queue.hpp:132-138 | without its first node the list holds the remaining items |
| `BoundedQueues.BoundedQueue.Create` | include/boost/fiber/bounded_queue.hpp:141-160 | an empty open queue unless the watermarks are out of order |
| `BoundedQueues.BoundedQueue.IsEmpty` | include/boost/fiber/bounded_queue.hpp:119-120 | head equals tail iff there is no item |
| `BoundedQueues.BoundedQueue.PopHead` | include/boost/fiber/bounded_queue.hpp:132-138 | the first item leaves and `count_` still is the number of items |
| `BoundedQueues.BoundedQueue.Append` | include/boost/fiber/bounded_queue.hpp:206-210 | the item is the last one, `count_` follows, the first registered consumer is readied |
| `BoundedQueues.BoundedQueue.Push` | include/boost/fiber/bounded_queue.hpp:197-213 | closed, registered or appended, as `PushCall` says |
| `BoundedQueues.BoundedQueue.PushTurnOf` | include/boost/fiber/bounded_queue.hpp:204-212 | the retry, which does not look at `closed` |
| `BoundedQueues.BoundedQueue.TryPush` | include/boost/fiber/bounded_queue.hpp:305-327 | closed, full or appended |
| `BoundedQueues.BoundedQueue.NotifyProducers` | include/boost/fiber/bounded_queue.hpp:435-443 | above the low watermark nobody is readied, at or below it one producer if the watermarks are equal, else all |
| `BoundedQueues.BoundedQueue.TryPop` | include/boost/fiber/bounded_queue.hpp:426-445 | the first item and the producers readied, or closed, or empty |
| `BoundedQueues.BoundedQueue.PopTurnOf` | include/boost/fiber/bounded_queue.hpp:353-376 | one turn of `pop`: the first item if there is one; else registered on a closed queue, and a failed assertion on an open one |
| `BoundedQueues.BoundedQueue.Close` | include/boost/fiber/bounded_queue.hpp:109-114 | closed, every consumer and every producer readied |
| `BoundedQueues.NextInv` | include/boost/fiber/bounded_queue.hpp:197-213 | every push, retry, try_push, pop turn, try_pop and close keeps the invariant of contents, producers and consumers |
| `BoundedQueues.RunInv` | include/boost/fiber/bounded_queue.hpp:197-445 | after every run; the watermarks never change |
| `BoundedQueues.QueueRuns` | include/boost/fiber/bounded_queue.hpp:426-445 | the high watermark bounds the contents; pushes in order are pops in order followed by the contents; producers sleep only above the low watermark or, with equal watermarks, while free slots do not exceed the producers on their way; consumers sleep only on a closed queue |
| `BoundedQueues.PushExactly` | include/boost/fiber/bounded_queue.hpp:122-123 | `push` on an open queue succeeds if and only if pushes minus pops are below the high watermark, whatever the low one; on a full queue it registers last, a closed one it leaves alone |
| `BoundedQueues.RetryExactly` | include/boost/fiber/bounded_queue.hpp:204-212 | its continuation does the same without a look at `closed` |
| `BoundedQueues.SleepsOnlyWhenFull` | include/boost/fiber/bounded_queue.hpp:204 | nobody goes to sleep in `push` but its caller, and only on a full queue |
| `BoundedQueues.FillsUp` | include/boost/fiber/bounded_queue.hpp:197-213 | a new queue takes any values up to its high watermark, by `push` or `try_push`, in order and without blocking anybody; the next `push` blocks, the next `try_push` finds it full |
| `BoundedQueues.TryPushExactly` | include/boost/fiber/bounded_queue.hpp:305-327 | closed, full or taken, told apart by the history |
| `BoundedQueues.TryPopExactly` | include/boost/fiber/bounded_queue.hpp:426-445 | the oldest value if there is one, otherwise closed or empty; producers are readied by the watermarks |
| `BoundedQueues.PopExactly` | include/boost/fiber/bounded_queue.hpp:353-376 | the oldest value if there is one; on an empty queue it sleeps if that is closed and fails if it is open |
| `BoundedQueues.CloseExactly` | include/boost/fiber/bounded_queue.hpp:109-114 | closed with its contents, and everybody who sleeps in `push` or `pop` is readied |
| `BoundedQueues.ClosedPushes` | include/boost/fiber/bounded_queue.hpp:202-204 | after `close` the pushed history grows by exactly the number of blocked producers that have left |
| `BoundedQueues.ClosedButPushes` | include/boost/fiber/bounded_queue.hpp:202-204 | a closed queue with a blocked producer and room for one can be drained until a push succeeds |
| `BoundedQueues.NoPushAfterCloseExact` | include/boost/fiber/bounded_queue.hpp:202-204 | no push succeeds after `close` if and only if nobody was blocked in `push`, or the high watermark is 0 |
| `BoundedQueues.PushAfterCloseReached` | include/boost/fiber/bounded_queue.hpp:202-204 | a run from a new queue that closes it and then pushes |
| `BoundedQueues.PopWaitsForEverExactly` | include/boost/fiber/bounded_queue.hpp:357-360 | on a closed empty queue nothing is popped and no `pop` returns in any run, if and only if nobody was blocked in `push`, or the high watermark is 0 |
| `BoundedQueues.PopFailuresReached` | include/boost/fiber/bounded_queue.hpp:357-360 | `pop` fails its assertion on a new queue, and waits for ever on one that was closed |
| `UnboundedQueues.UnboundedQueue.Push` | include/boost/fiber/unbounded_queue.hpp:146-159 | closed, or appended with one consumer readied |
| `UnboundedQueues.UnboundedQueue.PopTurnOf` | include/boost/fiber/unbounded_queue.hpp:176-190 | one turn of `pop`: registered, closed, or the first item |
| `UnboundedQueues.UnboundedQueue.TryPop` | include/boost/fiber/unbounded_queue.hpp:231-241 | closed, empty, or the first item |
| `UnboundedQueues.UnboundedQueue.Close` | include/boost/fiber/unbounded_queue.hpp:104-108 | closed, every consumer readied |
| `UnboundedQueues.NextInv` | include/boost/fiber/unbounded_queue.hpp:101-196 | every push, pop turn, try_pop and close keeps the invariant of contents and consumers |
| `UnboundedQueues.RunInv` | include/boost/fiber/unbounded_queue.hpp:101-241 | after every run |
| `UnboundedQueues.QueueRuns` | include/boost/fiber/unbounded_queue.hpp:146-196 | pushes in order are pops in order followed by the contents; while consumers sleep there are no more items than readied consumers on their way |
| `UnboundedQueues.PushExactly` | include/boost/fiber/unbounded_queue.hpp:146-159 | an open queue takes every value and readies the consumer that sleeps longest; a closed one is left alone |
| `UnboundedQueues.PopExactly` | include/boost/fiber/unbounded_queue.hpp:176-190 | the oldest value if there is one; an open empty queue puts the caller to sleep, last; `closed` if and only if the queue is closed and empty |
| `UnboundedQueues.TryPopExactly` | include/boost/fiber/unbounded_queue.hpp:231-241 | the oldest value if there is one, otherwise closed or empty |
| `UnboundedQueues.CloseExactly` | include/boost/fiber/unbounded_queue.hpp:104-108 | closed with its contents, and every consumer is readied |
| `UnboundedQueues.PopWaits` | include/boost/fiber/unbounded_queue.hpp:180 | a `pop` begun on an open empty queue neither returns nor is readied before a later push or `close` |
| `UnboundedQueues.ConsumersAdvance` | include/boost/fiber/unbounded_queue.hpp:180 | a consumer at index k sleeps through the first k pushes, whatever else but `close` happens, one place nearer with each |
| `UnboundedQueues.ConsumerServed` | include/boost/fiber/unbounded_queue.hpp:155-190 | the next push readies it, and its call then returns a value |
| `UnboundedQueues.ConsumersRegister` | include/boost/fiber/unbounded_queue.hpp:180 | any fibers that call `pop` on a new queue sleep there in the order of their calls |
| `UnboundedQueues.ClosedRuns` | include/boost/fiber/unbounded_queue.hpp:104-108 | after `close` the pushed history is frozen, nobody registers again, everybody still in `pop` is readied |
| `UnboundedQueues.DrainClosed` | include/boost/fiber/unbounded_queue.hpp:180-182 | popping a closed queue gives exactly the remaining items in order and then `closed` for ever |
| `WorkStealing.WorkStealingQueue.Push` | examples/workstealing_queue.hpp:33-45 | appends a fiber that is not queued; the only other one the assertion admits, the last entry, is linked to itself, and the list is broken exactly then |
| `WorkStealing.WorkStealingQueue.Pop` | examples/workstealing_queue.hpp:47-57 | removes the head, null iff there is none |
| `WorkStealing.WorkStealingQueue.Detach` | examples/workstealing_queue.hpp:67-84 | head and tail are right whether the fiber was alone, first, last or between |
| `WorkStealing.WorkStealingQueue.Steal` | examples/workstealing_queue.hpp:59-92 | the first fiber without affinity leaves, the others keep their order; null iff every queued fiber is bound |
| `WorkStealing.NextInv` | examples/workstealing_queue.hpp:33-92 | every push, pop and steal keeps the order and counting of the histories |
| `WorkStealing.RunInv` | examples/workstealing_queue.hpp:33-92 | after every run |
| `WorkStealing.HistoryOrder` | examples/workstealing_queue.hpp:33-92 | bound fibers leave through `pop_` only and in push order, the others in push order whoever takes them, every push is answered at most once |
| `WorkStealing.TakesExactly` | examples/workstealing_queue.hpp:33-98 | `pop` takes the oldest entry and `steal` the oldest without affinity whenever there is one, and nothing else |
| `SharedStates.FirstOutcomeStays` | include/boost/fiber/future/detail/shared_state.hpp:53-105 | setting succeeds iff there was no outcome and then `get` gives what was set, a null exception pointer included; otherwise the outcome stays |
| `SharedStates.SharedState.SetValue` | include/boost/fiber/future/detail/shared_state.hpp:61-70 | stores the value and readies every waiter, or fails without effect |
| `SharedStates.SharedState.SetException` | include/boost/fiber/future/detail/shared_state.hpp:96-105 | the same for an exception pointer, which may be null |
| `SharedStates.SharedState.OwnerDestroyedOf` | include/boost/fiber/future/detail/shared_state.hpp:53-59 | breaks the promise unless there is an outcome |
| `SharedStates.SharedState.WaitTurnOf` | include/boost/fiber/future/detail/shared_state.hpp:120-125 | one turn of `wait`: returns, or registers |
| `SharedStates.SharedState.Outcome` | include/boost/fiber/future/detail/shared_state.hpp:115-117 | the exception if there is one, else the value if there is one, else an empty optional is read |
| `SharedStates.SharedState.Release` | include/boost/fiber/future/detail/shared_state.hpp:268-272 | one reference less; deallocation iff it was the last |
| `FutureObjects.HandleObject.Swap` | include/boost/fiber/future/promise.hpp:124-129 | exchanges pointer and `obtained_`, also with itself |
| `FutureObjects.StateTable.Drop` | include/boost/fiber/future/promise.hpp:75-80 | the end of a promise breaks its state, the end of any handle releases it, no other state changes |
| `FutureObjects.StateTable.SetOutcome` | include/boost/fiber/future/detail/shared_state.hpp:176-220 | completes the state or reports that it is complete; no other state changes |
| `FutureObjects.StateTable.WaitOn` | include/boost/fiber/future/detail/shared_state.hpp:237-243 | one turn of `wait`; no other state changes |
| `FutureObjects.Program.NewPromise` | include/boost/fiber/future/promise.hpp:43-58 | on objects, pointers and counters is the model's `NewPromise` |
| `FutureObjects.Program.Swap` | include/boost/fiber/future/promise.hpp:124-129 | is the model's `Swap` |
| `FutureObjects.Program.MoveNew` | include/boost/fiber/future/promise.hpp:83-91 | an empty handle swapped with the other is the model's `MoveNew` |
| `FutureObjects.Program.MoveAssign` | include/boost/fiber/future/promise.hpp:93-101 | construct a temporary, swap, destroy it: the model's `MoveAssign`, self-assignment included |
| `FutureObjects.Program.CopyNew` | include/boost/fiber/future/future.hpp:516-521 | is the model's `CopyNew` |
| `FutureObjects.Program.CopyAssign` | include/boost/fiber/future/future.hpp:577-583 | is the model's `CopyAssign`, also between handles of one state |
| `FutureObjects.Program.Share` | include/boost/fiber/future/future.hpp:1035-1049 | is the model's `Share`, an error iff there is no state |
| `FutureObjects.Program.GetFuture` | include/boost/fiber/future/promise.hpp:137-150 | is the model's `GetFuture`; fails iff the future was taken or there is no state, with the code's error |
| `FutureObjects.Program.SetOutcome` | include/boost/fiber/future/promise.hpp:152-204 | is the model's `SetOutcome`, with the code's errors |
| `FutureObjects.Program.Destroy` | include/boost/fiber/future/promise.hpp:75-80 | is the model's `Destroy` |
| `FutureObjects.Program.Wait` | include/boost/fiber/future/future.hpp:149-157 | is the model's `Wait`, and gives the outcome if there is one; the assertion that the fiber is not registered yet follows from the invariant |
| `FutureObjects.Program.Get` | include/boost/fiber/future/future.hpp:130-147 | is the model's `Get`, and gives the outcome if there is one; afterwards the future has no state |
| `FutureObjects.Program.Retry` | include/boost/fiber/future/detail/shared_state.hpp:120-125 | is the model's `Retry`: the state is ready, the call gives its outcome, and the local pointer ends with it |
| `FutureRuns.SwapInv` | include/boost/fiber/future/promise.hpp:124-129 | swapping any two handles keeps every state's books |
| `FutureRuns.DropInv` | include/boost/fiber/future/promise.hpp:75-80 | so does the end of a handle, which breaks the state if it was its promise |
| `FutureRuns.AssignInv` | include/boost/fiber/future/promise.hpp:93-101 | move and copy assignment keep the invariant, self-assignment included |
| `FutureRuns.GetFutureInv` | include/boost/fiber/future/promise.hpp:137-150 | `get_future` keeps it: at most one future is ever issued |
| `FutureRuns.RetryInv` | include/boost/fiber/future/detail/shared_state.hpp:120-125 | a readied fiber finds the outcome: its loop never goes round twice |
| `FutureRuns.NextInv` | include/boost/fiber/future/future.hpp:56-158 | every operation keeps the invariant |
| `FutureRuns.RunInv` | include/boost/fiber/future/future.hpp:56-158 | after every program |
| `FutureRuns.OutcomeFixed` | include/boost/fiber/future/detail/shared_state.hpp:47-105 | an outcome is the same after every run, whatever becomes of the handles |
| `FutureRuns.CompletionDecides` | include/boost/fiber/future/detail/shared_state.hpp:53-105 | the outcome is what the completing step says: what was set, or the broken promise |
| `FutureLaws.SetOutcomeExactly` | include/boost/fiber/future/promise.hpp:152-204 | on a promise with a state, afterwards there is an outcome, the one asked for unless there was one before; every fiber that waits for it may go on; no other state, handle or call changes |
| `FutureLaws.SetOutcomeServes` | include/boost/fiber/future/detail/shared_state.hpp:53-105 | after the first outcome is set, in every later state of every program, each `wait` or `get` on that state returns at once, each suspended one may go on and returns, and what they read is that outcome |
| `FutureLaws.GivenExactly` | include/boost/fiber/future/detail/shared_state.hpp:47-105 | what a state gives after any step: what it gave before, else what was set through its promise, else the broken promise if that ended, else nothing |
| `FutureLaws.WaitExactly` | include/boost/fiber/future/detail/shared_state.hpp:120-125 | `wait` returns at once and leaves no trace if and only if there is an outcome; otherwise its fiber is suspended, last |
| `FutureLaws.GetExactly` | include/boost/fiber/future/future.hpp:130-147 | so does `get`, and the future has no state afterwards |
| `FutureLaws.RetryExactly` | include/boost/fiber/future/detail/shared_state.hpp:120-125 | a suspended call that goes on finds the outcome, ends with its local pointer, and concerns no other |
| `FutureLaws.ConstructsExactly` | include/boost/fiber/future/future.hpp:56-128 | a new handle refers to the state of the one it was moved, copied, shared or obtained from; moving and sharing leave that without a state; no other handle changes |
| `FutureLaws.MoveAssignExactly` | include/boost/fiber/future/promise.hpp:93-101 | the target has what the source had and the source has no state; self-assignment changes no handle |
| `FutureLaws.AssignsExactly` | include/boost/fiber/future/promise.hpp:124-129 | swapping trades contents, copy assignment gives the target what the source has, the end of a handle removes it and no other |
| `FutureRuns.Unique` | include/boost/fiber/future/promise.hpp:75-150 | two promises never own one state, nor two futures |
| `FutureRuns.ProgramRuns` | include/boost/fiber/future/detail/shared_state.hpp:265-272 | after every program each state has at most one promise, at most one issued future, a use count equal to its handles, no waiters beside an outcome, and a promise as long as it has no outcome |

## Left out

- What a build without assertions does after one has failed. In particular the rest of `fiber::join` (src/fiber.cpp:83-90), which deallocates the target and rethrows its exception, is modelled neither after a join that succeeded nor after one that failed.
- Coroutines, stacks and the trampoline: a resume is "the active fiber performs some calls, then suspends or ends"; suspending is control returning to the main context.
- Memory: deallocation of detached fibers, of queue nodes and of shared states without handles (a state without handles stays in the table, unreachable).
- Blocking from the main context: the branches of `lock`, `wait` and `join` that loop on `run()` until a main-context notification is set.
- Timed waits in layers 2 and 3, `timed_mutex`, `recursive_timed_mutex`, and the timed operations of queues and futures.
- Interrupting a fiber that is blocked in a mutex, condition, barrier, queue or future.
- Mutexes.MutexObject.TryLock: leaves out the yield after a failed attempt, which is a scheduler step of its own.
- RecursiveMutexes.RecursiveMutexObject.TryEnter: the same.
- BoundedQueues.BoundedQueue.TryPush: leaves out the handler that closes the queue when copying the value throws.
- BoundedQueues.BoundedQueue.PopTurnOf: leaves out the handler that closes the queue when moving the value throws.
- UnboundedQueues.UnboundedQueue.PopTurnOf: the same.
- Queues used from several threads, and the pointer specialisations of both queues.
- Changing the affinity of a fiber while it is in the work-stealing queue; the other parts of the work-stealing scheduler.
- `shared_state::reset`, `packaged_task`, `async`, and the reference and void specialisations of the future classes.
- Assigning a `future` directly to a `shared_future`, which would only repeat `share` and move assignment.
- `migrate`, `set_sched_algo`, priorities, the destructor of the manager, fiber-specific storage and the thread-local access to the scheduler.
- The scheduling algorithm is fixed to round robin, whose queue is a field of `Queues`.
- `phead_` and `ptail_` are one reference to the queue object whose `head_` and `tail_` they point to.
- `next_wakeup` adds the interval to the clock without the overflow of the clock's representation.
- A fiber that locks a plain mutex it holds registers and blocks for ever, in the model as in the code.
- `promise`, `future` and `shared_future` are one class with a sort, since their pointer operations are the same code; that a call is applied to the right class is a condition on the call.
- FiberManagers.FiberManager.Notify: is not defined for the running fiber, which `set_ready` would leave READY in no queue (`SetReadyExact`).
- FiberManagers.FiberManager.Interrupt: the same, for a fiber that interrupts itself.
- FiberManagers.FiberManager.WaitUntil: does not model the return value, which compares the clock after resumption with the deadline.
