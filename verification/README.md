# Verified models of the furble simulator core

These modules model the parts of the repository where most can go wrong, and prove what they promise.

**The simulated FreeRTOS kernel** (`sim/freertos.cpp`, `sim/clock.h`, `include/FurbleTime.h`). All shared state changes under one lock, so
each locked region is one atomic step. `KernelState` holds the state as one value, with a program counter per thread for the places between
regions; fields marked *(history)* only record what happened. `KernelSteps` gives each region as a function, `KernelMachine` the step relation
(34 kinds of step, by any thread, in any order) and whole runs, `KernelInvariant` what holds in every reachable state. `QueueSafety`,
`MutexSafety` and `KernelSafety` prove that every step keeps it. `KernelEffects` says what each step does to what a caller can see - contents,
counts, owners, waits and results - in the fields of the state. On top of that stand the promises a caller relies on: `KernelDispatch`
(who runs next), `KernelLocking` (the mutex), `KernelQueues` (conservation and the true length bound), `KernelWakeup` and
`KernelNoLostWakeup` (no lost wake-up, and exactly which steps lose one), `KernelJoins` (joined once), `KernelTime` (timed waits across
the wrap of the 32-bit clock), `KernelProgress` (what no step ever does), and `KernelWitness` (short runs from boot that show where a promise
ends). `Scheduler` is the kernel as it is written: a class whose methods update the fields in place, with the source's loops, each proved to
turn the state into what its region's function says; `SchedulerRuns` takes any run from boot by calls on that object.

**The fuzzer's phase machine** (`FuzzMachine`) and its bounded sampler (`BoundedRandom`). **The CRC-32** both encoders use (`Crc`), proved equal to
the polynomial division the standard defines (`Division`, `CrcDivision`); the crash record it protects (`CrashRecord`); and the PNG writer (`Png`),
read back by a decoder written from RFC 1950, RFC 1951 and RFC 2083 that shares no checksum code with it. **The preference store**
(`Preferences`): a binary image (`PreferenceImage`), the map in memory, and sessions that edit both or neither; and whole histories of it with failed saves and restarts
(`PreferenceHistory`). **Calendar arithmetic** (`Calendar`). **The companion
rig's frames** (`Frames`). **The configuration overlay** (`Overlay`). `Selection` and `Octets` hold what these share.

Five places where the code does less than its reader might expect are stated as results, each with a run from boot that shows it and the exact
condition under which the promise holds: a queue can exceed its capacity (`KernelQueues.CapacityExceededIff`, `KernelQueues.CapacityKeptIff`; with a
second test of the capacity it never does, `KernelQueues.RetestedRunsFit`), a stopped receiver can lose a wake-up and a queue reset can strand blocked
senders (`KernelNoLostWakeup.StepKeepsWakeupsIff`: no other step does either), waits longer than 2^31 ticks end early
(`KernelTime.TooLongTimesOutAtOnceIff`), and a clock step longer than that can pass a deadline without ending the wait
(`KernelTime.TimesOutIff`). Preference namespaces are numbered per process (`Preferences.HandlesAgreeIff`).

`dafny verify dfyconfig.toml` checks everything.

## Model

| member | source | states |
|---|---|---|
| `Selection.Select` | sim/freertos.cpp:191-207 | The entry a selection scan keeps is in the running and no candidate beats it; it keeps none only if nobody is in the running |
| `Selection.SelectIsBest` | sim/freertos.cpp:356-366 | With distinct stamps the scan keeps an entry exactly when that entry beats every other one |
| `Selection.SelectIgnoresScanOrder` | sim/freertos.cpp:193-206 | Scanning the same candidates in any other order keeps the same one |
| `KernelSteps.NextRunnable` | sim/freertos.cpp:191-207 | Whoever is chosen for the turn is ready to run |
| `KernelSteps.QueueWaiter` | sim/freertos.cpp:356-371 | Whoever is woken is a registry task blocked on that queue for that reason |
| `KernelDispatch.OneTurn` | sim/freertos.cpp:186-218 | After every run from boot the turn holder is ready, and two tasks are in firmware code together only if one is parked or stopping |
| `KernelDispatch.DispatchPicksTheBest` | sim/freertos.cpp:191-218 | After every run from boot a free turn goes to exactly the ready task of highest priority and, among equals, the earliest in the queue, whatever the scan order, and stays free exactly if no task is runnable, unblocked, unparked and not stopping |
| `KernelDispatch.QueueWakesTheBest` | sim/freertos.cpp:356-371 | After every run from boot a queue wakes exactly the blocked task of highest priority and, among equals, the one blocked longest, and nobody exactly if nobody waits |
| `KernelDispatch.PreemptionLeavesNoneAhead` | sim/freertos.cpp:279-292 | After every run from boot: when a turn holder sends, receives, resumes such a call, resets a queue, gives a notification, unlocks a mutex or creates a task, no ready task has a higher priority than whoever holds the turn afterwards; the caller loses it only to a strictly higher priority and then queues up anew |
| `KernelDispatch.YieldReachesPeers` | sim/freertos.cpp:934-953 | A zero-tick delay gives the turn to another task whenever a ready one of at least the same priority exists |
| `KernelSafety.StepKeeps` | sim/freertos.cpp:147-1397 | Every step of every thread keeps the kernel invariant: turns, waits, stamps, mutexes, joins and queues |
| `KernelSafety.InitialOk` | sim/freertos.cpp:119-127 | The state before the first task is created satisfies the invariant |
| `KernelSafety.RunKeeps` | sim/freertos.cpp:147-1397 | Every run keeps the invariant |
| `KernelSafety.Reachable` | sim/freertos.cpp:147-1397 | The invariant holds in every reachable state |
| `QueueSafety.SendKeeps` | sim/freertos.cpp:540-572 | Sending keeps the invariant |
| `QueueSafety.ReceiveKeeps` | sim/freertos.cpp:1286-1315 | Receiving keeps the invariant |
| `QueueSafety.ResumeKeeps` | sim/freertos.cpp:410-457 | A blocked call that resumes keeps the invariant, on each of its ways out |
| `QueueSafety.DeleteQueueKeeps` | sim/freertos.cpp:1352-1384 | Deleting a queue keeps the invariant |
| `QueueSafety.FreeQueueKeeps` | sim/freertos.cpp:1383-1396 | Releasing a drained queue's memory keeps the invariant: nobody is left inside a call on it |
| `MutexSafety.LockKeeps` | sim/freertos.cpp:707-732 | Taking or queueing for a mutex keeps the invariant |
| `MutexSafety.UnlockKeeps` | sim/freertos.cpp:765-769 | Unlocking keeps the invariant |
| `MutexSafety.LockReturnKeeps` | sim/freertos.cpp:747-754 | Returning from a granted lock keeps the invariant |
| `MutexSafety.LockCancelKeeps` | sim/freertos.cpp:734-753 | Abandoning a lock keeps the invariant, granted or not |
| `KernelProgress.StepOnward` | sim/freertos.cpp:147-1397 | No step changes a priority, takes a lifecycle or a claim back, shortens a history, or touches another thread's wait other than by releasing it with the place it had; each way for a wait to end belongs to certain steps only |
| `KernelNoLostWakeup.StepKeepsWakeupsIff` | sim/freertos.cpp:147-1397 | Of all steps of all threads exactly two kinds break the wake-up promise: a stopping task that leaves its wait with a wake-up somebody else still needs, and a reset that frees more slots than the woken senders and the one it wakes will fill |
| `KernelNoLostWakeup.WakeupsKeptFromBootIff` | sim/freertos.cpp:147-1397 | From boot the promise holds after every step of a run exactly if no step of it is one of those two |
| `KernelNoLostWakeup.NoLostWakeup` | sim/freertos.cpp:398-457 | After every run from boot that loses none, stops and deletions included: a blocked receiver means items at most the woken receivers, a blocked sender means free slots at most the woken senders, nobody is blocked on a deleted queue, and a task blocked on a notification has none |
| `KernelNoLostWakeup.QuietRunsLoseNothing` | sim/freertos.cpp:398-457 | A run from boot in which nobody is stopped and no queue reset loses no wake-up, queue deletions included |
| `KernelWakeup.StepWakes` | sim/freertos.cpp:356-388 | Every step but a stopping task's resume and a reset keeps the promise: while a task is blocked on a queue, the queue is not deleted and its supply is spoken for by woken tasks |
| `KernelWakeup.DeleteQueueWakes` | sim/freertos.cpp:1352-1384 | A deletion leaves nobody blocked on the queue and every other queue's waiters served |
| `KernelNoLostWakeup.NotificationsCounted` | sim/freertos.cpp:973-1018 | After every run gives equal the pending count plus the amounts cleared plus the single decrements plus 2^32 for each wrap, and nobody is blocked on a notification it has |
| `KernelNoLostWakeup.StoppedWakeupLostIff` | sim/freertos.cpp:1296-1304 | A stopping task that leaves its wait breaks the wake-up promise exactly when it had been woken, another task is blocked for the same supply, and nothing beyond the woken tasks' share is left |
| `KernelNoLostWakeup.ResetKeepsWakeupsIff` | sim/freertos.cpp:1333-1345 | A queue reset keeps the promise exactly when at most one sender was blocked or the woken senders and the one it wakes fill the queue |
| `KernelWitness.StopLosesWakeup` | sim/freertos.cpp:1296-1304 | A run from boot after which an item is queued, a receiver is blocked and nobody is on the way |
| `KernelWitness.ResetStrandsSender` | sim/freertos.cpp:1339-1340 | A run from boot after which two slots are free, a sender is blocked and one woken sender is on the way |
| `KernelQueues.QueuesConserve` | sim/freertos.cpp:540-572 | After every run accepted items are the received, discarded and queued ones; with back sends and no discard in order; length plus woken senders is at most capacity plus tasks; a released queue has no users |
| `KernelQueues.CapacityExceededIff` | sim/freertos.cpp:551-566 | A queue within its capacity is pushed beyond it exactly by a woken sender that resumes when the queue is full again |
| `KernelQueues.RetestedRunsFit` | sim/freertos.cpp:551-566 | With the capacity tested again when a sender resumes, no queue exceeds its capacity after any run from boot, and the kernel invariant holds |
| `KernelQueues.CapacityKeptIff` | sim/freertos.cpp:551-566 | The kernel as it is stays within capacity throughout a run exactly if the re-test would refuse no push in it; the run is then one of the corrected kernel, with the same end |
| `KernelNoLostWakeup.RetestKeepsWakeups` | sim/freertos.cpp:551-566 | The re-test costs no wake-up: the corrected kernel breaks the wake-up promise in the same two kinds of step only |
| `KernelWitness.CapacityCanBeExceeded` | sim/freertos.cpp:551-566 | A run from boot after which a queue of capacity 1 holds two items |
| `KernelLocking.LockedMeansOneOwner` | sim/freertos.cpp:674-769 | After every run a mutex is locked exactly when some thread owns it, granted or held, and then one does |
| `KernelLocking.WaiterListSound` | sim/freertos.cpp:655-754 | After every run the waiter list is strictly decreasing in arrival order, names a thread once, holds exactly the threads waiting without a grant, and holds only stopping tasks if the mutex is free |
| `KernelLocking.OwnershipStays` | sim/freertos.cpp:707-769 | A held mutex leaves its holder only by the holder's unlock, a grant only by the lock's return or cancellation |
| `KernelLocking.ReleaseHandsOver` | sim/freertos.cpp:674-753 | An unlock, or a cancelled lock() that had been granted the mutex, grants it to exactly the waiting thread that is not a stopping task and has the highest priority, host threads counting as 0, and among equals waits longest; it unlinks only that one, and leaves the mutex free exactly if there is none |
| `KernelLocking.ServedReady` | sim/freertos.cpp:688-700 | A task that is handed the mutex is ready to run again, in the place it has had since it began to wait |
| `KernelLocking.CancelStrandsNothing` | sim/freertos.cpp:734-753 | A thread that abandons lock() is in no waiter list and owns no grant; a grant it had is passed on, or the mutex is free with only stopping tasks waiting |
| `KernelLocking.BoundedBypass` | sim/freertos.cpp:674-727 | While a thread waits, the mutex is released at most once per waiter ahead of it at the start, by priority and then arrival, and once per later arrival of strictly higher priority |
| `KernelJoins.RunsGoForward` | sim/freertos.cpp:165-177 | Over every run lifecycles only move forward, a claimed join keeps its claimant, heap releases and queue histories are only appended to |
| `KernelJoins.JoinedOnce` | sim/freertos.cpp:492-538 | After every run a worker was joined at most once and exactly if the task is joined, one thread at most is joining it, and the heap charge was released once exactly if the task ended with one |
| `KernelJoins.DeletersReturnJoined` | sim/freertos.cpp:871-890 | A deleting thread either claims the unclaimed worker or returns to a joined task, in every interleaving |
| `KernelTime.ElapsedIsTrueDifference` | include/FurbleTime.h:9-11 | The wrapped difference is the true one while less than a full turn of the clock passed |
| `KernelTime.DeadlineTestIsRight` | include/FurbleTime.h:19-21 | The wrapped deadline test agrees with the true order from 2^31 ms before the deadline until just under 2^31 ms after it |
| `KernelTime.OverdueAtOnceIff` | include/FurbleTime.h:19-21 | A wait looks overdue as it begins exactly when it is zero or longer than 2^31 ticks |
| `KernelTime.NobodyOverdue` | sim/freertos.cpp:345-354 | After every run of timely waits and clock steps each pending wait ends in the future, at most 2^31 ms away, however often the clock wrapped |
| `KernelTime.TimesOutExactlyWhenDue` | sim/freertos.cpp:390-396 | In timely runs a blocked timed wait times out in a step exactly when the step is the clock step that reaches its deadline |
| `KernelTime.TimesOutIff` | sim/freertos.cpp:345-354 | Without any bound on waits or clock steps: a blocked wait times out exactly in a clock step that ends, whole turns of the clock aside, less than 2^31 ms after its deadline |
| `KernelTime.StillBlockedIff` | sim/freertos.cpp:345-354 | While waits lie ahead, a clock step of any length leaves one blocked exactly if it ends before the deadline or in the second half of a full turn of the clock after it |
| `KernelWitness.LongStepLeavesOverdue` | sim/freertos.cpp:345-354 | A run from boot after which a wait of one tick is overdue by 2^31 ms and still blocked |
| `KernelTime.ResultIsFinal` | sim/freertos.cpp:431-456 | A released wait keeps its result through every run until its task resumes, so a wake-up never becomes a timeout |
| `KernelTime.TooLongTimesOutAtOnceIff` | sim/freertos.cpp:431-441 | A send, receive or notification take that blocks for some ticks is timed out by the next clock step of any length exactly when they exceed 2^31 |
| `KernelTime.TooLongDelayReturnsAtOnceIff` | sim/freertos.cpp:934-967 | A delay blocks exactly when its ticks do not exceed 2^31; a longer one only queues for the turn again |
| `KernelWitness.LongWaitEndsAtOnce` | sim/freertos.cpp:431-441 | A run from boot after which a receive of 2^31+1 ticks has timed out though the clock has not moved |
| `KernelEffects.SendEffect` | sim/freertos.cpp:540-572 | A send puts its item at the end it was sent to exactly if the caller goes on and the queue is live and has room; it sleeps, with the deadline its ticks give, exactly if the queue is full and waiting allowed; no other queue changes |
| `KernelEffects.ReceiveEffect` | sim/freertos.cpp:1286-1315 | A receive takes exactly the first item out, and only if the caller goes on and the queue is live and not empty; it sleeps exactly if the queue is empty and waiting allowed |
| `KernelEffects.ResumeEffect` | sim/freertos.cpp:410-457 | A resumed call of a stopping task takes and puts nothing; a woken send puts its item into a live queue, a woken receive takes the first item of one that has any, a notification take clears or decrements what is there, and nothing else changes contents or counts |
| `KernelEffects.TakeEffect` | sim/freertos.cpp:996-1018 | A take that finds n > 0 leaves 0 if it clears and n - 1 if it does not; it sleeps exactly if it finds none and waiting is allowed; nobody else's count changes |
| `KernelEffects.GiveEffect` | sim/freertos.cpp:973-988 | A give leaves one more, modulo 2^32, releases the target exactly if it waits for a notification, and changes nobody else's count or wait |
| `KernelEffects.DelayEffect` | sim/freertos.cpp:934-967 | A delay of up to 2^31 ticks sleeps until that many milliseconds have passed, one of none queues up behind everybody, and a stopping caller does not sleep |
| `KernelEffects.QueueStepWakesOne` | sim/freertos.cpp:356-371 | A send, a receive or a reset that changes the queue releases exactly the one task blocked for it that has the highest priority and, among equals, has been blocked longest |
| `KernelEffects.ResumedCallWakesOne` | sim/freertos.cpp:356-371 | So does a woken send or receive when it resumes |
| `KernelEffects.ResetEffect` | sim/freertos.cpp:1325-1350 | A reset discards exactly what a live queue holds, unless its caller is stopping |
| `KernelEffects.DeleteQueueEffect` | sim/freertos.cpp:1352-1384 | The first deletion discards what the queue holds and cancels every wait on it; memory is released at once exactly if no call is inside the queue, and otherwise the caller waits for that without the turn |
| `KernelEffects.DrainEffect` | sim/freertos.cpp:1383-1396 | The deleting thread goes on once the queue has no users, or the scheduler stops, and releases the memory in the first case only |
| `KernelEffects.LockEffect` | sim/freertos.cpp:707-763 | A free mutex gets its caller as holder; a taken one keeps its owner, lock() joining the waiters as the latest arrival and sleeping, try_lock() changing nothing |
| `KernelEffects.LockReturnEffect` | sim/freertos.cpp:747-754 | A lock() that returns makes its caller the holder |
| `KernelEffects.CreateEffect` | sim/freertos.cpp:786-868 | A created task is running, ready behind every other one, with the priority and heap charge it was created with and no notification |
| `KernelEffects.DeleteEffect` | sim/freertos.cpp:165-177 | A deleted task is stopping, out of its wait as cancelled and without the turn; another caller goes on to join it |
| `KernelEffects.StopAllEffect` | sim/freertos.cpp:1024-1030 | Stopping all tasks stops every registry task, out of its wait, and leaves the timer service and its turn alone |
| `KernelEffects.FinishEffect` | sim/freertos.cpp:459-490 | A finished task is out of the scheduler's sight, without the turn, and its heap charge is given back once |
| `KernelEffects.JoinEffect` | sim/freertos.cpp:499-538 | A join returns from a joined task, claims a finished one and otherwise keeps waiting; its completion makes the task joined, once more |
| `KernelEffects.TurnEffect` | sim/freertos.cpp:239-277 | A parked holder loses the turn and is not chosen while it is parked; reaching the wait for the turn ends that; taking the turn leads back to the caller's own code |
| `KernelEffects.ClockEffect` | sim/freertos.cpp:589-604 | The timer service is ready while timers are due, in line since they became so, and gives the turn up when they are not and no callback runs; only a clock step moves the clock, by its length |
| `KernelEffects.CallbackEffect` | sim/freertos.cpp:606-651 | One callback runs from the moment the timer service gets the turn until it ends, and leaves the service ready exactly if another is due |
| `KernelEffects.WaitEndsBy` | sim/freertos.cpp:398-457 | A wait ends ready only by a send, a receive, a reset, a give or a resumed call, by timeout only in a clock step, cancelled only by a stop or a queue deletion; the task keeps the place in line it had when it blocked |
| `Scheduler.Scheduler.NextRunnableTask` | sim/freertos.cpp:191-207 | The registry-then-timer scan computes the kernel's choice |
| `Scheduler.Scheduler.DispatchNext` | sim/freertos.cpp:209-218 | A free turn is given to that choice and a taken one left alone |
| `Scheduler.Scheduler.PreemptForHigherPriority` | sim/freertos.cpp:279-292 | The whole new state of the preemption point up to the wait for the turn |
| `Scheduler.Scheduler.ReleaseQueueWaiterLocked` | sim/freertos.cpp:356-371 | The loop releases exactly the waiter the selection names, or nobody |
| `Scheduler.Scheduler.ReleaseDueWaiters` | sim/freertos.cpp:345-354 | The loop releases exactly the overdue registry tasks and leaves the rest as they were |
| `Scheduler.Scheduler.ReleaseAllQueueWaiters` | sim/freertos.cpp:380-388 | The loop cancels exactly the registry tasks blocked on the queue, then dispatches |
| `Scheduler.Scheduler.WaitUntil` | sim/freertos.cpp:398-457 | The state at the condition wait, or after the pass through it of a stopping caller |
| `Scheduler.Scheduler.QueueSend` | sim/freertos.cpp:540-572 | The new state, and success exactly for a live caller and queue with room: the item is then in, at the end it was sent to |
| `Scheduler.Scheduler.QueueReceive` | sim/freertos.cpp:1286-1315 | The new state, and the front item exactly for a live caller and queue with items: it is then out |
| `Scheduler.Scheduler.ResumeCall` | sim/freertos.cpp:410-457 | The new state when a blocked call resumes, and what it returns, told by that state: a send succeeded exactly if its item was accepted, a receive returned exactly the item that left the front or nothing if none did, a take the count it found and cleared or decremented, and a call unwinds exactly for a stopping thread, with histories and counts unchanged |
| `Scheduler.Scheduler.QueueReset` | sim/freertos.cpp:1325-1350 | The new state, and success exactly for a queue that is not deleted and a caller that is not stopping |
| `Scheduler.Scheduler.QueueDelete` | sim/freertos.cpp:1352-1384 | The new state up to the wait for the queue's users |
| `Scheduler.Scheduler.NotifyGive` | sim/freertos.cpp:973-988 | The new state: the count wraps at 2^32 and a task blocked on it is released |
| `Scheduler.Scheduler.NotifyTake` | sim/freertos.cpp:996-1018 | The new state, and the count found: if it is positive it is cleared or goes down by one, as asked |
| `Scheduler.Scheduler.TaskDelay` | sim/freertos.cpp:934-967 | The new state of a delay, yields and deadlines already reached included |
| `Scheduler.Scheduler.WalkTo` | sim/freertos.cpp:662-672 | The walk removes exactly the thread's entry from the list |
| `Scheduler.Scheduler.SelectWaiter` | sim/freertos.cpp:674-687 | The loop selects the waiter the hand-off rule names |
| `Scheduler.Scheduler.ReleaseLocked` | sim/freertos.cpp:674-705 | The new state: ownership reserved before the wake is published, or the mutex free |
| `Scheduler.Scheduler.LockMutex` | sim/freertos.cpp:707-727 | The new state of lock() up to its wait |
| `Scheduler.Scheduler.TryLockMutex` | sim/freertos.cpp:756-763 | The new state, and success exactly if the mutex was free |
| `Scheduler.Scheduler.UnlockMutex` | sim/freertos.cpp:765-769 | The new state of unlock() up to the wait for the turn |
| `Scheduler.Scheduler.LockCancelled` | sim/freertos.cpp:734-753 | The new state of a lock() that gives up |
| `Scheduler.Scheduler.RequestTaskStop` | sim/freertos.cpp:165-177 | The new state of a task asked to stop |
| `Scheduler.Scheduler.TaskDelete` | sim/freertos.cpp:871-890 | The new state of vTaskDelete up to the join |
| `Scheduler.Scheduler.StopAllTasks` | sim/freertos.cpp:1024-1030 | The loop asks exactly the registry tasks to stop and takes the turn from them only |
| `Scheduler.Scheduler.TaskCreate` | sim/freertos.cpp:786-868 | The new state, and success exactly if the heap carries the stack and the scheduler is not stopping; otherwise nothing changes |
| `Scheduler.Scheduler.MarkFinished` | sim/freertos.cpp:459-490 | The new state, and the heap charge released exactly if one was held |
| `Scheduler.Scheduler.PollJoinTask` | sim/freertos.cpp:499-529 | One turn of the join loop: return, claim or keep waiting |
| `Scheduler.Scheduler.ClockAdvanced` | sim/freertos.cpp:390-396 | The new state after a clock step |
| `SchedulerRuns.Perform` | sim/freertos.cpp:147-1397 | Every step any thread may take is one call on the object: it leaves the object in the machine's next state and keeps the kernel invariant |
| `SchedulerRuns.PerformRun` | sim/freertos.cpp:147-1397 | From boot, the calls of any run take the object to the run's last state with the invariant, so what is proved of runs is true of the object |
| `FuzzMachine.Accounting` | sim/fuzz_machine.cpp:107-219 | After any calls, interruptions, restores and restarts settled = steps = observed + unobserved, attempted = settled + interrupted + the event in flight, within the budget; settling has cycles left; finish only with the budget spent |
| `FuzzMachine.DoKeeps` | sim/fuzz_machine.cpp:62-219 | Every call keeps the machine invariant, on any record restore accepts included |
| `FuzzMachine.NoOverflow` | sim/fuzz_machine.cpp:107-189 | Every call advances exactly the counters of the event it is, by one and without wrapping: attempts, interruptions, settled events, steps, both kinds of observation and timer stops |
| `FuzzMachine.PhaseMoves` | sim/fuzz_machine.cpp:134-209 | Where each call leads: back to the main screen exactly after every escapeCadence-th step and after the last attempt of the budget, to the finish exactly once main is reached with the budget spent, and no call changes the phase in any other case |
| `FuzzMachine.EventSettlesFor` | sim/fuzz_machine.cpp:147-163 | An event settles for exactly the cycles it asked for and is then due for its check |
| `FuzzMachine.EscapeSettlesFor` | sim/fuzz_machine.cpp:155-203 | A step of the escape settles for exactly the cycles it asked for, and the escape goes on |
| `FuzzMachine.Perform` | sim/fuzz_machine.cpp:45-219 | Each call of the machine is one method of the object, and a restart is a new object that restores the checkpoint of the old one |
| `FuzzMachine.PerformAll` | sim/fuzz_machine.cpp:45-219 | The calls of a whole life, restarts included, lead the object where the transitions lead, with the invariant |
| `FuzzMachine.FinishAbsorbs` | sim/fuzz_machine.cpp:134-209 | A finished machine is changed by nothing but a restore from outside, and a restart of it starts fresh |
| `FuzzMachine.CheckpointRoundTrip` | sim/fuzz_machine.cpp:45-105 | A reachable machine's checkpoint is accepted exactly between events and resumes that very state; rejection leaves the other machine unchanged |
| `FuzzMachine.AcceptedAreCheckpoints` | sim/fuzz_machine.cpp:62-88 | Restore accepts a record exactly when it is the checkpoint of a consistent machine between events |
| `FuzzMachine.InterruptedEventSurvivesRestart` | sim/fuzz_machine.cpp:107-132 | Interruption succeeds exactly for a started event, counts the attempt once, and what it leaves survives checkpoint and restore without loss |
| `FuzzMachine.Fuzzer.Rejects` | sim/fuzz_machine.cpp:62-88 | The tests reject exactly what is not acceptable |
| `FuzzMachine.Fuzzer.RestoreFrom` | sim/fuzz_machine.cpp:62-105 | The new state, the invariant kept, and success exactly for acceptable records |
| `FuzzMachine.Fuzzer.InterruptForRestart` | sim/fuzz_machine.cpp:107-132 | The new state of this call, with the invariant kept |
| `FuzzMachine.Fuzzer.Begin` | sim/fuzz_machine.cpp:134-145 | The new state of this call, with the invariant kept |
| `FuzzMachine.Fuzzer.Applied` | sim/fuzz_machine.cpp:147-153 | The new state of this call, with the invariant kept |
| `FuzzMachine.Fuzzer.LvglCycleComplete` | sim/fuzz_machine.cpp:155-163 | The new state of this call, with the invariant kept |
| `FuzzMachine.Fuzzer.Checked` | sim/fuzz_machine.cpp:165-189 | The new state of this call, with the invariant kept |
| `FuzzMachine.Fuzzer.EscapeModalRejected` | sim/fuzz_machine.cpp:191-195 | The new state of this call, with the invariant kept |
| `FuzzMachine.Fuzzer.EscapeBackIssued` | sim/fuzz_machine.cpp:197-203 | The new state of this call, with the invariant kept |
| `FuzzMachine.Fuzzer.EscapeDone` | sim/fuzz_machine.cpp:205-209 | The new state of this call, with the invariant kept |
| `BoundedRandom.Draw` | sim/fuzz_machine.cpp:221-231 | The residue of the first draw that is at least 2^64 - bound modulo bound, and how many draws it took; a zero bound aborts |
| `BoundedRandom.Threshold` | sim/fuzz_machine.cpp:225-225 | The accepted draws divide evenly into residue classes |
| `BoundedRandom.Uniform` | sim/fuzz_machine.cpp:221-231 | Every result below every bound comes from the same number of accepted draws, and at least half of all draws are accepted |
| `Crc.Compute` | include/FurbleCrashRecord.h:50-61 | The bit loop computes the checksum |
| `CrcDivision.Crc32IsRemainder` | sim/capture.cpp:15-24 | For all bytes the checksum is the complement of the remainder of a long division over GF(2), the bits of each byte low end first, the first 32 complemented and 32 zeros appended, by the generator of section 3.4 of RFC 2083 given as the list of its exponents |
| `Crc.MaskedStep` | include/FurbleCrashRecord.h:56-57 | The branch-free step is the branching one |
| `Crc.UpdateInjective` | include/FurbleCrashRecord.h:53-59 | The register never forgets: different registers stay different over the same bytes |
| `Crc.BitStepsLinear` | include/FurbleCrashRecord.h:55-58 | The register is linear in its contents |
| `Crc.FourBytesAtOnce` | include/FurbleCrashRecord.h:53-59 | Four byte updates equal 32 bit steps on the register xored with the little-endian word |
| `Crc.ResidueIff` | include/FurbleCrashRecord.h:50-78 | Four bytes after a string are its own checksum exactly if the register ends in one fixed value |
| `Crc.BurstChangesCrc` | include/FurbleCrashRecord.h:50-61 | Two byte strings that differ within four consecutive bytes have the same checksum only if they are equal |
| `CrashRecord.Finalize` | include/FurbleCrashRecord.h:67-78 | The record in memory is sealed and valid: its eight header bytes, a zero at the end of each of its seven texts, and every other byte as it was |
| `CrashRecord.IsValid` | include/FurbleCrashRecord.h:111-114 | The test computes validity |
| `CrashRecord.SealedIsValid` | include/FurbleCrashRecord.h:67-78 | Sealing any memory contents gives a record that is accepted |
| `CrashRecord.SealingIsIdempotent` | include/FurbleCrashRecord.h:67-78 | Sealing has one result, and sealing a sealed record changes nothing |
| `CrashRecord.DamageDetected` | include/FurbleCrashRecord.h:111-114 | A valid record altered within four consecutive bytes anywhere, the stored checksum included, is rejected |
| `Png.ComputeAdler` | sim/capture.cpp:26-34 | The loop that reduces at every byte computes 1 plus the sum of the bytes, and the sum of the bytes weighted by how many are left plus their number, both modulo 65521 |
| `Png.DeflateStore` | sim/capture.cpp:51-76 | The loop writes the zlib stream of stored blocks |
| `Png.ZlibLength` | sim/capture.cpp:51-76 | The stream has one five-byte block header per 65535 bytes begun, and one for no bytes |
| `Png.BlocksRead` | sim/capture.cpp:54-69 | At every length, 0 and multiples of 65535 included, one block is final and it is the last: reading to the first final block yields exactly the data and what follows |
| `Png.ZlibReads` | sim/capture.cpp:51-76 | An independent decoder, with the checksum as weighted sums instead of running ones, accepts the stream and returns the data |
| `Png.AppendChunk` | sim/capture.cpp:43-49 | Length, type, data and checksum over the last two are appended |
| `Png.WriterComputesChecksum` | sim/capture.cpp:15-49 | The four bytes written after a chunk, high byte first, are the number the long division of section 3.4 of RFC 2083 gives |
| `Png.ChunkReads` | sim/capture.cpp:43-49 | An independent reader, which divides the chunk by the generator bit by bit, accepts the checksum and returns type and data |
| `Png.BuildScanlines` | sim/capture.cpp:92-98 | The row loop writes each row behind a filter byte of 0 |
| `Png.ScanlinesRead` | sim/capture.cpp:92-98 | Removing the filter bytes returns the pixels |
| `Png.Capture` | sim/capture.cpp:80-109 | The file that is written |
| `Png.ImageReadsIff` | sim/capture.cpp:80-109 | An independent decoder with independent checksums returns width, height and pixels of an image exactly when its data chunk fits the 32-bit length |
| `Png.CutZlib` | sim/capture.cpp:51-76 | No proper prefix of a zlib stream is accepted by the decoder |
| `PreferenceImage.LoadsIff` | sim/PreferencesSim.cpp:35-90 | A file loads exactly if it starts with a count of at most 10000, low byte first, and that many entries of key size up to 1024, value size up to 16777216, text flag, key and value; a key has the value of its first entry, what follows is ignored, and any other file is damaged and yields nothing |
| `Preferences.ImageReadsIff` | sim/PreferencesSim.cpp:35-139 | Decoding an image returns the saved map exactly when the map is within the decoder's limits, whatever order the entries are written in |
| `Preferences.CutImageIsBroken` | sim/PreferencesSim.cpp:50-86 | Every proper prefix of an image loads as damaged with an empty map |
| `Preferences.DecodedEntriesFit` | sim/PreferencesSim.cpp:59-88 | Whatever the bytes, a decoded map is within the limits |
| `Preferences.NamespacesApart` | sim/PreferencesSim.cpp:141-143 | Full keys are equal only for equal namespaces and keys, and start with a namespace's prefix exactly if they belong to it |
| `Preferences.DecimalReads` | sim/PreferencesSim.cpp:141-143 | A handle is written as its decimal digits, without leading zeros |
| `Preferences.ClearIsExact` | sim/PreferencesSim.cpp:251-259 | Clearing removes exactly its own namespace's entries |
| `Preferences.HandleCounts` | sim/PreferencesSim.cpp:145-155 | A handle counts the distinct names first used before it |
| `Preferences.HandlesAgreeIff` | sim/PreferencesSim.cpp:145-155 | Within a process names and handles correspond; two processes agree on a handle exactly when as many distinct names came first |
| `Preferences.RestartMixesNamespaces` | sim/PreferencesSim.cpp:145-155 | The first namespace opened in one run shares its keys with the first opened in the next |
| `Preferences.CommitAgrees` | sim/PreferencesSim.cpp:168-186 | After a commit memory and disk agree |
| `Preferences.RestartFinds` | sim/PreferencesSim.cpp:35-90 | A new process loads what the last commit left |
| `Preferences.PutIsRead` | sim/PreferencesSim.cpp:157-203 | After a committed put the handle and key hold the value, in this process and the next, and every other handle and key hold what they held |
| `PreferenceHistory.ReadsLastCommitted` | sim/PreferencesSim.cpp:35-188 | After any history of edits, failed saves and restarts within the decoder's limits, a read finds exactly what was last committed under its handle and key, and the store is not in error |
| `PreferenceHistory.CommittedHoldsLast` | sim/PreferencesSim.cpp:242-378 | The committed edits in order leave under each handle and key the last value put there and not removed since |
| `PreferenceHistory.RestartFindsCommittedIff` | sim/PreferencesSim.cpp:35-139 | A restart finds everything committed exactly when that is within the decoder's limits |
| `PreferenceHistory.Perform` | sim/PreferencesSim.cpp:205-378 | Each event of a history is one call on the store or a new process on its disk |
| `PreferenceHistory.PerformAll` | sim/PreferencesSim.cpp:35-378 | The calls of a whole history followed by a read return what was last committed |
| `Preferences.Store.ReadImage` | sim/PreferencesSim.cpp:50-90 | The entry loop decodes the image |
| `Preferences.Store.LoadValues` | sim/PreferencesSim.cpp:35-90 | The loaded state, once: not found for a missing file, an error for an unreadable one, what the image decodes to otherwise |
| `Preferences.Store.WriteImage` | sim/PreferencesSim.cpp:111-124 | The write loop produces an image of the map |
| `Preferences.Store.SaveValues` | sim/PreferencesSim.cpp:92-139 | The image is replaced, or the disk is unchanged |
| `Preferences.Store.HandleFor` | sim/PreferencesSim.cpp:145-155 | The handle of a name in this process, earlier ones unchanged |
| `Preferences.Store.PutEntry` | sim/PreferencesSim.cpp:167-186 | Memory and disk both take the entry, or both are as before |
| `Preferences.Store.EraseNamespace` | sim/PreferencesSim.cpp:252-259 | The loop erases exactly the namespace |
| `Preferences.Store.ReplaceTable` | sim/PreferencesSim.cpp:260-265 | Memory and disk both take the edited map, or both are as before |
| `Preferences.Session.Begin` | sim/PreferencesSim.cpp:222-236 | The session's handle, and the store loaded; a started session refuses |
| `Preferences.Session.Clear` | sim/PreferencesSim.cpp:242-266 | Commits both or restores, and success exactly for a started writable session on a healthy store whose save succeeds |
| `Preferences.Session.Remove` | sim/PreferencesSim.cpp:268-285 | Commits both or restores, with the same exact condition |
| `Preferences.Session.PutString` | sim/PreferencesSim.cpp:316-346 | Commits both or restores, with the same exact condition |
| `Preferences.Session.PutBytes` | sim/PreferencesSim.cpp:348-378 | Commits both or restores, with the same exact condition |
| `Preferences.Session.PutTyped` | sim/PreferencesSim.cpp:157-188 | Commits both or restores; neither the started nor the read-only flag is tested |
| `Preferences.Session.GetTyped` | sim/PreferencesSim.cpp:190-203 | The stored bytes exactly if the key holds that many, or none |
| `Preferences.Session.GetString` | sim/PreferencesSim.cpp:414-434 | The text exactly if the key holds it as a terminated text, absence exactly if a healthy store lacks the key, an error otherwise |
| `Calendar.DaysFromCivilCounts` | include/FurbleGPSHold.h:109-116 | For every year from 1970, month and day number the era arithmetic is the day count by the leap-year rule |
| `Calendar.OrderAgrees` | include/FurbleGPSHold.h:109-118 | On valid timestamps field order is epoch order, and equal seconds mean equal fields |
| `Calendar.Gmtime` | include/FurbleGPSHold.h:120-124 | The inverse: a valid timestamp with exactly that epoch second |
| `Calendar.AdvanceIsExact` | include/FurbleGPSHold.h:101-135 | The call succeeds exactly for fields within the ranges it tests, and the result is valid, exactly the whole elapsed seconds later |
| `Calendar.AdvanceByNothingIff` | include/FurbleGPSHold.h:101-135 | Advancing by less than a second is the identity exactly on valid timestamps |
| `Calendar.AdvanceAdds` | include/FurbleGPSHold.h:101-135 | Advancing by whole seconds is additive |
| `Calendar.AdvanceMonotone` | include/FurbleGPSHold.h:101-135 | More elapsed time never yields an earlier timestamp |
| `Frames.EncodedReads` | sim/CompanionRigTransport.cpp:240-268 | The bytes of a frame: the two magic bytes, operation, character, the payload's length of at most 1024 low byte first, the payload |
| `Frames.ConcatReads` | sim/CompanionRigTransport.cpp:407-439 | Whole frames read back as exactly those frames, whatever follows them |
| `Frames.PartReads` | sim/CompanionRigTransport.cpp:407-439 | A frame cut short reads as nothing and the stream as cut off; all of it reads as the frame |
| `Frames.WireIsSerial` | sim/CompanionRigTransport.cpp:240-268 | Under every interleaving of senders and every split of their writes, at every moment before a write fails in the middle of a frame, the wire reads as exactly the frames that are out completely, in the order the send mutex was taken, and as cut off exactly while one is partly out. After such a failure the frames before it still read first. What each thread tried to send is an initial part of what it had to send |
| `Frames.Deliver` | sim/CompanionRigTransport.cpp:407-439 | End to end: a session on the other end dispatches exactly the frames that are out completely, in order, however its reads are split, or the first ones if it ends early |
| `Frames.Socket.WriteExact` | sim/CompanionRigTransport.cpp:217-238 | However the host splits the write, success means all bytes once and in order, failure a proper prefix |
| `Frames.Socket.ReadExact` | sim/CompanionRigTransport.cpp:199-215 | However the host splits the read, success means exactly the next bytes; failure only at the end of the stream or of the host's patience |
| `Frames.Socket.SendFrame` | sim/CompanionRigTransport.cpp:240-268 | Success means the encoded frame is out; an oversized payload writes nothing |
| `Frames.Socket.ReadFrame` | sim/CompanionRigTransport.cpp:410-435 | The next frame of the stream, or none exactly where the reference reader stops |
| `Frames.Socket.Session` | sim/CompanionRigTransport.cpp:407-439 | Under any short reads the frames dispatched are the stream's first ones in order, and all of them if dispatching goes on and no read fails |
| `Overlay.ConfigKeyIff` | patches/debug_sdkconfig.py:12-17 | A line belongs to a symbol exactly if it is, whatever newlines end it, an optional comment mark, CONFIG_ and at least one word character, and then the mark of an unset symbol or an equals sign and anything |
| `Overlay.LineOkIff` | patches/debug_sdkconfig.py:39-42 | A fragment line is acceptable exactly if it is blank, its first visible character is a hash sign, or it belongs to a symbol |
| `Overlay.ConfigMap` | patches/debug_sdkconfig.py:20-29 | The map and its order; failure exactly for a repeated symbol |
| `Overlay.ReadFragment` | patches/debug_sdkconfig.py:32-43 | Acceptance exactly for a non-empty fragment of distinct symbols, comments and blank lines |
| `Overlay.AddEntries` | patches/debug_sdkconfig.py:49-52 | The union, or failure exactly for a symbol present in both |
| `Overlay.ReadFragments` | patches/debug_sdkconfig.py:46-53 | The combined map in order; failure exactly for an unacceptable fragment or a symbol in two of them |
| `Overlay.ReplaceLines` | patches/debug_sdkconfig.py:62-69 | The loop replaces in place and records exactly the fragment symbols the source has |
| `Overlay.MergeLines` | patches/debug_sdkconfig.py:62-75 | The merged lines |
| `Overlay.MergeConfig` | patches/debug_sdkconfig.py:56-86 | Success exactly for a source of distinct symbols and acceptable fragments; the duplicate check on the merged lines and the three checks after the merge never fire |
| `Overlay.MergedIsOverride` | patches/debug_sdkconfig.py:62-79 | The merged map is the source's overridden by the fragments', with no symbol twice |
| `Overlay.MergedKeepsLines` | patches/debug_sdkconfig.py:65-72 | Every source line keeps its place, and its text unless its symbol is overridden |
| `Overlay.MergedAppends` | patches/debug_sdkconfig.py:71-75 | Behind the source's lines come exactly the lines of the symbols it lacks, in the fragments' order |
| `Overlay.MergeIsIdempotent` | patches/debug_sdkconfig.py:56-75 | Merging the same fragments again changes nothing |
| `Overlay.NewlineIsIrrelevant` | patches/debug_sdkconfig.py:12-17 | A line's symbol and value do not depend on its newline |

## Left out

- KernelMachine.Enabled: threads that are not scheduler tasks send and receive only without waiting, because the waits of the UI thread poll a condition variable outside the scheduler's order; and the timer service never blocks on a queue, a notification or a delay.
- KernelMachine.LiveQueue: no thread calls into a queue whose memory was released, which the source leaves to its callers.
- KernelMachine.HoldsNothing: a task finishes, and a timer callback returns, without holding a mutex, as the lock guards of the firmware see to; and only the holder unlocks a mutex.
- KernelMachine.Step: parking a stalled turn holder, and a task's arrival where it waits for the turn, may happen at any time, because the wall-clock stall bound, the progress counter and the host's own scheduling are not modelled.
- KernelSteps.Delay: a delay that was released and then is not resumed for another 2^31 ms waits on in the source, because its condition reads the clock again; the model lets it resume.
- KernelMachine.Next: order stamps and heap amounts are unbounded, because the 64-bit counters of the source do not wrap in practice.
- KernelNoLostWakeup.NoLostWakeup: covers runs in which no step loses a wake-up, because two kinds of step do; exactly which they are is proved.
- KernelTime.NobodyOverdue: covers waits of at most 2^31 ticks, or for ever, and clock steps of at most 2^31 ms, because longer waits end early and longer clock steps can leave a wait overdue; exactly which is proved.
- Scheduler.Scheduler.TaskCreate: whether the heap carries the stack is a parameter; a task record is an entry of the scheduler's sequence, not an object of its own, so aliasing between record pointers is not captured.
- Host threads, condition variables, interactive pacing, the task and profiler reports, join-waiter counts, queue reset callbacks and the heap model behind the charges.
- Calendar.Advance: years from 2^31 on, which the cast to a signed year makes negative, are not modelled; `gmtime_r` is modelled as the inverse it is specified to be.
- Png.ImageReadsIff: covers images of fewer than 2^31 pixels in each direction, which is the most the format allows.
- Png.Capture: reading the display, creating directories and writing the file are not modelled; a display without positive size is refused before the modelled part.
- Crc.Compute: the final complement is written as an exclusive or with all ones.
- CrashRecord.Finalize: the record is its little-endian memory image; `noteAllocFailure`, `keepAllocFailure`, `clear` and the reason names would only add easy members.
- Preferences.Store.SaveValues: the file replacement succeeds or changes nothing, by a parameter; the temporary file, the directory and the path from the environment are not modelled.
- Preferences.Store.WriteImage: the entries are written in some order, not in ascending key order; every result holds for all orders.
- PreferenceHistory.ReadsLastCommitted: speaks of handles, because the names behind them are numbered anew in each process.
- Preferences.Store.HandleFor: handles are unbounded, because 2^32 namespaces are out of reach.
- Preferences.Session.GetString: the other string and byte getters and `isKey` would only add easy members.
- Frames.WireIsSerial: after a write that failed in the middle of a frame only the frames before it are promised, because part of a frame stays on the wire for the next sender to follow.
- Frames.Socket.Session: the answers of the frame dispatcher are a parameter; the greeting, pairing and service calls behind them are not modelled, nor is a connection replaced in the middle of a session.
- Frames.Socket.SendFrame: the write delay and the check that the connection is still the same are not modelled.
- Overlay.ReadFragment: `strip` removes ASCII white space only.
- Overlay.MergeConfig: files, paths and encodings are not modelled; the method works on the lines read.
- BoundedRandom.Draw: the generator is the list of its draws, and a list may end before a draw is accepted.
- The getters of the fuzzer machine that only read a field.
- The over-the-air update session, replay journal, GPS, MQTT, web UI, time-keeping and companion services: they are not part of this model.
- Floating-point dead reckoning and the one-branch policies (auto-off, battery, display, Wi-Fi, memory gates): trigonometry on doubles, and members that would be easy.
