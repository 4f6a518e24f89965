# A verified model of the minSMT runtime

minSMT runs multithreaded programs deterministically: one turn token travels between the threads,
and every synchronisation operation is done while holding it. This project models the scheduler
that passes the token, the pthread operations rebuilt on top of it, the pbzip2 pipeline that runs
on the runtime, the binary call log and the back-edge instrumentation pass, and proves what they
keep over every run.

Check it with `dafny verify dfyconfig.toml` (Dafny 4.11).

## How the model is built

- `Scheduler.dfy` is the round-robin scheduler as an interleaved step system. A label is one
  atomic step of one thread: a read or write of a wake flag, one spin-lock section, one section
  under the wakeup mutex, or one piece of work with the turn. A thread's program counter says where
  it is inside `getTurn`, `incTurnCount`, `wait`, `block`, `putTurn` or `next`. Threads in blocking
  calls change their own status between any two steps of the others.
- `Safety.dfy` has the inductive invariant, one lemma per step. `SchedulerTheorems.dfy`,
  `Deadlines.dfy`, `Fairness.dfy` and `Determinism.dfy` draw the conclusions for all reachable states
  and all runs.
- `Joins.dfy`, `Effects.dfy` and `TurnLog.dfy` say what thread end, check_wakeup, tryPutTurn and
  incTurnCount achieve.
- `RRScheduler.dfy` is the scheduler object with its loops, updated in place; each method is proved
  against the step function the interleaved model uses. `RunQueue.dfy` is the linked list behind the
  run queue.
- `Phases.dfy` reduces a scheduler step to what an object sees of it: who waits on which channel, who
  is about to, who has been released and why. `Locks.dfy`, `LockCounts.dfy`, `WaiterCounts.dfy`, `Barriers.dfy`,
  `Lineups.dfy` and `CriticalSections.dfy` are state machines over scheduler labels: any other thread
  may take any scheduler step between two steps of an operation. A channel is one object, so what is
  proved for one barrier or lineup holds beside any others.
- `TimedWaits.dfy` is about timed lock and semaphore waits. `Runs.dfy` has named stretches of scheduler
  runs, from which the concrete runs in `TimedWaits.dfy`, `Sleepers.dfy` and
  `CriticalSections.dfy` are put together. `Sleepers.dfy` is about waits on NULL.
- `TondSync.dfy` and `TondSignals.dfy` are the mode without a turn order. `RingBuffer.dfy`,
  `Pipeline.dfy`, `PipelineSignals.dfy` and `PipelineProgress.dfy` are pbzip2, `RecordLog.dfy` the log, `BackEdges.dfy` the pass.

"Base configuration" means `enforce_turn_type >= 0`, no high-priority queue, no bound on
non-deterministic clocks and no yield strategy.

## Where code and expectation part

- `wait` returns `SIGNAL` or `TIMEDOUT` (0 or 1, include/tern/runtime/record-scheduler.h:157), so the
  comparisons with `ETIMEDOUT` in the mutex helper and in `semTimedWait` never succeed. A timed lock
  or semaphore wait ends exactly with a try that finds a unit, whatever its deadline
  (`TimedWaits.EndsWithUnit`); one that times out on an empty counter waits again with its old
  deadline (`TimedWaits.TimedOutWaitsAgain` reaches such a state), until the next tick
  (`TimedWaits.NextTickEnds`).
- sleep, usleep and nanosleep wait on NULL with a deadline computed in 32 bits. When the turn count
  plus the number of turns is a multiple of 2^32 the deadline is FOREVER: the sleeper is never woken
  and the last assertion of selfcheck fails (`Sleepers.SelfCheckIff`, `Sleepers.SleepsForever`).
- pthreadCondTimedWait hands its caller the wake reason, 1 for a time-out, where POSIX wants ETIMEDOUT
  (`TimedWaits.CondTimedWaitReturns`).
- `pop_front` leaves the `prev` link of the new head pointing at the popped element. Membership by
  links is still exact (`RunQueueList.InByLinks`).
- `setInsid` maps the invalid id to 2^29 - 1, which is also a legal id
  (`RecordLog.InsidRoundTrip`).
- The one-byte `seq` of a log record wraps: from 768 arguments on, the argument list is read back
  correctly exactly when the last extra record is full (`RecordLog.RoundTrip`).
- `logCall` never writes the flags of extra records, so `numRecForInst` asked of an extra record is
  right exactly when the call returns (`RecordLog.RecordCount`).
- A block with two edges to a back-edge target puts the edge on the list twice; a counter is exact
  exactly at the first place of its edge (`BackEdges.ExactIffFirst`). PHI nodes stay well formed
  exactly when each listed edge is listed as often as it occurs (`BackEdges.PhiFitsIff`).
- A nested `ext_get_turn` in one thread breaks its assertion (`CriticalSections.NestedExtGet`); a
  thread can tell from its own counters (`CriticalSections.ExtAssertsHold`).
- Critical-section-first does not hold for the runtime's own idle thread, which parks or puts the turn
  with `idle_mutex` locked (lib/runtime/helper.cpp:103-117). The theorems are about all other mutexes,
  and `CriticalSections.IdleMutexHeld` reaches the exception.
- In the TOND-sync mode the run queue stays `[main]`, so the assertions on `runq.front()` in `wait`,
  `signal`, `putTurn` and `create` hold exactly when the main thread is the caller
  (`TondSync.FrontIsMain`); the steps of that mode are modelled without them.

## Model

| member | source | states |
|---|---|---|
| `SchedulerTheorems.NoThreadLost` | lib/runtime/record-scheduler.cpp:266-345 | in every reachable state a thread is on the run queue and wait queue together at most once; a live thread on neither is stopped in a blocking call, registered for wakeup, or between interProEnd and wakeup; an ended thread is nowhere |
| `SchedulerTheorems.SelfCheck` | lib/runtime/record-scheduler.cpp:608-648 | the assertions of selfcheck but the last hold in every reachable state, not only where it is called |
| `Sleepers.SelfCheckIff` | lib/runtime/record-scheduler.cpp:650-654 | the last assertion holds throughout a run iff no step of the run takes a thread into the wait queue on NULL with the deadline FOREVER |
| `Sleepers.StuckIff` | lib/runtime/record-scheduler.cpp:491-515 | in every run that assertion fails for a thread exactly from such a step of its own on |
| `Sleepers.StuckStays` | lib/runtime/record-scheduler.cpp:519-562 | no step of any thread wakes such a waiter |
| `Sleepers.DoomedIff` | lib/runtime/record-runtime.cpp:2887-2890 | in every run a thread is lost to such a wait exactly from its tick into a wait on NULL with the deadline FOREVER on |
| `Sleepers.ForeverIff` | lib/runtime/record-runtime.cpp:2887-2890 | a sleep of n turns gets the deadline FOREVER iff turn count plus n is a multiple of 2^32, which the caller can check |
| `Sleepers.SleepsForever` | lib/runtime/record-runtime.cpp:405-434 | for every number of turns a sleep can come to with two threads, a run in which it is a sleep for ever and selfcheck fails |
| `SchedulerTheorems.SingleToken` | lib/runtime/record-scheduler.cpp:117-214 | at most one thread has the turn or a pending wake flag; outside next it is the head of the run queue with a running status |
| `SchedulerTheorems.RunningIsQueued` | lib/runtime/record-scheduler.cpp:673-697 | a running status, also one tryPutTurn set early, belongs to a queued thread that is in no blocking call |
| `SchedulerTheorems.NoAssertFails` | lib/runtime/record-scheduler.cpp:295-345 | no assertion of the scheduler can fail at any enabled step of any run: queue head, status, post to a set flag or to a stopped thread, idle thread |
| `SchedulerTheorems.TokenMoves` | lib/runtime/record-scheduler.cpp:347-377 | whoever has the token can take a step; an empty run queue stops the system only if no idle thread exists |
| `Joins.FinishIsLast` | lib/runtime/record-scheduler.cpp:774-784 | in every reachable state the turn is let go for good only at the end of a thread, on an empty run queue, with nobody waiting or by the main thread |
| `Joins.IdleTakesOver` | lib/runtime/record-scheduler.cpp:347-377 | in every other case an empty run queue brings the idle thread out of the wait queue as its only member, and the caller's next step gives it the turn |
| `Joins.EndWakesJoiner` | lib/runtime/record-scheduler.cpp:449-452 | at thread end the thread that has waited longest for it goes from the wait queue to the run queue, signalled, and the others stay |
| `Joins.NobodyWaitsForZombies` | lib/runtime/record-runtime.cpp:827-835 | in every run, with one joiner a thread as POSIX demands, nobody waits for a thread that has ended, and a joiner that tests for it returns |
| `TurnLog.LogIsTurns` | lib/runtime/scheduler.cpp:56-65 | in every run the log lists exactly the turns ended, in order and with consecutive numbers, and the turn count is the next one |
| `Effects.RegisteredJoins` | lib/runtime/record-scheduler.cpp:266-291 | check_wakeup sees the flag whenever somebody is registered, and leaves every thread registered when it takes the mutex in the run queue |
| `Effects.TryLooksAtAll` | lib/runtime/record-scheduler.cpp:840-856 | in every run tryPutTurn fails only after one look at each thread behind the head, none runnable when looked at |
| `SchedulerTheorems.ReachableInv` | lib/runtime/record-scheduler.cpp:588-605 | the invariant holds in every state some interleaving reaches from the constructor's state |
| `Safety.StepInv` | lib/runtime/record-scheduler.cpp:401-577 | every one of the 21 kinds of steps keeps the invariant and moves the token only by post |
| `Safety.IdleNeverStuck` | lib/runtime/record-scheduler.cpp:379-397 | the thread that finds the run queue empty is not the idle thread, because tryPutTurn has marked a successor before that parks; and the idle thread, if there is one, sits in the wait queue |
| `RRSchedulerObject.RRScheduler.NextTimeout` | lib/runtime/record-scheduler.cpp:218-228 | returns the least deadline of the waiters, or FOREVER |
| `RRSchedulerObject.RRScheduler.FireTimeouts` | lib/runtime/record-scheduler.cpp:232-264 | moves exactly the expired waiters in wait-queue order, resets their records, and returns their number |
| `RRSchedulerObject.RRScheduler.Signal` | lib/runtime/record-scheduler.cpp:519-562 | the loop moves the first waiter on the channel, or all in order, and nothing else |
| `RRSchedulerObject.RRScheduler.IncTurnCount` | lib/runtime/record-scheduler.cpp:566-569 | up to its call of check_wakeup: advances the 32-bit clock, logs (tid, turn) and fires the timeouts of the new turn |
| `RRSchedulerObject.RRScheduler.CheckWakeup` | lib/runtime/record-scheduler.cpp:266-291 | the registered threads that are not queued join the run queue once each, and the set is emptied |
| `RRSchedulerObject.RRScheduler.NextRunnable` | lib/runtime/record-scheduler.cpp:699-838 | with nobody interfering: the chosen thread is the first that is not stopped (and has the caller's role under the role strategy), and the queue is rotated to it less the stopped threads passed over |
| `RRSchedulerObject.RRScheduler.NobodyRuns` | lib/runtime/record-scheduler.cpp:774-796 | on an empty run queue: no thread at thread end, otherwise the idle thread, otherwise abort |
| `RRSchedulerObject.RRScheduler.WakeUpIdleThread` | lib/runtime/record-scheduler.cpp:347-377 | moves exactly the idle thread to the run queue and keeps its wake reason |
| `RRSchedulerObject.RRScheduler.TryPutTurn` | lib/runtime/record-scheduler.cpp:840-856 | marks the first runnable thread behind the head, and says whether there is one |
| `Deadlines.SignalIsFifo` | lib/runtime/record-scheduler.cpp:519-562 | signal wakes exactly the longest waiting thread of the channel; all others keep their order and records |
| `Deadlines.SignalNobody` | lib/runtime/record-scheduler.cpp:519-562 | a signal without waiters changes nothing |
| `Deadlines.ReleaseConserves` | lib/runtime/record-scheduler.cpp:232-264 | waking moves threads between the two queues and neither creates nor drops one |
| `Deadlines.TimeoutsExact` | lib/runtime/record-scheduler.cpp:566-572 | in every reachable state a tick releases a waiter exactly when its deadline lies before the new turn count, keeping queue order |
| `Deadlines.FiresIffDue` | lib/runtime/record-scheduler.cpp:218-264 | some waiter is released iff nextTimeout is below the turn count |
| `Deadlines.WaiterFate` | lib/runtime/record-scheduler.cpp:491-562 | a waiter leaves the queue only by a signal of its channel, by its deadline passing, or as the idle thread; otherwise its channel and deadline stay |
| `Deadlines.NeverOutlivesDeadline` | lib/runtime/record-scheduler.cpp:491-572 | in any run a thread that goes on waiting is never past its deadline once the clock has ticked |
| `Fairness.BoundedWaiting` | lib/runtime/record-scheduler.cpp:232-345 | a thread at place k that starts no blocking call is passed the turn after fewer than k other completed calls of next, whatever happens meanwhile |
| `Fairness.AheadStep` | lib/runtime/record-scheduler.cpp:439-487 | no step moves a queued thread back, and every completed next that passes it by moves it forward |
| `Fairness.RoleScanOwn` | lib/runtime/record-scheduler.cpp:736-771 | an iteration of the role scan passes the turn within the role, or brings the caller one place forward |
| `Fairness.RoleScanTerminates` | lib/runtime/record-scheduler.cpp:699-838 | while other threads stop and restart arbitrarily, the scan makes at most as many fruitless iterations as threads stand before the caller, and the queue is the old one rotated less the dropped threads |
| `Fairness.PlainScanEnds` | lib/runtime/record-scheduler.cpp:774-831 | the scan of the other strategies chooses after at most as many iterations as threads are queued, and two, under the same interference |
| `Determinism.NeverDiverges` | lib/runtime/record-scheduler.cpp:295-345 | two interleavings of one program: every state of each is in its delay-free run, and of the two delay-free runs one is a prefix of the other |
| `Determinism.Deterministic` | lib/runtime/scheduler.cpp:56-61 | of the (tid, turn) logs of any two interleavings one is a prefix of the other |
| `RunQueueList.LinkBack` | include/tern/runtime/run-queue.h:395-413 | linking at the tail represents the queue with the element appended |
| `RunQueueList.UnlinkFront` | include/tern/runtime/run-queue.h:504-519 | unlinking the head represents the rest of the queue, with a stale prev link left in the new head |
| `RunQueueList.InByLinks` | include/tern/runtime/run-queue.h:316-331 | the link test of in() is membership, for every queue and despite the stale link |
| `RunQueueList.RunQueue.PushBack` | include/tern/runtime/run-queue.h:395-413 | appends to the represented sequence |
| `RunQueueList.RunQueue.PopFront` | include/tern/runtime/run-queue.h:504-519 | removes the first element of the represented sequence |
| `RunQueueList.RunQueue.In` | include/tern/runtime/run-queue.h:316-331 | decides membership in the represented sequence |
| `Phases.PhaseStep` | lib/runtime/record-scheduler.cpp:491-562 | every scheduler step changes what an object sees of a thread in one of six listed ways or not at all |
| `Phases.SignalOnePhases` | lib/runtime/record-scheduler.cpp:519-562 | a signal releases nobody if nobody waits, and otherwise exactly one waiter of the channel |
| `Phases.SignalAllPhase` | lib/runtime/record-scheduler.cpp:519-562 | a broadcast releases every waiter of the channel and nobody else |
| `Locks.SemaphoreNoLostWakeup` | lib/runtime/record-runtime.cpp:1775-1801 | in every run, while a thread waits on a semaphore its value is at most the number of threads signalled on it that have not retried |
| `Locks.MutexNoLostWakeup` | lib/runtime/record-runtime.cpp:915-926 | a free mutex with a waiter has a signalled thread on its way, or its releaser in a condition wait still holds the turn and signals next; a mutex never counts more than one |
| `Locks.WaitersAreInside` | lib/runtime/record-runtime.cpp:953-976 | a thread in the wait queue on a lock channel is inside the operation on that very object |
| `Locks.LockStepInv` | lib/runtime/record-runtime.cpp:1570-1606 | every step of lock, unlock, condition wait, signal, broadcast, semaphore wait and post, and every step of anybody else, keeps units covered by threads on their way |
| `Locks.UnlockStep` | lib/runtime/record-runtime.cpp:1165-1194 | unlocking frees the mutex and pays for the freed unit with one signalled waiter |
| `Locks.SemPostStep` | lib/runtime/record-runtime.cpp:1875-1899 | a post keeps every unit covered: a waiter of the semaphore is put on its way to it |
| `LockCounts.UnitsStep` | lib/runtime/record-runtime.cpp:1885 | each step changes each counter by the unit that a post, unlock or condition wait gives and a successful try takes, and by nothing else |
| `LockCounts.Conservation` | lib/runtime/record-runtime.cpp:1775-1801 | in every run the value of a semaphore is its first value plus the posts minus the successful tries, and likewise for a mutex |
| `LockCounts.LockedIffOwned` | lib/runtime/record-runtime.cpp:953-976 | in every run a mutex is locked iff some thread has taken it and it has not been released since by an unlock or a condition wait |
| `LockCounts.ReleasedBetween` | lib/runtime/record-runtime.cpp:915-926 | between two takings of a mutex there is a release |
| `LockCounts.CondWaitRelocks` | lib/runtime/record-runtime.cpp:1598-1604 | in every run a thread that has come back from a condition wait has taken its mutex by a successful try |
| `LockCounts.CondWaitsOn` | lib/runtime/record-runtime.cpp:1652-1653 | a condition wait waits on its variable until its deadline |
| `LockCounts.TriedHasWaited` | lib/runtime/record-runtime.cpp:918-923 | a thread counts as having tried only once a failed try has sent it to wait on that very counter |
| `Locks.CondGiveStep` | lib/runtime/record-runtime.cpp:1609-1657 | the signal inside a condition wait settles the debt of the earlier unlock, in either order with the extra tick |
| `TimedWaits.EndsWithUnit` | lib/runtime/record-runtime.cpp:915-926 | a thread leaves the retry loop in a step iff the step is its try and finds a unit, whatever the deadline, which stays the same |
| `TimedWaits.NeverGivesUp` | lib/runtime/record-runtime.cpp:1824-1872 | in every run a thread that has left the loop did so by a try in a state with a unit left |
| `TimedWaits.AskedFor` | lib/runtime/record-runtime.cpp:1848-1856 | in every run a thread that asks for a counter with a deadline tries for it with that deadline until it takes a unit |
| `TimedWaits.EmptyParks` | lib/runtime/record-runtime.cpp:1852-1868 | a try on an empty counter waits with the loop's deadline, whatever the last wait returned |
| `TimedWaits.NextTickEnds` | lib/runtime/record-scheduler.cpp:232-264 | a wait with a past deadline is timed out by the next tick iff the deadline is below the new turn count, which only a wrap of the clock prevents |
| `TimedWaits.TimedOutWaitsAgain` | lib/runtime/record-runtime.cpp:1852-1868 | a reachable state in which a thread past its deadline, told that it timed out, finds the semaphore empty and waits again |
| `TimedWaits.CondTimedWaitReturns` | lib/runtime/record-runtime.cpp:1655-1680 | the value a timed condition wait keeps for its caller is 1 iff the deadline passed and 0 iff it was signalled, never ETIMEDOUT, and cond_map drops by it |
| `TimedWaits.ReasonSettled` | lib/runtime/record-scheduler.cpp:491-562 | the reason is fixed when the waiter is released, by a signal of its channel or by its passed deadline, and stays until the thread waits again |
| `WaiterCounts.CountsAgree` | lib/runtime/record-runtime.cpp:1684-1702 | at every turn boundary of a run without timed waits cond_map and sem_map give the number of threads queued on the channel |
| `WaiterCounts.CountStep` | lib/runtime/record-runtime.cpp:1751-1772 | every step keeps the counts equal to the threads queued or on their way into the queue |
| `Barriers.ArrivalsAreWaiters` | lib/runtime/record-runtime.cpp:1196-1228 | narrived is the number of threads waiting whenever none is just entering, and always below count, so the overflow assertion holds |
| `Barriers.Generations` | lib/runtime/record-runtime.cpp:1240-1315 | every generation has exactly count members, each returns from it at most once, exactly one with PTHREAD_BARRIER_SERIAL_THREAD, and all have returned once none is inside |
| `Barriers.ReleasedTogether` | lib/runtime/record-runtime.cpp:1288-1305 | a parked thread is held up exactly while its generation is the current one, also under immediate reuse |
| `Barriers.BarStepInv` | lib/runtime/record-runtime.cpp:1240-1315 | every step of arriving, releasing, passing the turn on and returning keeps the generation bookkeeping |
| `Lineups.LineupRounds` | lib/runtime/record-runtime.cpp:1966-2019 | nactive counts the threads between start and end; Arriving means fewer than count and all waiting or timed out; Leaving means nobody waits and somebody is inside |
| `Lineups.RoundEdges` | lib/runtime/record-runtime.cpp:1966-2045 | a round starts leaving exactly when its last thread arrives or a timed-out thread resumes, and becomes Arriving again exactly when its last thread ends |
| `Lineups.StartDeadline32` | lib/runtime/record-runtime.cpp:2003 | a start that has to wait waits until getTurnCount plus the timeout, in 32 bits |
| `Lineups.StartDeadline` | lib/runtime/record-runtime.cpp:2003 | short of a wrap that is one less than the turn count plus the timeout |
| `Lineups.NobodyLinesUpLonger` | lib/runtime/record-runtime.cpp:1998-2019 | in every run no thread is still lined up after a tick that takes the turn count above its start plus the timeout |
| `Lineups.FinishIsPaired` | lib/runtime/record-runtime.cpp:2026-2045 | ending never underflows nactive and happens while leaving |
| `Lineups.LuStepInv` | lib/runtime/record-runtime.cpp:1920-1940 | every step, timeouts between the last arrival and the resumption included, keeps the round invariant |
| `CriticalSections.FirstTryLockSucceeds` | lib/runtime/record-runtime.cpp:953-976 | with critical-section-first a thread with the turn finds a mutex other than idle_mutex locked exactly when it locked it itself; idle_mutex can also be the idle thread's |
| `CriticalSections.HeldByTurnOwner` | lib/runtime/record-runtime.cpp:227-247 | every locked mutex belongs to the thread that has the turn or its pending wake flag, except that idle_mutex can be the idle thread's |
| `CriticalSections.IdleMutexHeld` | lib/runtime/helper.cpp:103-117 | a reachable state in which the idle thread waits without the turn and holds idle_mutex while another thread has the turn and would find it locked |
| `CriticalSections.CsStepInv` | lib/runtime/record-runtime.cpp:635-640 | every step, the idle thread's wait and its release of idle_mutex in it included, keeps the turn with the thread inside a critical section and inCSLevel equal to what it holds |
| `CriticalSections.UnlockWakes` | lib/runtime/record-runtime.cpp:1180-1190 | an unlock releases the mutex and wakes a thread that waits for it |
| `CriticalSections.ExtAssertsHold` | lib/runtime/record-runtime.cpp:2192-2215 | for a thread with the turn, the assertion of ext_get_turn holds iff its level equals the number of mutexes it holds, and that of ext_put_turn iff its level is one more |
| `CriticalSections.NestedExtGet` | lib/runtime/record-runtime.cpp:2192-2203 | a reachable state in which a thread has completed one ext_get_turn, has the turn for a second one, and that fails its assertion |
| `TondSync.MutualExclusion` | lib/runtime/record-scheduler.cpp:165-194 | at most one thread is between getTurn and next |
| `TondSync.WaitingIffNotRunnable` | lib/runtime/record-scheduler.cpp:491-515 | whenever inSync is clear the wait queue holds exactly the threads whose runnable flag is clear |
| `TondSync.NobodyMissed` | lib/runtime/record-scheduler.cpp:519-562 | a sweep that has gone through the queue leaves nobody it looks for, whether or not that thread spins yet |
| `TondSync.BroadcastReachesAll` | lib/runtime/record-scheduler.cpp:528-559 | when a broadcast returns nobody waits on its channel |
| `TondSync.NobodyLeftLate` | lib/runtime/record-scheduler.cpp:566-572 | every incTurnCount reaches check_wakeup with nobody left in the queue past its deadline |
| `TondSync.TurnsCount` | lib/runtime/scheduler.cpp:56-61 | the turn count is the number of ticks in 32 bits |
| `TondSignals.SignalDelivers` | lib/runtime/record-scheduler.cpp:519-562 | however other threads interleave, a broadcast that returns has released every waiter of the channel, a signal the first one, and nobody else |
| `TondSignals.WaiterKeepsRecord` | lib/runtime/record-scheduler.cpp:498-506 | wait queues its caller with the channel and deadline it was called with, and these stay until the release |
| `TondSync.WokenStaysWoken` | lib/runtime/record-scheduler.cpp:208-213 | only the thread itself clears its runnable flag |
| `TondSync.WokenIsErased` | lib/runtime/record-scheduler.cpp:251-259 | a queued thread that is runnable is the one being erased |
| `TondSync.StepInv` | lib/runtime/record-scheduler.cpp:340-344 | every step of every thread keeps the flag, queue and sweep invariant |
| `TondSync.FrontIsMain` | lib/runtime/record-scheduler.cpp:491-525 | the run-queue-head assertions hold in this mode iff the caller is the main thread |
| `RingBuffer.WindowAdd` | apps/pbzip2/pbzip2-0.9.5/pbzip2.cpp:1150-1163 | writing behind the window extends the represented sequence at its end |
| `RingBuffer.WindowDel` | apps/pbzip2/pbzip2-0.9.5/pbzip2.cpp:1168-1184 | advancing the head drops the first element |
| `RingBuffer.Queue.constructor` | apps/pbzip2/pbzip2-0.9.5/pbzip2.cpp:1051-1078 | a new queue of any capacity of at least one is empty |
| `RingBuffer.Queue.Add` | apps/pbzip2/pbzip2-0.9.5/pbzip2.cpp:1150-1163 | appends to the represented sequence and sets full exactly when the capacity is reached |
| `RingBuffer.Queue.Del` | apps/pbzip2/pbzip2-0.9.5/pbzip2.cpp:1168-1184 | takes the first element of the represented sequence |
| `RingBuffer.Queue.FlagsExact` | apps/pbzip2/pbzip2-0.9.5/pbzip2.cpp:1150-1184 | full and empty are exact |
| `RingBuffer.RunOps` | apps/pbzip2/pbzip2-0.9.5/pbzip2.cpp:1150-1184 | for every sequence of guarded operations what was taken followed by what is left is what was there followed by what was added |
| `Pipeline.OutputInOrder` | apps/pbzip2/pbzip2-0.9.5/pbzip2.cpp:730-820 | for every interleaving the bytes written are the compressed blocks before currBlock, in order |
| `Pipeline.CompleteOutput` | apps/pbzip2/pbzip2-0.9.5/pbzip2.cpp:753-815 | a writer that has ended has written every block, so all complete runs give the same output |
| `Pipeline.NoEarlyExit` | apps/pbzip2/pbzip2-0.9.5/pbzip2.cpp:929-985 | no consumer exits while a block is queued or still to be queued |
| `Pipeline.NoBlockLost` | apps/pbzip2/pbzip2-0.9.5/pbzip2.cpp:929-1046 | when all consumers have exited every block has reached its slot |
| `Pipeline.SlotsStable` | apps/pbzip2/pbzip2-0.9.5/pbzip2.cpp:1028-1032 | a filled slot never changes, so the writer may read it outside the mutex |
| `Pipeline.BlockCount` | apps/pbzip2/pbzip2-0.9.5/pbzip2.cpp:1880-1891 | the rounded-up quotient main computes is the number of blocks the producer cuts |
| `Pipeline.BlocksPartition` | apps/pbzip2/pbzip2-0.9.5/pbzip2.cpp:825-924 | the blocks concatenate to the file, none empty and none too long |
| `Pipeline.StepInv` | apps/pbzip2/pbzip2-0.9.5/pbzip2.cpp:825-1046 | every step of producer, consumers and writer keeps each block in exactly one place |
| `PipelineProgress.BoundedWork` | apps/pbzip2/pbzip2-0.9.5/pbzip2.cpp:730-1046 | in every run the steps that do more than look again at an empty queue or slot are bounded by the work left at its start |
| `PipelineProgress.CanComplete` | apps/pbzip2/pbzip2-0.9.5/pbzip2.cpp:730-1046 | from every reachable state with a consumer the pipeline can be completed: the producer finishes and the writer ends with the whole output |
| `PipelineProgress.ReadyIsWritten` | apps/pbzip2/pbzip2-0.9.5/pbzip2.cpp:753-806 | whatever the others do, a ready block is written and passed after at most four steps of the writer |
| `PipelineProgress.WriterFinishes` | apps/pbzip2/pbzip2-0.9.5/pbzip2.cpp:753-806 | with the producer and all consumers gone the writer can always step, and ends with the whole output within four steps for each block left and two |
| `PipelineProgress.ConsumersExit` | apps/pbzip2/pbzip2-0.9.5/pbzip2.cpp:949-968 | after the end of the file the consumers take a bounded number of steps before all have exited |
| `PipelineProgress.ExitMoves` | apps/pbzip2/pbzip2-0.9.5/pbzip2.cpp:949-968 | and until then one of them can step |
| `PipelineProgress.ExitsNext` | apps/pbzip2/pbzip2-0.9.5/pbzip2.cpp:952-965 | a consumer that has seen the queue empty exits at its next step |
| `PipelineSignals.NoLostSignal` | apps/pbzip2/pbzip2-0.9.5/pbzip2.cpp:900-908 | while the producer waits for notFull, the queue is full or a consumer has yet to signal a block it has taken |
| `PipelineSignals.SignalWakes` | apps/pbzip2/pbzip2-0.9.5/pbzip2.cpp:992-1000 | that consumer stays about to signal until its own next step, which wakes the producer |
| `PipelineSignals.ConsumerMoves` | apps/pbzip2/pbzip2-0.9.5/pbzip2.cpp:939-998 | while the producer sleeps some consumer can step |
| `PipelineSignals.WokenSoon` | apps/pbzip2/pbzip2-0.9.5/pbzip2.cpp:939-998 | without spurious wake-ups, the consumers take at most four steps each before one is about to signal the sleeping producer |
| `RecordLog.ExtraCount` | include/tern/logdefs.h:145-147 | the unsigned computation gives the number of groups of three after the first two arguments, also for zero and one argument |
| `RecordLog.BinLogger.LogCall` | lib/runtime/record-log.cpp:396-450 | the loops write the call record and the extra records with the arguments in their places |
| `RecordLog.RoundTrip` | include/tern/logdefs.h:195-202 | for every list of up to 32767 arguments, reading back gives the list iff it has at most 767 members or its last extra record is full |
| `RecordLog.RecordCount` | include/tern/logdefs.h:180-193 | the records of a call number numRecForInst of the call record and of the return record; of an extra record iff the call returns |
| `RecordLog.CallInLog` | lib/runtime/record-log.cpp:396-489 | anywhere in a log the call record of a logged call tells how many records belong to it, the return record with its data is the last of them, and the id comes back iff it is not the reserved pattern |
| `RecordLog.ArgsInLog` | lib/runtime/record-log.cpp:396-450 | anywhere in a log the arguments of a logged call read back iff RoundTrip's condition holds |
| `RecordLog.LogOneCall` | lib/runtime/record-log.cpp:396-489 | logCall and, unless the call does not return, logRet extend the buffer by numRecForInst records of the new call record, from which the arguments read back iff RoundTrip's condition holds |
| `RecordLog.InsidRoundTrip` | include/tern/logdefs.h:76-87 | an instruction id survives iff it is not the pattern kept for the invalid id |
| `BackEdges.Function.SetSuccessors` | eval/find-hotspot/find-hotspot.cpp:119-126 | the loop redirects every edge from x to y and no other |
| `BackEdges.Function.SetIncoming` | eval/find-hotspot/find-hotspot.cpp:132-137 | the loop renames the first incoming pair from x only |
| `BackEdges.Function.AddBackEdgeStat` | eval/find-hotspot/find-hotspot.cpp:103-140 | the pass in place computes the rewritten graph, edge by edge |
| `BackEdges.RewriteShape` | eval/find-hotspot/find-hotspot.cpp:103-140 | shape of the result for every edge list: inserted blocks, redirected edges, and every PHI node's operand under its new predecessor |
| `BackEdges.Preserved` | eval/find-hotspot/find-hotspot.cpp:103-140 | every execution of the result with inserted blocks erased is one of the original with the same PHI operands, and counter i is called once per traversal of edge i |
| `BackEdges.NothingLost` | eval/find-hotspot/find-hotspot.cpp:103-140 | every execution of the original arises in this way |
| `BackEdges.ExactIffFirst` | eval/find-hotspot/find-hotspot.cpp:116-126 | counter i counts a program edge exactly on every walk iff the edge is not listed before place i |
| `BackEdges.RepeatMissed` | eval/find-hotspot/find-hotspot.cpp:116-126 | for every repeated edge, a one-step walk that takes it without calling its later counter |
| `BackEdges.TwoEdgesMissed` | eval/find-hotspot/find-hotspot.cpp:116-126 | a block that branches twice to itself as a concrete failing input |
| `BackEdges.PhiFitsIff` | eval/find-hotspot/find-hotspot.cpp:128-138 | the pass keeps a well-formed PHI node well formed iff every listed edge into its block is listed as often as it occurs |

## Left out

- System calls, sockets and dbug wrappers: foreign code; only the interProStart/block and interProEnd/wakeup bracket around them is modelled.
- The high-priority run queue, the yield strategy and checkNonDetBound: outside the base configuration.
- Non-deterministic regions and signalling `nonDetCV` from nextRunnable.
- The semaphore handshake at thread start: its post comes after the turn is put; creation is one atomic step here.
- RRSchedulerObject.RRScheduler.NobodyRuns: exit(1) without an idle thread and a failed lookup of the idle thread are one outcome, Abort, because both end the program.
- RRSchedulerObject.RRScheduler.WakeUpIdleThread: leaves out the exit when `idle_done` is set and the signal of idle_cond, which only wake the idle thread out of its host-level wait; `CriticalSections` models that wait.
- PutTurn strategies chosen after the turn is put: under wakeamap_plus `check_cv_wait_cnt` reads waiter counts after putTurn; in `Determinism` every strategy is chosen with the turn held.
- Shutdown of the idle thread (`idle_done`) and the exit path when no idle thread is launched, apart from saying when it is reached (`NoIdleThread`).
- The semaphore and hybrid relays of `wait_t`: all relays are one wake flag that is set once and cleared by its reader.
- Conversion of time intervals to turns: deadlines of timed waits are arbitrary numbers.
- Exact cond_map and sem_map counts with timed waits: the counts then drift, so they are stated for untimed runs.
- Read-write locks: the same retry loop as mutexes with try operations of the host library.
- Role bookkeeping of wakeamap_plus and the `satisfying` variables: they only choose the putTurn strategy, and every strategy of the base configuration is allowed.
- Barrier and lineup destruction, and re-initialisation of an object in use.
- Memory management, file errors, short reads and compression failures in pbzip2, and its decompression side.
- The mapping of the log file and its 1 GB limit; unwritten argument slots read as zero.
- Load, store and sync records, profilers, hooks, code generation and evaluation scripts: they would add only easy members.
- How LLVM finds back edges: any list of edges between blocks of the graph is allowed.
