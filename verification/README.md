# A verified model of the TamgaOS ARM kernel core

TamgaOS is a small real-time kernel for Cortex-M4 and Cortex-M7 boards. Its tasks hang on
intrusive, priority-ordered wait lists; a tick can pull a task out of the middle of a list;
every wake-up or block takes one decision about who runs next, and PendSV makes that decision
real later. This project models that core as one machine and proves what holds in every state
of every run, for any number of tasks, lists and objects. It also covers the software timers,
tickless idle, the context switch, and the attitude filter of the controls directory.

`dafny verify dfyconfig.toml` checks everything.

## How it is built

**Values.** `Selection`, `WaitQueue`, `Kernel` and `Primitives` give the shared state as a value
(`State`: control blocks, wait lists as sequences of task numbers, current task, next task) and
each piece of a critical section as a function on it. `System` puts them together as a machine:
an action is one critical section of the running task, an interrupt, a tickless sleep, or the
switch that PendSV performs; retry loops are program points (`Pc`). A task takes its next step
only when the latest choice has been delivered, since PendSV is taken before thread code goes on.
The `Isr` actions and `SetBits` also stand for the same call made by a task when it is a single
critical section (`sem_give`, `sem_trytake`, `event_set`); a task's `queue_try_send` is
`Call(Send(..., Never))`, with its pop and its wake-up apart. `Runs.IsRun` is a run.

**Invariants over runs.** `Integrity` holds the invariant of every reachable state, and
`KernelLemmas`, `Effects`, `IntegritySteps` and `Runs` prove it. On top of it stand `Channels`
(no lost wake-ups), `Inheritance` and `HandOff` (priority inheritance, list order, inversion),
`EventRuns`, `EventSweep` and `EventFlags` (event groups), `Semaphores`, `Timing` and
`RoundRobin`. `Calls` says what a call returns with, retries included, and `Frames` what an
action leaves alone. `Guarantees` states the results on mutexes, queues and event groups for one
task, list or object at a time.

**Where it fails.** `Counterexamples` has the exact conditions under which a promise of the code
breaks, `Nesting` what a task that holds several mutexes is left with, `Interrupted` and
`TornService` what an interrupt does inside code that no critical section protects, and
`Scenarios` and `TornRuns` short runs from start-up that reach such states.

**Memory.** `Heap` has the same state as the C code has it: `Task` objects linked by
`waitNext`, `WaitList` cells, two global pointers. `HeapScheduler`, `HeapPrimitives`,
`HeapEvents` and `HeapIdle` contain the loops and pointer updates of the source, each proved to
change the abstract state `k` by the function of the same name. So what is proved of the
functions holds of the pointer code.

**Time.** `Ticks` shows that ticks add up; `Timers` and `TimerRuns` cover the timer service on
a 32-bit clock that wraps; `Tickless` compares an idle iteration with the interrupts it
replaces; `Dozing` follows a sleep that an interrupt disturbs.

**Alone.** `RingBuffer` (bytes of a queue), `ContextSwitch` and `SwitchRuns` (PendSV, SVC, new
stacks), `KalmanAxis`, `Kalman` and `KalmanFilter` (the filter over exact reals).

Auxiliary data that the C code does not have: in a control block, the list it is linked into
(`on`) and the number of its latest enqueue (`stamp`); in a mutex, the priorities that queued
during the present ownership and when it began; in a semaphore, effective gives and takes; in
the machine, the true time, the tasks' own priorities (`base`), a log of event flags set and
consumed, and whether an unlock has lowered a priority since the last decision (`lowered`).
Nothing the code does depends on them. Object `o` has list `2 * o` (receivers, for a queue) and
list `2 * o + 1` (senders). The idle task is the last control block.

## Conditions

The code asks these things of its callers. Where they are needed they are stated in the lemma,
and the lemmas named here say exactly when the code does without them.

- The machine takes `sched_tick_n`, PendSV, and the idle task's way from its budget to the end of
  its `sched_tick_n` as single steps. They are not critical sections. So every statement about
  runs supposes that no interrupt that calls the kernel, SysTick included, is taken inside
  `sched_tick_n` (scheduler.c:309-337), between PendSV's load of `g_next_task` and its store
  (pendsv_handler.s:28-30), or in the idle task from the computation of the budget on
  (scheduler.c:158-170), the `wfi` aside. `Interrupted` says exactly when one does no harm, and
  `TornRuns` reaches each failure from start-up:
  - behind the checks of a turn of the loop, just if the task is unlinked by then or still on the
    list its head names (`RestOfTurnIff`, `TornTurnIff`; `ReadyOnAList`); and a waiter that was
    woken meanwhile is told that it has timed out, which loses its wake-up
    (`SpuriousTimeoutIff`; `ItemStranded`);
  - inside the decision, just if it makes no choice, the same one, or one that the roll-back still
    takes back (`MarkIff`, `SelectLateIff`, `CommitLateIff`; `TwoTasksRun`);
  - inside PendSV, just if it does not choose the task that is being switched out
    (`StoreIff`; `WrongTaskSwitchedIn`);
  - with a budget in hand, just if no running delay is shorter (`StaleBudgetIff`,
    `StaleBudgetDelaysTimer`; `Oversleeps`).
- Every task priority is below 0xFF: `sched_select_next` starts from `best = 0xFF` and never
  chooses a READY task of that priority (`WorstPriorityNeverRuns`). Part of `Init`.
- Exact inheritance needs that a task locks a mutex only while it holds none (`OneMutex`). The
  saved priority is per mutex: the owner of several ends with what the last released elevated one
  had saved (`LastReleaseDecides`); if all waiters come first, that is its own priority just when
  that mutex was the first to be elevated (`OrderRule`). The owner does not choose the order of
  its waiters, so whatever order it releases in, some order of waiters leaks a priority, unless
  the order is that of one mutex (`OneMutexIsExact`).
- A wait list stays in order if nobody makes a call that may wait there while holding a mutex
  (`FreeHanded`), because raising the priority of a queued task does not re-sort its list
  (`ElevationSortedIff`, and a run in `ListOutOfOrder`). For the lists of mutexes `OneMutex` is
  enough: holders may wait for anything else.
- A queue pops a waiter inside its critical section and wakes it after leaving. That is safe just
  for a waiter without a running delay (`SplitWakeSafeIff`). A timed one can time out in between
  and block elsewhere; the late wake-up then marks it READY on its new list
  (`LateWakeCorrupts`). The model keeps the split for untimed waiters and takes pop and wake as
  one step for timed ones.
- Unlocking an elevated mutex whose waiters have all timed out lowers the owner's priority
  without a new decision; the owner may then run although a better task is READY
  (`UnlockStillBestIff`, and a run in `WrongTaskRuns`). "The best READY task runs" is therefore a
  statement about decisions: it holds in every state in which `lowered` is false, and in every
  state of a run without such an unlock (`BestRuns`).
- Timed calls compare `now >= deadline` on the 32-bit clock, and so does the machine. A call whose
  deadline wraps gives up at once (`TimedCallWaits`). For any other the check is right at every
  retry just as long as the clock has not wrapped (`ChecksRightIff`): a caller that loses the race
  and retries after that waits once more, for up to 49 days (`RemainingIsExact`, and a run in
  `WaitsAgain`).
- In tick mode timer periods from 1 to 2^31 + 1 ms work across the wrap, and no others
  (`FirstCallExact`); where the idle task may service a timer in the millisecond of its start,
  2^31 is the limit (`QuietAtStartIff`).
- In tickless idle `sched_tick_n` requests PendSV before `timer_service_tick` is reached. When a
  task's delay and a timer run out in the same millisecond and the task keeps the processor until
  the next SysTick, the callback comes one millisecond late; later calls are not moved, and none
  is lost (`ReloadsOnTime`, `LateIff`, and a board reached from start-up in `CallbackTooLate`).
  The repository's comments do not mention this.
- The timer service of the idle task is not a critical section either (timer.c:101-125), and the
  lemmas on timers suppose that no SysTick interrupts it. One that does is harmless to a slot,
  which sees the two passes in one order or the other, unless it comes between check and update
  of a slot that is due once (`TornPassIff`); that callback is called twice, a one-shot one too,
  and an auto-reload timer skips a period (`TornSlotCalledTwice`).
- A tickless sleep is quiet. When an interrupt wakes a task during the sleep, PendSV leaves the
  idle task with `s_tickless_active` set, and clock, delays and timers stand still until it runs
  again (`ClockStandsStill`, `NobodysTimeComes`). So after a millisecond or more the time is right
  when `wfi` returns just if the idle task is still the chosen one (`TimeRightIffIdle`), and it
  becomes right again just if the idle task comes back within the budget (`ReturnRightIff`). The
  equivalence of sleeping and ticking is for quiet sleeps.

## Model

| member | source | states |
|---|---|---|
| `Selection.BestOf` | kernels/arm/kernel/core/scheduler.c:261-269 | the first loop finds the best READY priority below 0xFF and the first task that has it, idle when there is none |
| `Selection.SelectIsChoice` | kernels/arm/kernel/core/scheduler.c:260-289 | the two loops choose a READY task of the best priority, the nearest one after the current task in cyclic order, and the idle task only when nothing is READY |
| `Selection.ChoiceUnique` | kernels/arm/kernel/core/scheduler.c:271-286 | that choice is unique, so the definition determines what `sched_select_next` returns |
| `Counterexamples.WorstPriorityNeverRuns` | kernels/arm/kernel/core/scheduler.c:261-269 | a READY task of priority 0xFF or more is never chosen |
| `WaitQueue.InsertMembers` | kernels/arm/kernel/core/mutex.c:16-29 | `wq_insert` adds the task, keeps all others and creates no duplicate |
| `WaitQueue.InsertOrdered` | kernels/arm/kernel/core/mutex.c:16-29 | `wq_insert` keeps a list sorted by priority, first come first served among equals |
| `WaitQueue.RemoveAtMembers` | kernels/arm/kernel/core/scheduler.c:88-100 | unlinking removes one task and no other |
| `KernelLemmas.CommitDecides` | kernels/arm/kernel/core/scheduler.c:294-307 | a decision leaves exactly one RUNNING task, the chosen one, with no better READY task, even when an earlier choice was never delivered |
| `KernelLemmas.ReschedDecides` | kernels/arm/kernel/core/scheduler.c:437-443 | the same when the running task is first made READY |
| `KernelLemmas.BlockInv` | kernels/arm/kernel/core/mutex.c:67-69 | blocking on a list keeps list integrity, list order and the one RUNNING task, and decides |
| `KernelLemmas.WakeInv` | kernels/arm/kernel/core/scheduler.c:471-491 | waking a task that was taken off its list keeps all of that |
| `KernelLemmas.DelayInv` | kernels/arm/kernel/core/scheduler.c:382-391 | `sched_delay_ms` keeps all of that |
| `KernelLemmas.YieldInv` | kernels/arm/kernel/core/scheduler.c:425-435 | `sched_yield` keeps all of that |
| `KernelLemmas.ExpireInv` | kernels/arm/kernel/core/scheduler.c:311-326 | a time-out that pulls a task out of the middle of a list keeps integrity and order of all lists |
| `KernelLemmas.TickInv` | kernels/arm/kernel/core/scheduler.c:309-337 | a tick of any length keeps all of that, and decides |
| `Ticks.ReschedFresh` | kernels/arm/kernel/core/scheduler.c:294-307 | demote, roll back, select, mark is the decision made from scratch: nothing of an undelivered choice survives |
| `Ticks.TickAges` | kernels/arm/kernel/core/scheduler.c:309-326 | what `sched_tick_n(e)` makes of every delay, state, list head, time-out flag and wait list, in closed form |
| `Ticks.TickAdds` | kernels/arm/kernel/core/scheduler.c:309-337 | `sched_tick_n(a)` then `sched_tick_n(b)` leaves the same state as `sched_tick_n(a + b)` |
| `Ticks.TickManyIsTickN` | kernels/arm/kernel/core/scheduler.c:309-380 | one `sched_tick_n(e)` equals `e` calls of `sched_tick` |
| `EventBits.MetMonotone` | kernels/arm/kernel/core/event.c:28-33 | fewer flags never meet a condition, stated flag by flag, that more flags do not |
| `EventBits.MetIsWanted` | kernels/arm/kernel/core/event.c:28-33 | `event_condition_met`, flag by flag: with ANY just when some flag of the mask is set, with ALL just when every flag of the mask is |
| `EventBits.WithFlags` | kernels/arm/kernel/core/event.c:96 | setting flags adds those and no others |
| `EventBits.WithoutFlags` | kernels/arm/kernel/core/event.c:80 | clearing flags takes those away and no others |
| `Runs.StepCore` | kernels/arm/kernel/core/scheduler.c:294-491 | every enabled action of the machine keeps the invariant, the order of every list in which no mutex owner waits, and the quality of the choice |
| `Runs.RunInv` | kernels/arm/kernel/core/scheduler.c:294-491 | every state of every run has intact lists and exactly one RUNNING task, `g_next_task`, which is a best READY task unless an unlock has just lowered a priority |
| `Runs.BestRuns` | kernels/arm/kernel/core/scheduler.c:294-491 | in a run in which no unlock of an elevated mutex finds nobody to wake, no READY task is better than `g_next_task` in any state |
| `Runs.WaitListsIntact` | kernels/arm/kernel/core/scheduler.c:309-326 | in every reachable state no task is on two lists or twice on one, listed tasks are BLOCKED, a running timeout names its list, and a BLOCKED task is listed, delayed, or popped and about to be woken |
| `Runs.StaleHeadRemovesNothing` | kernels/arm/kernel/core/scheduler.c:88-100 | `sched_wait_list_remove` changes nothing just when the task is not on the list that its head names |
| `Channels.StepKeeps` | kernels/arm/kernel/core/mutex.c:38-144 | every action keeps, for all lists at once: while somebody sleeps, what the list waits for is covered by woken tasks that have not retried |
| `Channels.RunKeeps` | kernels/arm/kernel/core/queue.c:55-218 | hence it holds in every state of every run, with blocking, timed, try and interrupt variants interleaved |
| `Guarantees.MutexHasHeir` | kernels/arm/kernel/core/mutex.c:38-144 | a free mutex with waiters has a popped task that is awake and about to retry, although try and block are separate critical sections |
| `Guarantees.QueueStrandsNobody` | kernels/arm/kernel/core/queue.c:55-218 | while receivers sleep, stored items do not exceed receivers popped but not yet retried; likewise free slots and senders |
| `HandOff.OwnershipMoves` | kernels/arm/kernel/core/mutex.c:38-144 | a mutex changes hands in two ways only: a free one goes to the running task inside its own lock call, which returns, and its owner gives it up |
| `Guarantees.LockReturnsOwner` | kernels/arm/kernel/core/mutex.c:49-74 | `mutex_lock` returns only to the owner |
| `Guarantees.ItemsStayInOrder` | kernels/arm/kernel/core/queue.c:41-218 | every action leaves a queue as it is, appends one item where there was room, or takes the oldest one |
| `Guarantees.TryQueueMoves` | kernels/arm/kernel/core/queue.c:55-190 | a send that finds room appends its own item, a receive that finds an item takes the oldest, and a plain one that finds nothing sleeps |
| `Calls.AdvanceContinues` | kernels/arm/kernel/core/queue.c:55-189 | every step of every call, first try or retry: the caller gets what it asks for just when that is there; and a queue serves the first waiter of the other side; otherwise a try call returns, a timed one returns just when the clock shows its deadline or it has timed out, and any other sleeps on its list |
| `Calls.LeavesWith` | kernels/arm/kernel/core/queue.c:55-189 | a plain call on a mutex, semaphore or queue leaves its retry loop only in the step that takes the mutex, takes one token, appends its own item or takes the oldest; another call may also leave, with nothing taken, when it may not wait any longer |
| `Calls.CallsGetOnce` | kernels/arm/kernel/core/mutex.c:49-121 | over every run, however often the caller is woken and loses the race: a plain call gets what it asks for exactly once before it returns, any other once or, if it gives up, never |
| `Calls.WaitReturns` | kernels/arm/kernel/core/event.c:111-204 | `event_wait` returns only with its condition met, flag by flag; `event_wait_timeout` also when it has timed out, finds its deadline shown, or finds no free slot |
| `Calls.IsrGets` | kernels/arm/kernel/core/queue.c:191-219 | a try call that is one critical section takes one token, appends its own item or takes the oldest, and makes exactly the first waiter of the other side runnable |
| `Calls.UnlockWakesFirst` | kernels/arm/kernel/core/mutex.c:123-144 | an unlock by the owner frees the mutex, ends its elevation, and makes exactly the first waiter runnable |
| `Inheritance.BestIsLeast` | kernels/arm/kernel/core/mutex.c:59-65 | the reference value of inheritance is the minimum of a priority and a list of priorities |
| `Inheritance.RunExact` | kernels/arm/kernel/core/mutex.c:49-144 | the exactness invariant of inheritance holds in every state of every run without nested mutexes |
| `Guarantees.OwnerPriorityExact` | kernels/arm/kernel/core/mutex.c:59-65 | while a mutex is held, the owner's priority is the minimum of the one it started with and those of all tasks that queued during this ownership |
| `Guarantees.WaiterOnRecord` | kernels/arm/kernel/core/mutex.c:59-69 | every waiter that queued during this ownership is among those tasks |
| `Guarantees.OthersKeepTheirs` | kernels/arm/kernel/core/mutex.c:97-103 | a task that holds no mutex always has the priority it started with |
| `Guarantees.UnlockRestores` | kernels/arm/kernel/core/mutex.c:132-137 | every unlock in such a run gives the owner the priority it started with |
| `Guarantees.NoInversion` | kernels/arm/kernel/core/mutex.c:49-74 | while a task that queued in the present ownership waits and the owner is READY, no decision picks a task of worse priority than that waiter |
| `HandOff.RunSorted` | kernels/arm/kernel/core/mutex.c:16-29 | list by list: in every run in which nobody makes a call that may wait on the list while holding a mutex, the list is in priority order, first come first served among equals |
| `Guarantees.ListsStaySorted` | kernels/arm/kernel/core/mutex.c:16-29 | the same, said of two entries of one list |
| `Guarantees.MutexListsStaySorted` | kernels/arm/kernel/core/mutex.c:16-29 | the list of a mutex, one of any number, stays in that order when no task locks a second mutex, whatever else holders wait for |
| `HandOff.RunFair` | kernels/arm/kernel/core/mutex.c:49-144 | with one mutex in the system, fairness of hand-off holds in every state of every run, also when the owner blocks on semaphores, queues or event groups |
| `Guarantees.OwnerNeverWorse` | kernels/arm/kernel/core/mutex.c:49-144 | with one mutex in the system the owner is never worse than any waiter, whether it queued in this ownership or an earlier one |
| `Guarantees.HeirNeverWorse` | kernels/arm/kernel/core/mutex.c:123-144 | across hand-off and barging: while the mutex is free and somebody waits, a woken task no worse than that waiter is about to retry |
| `EventRuns.SweepCompletes` | kernels/arm/kernel/core/event.c:71-92 | one pass of the sweep leaves no listed waiter whose condition holds, while unlinking and clearing as it goes |
| `EventRuns.RunEvents` | kernels/arm/kernel/core/event.c:71-204 | the event invariant (slots and waiters name each other, conditions unmet, flags used at most once) holds in every state of every run |
| `Guarantees.NobodyMissesFlags` | kernels/arm/kernel/core/event.c:71-204 | in every state of every run a listed waiter lacks every flag of its mask or, if it waits for all, one of them |
| `Guarantees.ResultMeetsMask` | kernels/arm/kernel/core/event.c:143-145 | a waiter that resumes without time-out returns flags among which is one of its mask or, if it waits for all, every one of its mask |
| `Guarantees.PoolNeverRunsOut` | kernels/arm/kernel/core/event.c:35-65 | with as many pending slots as tasks, allocation never fails |
| `Guarantees.FlagUsedOnce` | kernels/arm/kernel/core/event.c:71-123 | between two sets of a flag at most one auto-clear waiter with it in its mask observes it, and none while it is still set |
| `EventSweep.FirstTakerWins` | kernels/arm/kernel/core/event.c:71-92 | within a sweep it is the first satisfied waiter in list order that takes a flag; those behind it do not see it |
| `EventSweep.SweepTakes` | kernels/arm/kernel/core/event.c:71-92 | a sweep takes away the flags of the masks that auto-clear waiters took in it, and no others |
| `EventFlags.SweepNotes` | kernels/arm/kernel/core/event.c:77-87 | the auxiliary log has one entry for each auto-clear waiter that a sweep wakes, with the mask of its call and flags that met its condition, and no other entry |
| `EventFlags.SetIsExact` | kernels/arm/kernel/core/event.c:94-99 | after `event_set` a flag is there just when it was there or was set and no auto-clear waiter that the call woke has it in its mask |
| `EventFlags.SetShows` | kernels/arm/kernel/core/event.c:77-87 | a waiter that `event_set` wakes is shown only flags that were there or are set, and all of those that are left afterwards |
| `EventFlags.SetAlone` | kernels/arm/kernel/core/event.c:94-99 | with nobody listed the flags are exactly those there before and those set |
| `EventFlags.ClearIsExact` | kernels/arm/kernel/core/event.c:101-105 | `event_clear` takes away the given flags and no others, and changes nothing else |
| `Semaphores.RunConserves` | kernels/arm/kernel/core/semaphore.c:38-86 | over every run, count minus gives plus takes is constant and the maximum does not change |
| `Semaphores.SemaphoreAccounts` | kernels/arm/kernel/core/semaphore.c:38-86 | 0 <= count <= max, count is initial plus effective gives minus takes, and while waiters sleep count does not exceed the woken tasks that have not retried |
| `Semaphores.GiveWakesFirst` | kernels/arm/kernel/core/semaphore.c:58-74 | `sem_give` adds one token up to the maximum and makes exactly the first waiter runnable |
| `Semaphores.TakeUsesOne` | kernels/arm/kernel/core/semaphore.c:38-56 | a take uses one token if there is one, and `sem_take` returns just when it did |
| `Timing.DelayStarts` | kernels/arm/kernel/core/scheduler.c:382-391 | `sched_delay_ms(ms)` at T blocks the caller until T + ms |
| `Timing.DelayIsExact` | kernels/arm/kernel/core/scheduler.c:382-402 | in every reachable state a delayed task is BLOCKED just when its time has not come |
| `Timing.DelayEndsOnTime` | kernels/arm/kernel/core/scheduler.c:309-326 | the step that wakes it is the one that reaches T + ms, ticking or tickless |
| `Timing.TimedWaitKeepsDeadline` | kernels/arm/kernel/core/queue.c:83-165 | a timed caller always sleeps until the clock shows its deadline, with its list head naming its list; that is its original deadline just when the clock is in the lap of the deadline |
| `Timing.OnlyTimeFlags` | kernels/arm/kernel/core/scheduler.c:309-326 | no action but the passing of time makes a call time out |
| `Timing.TimeoutOnTime` | kernels/arm/kernel/core/scheduler.c:309-326 | a time-out is delivered when the clock shows the deadline, and at the deadline just when the clock is in its lap |
| `Timing.DueTimesOut` | kernels/arm/kernel/core/scheduler.c:309-326 | the step that reaches the end of a timed wait takes the waiter off every list, clears delay and list head, makes it runnable and raises its time-out flag |
| `Timing.SameCall` | kernels/arm/kernel/core/queue.c:83-123 | however often a timed caller loses the race and re-arms, call and deadline stay the same |
| `Timing.TimedCallWaits` | kernels/arm/kernel/core/mutex.c:77-88 | a timed call waits at all exactly when its deadline does not wrap |
| `Timing.ChecksRightIff` | kernels/arm/kernel/core/queue.c:100-104 | for such a call the 32-bit check agrees with the true one at all times up to `last` just when the clock has not wrapped by then |
| `Timing.RemainingIsExact` | kernels/arm/kernel/core/mutex.c:85-89 | when the check lets a caller wait, at the start or at a retry, the armed delay ends at the deadline just when the clock is in its lap |
| `TornRuns.WaitsAgain` | kernels/arm/kernel/core/queue.c:100-110 | a run from start-up in which a call of 10 ms whose deadline does not wrap loses the race, retries past its deadline and arms 2^32 - 1 ms |
| `RoundRobin.ReschedNearest` | kernels/arm/kernel/core/scheduler.c:260-307 | a decision picks, among the best runnable tasks, the nearest one after the current task |
| `RoundRobin.YieldHandsOver` | kernels/arm/kernel/core/scheduler.c:425-435 | a yield while another task contends chooses another task, the nearest contender |
| `RoundRobin.NobodyStarves` | kernels/arm/kernel/core/scheduler.c:260-337 | while the set of best runnable tasks is stable, each member is switched in within as many ticks as the set has members |
| `Counterexamples.WakeSafeIff` | kernels/arm/kernel/core/queue.c:64-68 | waking a blocked task keeps the lists intact just when the task is on none |
| `Counterexamples.SplitWakeSafeIff` | kernels/arm/kernel/core/queue.c:55-80 | after a queue call has popped a waiter and left its critical section, the wake-up finds it asleep and unlisted in every continuation just when the popped waiter has no running delay |
| `Counterexamples.LateWakeCorrupts` | kernels/arm/kernel/core/queue.c:64-68 | from a state that a run from start-up reaches: a time-out between pop and wake leaves a READY task on a list |
| `Nesting.LastReleaseDecides` | kernels/arm/kernel/core/mutex.c:132-137 | for any set of mutexes, and waiters, releases and further or repeated locks in any order: the owner ends with what the last released elevated mutex had saved, so with its own priority just when that is what was saved |
| `Nesting.OrderRule` | kernels/arm/kernel/core/mutex.c:59-65 | when all waiters come before the first release, the owner ends with its own priority just when the first elevated mutex is the last elevated one to be released |
| `Nesting.OneMutexIsExact` | kernels/arm/kernel/core/mutex.c:132-137 | releasing the held mutexes in a given order, locking no others, restores the owner's own priority, whoever queues meanwhile, just when it is the order of at most one mutex |
| `Counterexamples.ElevationSortedIff` | kernels/arm/kernel/core/mutex.c:59-65 | raising the priority of a queued task keeps its list sorted just when the task in front is still better |
| `Scenarios.ListOutOfOrder` | kernels/arm/kernel/core/mutex.c:59-65 | a run from start-up in which a holder waits for a token, is elevated there, and leaves the list of the semaphore out of order |
| `Counterexamples.UnlockStillBestIff` | kernels/arm/kernel/core/mutex.c:130-143 | after an unlock without waiters the running task is still the best choice just when no READY task beats its own priority |
| `Scenarios.WrongTaskRuns` | kernels/arm/kernel/core/mutex.c:123-144 | a run from start-up in which the waiter times out and the unlocking task goes on although a better one is READY |
| `Counterexamples.CallbackTooLate` | kernels/arm/kernel/core/scheduler.c:168-171 | on a board that start-up reaches, ticking calls the timer at 10 and the tickless iteration with its next SysTick at 11 |
| `Interrupted.TurnSplits` | kernels/arm/kernel/core/scheduler.c:313-324 | a turn of the loop is its checks followed by the rest that the next rows cut off |
| `Interrupted.RestOfTurnIff` | kernels/arm/kernel/core/scheduler.c:314-321 | the rest of a turn, run in whatever state an interrupt has left, keeps the lists intact just when the task is on no list or on the one its head names |
| `Interrupted.FromHeadIff` | kernels/arm/kernel/core/scheduler.c:316-321 | the same from the look at `wait_list_head` on, which also needs that no delay has been started |
| `Interrupted.MarkReadyIff` | kernels/arm/kernel/core/scheduler.c:321 | the last store keeps them just when the task is on no list and has no delay |
| `Interrupted.TornTurnIff` | kernels/arm/kernel/core/scheduler.c:309-336 | after the decision that ends the tick the whole invariant holds just under the condition of `RestOfTurnIff` |
| `Interrupted.SpuriousTimeoutIff` | kernels/arm/kernel/core/scheduler.c:314-321 | a turn that goes on after its waiter was woken makes it time out; no wake-up is lost just when the woken tasks that have not retried still outnumber what the list waits for |
| `Interrupted.DecisionSplits` | kernels/arm/kernel/core/scheduler.c:294-305 | a decision is demotion, roll-back, selection and mark |
| `Interrupted.MarkIff` | kernels/arm/kernel/core/scheduler.c:300-304 | with an interrupt between selection and mark there is one RUNNING task, the chosen one, just when no other choice was made and the selected task has not blocked |
| `Interrupted.SelectLateIff` | kernels/arm/kernel/core/scheduler.c:295-300 | between roll-back and selection, just when no choice was made or nothing but the idle task can be chosen |
| `Interrupted.CommitLateIff` | kernels/arm/kernel/core/scheduler.c:328-332 | between demotion and roll-back, just when no choice was made, or not the current task |
| `Interrupted.StoreIff` | kernels/arm/kernel/arch/cortex_m4/pendsv_handler.s:27-30 | with an interrupt between load and store the processor ends up with the chosen task just when that is the loaded one or not the task being switched out |
| `Interrupted.StaleBudgetIff` | kernels/arm/kernel/core/scheduler.c:158-170 | a sleep by any budget wakes everybody at the end of their delays just when no running delay is shorter |
| `Interrupted.StaleBudgetDelaysTimer` | kernels/arm/kernel/core/scheduler.c:158-171 | and calls a timer late by what it exceeds the timer's remaining time |
| `TornRuns.ReadyOnAList` | kernels/arm/kernel/core/scheduler.c:309-336 | a run from start-up into a torn turn of the idle task's tick that leaves a READY task on a list |
| `TornRuns.ItemStranded` | kernels/arm/kernel/core/scheduler.c:309-326 | a run from start-up into a torn turn after which an item is stored, a receiver sleeps and nobody is about to take it |
| `TornRuns.TwoTasksRun` | kernels/arm/kernel/core/scheduler.c:294-305 | a run from start-up into a torn decision that leaves two RUNNING tasks |
| `TornRuns.WrongTaskSwitchedIn` | kernels/arm/kernel/arch/cortex_m4/pendsv_handler.s:27-30 | a run from start-up into a torn PendSV that leaves the processor with a task that is not the chosen one |
| `TornRuns.Oversleeps` | kernels/arm/kernel/core/scheduler.c:158-170 | a run from start-up in which the idle task's budget is stale and its sleep passes the end of a delay |
| `Timers.TimerPool.Create` | kernels/arm/kernel/core/timer.c:23-47 | takes the first free slot, inactive, or fails without a callback or a free slot; no other slot changes |
| `Timers.TimerPool.Start` | kernels/arm/kernel/core/timer.c:49-61 | deadline now plus period modulo 2^32 and active, for a slot in use; nothing otherwise |
| `Timers.TimerPool.Stop` | kernels/arm/kernel/core/timer.c:63-74 | inactive, for a slot in use; nothing otherwise |
| `Timers.TimerPool.ServiceTick` | kernels/arm/kernel/core/timer.c:101-125 | the loop reloads or stops exactly the due slots and calls exactly their callbacks, in slot order |
| `Timers.TimerPool.NextReady` | kernels/arm/kernel/core/timer.c:127-141 | the loop finds the soonest remaining time of the running timers, 0 for an overdue one, 0xFFFFFFFF for none |
| `TimerRuns.RemainingExactly` | kernels/arm/kernel/core/timer.c:133-139 | the remaining time of a timer is the true one below 2^31 ms, also across the wrap, and 0 once it is due |
| `Timers.DueSlotsAre` | kernels/arm/kernel/core/timer.c:105-124 | the callbacks called in a pass are those of the due slots that have one, each once, in slot order |
| `TimerRuns.ReloadsOnTime` | kernels/arm/kernel/core/timer.c:101-125 | an auto-reload timer of period P started at T is called at T + P, T + 2P, ..., each time exactly or one millisecond late, in any mix of SysTicks, sleeps, and sleeps cut off from their service; lag never adds up and no call is lost, across any number of clock wraps |
| `TimerRuns.LateIff` | kernels/arm/kernel/core/scheduler.c:168-171 | for P >= 2 a call is late just when the sleep that reached its deadline ended with a switch to another task and the next SysTick came before the idle task ran again |
| `TimerRuns.LateIffOfOne` | kernels/arm/kernel/core/scheduler.c:168-171 | for P = 1 a call is late just when nothing but SysTicks has followed on such a switch |
| `TimerRuns.ReloadsExactly` | kernels/arm/kernel/core/timer.c:101-125 | every call is exact when a task that takes the processor at the end of a sleep gives it back before the next SysTick |
| `TimerRuns.FiresOnce` | kernels/arm/kernel/core/timer.c:101-125 | a one-shot timer of period P started at T is called once, at T + P or one millisecond later, and stays stopped, in the same mix |
| `TimerRuns.OneShotLateIff` | kernels/arm/kernel/core/scheduler.c:168-171 | it is late for that reason and no other |
| `TimerRuns.FirstCallExact` | kernels/arm/kernel/core/timer.c:49-61 | in tick mode the first call comes exactly one period after the start just when 1 <= P <= 2^31 + 1 |
| `TimerRuns.QuietAtStartIff` | kernels/arm/kernel/core/timer.c:110 | a service in the millisecond of the start leaves the timer alone just when 1 <= P <= 2^31 |
| `TornService.WholePass` | kernels/arm/kernel/core/timer.c:101-125 | the turns of a pass together are `timer_service_tick` |
| `TornService.TornPassIff` | kernels/arm/kernel/core/timer.c:101-125 | a pass that SysTick interrupts anywhere leaves every slot, and calls its callback as often, as the two passes in one order or the other, just when SysTick does not come between check and update of a slot that is due once |
| `TornService.TornSlotCalledTwice` | kernels/arm/kernel/core/timer.c:110-122 | such a slot is updated and called twice instead of once, one-shot or not |
| `TornService.AtDeadlineDueOnceIff` | kernels/arm/kernel/core/timer.c:110-118 | a timer at its deadline is due once unless it reloads with period 1 |
| `Tickless.SleepWithinBudget` | kernels/arm/drivers/k64f/systick.c:51-94 | a sleep counts at least 1 and at most `max_ms` milliseconds, for every tick constant, wake-up and overflow of the product |
| `Tickless.FullSleepIsExact` | kernels/arm/drivers/stm32h753zi/systick.c:39-78 | a sleep that runs out counts exactly its budget if the 24-bit counter can hold it |
| `Tickless.ReloadIs` | kernels/arm/drivers/k64f/systick.c:57-60 | the reload value is budget times rate, cut off at 24 bits, if the product fits 32 bits |
| `Tickless.CountsWhatPassed` | kernels/arm/drivers/k64f/systick.c:75-85 | a sleep counts the whole milliseconds that passed until the counter ran out, and 1 if there are none |
| `Tickless.EarlyWakeCounts` | kernels/arm/drivers/k64f/systick.c:78-85 | woken after t ticks, before the counter has run out, a sleep counts t / ticks-per-ms milliseconds, and 1 if that is 0 |
| `Tickless.SysTick.Sleep` | kernels/arm/drivers/k64f/systick.c:51-94 | counts the whole milliseconds that the counter shows to have passed (1 if none), advances `s_ticks` by them, restores the 1 ms reload value and the tickless flag, and does nothing for a budget of 0 |
| `Tickless.IdleSleepAllowed` | kernels/arm/kernel/core/scheduler.c:151-171 | what the idle task sleeps is within every running delay and every timer, for every wake-up |
| `Tickless.TicklessIsTicking` | kernels/arm/kernel/core/scheduler.c:151-171 | one idle iteration of e ms leaves the same clock, tasks, delays, lists, choice, timers and callback calls as e SysTick interrupts: at once if it chooses nobody else, and when the idle task has returned and serviced the timers if PendSV came first |
| `Tickless.SwitchesOnExpiry` | kernels/arm/kernel/core/scheduler.c:328-336 | from idle, `sched_tick_n` requests a switch just when some delay runs out |
| `Tickless.IteratedIsTickingIff` | kernels/arm/kernel/core/scheduler.c:168-171 | with PendSV taken where it is requested, iteration and interrupts agree just when no delay and no timer run out together |
| `Tickless.IterationIsEvent` | kernels/arm/kernel/core/scheduler.c:168-171 | to the timers an iteration is a serviced sleep, or an unserviced one just when a delay runs out with it |
| `Tickless.CalledAtNextService` | kernels/arm/kernel/core/scheduler.c:168-171 | callbacks put off by a switch come with the next service whatever tasks do meanwhile: on time if the idle task returns within the millisecond, with the next SysTick and one millisecond late otherwise |
| `Tickless.BoardReloadsOnTime` | kernels/arm/kernel/core/scheduler.c:151-171 | the same call times over runs of scheduler and timers together, with arbitrary task activity between idle iterations, returns and SysTicks |
| `Dozing.ClockStandsStill` | kernels/arm/drivers/k64f/systick.c:96-107 | from the start of a sleep until the idle task runs again, clock, timers and calls do not change, whatever tasks, interrupts and SysTicks do |
| `Dozing.NobodysTimeComes` | kernels/arm/drivers/k64f/systick.c:96-107 | meanwhile a delayed task stays BLOCKED with its delay unchanged, and no call times out |
| `Dozing.CountedMs` | kernels/arm/drivers/k64f/systick.c:75-85 | of x whole milliseconds passed, the sleep counts x, or what the counter can hold if that is less, or 1 if x is 0 |
| `Dozing.TimeRightIffIdle` | kernels/arm/drivers/k64f/systick.c:72-91 | when `wfi` returns in the idle task x > 0 ms into the sleep, the clock is right just when the idle task is still the chosen one; for x = 0 just when it is not, because an empty sleep counts as 1 ms |
| `Dozing.ReturnRightIff` | kernels/arm/drivers/k64f/systick.c:74-91 | when the idle task comes back, the clock is right again just when at least 1 ms has passed and the counter has not run out; what exceeds its reload value is lost |
| `Heap.Scheduler.WqInsert` | kernels/arm/kernel/core/mutex.c:16-29 | the pointer code of `wq_insert` is list insertion; all other lists are untouched |
| `Heap.Scheduler.WqPop` | kernels/arm/kernel/core/queue.c:34-39 | the pointer code of `wq_pop` takes the first entry, or returns NULL |
| `Heap.Scheduler.WaitListRemove` | kernels/arm/kernel/core/scheduler.c:88-100 | the pointer walk unlinks the task if it is on the list and changes nothing otherwise; all other lists are untouched |
| `HeapScheduler.BestReady` | kernels/arm/kernel/core/scheduler.c:261-269 | the first loop over `s_tasks` computes `BestOf` |
| `HeapScheduler.SelectNext` | kernels/arm/kernel/core/scheduler.c:260-289 | both loops and the search for the current task compute `Select` |
| `HeapScheduler.CommitNext` | kernels/arm/kernel/core/scheduler.c:294-305 | `sched_commit_next` is `Commit` |
| `HeapScheduler.PickAndMark` | kernels/arm/kernel/core/scheduler.c:437-448 | `sched_pick_and_mark` and `sched_block_locked` are `Resched` |
| `HeapScheduler.SchedTickN` | kernels/arm/kernel/core/scheduler.c:309-332 | the loop over `s_tasks` with its list removals is `TickN` |
| `HeapScheduler.WakeTask` | kernels/arm/kernel/core/scheduler.c:471-486 | `sched_wake_task` is `Wake` |
| `HeapScheduler.BlockUntimed` | kernels/arm/kernel/core/semaphore.c:47-49 | BLOCKED, `wq_insert`, `sched_block_locked` is `Block` |
| `HeapScheduler.BlockHeadless` | kernels/arm/kernel/core/event.c:135-138 | the same with `wait_list_head` cleared |
| `HeapScheduler.BlockTimed` | kernels/arm/kernel/core/queue.c:107-112 | the same with a delay, a list head and a cleared time-out flag |
| `HeapScheduler.TakeTimeout` | kernels/arm/kernel/core/queue.c:117-121 | a timed caller that resumes notes and clears its time-out |
| `HeapScheduler.DelayMs` | kernels/arm/kernel/core/scheduler.c:382-391 | `sched_delay_ms` is `Delay`, and nothing for 0 |
| `HeapScheduler.YieldNow` | kernels/arm/kernel/core/scheduler.c:425-431 | `sched_yield` is `Yield` |
| `HeapPrimitives.Mutex.TryAcquire` | kernels/arm/kernel/core/mutex.c:38-47 | succeeds just when the mutex is free, and then makes the current task the owner |
| `HeapPrimitives.Mutex.Inherit` | kernels/arm/kernel/core/mutex.c:59-65 | raises the owner to the caller's priority if that is better, saving the old one once per ownership |
| `HeapPrimitives.Mutex.LockSlow` | kernels/arm/kernel/core/mutex.c:53-69 | inherit and block in one critical section |
| `HeapPrimitives.Mutex.LockSlowTimed` | kernels/arm/kernel/core/mutex.c:91-110 | the same with a timeout |
| `HeapPrimitives.Mutex.Unlock` | kernels/arm/kernel/core/mutex.c:123-144 | pop, restore, free and wake for the owner, nothing for anybody else |
| `HeapPrimitives.Semaphore.TakeOrBlock` | kernels/arm/kernel/core/semaphore.c:38-56 | takes a token if there is one and blocks otherwise |
| `HeapPrimitives.Semaphore.Give` | kernels/arm/kernel/core/semaphore.c:58-74 | adds a token unless full and wakes the first waiter |
| `HeapPrimitives.Queue.SendSection` | kernels/arm/kernel/core/queue.c:57-65 | stores the item and pops the first receiver unless the queue is full |
| `HeapPrimitives.Queue.ReceiveSection` | kernels/arm/kernel/core/queue.c:169-176 | takes the oldest item and pops the first sender unless the queue is empty |
| `HeapEvents.PendingFind` | kernels/arm/kernel/core/event.c:48-55 | the loop finds the first slot of the task |
| `HeapEvents.PendingFree` | kernels/arm/kernel/core/event.c:57-65 | the loop finds the first free slot |
| `HeapEvents.EventGroup.WakeSatisfied` | kernels/arm/kernel/core/event.c:71-92 | the pointer-to-pointer loop, which unlinks, clears flags and wakes as it goes, is `Sweep`, and terminates |
| `HeapEvents.EventGroup.Set` | kernels/arm/kernel/core/event.c:94-99 | `event_set` sets the flags and sweeps; a flag is there afterwards just when it was there or is set and nobody took it in the sweep |
| `HeapEvents.EventGroup.WaitSection` | kernels/arm/kernel/core/event.c:111-188 | one turn of `event_wait` or `event_wait_timeout`, by the flag-by-flag condition: observe and clear, give up, find the pool full, or take a slot and block |
| `HeapEvents.Collect` | kernels/arm/kernel/core/event.c:193-202 | a resumed waiter frees its slot and returns the observed flags or the time-out |
| `HeapIdle.NextWakeup` | kernels/arm/kernel/core/scheduler.c:339-350 | the loop finds the shortest running delay, 0xFFFFFFFF for none |
| `HeapIdle.SysTickHandler` | kernels/arm/drivers/k64f/systick.c:96-107 | clock, scheduler tick and timers, in that order; nothing during a tickless sleep |
| `HeapIdle.IdleTurn` | kernels/arm/kernel/core/scheduler.c:151-171 | one turn of the idle loop on pointers, timers and tick registers is the iteration that the lemmas above compare with interrupts |
| `RingBuffer.Ring.CopyIn` | kernels/arm/kernel/core/queue.c:41-46 | appends an item to the FIFO sequence; every other slot and every byte behind the ring is unchanged |
| `RingBuffer.Ring.CopyOut` | kernels/arm/kernel/core/queue.c:48-53 | returns the oldest item and leaves the rest in order |
| `RingBuffer.Ring.TrySend` | kernels/arm/kernel/core/queue.c:191-204 | refuses just when the ring is full; items sent are items received followed by items stored |
| `RingBuffer.Ring.TryReceive` | kernels/arm/kernel/core/queue.c:206-218 | refuses just when the ring is empty; same conservation |
| `ContextSwitch.Cpu.TaskStackInit` | kernels/arm/kernel/core/scheduler.c:194-219 | the seventeen pushes build exactly the initial frame, on an aligned stack |
| `ContextSwitch.Cpu.PendSvHandler` | kernels/arm/kernel/arch/cortex_m7/pendsv_handler.s:14-40 | the register-by-register stores and loads are `PendSv`: the old task has r4-r11 and EXC_RETURN on its stack, and s16-s31 above them just if bit 4 of its EXC_RETURN is clear; the next task gets its own back, s16-s31 just if bit 4 of its EXC_RETURN is clear |
| `ContextSwitch.Cpu.SvcHandler` | kernels/arm/kernel/arch/cortex_m7/sched_start.s:34-49 | the first restore is `Svc`: r4-r11 and EXC_RETURN come off the stack, s16-s31 just if bit 4 is clear, and PSP is left above them |
| `SwitchRuns.SwitchResumes` | kernels/arm/kernel/arch/cortex_m4/pendsv_handler.s:14-40 | a switch gives the next task r4-r11, EXC_RETURN, PSP, its stack and, if EXC_RETURN bit 4 is clear, s16-s31 as it is owed |
| `SwitchRuns.SwitchKeeps` | kernels/arm/kernel/arch/cortex_m4/pendsv_handler.s:14-40 | a switch saves the running task's context and leaves every other saved context as it was |
| `SwitchRuns.SwitchesAreLossless` | kernels/arm/kernel/arch/cortex_m7/pendsv_handler.s:14-40 | over any run with disjoint stacks, a task switched out and next switched in later finds its exact context: r4-r11, EXC_RETURN, PSP, its stack, and s16-s31 if bit 4 of its EXC_RETURN is clear |
| `SwitchRuns.FirstRunFromFrame` | kernels/arm/kernel/core/scheduler.c:194-219 | the first time a task is switched in, it starts from the frame that `task_stack_init` built: r4-r11 0, EXC_RETURN 0xFFFFFFFD, PSP at r0-r3 and r12 0, LR 0xFFFFFFFD, PC the function with bit 0 set, xPSR 0x01000000 |
| `SwitchRuns.FirstTaskStarts` | kernels/arm/kernel/arch/cortex_m7/sched_start.s:34-49 | SVC starts the first task from that frame and saves nothing |
| `KalmanAxis.PosDefVariance` | kernels/arm/controls/kalman.c:41-48 | a positive definite 2x2 covariance gives every combination of the two states a positive variance |
| `KalmanAxis.PredictKeeps` | kernels/arm/controls/kalman.c:68-106 | for any time step a prediction stays positive definite and makes the angle's variance exceed Q_ANGLE |
| `KalmanAxis.PredictPropagates` | kernels/arm/controls/kalman.c:54-99 | a prediction turns the angle by the rate less the bias times dt; mean and variance of every combination of the two states are those of the combination turned back by dt, plus the process noise |
| `KalmanAxis.CorrectKeeps` | kernels/arm/controls/kalman.c:133-174 | a correction stays positive definite and leaves the angle less uncertain than the measurement |
| `KalmanAxis.CorrectIsBest` | kernels/arm/controls/kalman.c:133-174 | for every combination of the two states no gain leaves a smaller variance than the correction, and a gain that leaves as small a one gives the same new state |
| `KalmanAxis.BestIsReached` | kernels/arm/controls/kalman.c:133-146 | some gain leaves as small a variance |
| `KalmanAxis.Track` | kernels/arm/controls/kalman.c:50-175 | from the initial state and after any number of calls with any inputs, the axis is positive definite and its angle variance below the measurement noise |
| `Kalman.PredictCovariance` | kernels/arm/controls/kalman.c:72-106 | the loops compute F*P*F' + Q entry by entry |
| `Kalman.ComputeGain` | kernels/arm/controls/kalman.c:136-146 | the loop computes P*H' times the inverse |
| `Kalman.CorrectCovariance` | kernels/arm/controls/kalman.c:154-174 | the triple loop computes (I - K*H)*P |
| `KalmanFilter.Filter.Init` | kernels/arm/controls/kalman.c:41-48 | zero state and identity covariance, which is decoupled and positive definite |
| `KalmanFilter.Filter.Update` | kernels/arm/controls/kalman.c:50-175 | the 4x4 code keeps P symmetric, decoupled and positive definite, is two independent two-state filters, and ends with P[0][0] < R_ROLL and P[1][1] < R_PITCH |
| `KalmanFilter.InvertInnovation` | kernels/arm/controls/kalman.c:117-131 | the singularity return is dead code, and the inverse is that of each axis |
| `KalmanFilter.DetBounded` | kernels/arm/controls/kalman.c:123-125 | det >= (Q_ANGLE + R_ROLL)(Q_ANGLE + R_PITCH), which is above the guard |

## Left out

- Boot: `sched_task_create`, and the state before `sched_start`, in which `g_current_task` is NULL.
- `sched_task_pause` and `sched_task_resume`: they overwrite a task's state without unlinking it.
- Task notifications (`notify.c`): they wake a task that may still be linked.
- Interrupt masking, barriers, `wfi` and the MPU: a critical section is one atomic step, and what
  the SysTick counter shows on wake-up is an input.
- What timer callbacks and `systick_isr_hook` do: a callback is recorded as called.
- `timer_set_period` and `timer_delete`: easy updates of one slot.
- `mutex_lock_timeout` reads the clock before its critical section; the model reads and arms in
  one step.
- Runs.RunInv: no interrupt that calls the kernel is taken inside `sched_tick_n`, between PendSV's
  load of `g_next_task` and its store, or in the idle task from the computation of its budget to
  the end of its `sched_tick_n`, the `wfi` aside. The conditions above say exactly what is lost.
- Runs.WaitListsIntact: the same.
- Runs.BestRuns: the same.
- Calls.CallsGetOnce: the same; which item a receive hands to its caller is not part of the machine,
  `HeapPrimitives.Queue.ReceiveSection` returns the oldest.
- Channels.RunKeeps: the same.
- Guarantees.QueueStrandsNobody: the same.
- Timing.DelayEndsOnTime: the same; the machine has no sleep by a stale budget.
- Timing.TimeoutOnTime: the same.
- Timing.TimedWaitKeepsDeadline, Timing.DelayIsExact, Inheritance.RunExact, HandOff.RunSorted,
  HandOff.RunFair, EventRuns.RunEvents, Semaphores.RunConserves, and the lemmas of `Guarantees`
  about runs: the same.
- HeapScheduler.SchedTickN: one step, as above; so are HeapIdle.SysTickHandler and HeapIdle.IdleTurn.
- Interrupted.RestOfTurnIff: the pointer walk of `sched_wait_list_remove` is one step.
- Nesting.OneMutexIsExact: an owner that goes on locking while it releases is left to
  `Nesting.LastReleaseDecides`.
- HeapEvents.PendingFree: `event_pending_alloc` keeps the observed flags of a slot's last user
  until the sweep overwrites them; the model starts them at 0, and no caller reads them before.
- Heap.Scheduler.WqInsert: the order of the two stores at the head of a list is kept, the dead
  store `t->wait_next = NULL` before them is not.
- Tickless.TicklessIsTicking: callbacks leave the kernel alone, and no interrupt wakes a task
  between the steps of the iteration.
- TimerRuns.ReloadsOnTime: while the timer runs nobody restarts it or changes its period, and no
  SysTick interrupts the idle task's pass over the timers (`TornService.TornPassIff`).
- TimerRuns.FiresOnce: the same.
- Dozing.TimeRightIffIdle: wall-clock time passes in whole milliseconds; the fraction that an early
  wake-up cuts off is not modelled.
- RoundRobin.NobodyStarves: the steps are a SysTick followed by its switch; wake-ups, blocks and
  yields in between are not part of the statement.
- SwitchRuns.SwitchesAreLossless: memory is word-addressed, and a task that runs leaves the other
  stacks alone and has room for a full context on its own.
- KalmanFilter.Filter.Update: floating-point rounding, `atan2f` and `sqrtf`; the two measured
  angles are inputs, and all arithmetic is over exact reals.
- Fault logging, stack, jitter and deadline monitors, drivers, sensors and the x86 kernels.
