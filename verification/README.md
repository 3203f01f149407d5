# A verified model of the FreeRTOS kernel in this firmware

The firmware runs FreeRTOS V10.1.1 on a Cortex-M3. This project models the kernel's
scheduler and time base, its queues, semaphores and mutexes, its allocator, lists, stream and
message buffers, event groups and software timers, and the application's UART frame parser,
and proves what each is relied on for. `dafny verify dfyconfig.toml` checks all of it.

How it is put together:

- Critical sections and scheduler-suspended regions are atomic steps; everything between them
  may interleave. Loads and stores are sequentially consistent.
- Where the source updates variables in place there is a class whose methods have the source's
  branches and loops, each proved to take the state where a specification function says; the
  properties are lemmas about those functions, over one step, over every run, or both.
- The tick is 32 bits wide and wraps. Statements about deadlines, elapsed time and expiry are
  about unbounded time, of which the tick is a view.
- `configASSERT` is empty in this build, so its conditions appear as preconditions. Preemption
  is on, there are 5 priorities, and tasks are selected by the generic macros.

| file | subject |
|---|---|
| `TickTime.dfy` | time-outs and periodic delays over a wrapping tick |
| `Sequences.dfy` | sequences without repetition |
| `Rings.dfy`, `Lists.dfy` | the list with a roving index: as a value, and as linked items |
| `SchedulerState.dfy`, `SchedulerSteps.dfy`, `SchedulerTime.dfy`, `SchedulerRuns.dfy`, `SchedulerTheorems.dfy` | task lists, scheduler steps, time, runs and theorems |
| `SchedulerBoot.dfy`, `SchedulerFairness.dfy` | runs from start-up; round robin over whole runs |
| `SchedulerAnswers.dfy`, `SchedulerPreemption.dfy` | when a switch is asked for; no missed preemption |
| `Kernel.dfy` | the scheduler in place |
| `Queue.dfy`, `QueueProtocol.dfy`, `QueueAnswers.dfy` | the storage of a queue; who waits and who is woken; how calls end |
| `Mutexes.dfy`, `MutexBound.dfy`, `MutexAnswers.dfy` | holding, recursion and inheritance; how far inheritance reaches; when a giver yields |
| `HeapLayout.dfy` to `Heap.dfy` | blocks, laws of the allocator, headers, the allocator in place |
| `StreamBuffer.dfy`, `MessageBuffer.dfy` | the byte ring; messages between a writer and a reader |
| `EventGroups.dfy` | waiting for bits |
| `Timers.dfy`, `TimerService.dfy`, `TimerAnswers.dfy` | filing by modular time; the timer service; what its commands bring about |
| `Uart.dfy` | the UART frame parser |

Where the code and what is said of it differ, the model follows the code:

- The comment on `vListInsertEnd` promises that a new item is the last to be selected. When the
  index has fallen back onto a member, a later arrival goes in front of it
  (`Rings.NewcomerCanOvertake`); `Rings.InsertStep` says exactly when, and `Rings.ServedIff` and
  `SchedulerFairness.DispatchedIff` what it comes to over whole runs.
- `xQueueGenericReset` wakes one sender whatever it frees; the lock counts are eight bits wide;
  a woken task that is deleted or suspended takes its wake-up along. No wake-up is lost exactly
  while these are harmless (`QueueProtocol.NoLostWakeUpIff`), and each has a run from an unused
  queue on which it is not.
- An overwriting send to a semaphore, which `xQueueOverwrite` does not forbid, counts past its
  length (`Queues.NeverOverfilledIff`), though it loses no wake-up.
- Putting `xTail` back for a receive buffer that is too small is harmless exactly while what the
  writer writes would have fitted before (`MessageBuffers.AlwaysFramedIff`).
- `vTaskPrioritySet` can leave a task below its own base, or a holder below a task that waits for
  it; inheritance does not pass through a holder that is itself waiting, and a taker inherits
  nothing from those who already wait. `MutexBound.AlwaysBoundIff` says exactly when the bound
  holds.
- The comment in `xTaskPriorityDisinherit` says that the last mutex given back causes a switch
  whether a task is waiting on it or not. `xQueueGenericSend` drops that answer when one is
  waiting: a giver that falls below a ready task while it wakes a lower one goes on running, and
  no tick need ever correct it. `SchedulerPreemption.NoMissedPreemptionIff` and
  `MutexAnswers.GiversAreToldIff` say exactly when it happens, and
  `MutexAnswers.FallingGiverIsNotTold` is a run.
- `xTaskCheckForTimeOut` can be fooled by two wraps between checks.
- `vTaskDelayUntil` takes a call before the previous wake time for one after a wrap: a task that
  is resumed early from suspension does not sleep again until its wake variable has come round
  to the clock (`TickTime.EarlyCallDelaysIff`).

## Model

| member | source | states |
|---|---|---|
| `TickTime.TimeOut.CheckForTimeOut` | freertos/tasks.c:3169-3229 | the time-out structure and the ticks left change as one check on the 32-bit tick and overflow count says, in place |
| `TickTime.TimeOutAgreesWithUnboundedTime` | freertos/tasks.c:3204-3224 | the check expires exactly when the true elapsed time has reached the wait, except in one family of cases a caller can recognise: two or more wraps, the tick below the entry tick and a short remainder |
| `TickTime.TwoWrapsAreMistaken` | freertos/tasks.c:3204-3224 | a concrete wait of that family that is reported not expired although more than two wraps have gone by |
| `TickTime.RetriesKeepTheDeadline` | freertos/queue.c:1297-1410 | through any number of wake-ups and retries within one wrap of each other, entry time plus ticks left stays the original deadline, and the first check at or past it expires |
| `TickTime.IndefiniteWaitNeverExpires` | freertos/tasks.c:3193-3200 | a wait of the maximum delay never expires and never shrinks |
| `TickTime.DelayUntil` | freertos/tasks.c:1221-1300 | the wake variable advances by the increment and the task blocks for exactly the ticks left to it |
| `TickTime.ShouldDelayIsModular` | freertos/tasks.c:1243-1268 | whatever the previous wake and the clock, the task blocks exactly when the increment exceeds the time since the previous wake modulo 2^32 |
| `TickTime.DelayUntilAgreesWithUnboundedTime` | freertos/tasks.c:1234-1279 | for every previous wake and every clock, whether the task blocks agrees with whether previous wake plus increment is still ahead in unbounded time exactly when the call is less than a wrap late or its remainder covers the increment, or is made before the previous wake time with a remainder that does not; and from the previous wake to the next it blocks until that very time |
| `TickTime.EarlyCallDelaysIff` | freertos/tasks.c:1243-1257 | a call made before the previous wake time, as by a task resumed early from suspension, blocks exactly when the next wake is more than a wrap ahead, and otherwise moves the wake variable an increment further ahead |
| `TickTime.EarlyCallsKeepReturning` | freertos/tasks.c:1243-1270 | so such a task does not sleep however often it calls, until the wake variable has come round to the clock |
| `TickTime.EarlyCallIsNotDelayed` | freertos/tasks.c:1243-1257 | previous wake 100, increment 10, tick 50: the wake time 110 is ahead and the task does not block |
| `TickTime.PeriodicCallsDoNotDrift` | freertos/tasks.c:1234-1279 | the k-th call, made at or after its previous wake time and before the next, blocks until first wake plus k + 1 increments: no drift; for calls made at other times it decides rightly in exactly the cases of one call |
| `TickTime.WakeVariableIsExact` | freertos/tasks.c:1260-1262 | after k calls the 32-bit wake variable is the true k-th wake time modulo 2^32 |
| `Rings.InsertEndOrder` | freertos/list.c:74-100 | an item inserted at the end is last in the order of coming selections, or last but one when the index stands on a member, and no one else's relative place changes |
| `Rings.RemoveOrder` | freertos/list.c:170-196 | removal takes exactly one item out of the selection order, also when the index stands on it |
| `Rings.AdvanceOrder` | freertos/include/list.h:277-288 | a selection serves the head of the order and moves it to the back |
| `Rings.FullRotation` | freertos/include/list.h:277-288 | as many selections as there are members serve each of them once, in order, and come back to the start |
| `Rings.SelectStep` | freertos/include/list.h:277-288 | each selection of another brings a member one place nearer |
| `Rings.InsertStep` | freertos/list.c:74-100 | an insertion puts a member back by one place exactly when the index stands on that member, and otherwise not at all |
| `Rings.DropStep` | freertos/list.c:170-196 | removing another member brings a member one place nearer exactly when the one removed was ahead of it |
| `Rings.BoundedBypass` | freertos/tasks.c:150-165 | over every run of selections, insertions and removals of others, a member is served within its distance plus the insertions made while the index stood on it |
| `Rings.ServedIff` | freertos/include/list.h:277-288 | over every run that does not remove it, a member is served exactly when at some point the selections made and the members removed from ahead of it outnumber its distance and the insertions made while the index stood on it |
| `Rings.JoinedMemberIsServedIff` | freertos/list.c:74-100 | for a member that joins n others that distance is n, or n - 1 when the index stands on a member |
| `Rings.JoinedMemberIsServed` | freertos/tasks.c:150-165 | in particular within the list length at its insertion, unless others join while the index is on it |
| `Rings.NewcomerCanOvertake` | freertos/list.c:74-100 | the proviso is needed: a concrete run in which a later arrival is selected before an earlier one |
| `Lists.List.constructor` | freertos/list.c:37-59 | a new list is the empty ring, its end marker carrying the maximum value |
| `Lists.List.InsertEnd` | freertos/list.c:74-100 | the linked structure goes to the ring with the item inserted behind the index; links stay mutual inverses and containers match |
| `Lists.List.FindPlace` | freertos/list.c:122-155 | the search stops, at the last item whose value is no greater, for every value including the maximum |
| `Lists.List.Insert` | freertos/list.c:103-167 | the item goes in behind every item of no greater value and before the first of greater value; nothing else moves |
| `Lists.List.Remove` | freertos/list.c:170-196 | exactly the item leaves, the index falls back if it stood on it, and the count left is returned |
| `Lists.List.OwnerOfNextEntry` | freertos/include/list.h:277-288 | the owner returned is the one the ring selects, never that of the end marker |
| `Lists.List.Head` | freertos/include/list.h:217-225 | the head item and value of a non-empty list are those of its first item |
| `Lists.InsertKeepsSorted` | freertos/list.c:103-167 | insertion by value keeps a sorted list sorted and is stable |
| `SchedulerState.AddToReady` | freertos/tasks.c:235-239 | a detached task is filed in the ready list of its priority, the top ready priority bounds it, and the lists account for it again |
| `SchedulerState.AddToDelay` | freertos/tasks.c:5031-5052 | a detached task is filed in the chosen delayed list, behind those that wake no later, and the lists account for it again |
| `SchedulerState.ClearEvent` | freertos/tasks.c:3055-3068 | a task's event item leaves its list without disturbing any state list |
| `SchedulerSteps.DelayRunning` | freertos/tasks.c:4987-5057 | the running task, and no other, leaves its list for the delayed list of this round of the counter or of the next, or for the suspended list when it may wait forever; every invariant is kept |
| `SchedulerSteps.PlaceOnEventList` | freertos/tasks.c:2973-2987 | the same, and its event item and no other joins the list of the object |
| `SchedulerSteps.TickNow` | freertos/tasks.c:2650-2664 | one processed tick advances the tick by one and the overflow count exactly at a wrap, with every invariant kept (what it answers is `SchedulerAnswers.TickAnswer`) |
| `SchedulerSteps.Signal` | freertos/tasks.c:3047-3112 | the task signalled becomes ready, or waits on the pending list while the scheduler is suspended; a yield is pending afterwards exactly when it was before or that task has the higher priority; no other task, deadline or priority is affected |
| `SchedulerSteps.SignalUnordered` | freertos/tasks.c:3115-3146 | a task woken from an unordered event list becomes ready at once, a yield is pending exactly when it was or that task has the higher priority, and nobody else is affected |
| `SchedulerSteps.Suspend` | freertos/tasks.c:1668-1762 | the task suspended, wherever it was, is on the suspended list and no event list; nobody else is affected, and the next unblock time is exact again |
| `SchedulerSteps.Resume` | freertos/tasks.c:1815-1861 | a task that is really suspended becomes ready and nobody else is affected; any other is left alone |
| `SchedulerSteps.ResumeFromIsr` | freertos/tasks.c:1869-1934 | the same from an interrupt, by way of the pending list when the scheduler is suspended |
| `SchedulerSteps.Create` | freertos/tasks.c:1044-1124 | a new task is ready at its priority, counted, and nobody else is moved |
| `SchedulerSteps.Delete` | freertos/tasks.c:1129-1198 | a task that deletes itself goes to the termination list, another is freed and no longer counted, with the next unblock time exact again; nobody else is affected |
| `SchedulerSteps.Reap` | freertos/tasks.c:3531-3557 | the idle task frees exactly the first task waiting for termination |
| `SchedulerSteps.ChangePriority` | freertos/tasks.c:3891-3912 | a task whose priority changes is in the ready list of its new priority if it was ready, and otherwise stays where it is |
| `SchedulerSteps.HighestReady` | freertos/tasks.c:150-158 | the search for the highest non-empty ready list terminates at a non-empty list with none non-empty above it |
| `SchedulerSteps.SwitchPicksHighest` | freertos/tasks.c:2900-2968 | after a switch the running task is ready and no ready task has a higher priority |
| `SchedulerSteps.SwitchContext` | freertos/tasks.c:2900-2968 | with the scheduler suspended the switch is put off by noting a pending yield, and no list and no task changes; otherwise no yield is pending any more |
| `SchedulerTime.UnblockDueTask` | freertos/tasks.c:2669-2745 | of the tasks on the current delayed list, the loop readies exactly those whose wake time has come |
| `SchedulerTime.CountTickKeepsDeadlines` | freertos/tasks.c:215-227 | counting a tick, and switching the delayed lists at a wrap, leaves every blocked task's deadline in unbounded time what it was; the list switched away is empty |
| `SchedulerTime.TickOnTask` | freertos/tasks.c:2650-2745 | one tick readies a blocked task exactly when its deadline in unbounded time is reached and otherwise leaves it waiting for the same deadline |
| `SchedulerTime.TickKeepsTimely` | freertos/tasks.c:2650-2745 | after each tick both delayed lists are sorted, nobody is overdue and the next unblock time is no later than the first deadline |
| `SchedulerRuns.DelaySetsDeadline` | freertos/tasks.c:4987-5057 | blocking at time T for d ticks sets the deadline T + d of unbounded time, across a wrap or not |
| `SchedulerRuns.StepKeepsTimely` | freertos/tasks.c:2145-2252 | every scheduler operation keeps the delayed lists sorted, nobody overdue and the next unblock time early enough |
| `SchedulerTheorems.RunKeepsTimely` | freertos/tasks.c:2636-2780 | the same over every run of scheduler operations and ticks, from any such state; start-up leads to one |
| `SchedulerTheorems.StepOnTime` | freertos/tasks.c:2145-2252 | no operation that does not name a blocked task wakes it early or late, resuming with pended ticks included |
| `SchedulerTheorems.WokenExactlyOnTime` | freertos/tasks.c:2636-2780 | over every run that does not touch it, a blocked task waits while its deadline is ahead and is ready in the first state where it no longer is |
| `SchedulerTheorems.DelayWakesExactlyOnTime` | freertos/tasks.c:1305-1340 | a task that delays for d ticks at time T is ready from the processing of tick T + d on and not before, for every d and every number of wraps |
| `SchedulerTheorems.BlockTimesOutExactlyOnTime` | freertos/tasks.c:2973-2987 | the same for a wait on an object that nobody signals |
| `SchedulerTheorems.NoTickIsLost` | freertos/tasks.c:2072-2079 | at any nesting of suspension, ticks counted (unwrapped) plus ticks pended are the initial count plus the tick interrupts taken |
| `SchedulerTheorems.PendedTicksReplayAsDirect` | freertos/tasks.c:2199-2227 | suspending, taking n tick interrupts and resuming leaves the clock, overflow count and every list as n ticks taken with the scheduler running |
| `SchedulerTheorems.ListsAccountForEveryTask` | freertos/tasks.c:1044-1124 | the number of tasks is the total length of the ready, delayed, overflow, suspended and termination lists |
| `SchedulerBoot.ReachableIsTimely` | freertos/tasks.c:3499-3528 | in every state reachable from start-up the delayed lists are sorted, nobody is overdue, the next unblock time is early enough, and no ready task is on an event list |
| `SchedulerBoot.EveryDelayWakesOnTime` | freertos/tasks.c:1305-1340 | whatever has happened since start-up, a task that delays for d ticks is ready again exactly d ticks later unless it is touched meanwhile |
| `SchedulerBoot.PeriodicCallWakesOnTime` | freertos/tasks.c:1221-1300 | in any reachable state, the k-th periodic call made at or after its previous wake time and less than a wrap late blocks exactly when its next wake time is ahead, and the task is then ready from exactly tick first + (k + 1) * increment on, unless it is touched meanwhile |
| `SchedulerBoot.EveryTimeOutIsOnTime` | freertos/tasks.c:2973-2987 | the same for a wait on an object that nobody signals |
| `SchedulerBoot.ResumeAllReleases` | freertos/tasks.c:2145-2252 | the last resume makes every pending task ready, leaves none pending and processes exactly the ticks pended; any other resume only counts down |
| `SchedulerBoot.InExactlyOneList` | freertos/tasks.c:235-239 | each live task is in exactly one of the ready, delayed, overflow, suspended and termination lists, and any other task in none |
| `SchedulerBoot.RunAccountsForEveryTask` | freertos/tasks.c:1129-1198 | the same over every run, with each ready task in the list of its priority and the number of tasks the total length of the lists |
| `SchedulerFairness.StepTurns` | freertos/tasks.c:150-165 | every operation of the scheduler takes each ready list through a run of ring operations: a selection by a switch, insertions and removals by the rest |
| `SchedulerFairness.DispatchedIff` | freertos/tasks.c:2900-2968 | over every run of the scheduler that leaves it ready, a task is given the processor exactly when the account of its ready list says so: selections and departures from ahead of it outnumber its distance and the arrivals under the index |
| `SchedulerFairness.TopTaskIsDispatched` | freertos/tasks.c:150-165 | a ready task with nothing ready above it is given the processor within its distance, the arrivals under the index, and one more switch |
| `SchedulerAnswers.UnblockAnswer` | freertos/tasks.c:2671-2744 | the loop of the tick interrupt finds a task to switch to exactly when some overdue task has at least the running task's priority |
| `SchedulerAnswers.TickAnswer` | freertos/tasks.c:2650-2761 | a tick asks for a switch exactly when it is the deadline of a task with at least the running task's priority, or two ready tasks share the running task's priority, or a yield was pending |
| `SchedulerAnswers.RunningHasRival` | freertos/tasks.c:2750-2761 | while the running task is ready it is time-sliced exactly with the other ready tasks of its priority |
| `SchedulerAnswers.IncrementTickAnswer` | freertos/tasks.c:2636-2807 | the same of the whole tick interrupt: under a suspended scheduler the tick is pended, nothing else changes, and only a pending yield is reported |
| `SchedulerAnswers.MovePendingAnswer` | freertos/tasks.c:2169-2186 | emptying the pending ready list asks for a yield exactly when one was pending or some task on the list has at least the running task's priority |
| `SchedulerAnswers.ReplayAnswer` | freertos/tasks.c:2204-2219 | unwinding n pended ticks asks for a yield exactly when one was pending, or a task of at least the running task's priority is due within n ticks, or there is a tick and two ready tasks share that priority |
| `SchedulerAnswers.ResumeAllAnswer` | freertos/tasks.c:2145-2252 | the last resume yields exactly when a yield was pending, or a task on the pending ready list or one woken by a pended tick has at least the running task's priority, or a tick was pended and two ready tasks share it; said of the state before the call |
| `SchedulerAnswers.NextIsEarliest` | freertos/tasks.c:3793-3816 | an exact next unblock time is the earliest deadline of any blocked task |
| `SchedulerAnswers.ResumeAllResetsNext` | freertos/tasks.c:2189-2198 | a resume that moves a pending task leaves the next unblock time exact, after the pended ticks too |
| `SchedulerPreemption.StepAnswered` | freertos/tasks.c:1815-1861 | no operation of the scheduler but a switch leaves a ready task above the running one unless a switch has been asked for or a yield is pending: ticks, resumes, wake-ups, creation and priority changes included |
| `SchedulerPreemption.NextAnsweredIff` | freertos/tasks.c:3951-4024 | the same with mutexes given back and holders adjusted, each of these exactly under a condition on the state before it |
| `SchedulerPreemption.NoMissedPreemptionIff` | freertos/tasks.c:2145-2252 | from start-up on, over every run, a ready task that outranks the running one always has a switch asked for or pending, exactly when, unless a switch is coming anyway, no giver falls below a ready task while waking one no higher than it falls to, and no ready holder is put above the running task |
| `SchedulerPreemption.NoMissedPreemption` | freertos/tasks.c:2145-2252 | over every run in which no mutex is given to a waiter and no holder adjusted, it always has |
| `SchedulerPreemption.TicksAskIff` | freertos/tasks.c:2636-2807 | some one of the next n ticks asks for a switch exactly when a yield is pending, two ready tasks share the running task's priority, or a task of at least that priority is due within them |
| `SchedulerPreemption.CarelessGiveStarves` | freertos/queue.c:838-870 | after a careless give some ready task outranks the giver and no tick asks for a switch while the giver shares its priority with nobody and nobody as high is due |
| `SchedulerPreemption.GivingBackTheSecondMutexStrandsATask` | freertos/queue.c:838-870 | a state in which a task gives its second mutex back, falls below a ready task, and no number of ticks asks for a switch |
| `Kernels.Kernel.DelayRunning` | freertos/tasks.c:4987-5057 | the fields change in place to the state with the running task blocked |
| `Kernels.Kernel.UnblockDue` | freertos/tasks.c:2671-2744 | the loop over the delayed list, in place, computes the recursive specification and its preemption answer |
| `Kernels.Kernel.TickNow` | freertos/tasks.c:2650-2762 | the body of the tick, in place; it answers yes exactly when a task of at least the running task's priority is due, two ready tasks share it, or a yield was pending |
| `Kernels.Kernel.IncrementTick` | freertos/tasks.c:2636-2807 | a tick is processed or pended, and answers as said, or under a suspended scheduler exactly with the pending yield |
| `Kernels.Kernel.MovePending` | freertos/tasks.c:2169-2186 | the loop that empties the pending ready list, in place; a yield is pending exactly when it was or a task of at least the running task's priority was on the list |
| `Kernels.Kernel.Replay` | freertos/tasks.c:2204-2219 | the loop that unwinds pended ticks, in place |
| `Kernels.Kernel.ResumeAll` | freertos/tasks.c:2145-2252 | the whole of resuming, in place; a yield has already happened exactly when this was the last resume and the state before it wants a switch |
| `Kernels.Kernel.Signal` | freertos/tasks.c:3047-3112 | removing a task from an event list, in place, and the answer is whether that task outranks the running one |
| `Kernels.Kernel.Resume` | freertos/tasks.c:1815-1861 | resuming a task, in place; it yields exactly when the task was really suspended and has at least the running task's priority |
| `Kernels.Kernel.ResumeFromIsr` | freertos/tasks.c:1869-1934 | the same from an interrupt, where under a suspended scheduler no yield is required |
| `Kernels.Kernel.Delete` | freertos/tasks.c:1129-1198 | deleting a task, in place |
| `Kernels.Kernel.HighestReady` | freertos/tasks.c:150-158 | the descending loop finds the highest ready priority |
| `Kernels.Kernel.SwitchContext` | freertos/tasks.c:2900-2968 | the context switch, in place; a yield is pending afterwards exactly when the scheduler is suspended |
| `Queues.RingBack` | freertos/queue.c:2096-2104 | writing at the write position and advancing it appends to the items, overwrites none that is unread and keeps the two positions in step |
| `Queues.RingFront` | freertos/queue.c:2109-2136 | writing at the read position and moving it back prepends, or replaces the one item of a queue of length one |
| `Queues.RingRead` | freertos/queue.c:2149-2164 | advancing the read position and copying takes the first item |
| `Queues.Queue.constructor` | freertos/queue.c:263-268 | a new queue is empty with its positions in step |
| `Queues.Queue.Reset` | freertos/queue.c:255-268 | a reset empties the queue and puts the positions in step |
| `Queues.Queue.CopyDataToQueue` | freertos/queue.c:2070-2146 | on bytes: the item goes behind the contents, in front of them, or in place of them, as the position says, and a semaphore counts up |
| `Queues.Queue.Send` | freertos/queue.c:774-876 | a send is accepted exactly when there is room or it overwrites; then the item is behind the contents, in front of them, or all there is, as the position says; refused, it changes nothing |
| `Queues.Queue.Receive` | freertos/queue.c:1301-1332 | a receive takes exactly the first item, or answers empty and changes nothing |
| `Queues.Queue.Peek` | freertos/queue.c:1661-1698 | a peek returns the first item and leaves the contents alone |
| `Queues.FirstInFirstOut` | freertos/queue.c:747-954 | over every run of sends to the back, receives and peeks, what was there and accepted is what was received and is still there, in order |
| `Queues.FrontIsReceivedNext` | freertos/queue.c:2109-2136 | an item sent to the front, or overwriting, is what the next receive returns, whatever is peeked at or sent to the back in between |
| `Queues.FrontIsLastInFirstOut` | freertos/queue.c:2109-2136 | items sent to the front are received in the reverse order, before everything that was there |
| `Queues.NoItemIsLost` | freertos/queue.c:747-954 | to whichever end items are sent, what was there and accepted is, as a multiset, what was received and is still there |
| `Queues.StepFitsIff` | freertos/queue.c:2079-2143 | an operation keeps the count within the length exactly when it is not an overwriting send to a full semaphore |
| `Queues.NeverOverfilledIff` | freertos/queue.c:774-876 | over every run a queue or semaphore holds no more than its length all along exactly when the run never sends overwriting to a full semaphore |
| `Queues.NeverOverfilled` | freertos/queue.c:774-876 | over every run a queue that stores items, and a semaphore to which nobody sends overwriting, never holds more than its length |
| `Queues.OverwriteOverfillsASemaphore` | freertos/queue.c:2079-2143 | a run in which a semaphore, which stores no item to replace, is counted past its length |
| `QueueProtocol.NotifyMatches` | freertos/queue.c:842-858 | waking the first waiter for each item added keeps every waiter matched by a wake-up under way |
| `QueueProtocol.RetryMatches` | freertos/queue.c:1678-1695 | a woken task that takes one, finds none, or peeks and passes the wake-up on keeps it so |
| `QueueProtocol.DrainMatches` | freertos/queue.c:2167-2284 | unlocking hands out the wake-ups owed or empties the list |
| `QueueProtocol.LeaveMatchesIff` | freertos/tasks.c:1129-1198 | a task that leaves an event list, or leaves after being woken, keeps it so exactly when it takes no wake-up along that is needed |
| `QueueProtocol.StepKeepsSound` | freertos/queue.c:1273-1411 | every event of every task and interrupt, harmless or not, keeps in order who may be on which list, who holds the lock, and the count of a queue of items |
| `QueueProtocol.StepKeepsMatchedIff` | freertos/queue.c:1273-1411 | an event leaves both event lists matched, no wake-up lost, exactly when it is harmless: a condition on the state before it, event by event |
| `QueueProtocol.NoLostWakeUpIff` | freertos/queue.c:240-252 | over every run of tasks and interrupts, overwriting sends, resets, suspensions and deletions included, no wake-up is lost all along exactly when each event is harmless |
| `QueueProtocol.CountedIsHarmless` | freertos/queue.c:1363-1383 | while no lock count wraps, interrupt operations lose nothing and a task that joins an event list after its second look under the lock is covered |
| `QueueProtocol.ModestRunsLoseNoWakeUp` | freertos/queue.c:1273-1411 | so no wake-up is lost on any run with fewer than 128 interrupt operations each way in a locked period, if resets, suspensions and deletions are harmless |
| `QueueProtocol.NoLostWakeUp` | freertos/queue.c:240-252 | after every run of harmless events a waiting receiver means items waiting are no more than receivers woken and still to retry plus the lock count, and symmetrically for senders and free slots |
| `QueueProtocol.SettledMeansMatched` | freertos/queue.c:747-954 | settled and unlocked, no receiver waits on a non-empty queue and no sender on one with room |
| `QueueProtocol.WokenTasksCanTry` | freertos/queue.c:1376-1384 | a woken task can always go on to try again |
| `QueueProtocol.OneLocker` | freertos/queue.c:1363-1364 | at most one task at a time is between locking and resuming |
| `QueueProtocol.ResetKeepsIff` | freertos/queue.c:277-281 | a reset keeps the matching exactly when at most one sender waits or enough senders have been woken for the whole length |
| `QueueProtocol.ResetStrandsASender` | freertos/queue.c:277-281 | a run from an unused queue in which two senders block, the queue is reset, and one of them is left waiting beside a free slot with no wake-up under way |
| `QueueProtocol.IsrSendKeepsMatchedIff` | freertos/queue.c:1089-1091 | an interrupt send to a queue with room loses no wake-up exactly while its lock count is below 127, or nobody waits to receive, or enough have been woken |
| `QueueProtocol.IsrReceiveKeepsMatchedIff` | freertos/queue.c:1851-1856 | the same for an interrupt receive from a queue with items |
| `QueueProtocol.LockCountWraps` | freertos/queue.c:1089-1091 | a run from an unused queue in which a receiver blocks while interrupts send 128 times: the count wraps and it is left waiting on 128 items |
| `QueueProtocol.DeleteKeepsMatchedIff` | freertos/tasks.c:1129-1198 | deleting a task loses no wake-up exactly when it had not been woken, or nobody waits behind it, or woken tasks outnumber what is available |
| `QueueProtocol.SuspendKeepsMatchedIff` | freertos/tasks.c:1668-1762 | the same for suspending one |
| `QueueProtocol.BlockingLeads` | freertos/queue.c:1273-1411 | an operation that finds nothing to do and is not disturbed goes through the lock, the second look and the unlock and ends blocked on its event list, with both locks down again |
| `QueueProtocol.LeavingAfterAWakeUpStrandsAnother` | freertos/tasks.c:1129-1198 | a run from an unused queue in which one of two receivers is woken and then deleted or suspended, and the other is left waiting on an item |
| `QueueProtocol.EventLists.UnlockTxHalf` | freertos/queue.c:2175-2253 | the first loop of the unlock, in place |
| `QueueProtocol.EventLists.UnlockRxHalf` | freertos/queue.c:2256-2283 | the second loop of the unlock, in place |
| `QueueProtocol.EventLists.LockQueue` | freertos/queue.c:240-252 | both lock counts go up from unlocked and are otherwise left alone |
| `QueueProtocol.EventLists.SendFromIsr` | freertos/queue.c:990-1100 | an interrupt send, overwriting or not, wakes the first receiver or counts, by the lock |
| `QueueProtocol.EventLists.ReceiveFromIsr` | freertos/queue.c:1806-1870 | an interrupt receive wakes the first sender or counts, by the lock |
| `QueueAnswers.CallEndsIff` | freertos/queue.c:1273-1411 | a call ends exactly with an answer of its own: put in, taken out, looked at or failed |
| `QueueAnswers.FailureMeansNothingToDo` | freertos/queue.c:1384-1406 | over every run a receive or peek fails only on an empty queue, and a send only on a full one or when its time has expired |
| `QueueAnswers.ItemsAreConserved` | freertos/queue.c:747-954 | over every run without overwriting and resets the count is the initial one and every item that a send was told is in, less every item handed to a receive, interrupts included |
| `QueueAnswers.OverwriteLeavesOne` | freertos/queue.c:2118-2136 | an overwriting send succeeds and leaves exactly one item, or counts a semaphore up, past its length if need be |
| `QueueAnswers.TimeOutFrees` | freertos/tasks.c:2669-2745 | a task that times out is off its event list, has not been woken, and goes back to the top of its loop; nobody else moves |
| `QueueAnswers.ExpiredCallNeverBlocks` | freertos/queue.c:1384-1406 | a call that finds its time expired unlocks the queue and, undisturbed, has failed if it is a send, and otherwise looks once more, to fail on an empty queue and try again on any other |
| `QueueAnswers.SuspendedTaskIsStill` | freertos/tasks.c:1668-1762 | over every run a suspended task is on no event list and takes no step of its own until it is resumed |
| `QueueAnswers.ResumedTaskTriesAgain` | freertos/tasks.c:1815-1861 | a task suspended while blocked and then resumed goes back to the top of its loop |
| `Mutexes.PrioritySetKeepsAboveBaseIff` | freertos/tasks.c:1584-1600 | setting a priority leaves a task at or above its base exactly when it has inherited nothing or the new base is no higher than what it runs at |
| `Mutexes.RaisingABaseIsLostOnAHolder` | freertos/tasks.c:1590-1600 | a holder that has inherited runs below a newly raised base |
| `Mutexes.PrioritySet` | freertos/tasks.c:1504-1602 | the base becomes what is asked for, or the highest priority there is if that is less, and the priority follows it unless it is inherited |
| `Mutexes.StepConserves` | freertos/queue.c:1452-1472 | every operation on mutexes keeps count, holder, recursion and the holders' tallies in agreement |
| `Mutexes.MutexesAreConserved` | freertos/queue.c:2079-2095 | over every run: a mutex's count is one exactly when it has no holder, a task's tally is the number it holds, and a task that holds none runs at its base priority |
| `Mutexes.GivesMustBalanceTakes` | freertos/queue.c:596-686 | over every run a recursive mutex is free exactly when its gives balance its takes |
| `MutexBound.StepKeepsBounded` | freertos/queue.c:1544-1565 | under side conditions on the application every operation keeps waiters sorted, the holder no lower than any of them and an heir for each free mutex that is waited for |
| `MutexBound.InheritanceBound` | freertos/tasks.c:3864-4126 | over every run that meets them the holder of each mutex runs at least as high as each task waiting for it |
| `MutexBound.StepKeepsBoundIff` | freertos/tasks.c:3864-4126 | without side conditions: each event keeps that bound exactly when a condition on the state before it holds |
| `MutexBound.AlwaysBoundIff` | freertos/tasks.c:3864-4126 | over every run of mutex operations, time-outs and priority settings the bound holds all along exactly when each event meets its condition |
| `MutexBound.TakeKeepsBoundIff` | freertos/queue.c:1452-1472 | taking a mutex keeps it exactly when each task waiting for the mutex is no higher than the taker |
| `MutexBound.SetPriorityKeepsBoundIff` | freertos/tasks.c:1584-1630 | setting a priority keeps it exactly when no task waiting on a mutex the task holds is above what it is left running at, and no holder of a mutex it waits for is below |
| `MutexBound.GiveUpKeepsBoundIff` | freertos/tasks.c:4031-4111 | giving up after a time-out keeps it exactly when the holder may run at what it is left with |
| `MutexBound.GiveKeepsBound` | freertos/tasks.c:3951-4024 | giving a mutex back always keeps it |
| `MutexBound.BlockKeepsBoundIff` | freertos/tasks.c:3864-3944 | blocking keeps that bound exactly when the holder inherits nothing or does not itself wait behind a lower holder |
| `MutexBound.ChainedBlockingBreaksTheBound` | freertos/tasks.c:3864-3944 | three tasks and two mutexes for which it fails |
| `MutexBound.LoweringAHolderBreaksTheBound` | freertos/tasks.c:1584-1600 | a run in which a holder has its priority set below a task that waits for it |
| `MutexBound.LowTakerBreaksTheBound` | freertos/queue.c:1452-1472 | a run in which a mutex is taken by a task below one that still waits for it |
| `MutexAnswers.GiverFalls` | freertos/tasks.c:3951-4024 | a giver falls to its base exactly with the last mutex it holds, and no other task changes |
| `MutexAnswers.FallIsAnswered` | freertos/queue.c:855-865 | without a waiter a giver yields exactly when its priority has changed |
| `MutexAnswers.WakeIsAnswered` | freertos/queue.c:842-854 | with one it yields exactly when the woken task has the higher priority |
| `MutexAnswers.GiverIsToldIff` | freertos/queue.c:838-870 | a giver that falls below a ready task is told to yield, exactly unless it gives its last mutex to a waiter no higher than its base while another ready task is above that |
| `MutexAnswers.GiversAreToldIff` | freertos/queue.c:838-870 | the same over every run from the start |
| `MutexAnswers.SingleGiverIsTold` | freertos/queue.c:838-870 | a giver whose first waiter is at least as high as it runs is always told |
| `MutexAnswers.FallingGiverIsNotTold` | freertos/tasks.c:3996-4006 | a run from the start in which a task gives the second of two mutexes back, falls below a ready task and is not told, which the comment says cannot be |
| `MutexAnswers.BlockRaises` | freertos/tasks.c:3864-3944 | blocking puts the task on the list, raises the holder to the higher of the two priorities, and records whether it did; nobody else changes |
| `MutexAnswers.GiveUpSettles` | freertos/queue.c:1597-1617 | giving up brings a holder of that mutex alone down to the higher of its base and the first task still waiting, if the one that leaves had raised it; nothing else changes |
| `MutexAnswers.TimedOutWaiterLetsGo` | freertos/queue.c:1584-1624 | the whole of it: a waiter that times out and finds the mutex taken leaves the list, gives up, and the holder is brought down so |
| `MutexAnswers.ItemInUseIsKept` | freertos/tasks.c:3880-3889 | over every run an event item in use for an event group is written by nothing but its own task |
| `MutexAnswers.WaitForBitsAndBack` | freertos/tasks.c:2990-3009 | waiting for an event group puts the item in use and keeps the task from mutexes; reading the outcome gives the item its priority again |
| `Mutexes.TaskTable.PriorityInherit` | freertos/tasks.c:3864-3944 | in place: the holder runs at the higher of its priority and the blocked task's, with its event item and its place in the ready lists; the answer is yes exactly when its priority or its base was the lower |
| `Mutexes.TaskTable.PriorityDisinherit` | freertos/tasks.c:3951-4024 | in place: the holder has one mutex less and with the last runs at its base again; a switch is required exactly when its priority has changed |
| `Mutexes.TaskTable.PriorityDisinheritAfterTimeout` | freertos/tasks.c:4031-4126 | in place: a holder of one mutex runs at the higher of its base and the highest waiter, any other as before |
| `HeapLayout.EveryByteInOneBlock` | freertos/heap_4.c:329-373 | blocks laid end to end put every byte of the heap in exactly one block |
| `HeapLayout.BlocksInOrder` | freertos/heap_4.c:377-435 | no two blocks overlap and they are in address order |
| `HeapLayout.FreeListIncreasing` | freertos/heap_4.c:377-387 | the free list is strictly ordered by address |
| `HeapTheorems.MallocIsLowestFit` | freertos/heap_4.c:135-223 | a request of non-zero size with the top bit clear fails exactly when no free block holds it rounded up; otherwise it gets the lowest-addressed one that does, at least its size, with no overflow |
| `HeapTheorems.FreeBytesTestIsSafe` | freertos/heap_4.c:161 | the early test against the free byte count refuses nothing that would have fitted |
| `HeapTheorems.MallocAccounts` | freertos/heap_4.c:209 | the free bytes fall by the size handed out |
| `HeapTheorems.FreeAccounts` | freertos/heap_4.c:292 | and rise by the size returned, coalescing losing none |
| `HeapTheorems.FreeUndoesMalloc` | freertos/heap_4.c:263-308 | a free directly after an allocation restores the exact layout |
| `HeapTheorems.FreeTwiceIsFreeOnce` | freertos/heap_4.c:281-306 | a second free of the same pointer changes nothing |
| `HeapTheorems.RunKeepsInv` | freertos/heap_4.c:113-308 | after any sequence of allocations and frees, good or bad, the blocks partition the heap, are aligned, and no two free ones are neighbours |
| `HeapTheorems.ReleasingEverythingHeals` | freertos/heap_4.c:377-435 | a run that leaves nothing allocated leaves one block of the initial size |
| `HeapHeaders.InsertedIsFreeAt` | freertos/heap_4.c:389-421 | the two contiguity tests on headers find exactly the free neighbours, and merge to the block and free list of the layout |
| `HeapHeaders.FreeRepresents` | freertos/heap_4.c:281-295 | headers and links after a free represent the layout after it, stale headers included |
| `HeapHeaders.SearchEnds` | freertos/heap_4.c:165-175 | the walk along the free list ends at the end marker exactly when nothing fits and otherwise at the first block that does |
| `HeapHeaders.AfterSplit` | freertos/heap_4.c:183-223 | headers and links after handing out part of a block represent the layout after it |
| `Heaps.InitialLayoutFits` | freertos/heap_4.c:329-373 | the initial block is aligned, lies inside the array and leaves room for the end marker |
| `Heaps.Heap.HeapInit` | freertos/heap_4.c:329-373 | the first headers represent one free block over the aligned heap |
| `Heaps.Heap.InsertBlockIntoFreeList` | freertos/heap_4.c:377-435 | the insertion, in place, leaves the links and sizes of the merged list and touches no others |
| `Heaps.Heap.FindFit` | freertos/heap_4.c:165-171 | the search loop finds the first fit and the node before it |
| `Heaps.Heap.Malloc` | freertos/heap_4.c:113-260 | the allocation, in place, takes the represented layout where the layout function says and returns its address; the low-water mark follows |
| `Heaps.Heap.Free` | freertos/heap_4.c:263-308 | the same for a free of any pointer under which a header once lay |
| `StreamBuffers.CountAndSpace` | freertos/stream_buffer.c:470-491 | bytes held and space left always add up to one less than the storage |
| `StreamBuffers.WriteAppends` | freertos/stream_buffer.c:1088-1131 | a write that fits, in one part or two, appends to the bytes and disturbs none unread |
| `StreamBuffers.ReadTakes` | freertos/stream_buffer.c:1134-1186 | a read takes the first bytes, as many as asked for and seen available |
| `StreamBuffers.HeaderRoundTrip` | freertos/stream_buffer.c:691 | a length survives its four bytes |
| `MessageBuffers.StepKeepsInv` | freertos/stream_buffer.c:661-710 | every step of either side whose bytes fit keeps the ring made of frames, whatever the other has done since its sample |
| `MessageBuffers.StepKeepsInvIff` | freertos/stream_buffer.c:661-710 | a step keeps it so exactly when what it writes fits in the ring with any header put back |
| `MessageBuffers.AlwaysFramedIff` | freertos/stream_buffer.c:661-710 | over every run the ring is made of frames all along exactly when each write fits |
| `MessageBuffers.AdmitsExactlyWhatFitsIff` | freertos/stream_buffer.c:524-529 | the space test lets in exactly the messages that fit, unless the 32-bit required space has wrapped and is covered; the assertion on it shuts that out |
| `MessageBuffers.ReceivedIsPrefixOfSent` | freertos/stream_buffer.c:918-967 | under every interleaving of one writer and one reader whose writes fit, receive buffers too small included, the messages received are the first ones sent: whole, unmixed, in order |
| `MessageBuffers.CarefulRunsDeliver` | freertos/stream_buffer.c:933-949 | writes fit, and so messages come out whole and in order, on every run in which the writer samples the space at no time between a header being taken and put back |
| `MessageBuffers.FittingRunsDeliver` | freertos/stream_buffer.c:918-967 | and on every run in which each receive buffer fits the next message |
| `MessageBuffers.RingHoldsFrames` | freertos/stream_buffer.c:787-794 | between receives the ring holds the undelivered messages as complete frames and after them at most one bare header |
| `MessageBuffers.EmptyMeansDelivered` | freertos/stream_buffer.c:1189-1206 | with both sides at rest, an empty ring means everything has been delivered |
| `MessageBuffers.RestoreIsHarmlessIff` | freertos/stream_buffer.c:943-949 | putting the tail back after a header too big for the caller is right exactly when what was written meanwhile would have fitted before |
| `MessageBuffers.TooSmallReceiveMixesMessages` | freertos/stream_buffer.c:933-949 | a run from an empty buffer in which a header too big for the caller is taken and put back, and the reader is later handed the end of one frame and the message behind it as one message that was never sent |
| `MessageBuffers.StreamDeliversInOrder` | freertos/stream_buffer.c:676-683 | without frames every byte sent is received once, in order, or still held |
| `MessageBuffers.StreamBuffer.BytesInBuffer` | freertos/stream_buffer.c:1189-1206 | the count of the bytes held |
| `MessageBuffers.StreamBuffer.SpacesAvailable` | freertos/stream_buffer.c:470-491 | one less than the storage, less the bytes held |
| `MessageBuffers.StreamBuffer.WriteBytes` | freertos/stream_buffer.c:1088-1131 | the two-part copy, in place, appends |
| `MessageBuffers.StreamBuffer.ReadBytes` | freertos/stream_buffer.c:1134-1186 | the two-part copy out takes from the front |
| `MessageBuffers.StreamBuffer.WriteMessage` | freertos/stream_buffer.c:661-710 | a message goes in whole exactly when header and data fit, also while an earlier one is half read, and otherwise nothing changes |
| `MessageBuffers.StreamBuffer.ReadMessage` | freertos/stream_buffer.c:918-967 | given a sample that takes in the first message, it comes out whole if the caller has room, and otherwise nothing changes, whatever lies behind it |
| `EventGroups.SetBitsIsExact` | freertos/event_groups.c:541-605 | setting bits wakes exactly the tasks whose condition then holds and leaves the old bits and the new less exactly what the woken clear |
| `EventGroups.WaitBitsIsExact` | freertos/event_groups.c:329-397 | a satisfied wait returns the bits that satisfied it and leaves the waiters alone; it takes exactly its own bits out when it clears on exit, and none otherwise; an unsatisfied one changes no bit, and joins the list exactly when willing |
| `EventGroups.SyncIsExact` | freertos/event_groups.c:206-248 | a complete rendezvous returns the old bits with the caller's in and leaves the mask clear; an incomplete one joins the list or returns the current bits |
| `EventGroups.ClearBitsIsExact` | freertos/event_groups.c:461-482 | clearing takes out exactly the bits named and returns the bits as they were |
| `EventGroups.WokenReturnsTheSnapshot` | freertos/event_groups.c:410-450 | a woken task returns the snapshot that satisfied it, without the control bits, and touches nothing |
| `EventGroups.TimedOutIsExact` | freertos/event_groups.c:414-442 | a timed-out task returns the bits of that moment, and takes its own out exactly when its condition has come to hold and it clears on exit |
| `EventGroups.TimeOutIsExact` | freertos/tasks.c:2707-2720 | a time-out takes exactly that task off the list, leaving the others in their order and the bits alone |
| `EventGroups.EveryBitMustBeSetAgain` | app/src/wdt.c:43-53 | once a wait for all of a mask has been satisfied and has cleared it, no such wait is satisfied again over any run that leaves a part of the mask unset: the watchdog is fed only when every task has reported since |
| `EventGroups.StepKeepsQuiet` | freertos/event_groups.c:329-397 | every operation keeps every waiting task's condition false |
| `EventGroups.NoSatisfiedTaskWaits` | freertos/event_groups.c:329-397 | in every reachable state no waiting task's condition holds on the current bits |
| `EventGroups.RendezvousReleasesAll` | freertos/event_groups.c:206-248 | the last arrival at a rendezvous releases every participant with one snapshot, in order of arrival, and leaves the mask clear |
| `EventGroups.DecodeEncode` | freertos/event_groups.c:366-387 | what a waiter asked for survives in its item value |
| `EventGroups.EventGroup.SetEventBits` | freertos/event_groups.c:519-610 | the loop over the waiting list, in place, and what each woken task is handed |
| `EventGroups.EventGroup.WaitForBits` | freertos/event_groups.c:329-397 | in place: a satisfied wait returns the bits that satisfied it and takes exactly its own out when it clears on exit; any other changes no bit, and joins the list exactly when willing |
| `EventGroups.EventGroup.SyncBits` | freertos/event_groups.c:206-248 | set, then return the snapshot or join the list |
| `EventGroups.EventGroup.ClearEventBits` | freertos/event_groups.c:461-482 | in place: the bits named are gone, all others stay, and the bits as they were are returned |
| `EventGroups.EventGroup.FinishWait` | freertos/event_groups.c:410-450 | in place: what a task that blocked does when it runs again |
| `Timers.FilingIsExact` | freertos/timers.c:651-689 | less than 2^32 ticks after a command, expiry is reported exactly when the period has elapsed and otherwise the timer is filed under the epoch of its true expiry |
| `Timers.FilingReportsModular` | freertos/timers.c:658-686 | for any delay at all the report is about the elapsed time modulo 2^32 |
| `Timers.FilingIsExactIff` | freertos/timers.c:658-686 | so it is right exactly when the period has not elapsed or the remainder covers it |
| `Timers.WrapIsNoticedIff` | freertos/timers.c:628-646 | a wrap is noticed rightly exactly when samples are less than 2^32 ticks apart |
| `TimerService.SwitchRoundProgress` | freertos/timers.c:850-890 | each round of the switching loop uses up some of a bounded amount, so the loop ends |
| `TimerService.SwitchListsOk` | freertos/timers.c:839-895 | switching fires only what has expired, empties the current list and makes the next epoch's list current |
| `TimerService.FileTimerOk` | freertos/timers.c:651-689 | a timer is filed where its true expiry belongs and reported expired exactly when that has passed |
| `TimerService.HeadIsDueIff` | freertos/timers.c:558 | the 32-bit test of the head is the test of its true expiry |
| `TimerService.NeverEarly` | freertos/timers.c:466-503 | over every run, a command received and its timer unlisted before the sample that switches the lists included, no callback is made before its timer's true expiry |
| `TimerService.NothingElseIsDue` | freertos/timers.c:602-625 | over every run, once the head of the current list is not due no filed timer is |
| `TimerService.PeriodicTimerDoesNotDrift` | freertos/timers.c:466-503 | a timer left alone is called for its start plus one, two, three periods and so on, none left out and none twice, however late it is processed; a restart refused by a full timer queue ends the series and does no more |
| `TimerService.StepKeepsStory` | freertos/timers.c:692-836 | every step keeps the account of a started timer: which calls were made, and exactly the one expiry that is owed, lost only by a restart to a full timer queue |
| `TimerService.PeriodicTimerKeepsGoing` | freertos/timers.c:466-503 | while the timer queue keeps room the series never ends: exactly the next expiry is owed at every point of every run |
| `TimerService.OneShotFiresOnce` | freertos/timers.c:466-503 | over every run a one-shot timer is called exactly once, for its start plus its period: until then exactly that is owed, and nothing afterwards |
| `TimerService.TimerTask.SwitchTimerLists` | freertos/timers.c:839-895 | the switching loop, in place |
| `TimerService.TimerTask.SampleTimeNow` | freertos/timers.c:628-648 | sampling the time, in place, and whether the lists were switched |
| `TimerService.TimerTask.InsertTimerInActiveList` | freertos/timers.c:651-689 | the filing, in place |
| `TimerService.TimerTask.ProcessExpiredTimer` | freertos/timers.c:466-503 | the firing of the head of the current list, in place |
| `TimerService.TimerTask.ReceiveCommand` | freertos/timers.c:700-741 | a command is received and its timer taken off the lists, in place |
| `TimerService.TimerTask.ObeyCommand` | freertos/timers.c:751-800 | the command is obeyed, in place, at the time sampled since |
| `TimerAnswers.NoTimerIsListedTwice` | freertos/timers.c:700-741 | over every run a timer is on the two lists at most once, and on neither while a command for it is being worked on |
| `TimerAnswers.StopUnlists` | freertos/timers.c:783-787 | a stop leaves the timer on no list and calls nobody |
| `TimerAnswers.StoppedTimerIsSilent` | freertos/timers.c:783-787 | a stopped timer with no other command queued is not called again over any run in which none is sent |
| `TimerAnswers.ChangePeriodRefiles` | freertos/timers.c:789-801 | a change of period stores it and files the timer once, for one new period from now |
| `TimerAnswers.StartFilesOrCalls` | freertos/timers.c:753-781 | a start files the timer once for one period from the time of the command when that is ahead, and otherwise calls it at once and starts an auto-reload timer again from that expiry |
| `TimerAnswers.OneShotIsCalledIff` | freertos/timers.c:602-625 | whenever the service has caught up, a one-shot timer left alone has been called exactly if its expiry has come |
| `TimerAnswers.PeriodicTimerIsCalledForEveryPeriod` | freertos/timers.c:602-625 | whenever the service has caught up and the timer queue has kept room, an auto-reload timer left alone has been called once for every whole period since its start |
| `UartFrames.Uart.ReceiveInt` | app/src/uart.c:87-120 | one byte changes the static state and buffer as the parser function says, and nothing past the hundred bytes of a frame |
| `UartFrames.WritesStayInTheFrame` | app/src/uart.c:96-119 | no stream, from any state, changes the buffer past its first hundred bytes |
| `UartFrames.GivesExactlyOnFrames` | app/src/uart.c:96-119 | the semaphore is given at a byte exactly when it is the 98th after a header with no header in between |
| `UartFrames.HeaderAlwaysSynchronises` | app/src/uart.c:98-105 | from any state AA 55 opens a frame |
| `UartFrames.SelfSynchronises` | app/src/uart.c:89-119 | from any state AA 55 and 98 payload bytes leave exactly that frame in the buffer and give the semaphore once, on the last byte, exactly when no 55 in the payload has AA as its nearest preceding byte other than 55 |

## Left out

- MutexBound.InheritanceBound: assumes that no task blocks on a mutex while holding one, that priorities are set only for tasks not waiting and not lowered under a holder, and that the taker is no lower than any ready task; what holds without these is `MutexBound.AlwaysBoundIff`.
- HeapTheorems.RunKeepsInv: writes by the application over headers inside its own or freed blocks are not modelled.
- Heaps.Heap.Free: a pointer under which no header was ever written is outside the precondition, since what lies there is not known.
- TimerService.PeriodicTimerDoesNotDrift: callbacks are taken not to edit the lists, and commands to be obeyed less than 2^32 ticks after they were issued; that the timer queue has room for a restart is a condition in `TimerService.PeriodicTimerKeepsGoing`.
- TickTime.RetriesKeepTheDeadline: the overflow count is unbounded here and a signed machine word in the code.
- MessageBuffers.StepKeepsInv: messages of length zero, and of lengths whose required space wraps, are outside the writer's steps, as the source's assertions have it.
- QueueProtocol.NoLostWakeUp: a task is suspended, resumed or deleted only between critical sections and with the scheduler running.
- The blocking half of stream buffers (task notifications, trigger levels) and task notifications themselves.
- Timer creation and naming, and pended function calls.
- Port layer: context switching, stacks, interrupt masking, start-up before the scheduler runs.
- Queue sets, tickless idle, MPU wrappers, thread-local storage, run-time statistics, the queue registry, trace macros: off in this configuration or without hard properties.
- `vTaskList` and `uxTaskGetSystemState`, which move list indices, are not among the operations of the round-robin theorems.
- `croutine.c`, which repeats the delayed lists of `tasks.c` in a simpler form and is compiled out.
- Static allocation of kernel objects: one creation path is modelled.
- lwIP, flash, watchdog and network code: device input and output.
