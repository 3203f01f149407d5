/** The critical sections and scheduler-suspended regions of freertos/tasks.c, as functions
    that keep every live task in exactly one state list. */
module SchedulerSteps {
  import opened Sequences
  import opened Tasks
  import opened TickTime
  import opened SchedulerState
  import Rings

  /** `running` is pxCurrentTCB, `current` says which delayed list pxDelayedTaskList is. */
  datatype Sched = Sched(
    lists: TaskLists,
    running: Task,
    current: int,
    tick: Tick,
    overflows: nat,
    pendedTicks: nat,
    nextUnblock: Tick,
    suspendCount: nat,
    yieldPending: bool)
  {
    /** *pxDelayedTaskList and *pxOverflowDelayedTaskList. */
    function Delayed(): seq<Task>
      requires |lists.delay| == 2 && 0 <= current < 2
    {
      lists.delay[current]
    }

    function Overflow(): seq<Task>
      requires |lists.delay| == 2 && 0 <= current < 2
    {
      lists.delay[1 - current]
    }
  }

  /** The state invariant between critical sections. */
  ghost predicate Inv(s: Sched) {
    Settled(s.lists) && s.running in s.lists.place && |s.lists.delay| == 2 && 0 <= s.current < 2
  }

  /** Just after the idle task was created and the scheduler started. */
  function Boot(idle: Task): Sched {
    Sched(TaskLists(map[idle := 0], map[idle := InReady(0)], map[idle := NoEvent], map[idle := 0],
                    [Rings.Ring([idle], 0)] + seq(PRIORITIES - 1, _ => Rings.Ring([], 0)),
                    [[], []], [], [], [], 0, 1, 0),
          idle, 0, 0, 0, 0, MAX_DELAY, 0, false)
  }

  // ----- Delaying the running task ------------------------------------------------------

  /** Where a task goes that blocks: the suspended list when it may wait forever, otherwise the
      delayed list of this round of the counter or of the next. */
  function Destination(tick: Tick, current: int, ticks: Tick, indefinitely: bool): Place {
    if ticks == MAX_DELAY && indefinitely then InSuspended
    else InDelay(if Add(tick, ticks) < tick then 1 - current else current)
  }

  /** Out of its state list and into a delayed list. */
  function Postpone(l: TaskLists, t: Task, b: int, value: Tick): (r: TaskLists)
    requires Settled(l) && t in l.place && 0 <= b < 2
    ensures Settled(r)
    ensures r.place == l.place[t := InDelay(b)] && r.event == l.event && r.priority == l.priority && r.wake == l.wake[t := value]
  {
    hide Core;
    AddToDelay(Unlist(l, t), t, b, value)
  }

  /** Out of its state list and into the suspended list. */
  function Park(l: TaskLists, t: Task): (r: TaskLists)
    requires Settled(l) && t in l.place
    ensures Settled(r)
    ensures r.place == l.place[t := InSuspended] && r.event == l.event && r.priority == l.priority && r.wake == l.wake
  {
    hide Core;
    AddToSuspended(Unlist(l, t), t)
  }

  /** prvAddCurrentTaskToDelayedList; `indefinitely` is xCanBlockIndefinitely. */
  function DelayRunning(s: Sched, ticks: Tick, indefinitely: bool): (r: Sched)
    requires Inv(s)
    ensures Inv(r)
    ensures r.lists.place == s.lists.place[s.running := Destination(s.tick, s.current, ticks, indefinitely)]
    ensures r.lists.event == s.lists.event && r.lists.priority == s.lists.priority
  {
    hide Holds, ReadyHold, Postpone, Park, Add;
    var t := s.running;
    if ticks == MAX_DELAY && indefinitely then s.(lists := Park(s.lists, t))
    else
      var value := Add(s.tick, ticks);
      if value < s.tick then s.(lists := Postpone(s.lists, t, 1 - s.current, value))
      else
        s.(lists := Postpone(s.lists, t, s.current, value),
           nextUnblock := if value < s.nextUnblock then value else s.nextUnblock)
  }

  /** vTaskPlaceOnEventList: the running task waits on object q. */
  function PlaceOnEventList(s: Sched, q: nat, ticks: Tick): (r: Sched)
    requires Inv(s) && s.lists.event[s.running] == NoEvent
    ensures Inv(r)
    ensures r.lists.place == s.lists.place[s.running := Destination(s.tick, s.current, ticks, true)]
    ensures r.lists.event == s.lists.event[s.running := WaitingOn(q)] && r.lists.priority == s.lists.priority
  {
    hide Core, DelayRunning, EnterEventList, Add;
    DelayRunning(s.(lists := EnterEventList(s.lists, s.running, q)), ticks, true)
  }

  /** xNextTaskUnblockTime is the wake time at the head of the current delayed list. */
  ghost predicate NextExact(s: Sched)
    requires |s.lists.delay| == 2 && 0 <= s.current < 2
  {
    s.nextUnblock == if s.Delayed() == [] then MAX_DELAY else WakeOf(s.lists.wake, s.Delayed()[0])
  }

  /** prvResetNextTaskUnblockTime. */
  function ResetNextUnblock(s: Sched): (r: Sched)
    requires Inv(s)
    ensures Inv(r) && NextExact(r)
  {
    s.(nextUnblock := if s.Delayed() == [] then MAX_DELAY else WakeOf(s.lists.wake, s.Delayed()[0]))
  }

  // ----- The tick -------------------------------------------------------------------

  /** taskSWITCH_DELAYED_LISTS. */
  function SwitchDelayLists(s: Sched): (r: Sched)
    requires Inv(s)
    ensures Inv(r) && NextExact(r)
  {
    ResetNextUnblock(s.(current := 1 - s.current, overflows := s.overflows + 1))
  }

  /** Out of its state list and its event list, and into its ready list. */
  function MakeReady(l: TaskLists, t: Task): (r: TaskLists)
    requires Settled(l) && t in l.place
    ensures Settled(r) && r.IsReady(t)
    ensures r.priority == l.priority && r.wake == l.wake
    ensures r.place == l.place[t := InReady(l.priority[t])] && r.event == l.event[t := NoEvent]
    ensures r.pending == if l.event[t] == PendingReady then Without(l.pending, t) else l.pending
  {
    hide Core;
    AddToReady(ClearEvent(Unlist(l, t), t), t)
  }

  lemma MakeReadyFromDelay(l: TaskLists, t: Task, b: int)
    requires Settled(l) && 0 <= b < 2 && t in l.delay[b]
    ensures t in l.place && t in l.wake && t in l.priority && l.place[t] == InDelay(b)
    ensures MakeReady(l, t).delay == l.delay[b := Without(l.delay[b], t)]
  {
    assert Holds(l.place, l.delay[b], InDelay(b));
  }

  /** The loop of xTaskIncrementTick over the head of the delayed list; the flag says that
      some unblocked task has at least the running task's priority. */
  function UnblockDue(s: Sched): (r: (Sched, bool))
    requires Inv(s)
    ensures Inv(r.0) && NextExact(r.0)
    ensures r.0 == s.(lists := r.0.lists, nextUnblock := r.0.nextUnblock)
    decreases |s.Delayed()|
  {
    if s.Delayed() == [] then (s.(nextUnblock := MAX_DELAY), false)
    else
      var t := s.Delayed()[0];
      MakeReadyFromDelay(s.lists, t, s.current);
      if s.tick < s.lists.wake[t] then (s.(nextUnblock := s.lists.wake[t]), false)
      else
        var (r, preempt) := UnblockDue(s.(lists := MakeReady(s.lists, t)));
        (r, preempt || s.lists.priority[t] >= s.lists.priority[s.running])
  }

  /** One round of that loop. */
  lemma UnblockDueRound(s: Sched)
    requires Inv(s) && s.Delayed() != []
    requires s.Delayed()[0] in s.lists.wake && s.tick >= s.lists.wake[s.Delayed()[0]]
    ensures var t := s.Delayed()[0];
            && t in s.lists.place && t in s.lists.priority && s.running in s.lists.priority
            && var s1 := s.(lists := MakeReady(s.lists, t));
               && Inv(s1) && |s1.Delayed()| < |s.Delayed()|
               && UnblockDue(s).0 == UnblockDue(s1).0
               && UnblockDue(s).1 == (UnblockDue(s1).1 || s.lists.priority[t] >= s.lists.priority[s.running])
  {
    var t := s.Delayed()[0];
    MakeReadyFromDelay(s.lists, t, s.current);
    RunningIsLive(s);
    hide Settled, MakeReady, NextExact, Without;
  }

  /** The head of the delayed list, and what the loop does when it stops there. */
  lemma DelayHead(s: Sched)
    requires Inv(s)
    ensures 0 <= s.current < |s.lists.delay|
    ensures s.Delayed() == [] ==> UnblockDue(s) == (s.(nextUnblock := MAX_DELAY), false)
    ensures s.Delayed() != [] ==>
              var t := s.Delayed()[0];
              && t in s.lists.wake && t in s.lists.place && t in s.lists.priority && s.running in s.lists.priority
              && 0 <= s.lists.wake[t] < WRAP && Settled(s.lists)
              && (s.tick < s.lists.wake[t] ==> UnblockDue(s) == (s.(nextUnblock := s.lists.wake[t]), false))
  {
    if s.Delayed() != [] { MakeReadyFromDelay(s.lists, s.Delayed()[0], s.current); }
  }

  /** The time-slicing test: the running task is not alone in its ready list. */
  predicate SharesPriority(s: Sched)
    requires Inv(s)
  {
    |s.lists.ready[s.lists.priority[s.running]].items| > 1
  }

  /** The tick interrupt up to the loop: the count goes up and, at a wrap, the lists switch. */
  function CountTick(s: Sched): (r: Sched)
    requires Inv(s)
    ensures Inv(r)
    ensures r == s.(tick := Add(s.tick, 1), current := r.current, nextUnblock := r.nextUnblock,
                    overflows := if s.tick == MAX_DELAY then s.overflows + 1 else s.overflows)
  {
    var s1 := s.(tick := Add(s.tick, 1));
    if s1.tick == 0 then SwitchDelayLists(s1) else s1
  }

  /** xTaskIncrementTick while the scheduler is not suspended. */
  function TickNow(s: Sched): (r: (Sched, bool))
    requires Inv(s)
    ensures Inv(r.0)
    ensures r.0 == s.(lists := r.0.lists, nextUnblock := r.0.nextUnblock, tick := Add(s.tick, 1),
                      current := r.0.current, overflows := CountTick(s).overflows)
  {
    var s2 := CountTick(s);
    var (s3, preempt) := if s2.tick >= s2.nextUnblock then UnblockDue(s2) else (s2, false);
    (s3, preempt || SharesPriority(s3) || s3.yieldPending)
  }

  lemma RunningIsLive(s: Sched)
    requires Inv(s)
    ensures s.running in s.lists.priority && s.running in s.lists.event
    ensures 0 <= s.lists.priority[s.running] < |s.lists.ready|
    ensures forall t :: t in s.lists.place ==> t in s.lists.priority && t in s.lists.event
  {
  }

  /** xTaskIncrementTick. */
  function IncrementTick(s: Sched): (r: (Sched, bool))
    requires Inv(s)
    ensures Inv(r.0)
  {
    if s.suspendCount == 0 then TickNow(s)
    else (s.(pendedTicks := s.pendedTicks + 1), s.yieldPending)
  }

  // ----- Suspending and resuming the scheduler ---------------------------------------

  /** vTaskSuspendAll. */
  function SuspendAll(s: Sched): (r: Sched)
    requires Inv(s)
    ensures Inv(r)
  {
    s.(suspendCount := s.suspendCount + 1)
  }

  /** One round of the first loop of xTaskResumeAll. */
  function MoveHead(s: Sched): (r: Sched)
    requires Inv(s) && s.lists.pending != []
    ensures Inv(r) && |r.lists.pending| < |s.lists.pending|
    ensures s.lists.pending[0] in s.lists.place
    ensures r == s.(lists := MakeReady(s.lists, s.lists.pending[0]), yieldPending := r.yieldPending)
  {
    var t := s.lists.pending[0];
    PendingIsLive(s.lists, t);
    s.(lists := MakeReady(s.lists, t),
       yieldPending := s.yieldPending || s.lists.priority[t] >= s.lists.priority[s.running])
  }

  /** The first loop of xTaskResumeAll: pending tasks become ready. */
  function MovePending(s: Sched): (r: Sched)
    requires Inv(s)
    ensures Inv(r) && r.lists.pending == []
    ensures r == s.(lists := r.lists, yieldPending := r.yieldPending)
    decreases |s.lists.pending|
  {
    if s.lists.pending == [] then s else MovePending(MoveHead(s))
  }

  lemma PendingIsLive(l: TaskLists, t: Task)
    requires Settled(l) && t in l.pending
    ensures t in l.place && l.event[t] == PendingReady
  {
  }

  /** The second loop of xTaskResumeAll: n pended ticks are processed. */
  function Replay(s: Sched, n: nat): (r: Sched)
    requires Inv(s)
    ensures Inv(r)
    ensures r.suspendCount == s.suspendCount && r.pendedTicks == s.pendedTicks
    decreases n
  {
    if n == 0 then s
    else
      var (s1, wanted) := TickNow(s);
      Replay(s1.(yieldPending := s1.yieldPending || wanted), n - 1)
  }

  /** xTaskResumeAll up to the yield, which is made when yieldPending is set. */
  function ResumeAll(s: Sched): (r: Sched)
    requires Inv(s) && s.suspendCount > 0
    ensures Inv(r) && r.suspendCount == s.suspendCount - 1
  {
    var s1 := s.(suspendCount := s.suspendCount - 1);
    if s1.suspendCount > 0 then s1
    else
      var s2 := MovePending(s1);
      var s3 := if s1.lists.pending != [] then ResetNextUnblock(s2) else s2;
      Replay(s3, s3.pendedTicks).(pendedTicks := 0)
  }

  // ----- What an operation does to one task ------------------------------------------

  /** t's state item and event item are in these places afterwards, every other task's where
      they were, and no deadline or priority has changed. */
  ghost predicate Goes(l: TaskLists, r: TaskLists, t: Task, where: Place, event: EventPlace) {
    && r.place == l.place[t := where] && r.event == l.event[t := event]
    && r.priority == l.priority && r.wake == l.wake && r.taskCount == l.taskCount
  }

  ghost predicate BecomesReady(l: TaskLists, r: TaskLists, t: Task) {
    t in l.priority && Goes(l, r, t, InReady(l.priority[t]), NoEvent)
  }

  /** Its event item waits on the pending ready list for the scheduler to be resumed. */
  ghost predicate BecomesPending(l: TaskLists, r: TaskLists, t: Task) {
    t in l.place && Goes(l, r, t, l.place[t], PendingReady)
  }

  /** t's TCB is freed, and no other task is affected. */
  ghost predicate Gone(l: TaskLists, r: TaskLists, t: Task) {
    && r.place == l.place - {t} && r.event == l.event - {t} && r.taskCount == l.taskCount - 1
    && r.priority == l.priority - {t} && r.wake == l.wake - {t}
  }

  // ----- Event lists -----------------------------------------------------------------

  /** The task has a higher priority than the running one. */
  predicate Outranks(s: Sched, t: Task)
    requires Inv(s) && t in s.lists.place
  {
    s.lists.priority[t] > s.lists.priority[s.running]
  }

  /** xTaskRemoveFromEventList, t being the head of the list. */
  function Signal(s: Sched, t: Task): (r: Sched)
    requires Inv(s) && t in s.lists.place && s.lists.event[t].WaitingOn?
    ensures Inv(r)
    ensures s.suspendCount == 0 ==> BecomesReady(s.lists, r.lists, t)
    ensures s.suspendCount > 0 ==> BecomesPending(s.lists, r.lists, t)
    ensures r.yieldPending <==> s.yieldPending || s.lists.priority[t] > s.lists.priority[s.running]
  {
    var l := if s.suspendCount == 0 then MakeReady(s.lists, t) else AddToPending(s.lists, t);
    s.(lists := l, yieldPending := s.yieldPending || l.priority[t] > l.priority[s.running])
  }

  /** vTaskRemoveFromUnorderedEventList, called with the scheduler suspended. */
  function SignalUnordered(s: Sched, t: Task): (r: Sched)
    requires Inv(s) && t in s.lists.place && s.lists.event[t].WaitingOn?
    ensures Inv(r) && BecomesReady(s.lists, r.lists, t)
    ensures r.yieldPending <==> s.yieldPending || s.lists.priority[t] > s.lists.priority[s.running]
  {
    var l := MakeReady(s.lists, t);
    s.(lists := l, yieldPending := s.yieldPending || l.priority[t] > l.priority[s.running])
  }

  // ----- Suspending, resuming, creating and deleting tasks ---------------------------

  /** Out of its state list and its event list, and into the suspended list. */
  function Shelve(l: TaskLists, t: Task): (r: TaskLists)
    requires Settled(l) && t in l.place
    ensures Settled(r) && Goes(l, r, t, InSuspended, NoEvent)
  {
    hide Core;
    AddToSuspended(ClearEvent(Unlist(l, t), t), t)
  }

  /** vTaskSuspend up to the yield, while the scheduler runs. */
  function Suspend(s: Sched, t: Task): (r: Sched)
    requires Inv(s) && t in s.lists.place
    ensures Inv(r) && Goes(s.lists, r.lists, t, InSuspended, NoEvent) && NextExact(r)
  {
    hide Holds, ReadyHold, Shelve;
    ResetNextUnblock(s.(lists := Shelve(s.lists, t)))
  }

  /** prvTaskIsTaskSuspended. */
  predicate IsSuspended(l: TaskLists, t: Task) {
    t in l.place && t in l.event && l.place[t] == InSuspended && l.event[t] == NoEvent
  }

  /** The critical section of vTaskResume. */
  function Resume(s: Sched, t: Task): (r: Sched)
    requires Inv(s)
    ensures Inv(r)
    ensures if t != s.running && IsSuspended(s.lists, t) then BecomesReady(s.lists, r.lists, t) else r == s
  {
    if t != s.running && IsSuspended(s.lists, t) then s.(lists := MakeReady(s.lists, t)) else s
  }

  /** xTaskResumeFromISR. */
  function ResumeFromIsr(s: Sched, t: Task): (r: Sched)
    requires Inv(s)
    ensures Inv(r)
    ensures !IsSuspended(s.lists, t) ==> r == s
    ensures IsSuspended(s.lists, t) && s.suspendCount == 0 ==> BecomesReady(s.lists, r.lists, t)
    ensures IsSuspended(s.lists, t) && s.suspendCount > 0 ==> BecomesPending(s.lists, r.lists, t)
  {
    if !IsSuspended(s.lists, t) then s
    else if s.suspendCount == 0 then s.(lists := MakeReady(s.lists, t))
    else s.(lists := AddToPending(s.lists, t))
  }

  /** prvAddNewTaskToReadyList, once the scheduler is running. */
  function Create(s: Sched, t: Task, p: int): (r: Sched)
    requires Inv(s) && t !in s.lists.place && 0 <= p < PRIORITIES
    ensures Inv(r) && r.lists.place == s.lists.place[t := InReady(p)] && r.lists.taskCount == s.lists.taskCount + 1
    ensures r.lists.event == s.lists.event[t := NoEvent] && r.lists.priority == s.lists.priority[t := p]
  {
    s.(lists := AddToReady(NewTcb(s.lists, t, p), t))
  }

  /** A task that deletes itself leaves its TCB to the idle task. */
  function Terminate(l: TaskLists, t: Task): (r: TaskLists)
    requires Settled(l) && t in l.place
    ensures Settled(r) && Goes(l, r, t, InTerminating, NoEvent)
  {
    hide Core;
    AddToTerminating(ClearEvent(Unlist(l, t), t), t)
  }

  function Dispose(l: TaskLists, t: Task): (r: TaskLists)
    requires Settled(l) && t in l.place
    ensures Settled(r) && Gone(l, r, t)
  {
    hide Core;
    FreeTcb(ClearEvent(Unlist(l, t), t), t)
  }

  /** The critical section of vTaskDelete. */
  function Delete(s: Sched, t: Task): (r: Sched)
    requires Inv(s) && t in s.lists.place
    ensures Inv(r)
    ensures t == s.running ==> Goes(s.lists, r.lists, t, InTerminating, NoEvent)
    ensures t != s.running ==> Gone(s.lists, r.lists, t) && NextExact(r)
  {
    if t == s.running then s.(lists := Terminate(s.lists, t)) else ResetNextUnblock(s.(lists := Dispose(s.lists, t)))
  }

  /** One round of prvCheckTasksWaitingTermination, run by the idle task. */
  function Reap(s: Sched): (r: Sched)
    requires Inv(s) && s.lists.terminating != [] && s.lists.terminating[0] != s.running
    ensures Inv(r) && Gone(s.lists, r.lists, s.lists.terminating[0])
  {
    var t := s.lists.terminating[0];
    assert Holds(s.lists.place, s.lists.terminating, InTerminating);
    s.(lists := Dispose(s.lists, t))
  }

  // ----- Priorities ------------------------------------------------------------------

  /** The pattern shared by inheritance, disinheritance and vTaskPrioritySet: a ready task
      moves to the ready list of its new priority, any other only changes its priority. */
  function ChangePriority(l: TaskLists, t: Task, p: int): (r: TaskLists)
    requires Settled(l) && t in l.place && 0 <= p < PRIORITIES
    ensures Settled(r)
    ensures r.priority == l.priority[t := p] && r.event == l.event && r.wake == l.wake
    ensures r.place == if l.IsReady(t) then l.place[t := InReady(p)] else l.place
  {
    hide Holds, ReadyHold;
    if l.IsReady(t) then AddToReady(SetPriority(Unlist(l, t), t, p), t)
    else SetPriority(l, t, p)
  }

  // ----- Choosing the next task ------------------------------------------------------

  /** The highest non-empty ready list at or below `top`. */
  function HighestReady(ready: ReadyLists, top: int): (p: int)
    requires |ready| == PRIORITIES && 0 <= top < PRIORITIES
    requires exists q :: 0 <= q <= top && ready[q].items != []
    ensures 0 <= p <= top && ready[p].items != []
    ensures forall q :: p < q <= top ==> ready[q].items == []
  {
    if ready[top].items != [] then top else HighestReady(ready, top - 1)
  }

  ghost predicate SomeReady(l: TaskLists) {
    exists t :: l.IsReady(t)
  }

  /** vTaskSwitchContext with taskSELECT_HIGHEST_PRIORITY_TASK; under a suspended scheduler the
      switch is put off by noting that a yield is pending. */
  function SwitchContext(s: Sched): (r: Sched)
    requires Inv(s) && (s.suspendCount == 0 ==> SomeReady(s.lists))
    ensures Inv(r)
    ensures r.yieldPending <==> s.suspendCount > 0
    ensures s.suspendCount > 0 ==> r.lists == s.lists && r.running == s.running
  {
    if s.suspendCount > 0 then s.(yieldPending := true)
    else
      SomeListReady(s.lists);
      var p := HighestReady(s.lists.ready, s.lists.topReady);
      SelectKeepsInv(s, p);
      s.(lists := s.lists.(ready := s.lists.ready[p := Rings.Advance(s.lists.ready[p])], topReady := p),
         running := Rings.Selected(s.lists.ready[p]), yieldPending := false)
  }

  lemma SomeListReady(l: TaskLists)
    requires Settled(l) && SomeReady(l)
    ensures exists q :: 0 <= q <= l.topReady && l.ready[q].items != []
  {
    var t :| l.IsReady(t);
    var q := l.place[t].priority;
    assert t in l.ready[q].items;
  }

  lemma SelectKeepsInv(s: Sched, p: int)
    requires Inv(s) && 0 <= p <= s.lists.topReady && s.lists.ready[p].items != []
    requires forall q :: p < q <= s.lists.topReady ==> s.lists.ready[q].items == []
    ensures Settled(s.lists.(ready := s.lists.ready[p := Rings.Advance(s.lists.ready[p])], topReady := p))
    ensures Rings.Selected(s.lists.ready[p]) in s.lists.place
  {
    var u, q := Rings.Selected(s.lists.ready[p]), s.lists.ready[p].items;
    assert Holds(s.lists.place, q, InReady(p));
    assert u in q;
    assert u in s.lists.place;
  }

  /** The task chosen is ready, and no ready task has a higher priority. */
  lemma SwitchPicksHighest(s: Sched, t: Task)
    requires Inv(s) && s.suspendCount == 0 && s.lists.IsReady(t)
    ensures var r := SwitchContext(s);
            && r.lists.IsReady(r.running) && r.lists.IsReady(t)
            && r.lists.priority[t] <= r.lists.priority[r.running]
            && r.lists.topReady == r.lists.priority[r.running]
  {
    SomeListReady(s.lists);
    var l := s.lists;
    var p := HighestReady(l.ready, l.topReady);
    var u := Rings.Selected(l.ready[p]);
    assert Holds(l.place, l.ready[p].items, InReady(p)) && u in l.ready[p].items;
    var q := l.place[t].priority;
    assert Holds(l.place, l.ready[q].items, InReady(q)) && t in l.ready[q].items;
  }
}
