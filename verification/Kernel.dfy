/** The scheduler of freertos/tasks.c in place: its static variables are the fields, its
    critical sections the methods, with the loops of the source. Each method is proved to
    take the state to what the functions of module SchedulerSteps say. */
module Kernels {
  import opened Tasks
  import opened TickTime
  import opened SchedulerState
  import Steps = SchedulerSteps
  import Time = SchedulerTime
  import Answers = SchedulerAnswers
  import Rings

  class Kernel {
    /** The TCBs and every task list. */
    var lists: TaskLists
    /** pxCurrentTCB, and which delayed list pxDelayedTaskList is. */
    var running: Task
    var current: int
    var tick: Tick
    var overflows: nat
    var pendedTicks: nat
    var nextUnblock: Tick
    var suspendCount: nat
    var yieldPending: bool

    ghost function State(): Steps.Sched
      reads this
    {
      Steps.Sched(lists, running, current, tick, overflows, pendedTicks, nextUnblock, suspendCount, yieldPending)
    }

    /** The state just after the idle task was created and started. */
    constructor (idle: Task)
      ensures State() == Steps.Boot(idle) && Steps.Inv(State())
    {
      lists := TaskLists(map[idle := 0], map[idle := InReady(0)], map[idle := NoEvent], map[idle := 0],
                         [Rings.Ring([idle], 0)] + seq(PRIORITIES - 1, _ => Rings.Ring([], 0)),
                         [[], []], [], [], [], 0, 1, 0);
      running, current := idle, 0;
      tick, overflows, pendedTicks, nextUnblock, suspendCount, yieldPending := 0, 0, 0, MAX_DELAY, 0, false;
    }

    /** prvResetNextTaskUnblockTime. */
    method ResetNextUnblock()
      requires Steps.Inv(State())
      modifies this`nextUnblock
      ensures State() == Steps.ResetNextUnblock(old(State()))
    {
      var delayed := lists.delay[current];
      if delayed == [] {
        nextUnblock := MAX_DELAY;
      } else {
        nextUnblock := WakeOf(lists.wake, delayed[0]);
      }
    }

    /** prvAddCurrentTaskToDelayedList. */
    method DelayRunning(ticks: Tick, indefinitely: bool)
      requires Steps.Inv(State())
      modifies this`lists, this`nextUnblock
      ensures State() == Steps.DelayRunning(old(State()), ticks, indefinitely)
    {
      hide Settled, Unlist, AddToSuspended, AddToDelay, Detached;
      var t := running;
      lists := Unlist(lists, t);
      if ticks == MAX_DELAY && indefinitely {
        lists := AddToSuspended(lists, t);
      } else {
        var value := Add(tick, ticks);
        if value < tick {
          lists := AddToDelay(lists, t, 1 - current, value);
        } else {
          lists := AddToDelay(lists, t, current, value);
          if value < nextUnblock {
            nextUnblock := value;
          }
        }
      }
    }

    /** The loop of xTaskIncrementTick. */
    method UnblockDue() returns (preempt: bool)
      requires Steps.Inv(State())
      modifies this`lists, this`nextUnblock
      ensures (State(), preempt) == Steps.UnblockDue(old(State()))
    {
      hide Settled, Steps.UnblockDue, Steps.MakeReady, Steps.Inv;
      ghost var goal := Steps.UnblockDue(State());
      preempt := false;
      Steps.DelayHead(State());
      while lists.delay[current] != []
        invariant Steps.Inv(State()) && 0 <= current < |lists.delay|
        invariant Steps.UnblockDue(State()).0 == goal.0 && (preempt || Steps.UnblockDue(State()).1) == goal.1
        decreases |lists.delay[current]|
      {
        Steps.DelayHead(State());
        var t := lists.delay[current][0];
        if tick < lists.wake[t] {
          nextUnblock := lists.wake[t];
          return;
        }
        Steps.UnblockDueRound(State());
        if lists.priority[t] >= lists.priority[running] {
          preempt := true;
        }
        lists := Steps.MakeReady(lists, t);
        Steps.DelayHead(State());
      }
      Steps.DelayHead(State());
      nextUnblock := MAX_DELAY;
    }

    /** xTaskIncrementTick with the scheduler running. */
    method TickNow() returns (switchRequired: bool)
      requires Steps.Inv(State())
      modifies this`lists, this`nextUnblock, this`tick, this`current, this`overflows
      ensures (State(), switchRequired) == Steps.TickNow(old(State()))
      ensures Time.Timely(old(State())) ==>
                (switchRequired <==> Answers.DueWithin(old(State()), 1) || Answers.Rivals(old(State())) || old(yieldPending))
    {
      hide Settled, Time.Timely, Answers.DueWithin, Answers.Rivals, Steps.NextExact, Steps.UnblockDue;
      ghost var start := State();
      if Time.Timely(start) { Answers.TickAnswer(start); }
      tick := Add(tick, 1);
      if tick == 0 {
        current := 1 - current;
        overflows := overflows + 1;
        ResetNextUnblock();
      }
      assert State() == Steps.CountTick(old(State()));
      switchRequired := false;
      if tick >= nextUnblock {
        switchRequired := UnblockDue();
      }
      Steps.RunningIsLive(State());
      if |lists.ready[lists.priority[running]].items| > 1 {
        switchRequired := true;
      }
      if yieldPending {
        switchRequired := true;
      }
    }

    /** xTaskIncrementTick. */
    method IncrementTick() returns (switchRequired: bool)
      requires Steps.Inv(State())
      modifies this
      ensures (State(), switchRequired) == Steps.IncrementTick(old(State()))
      ensures old(suspendCount) > 0 ==> pendedTicks == old(pendedTicks) + 1 && lists == old(lists) && tick == old(tick)
      ensures Time.Timely(old(State())) ==>
                (switchRequired <==>
                  old(yieldPending)
                  || (old(suspendCount) == 0 && (Answers.DueWithin(old(State()), 1) || Answers.Rivals(old(State())))))
    {
      hide Settled, Time.Timely, Answers.DueWithin, Answers.Rivals;
      if suspendCount == 0 {
        switchRequired := TickNow();
      } else {
        pendedTicks := pendedTicks + 1;
        switchRequired := yieldPending;
      }
    }

    /** One round of the first loop of xTaskResumeAll. */
    method MoveHead()
      requires Steps.Inv(State()) && lists.pending != []
      modifies this`lists, this`yieldPending
      ensures State() == Steps.MoveHead(old(State()))
    {
      var t := lists.pending[0];
      Steps.PendingIsLive(lists, t);
      Steps.RunningIsLive(State());
      hide Settled;
      if lists.priority[t] >= lists.priority[running] {
        yieldPending := true;
      }
      lists := Steps.MakeReady(lists, t);
    }

    /** The first loop of xTaskResumeAll. */
    method MovePending()
      requires Steps.Inv(State())
      modifies this`lists, this`yieldPending
      ensures State() == Steps.MovePending(old(State()))
      ensures yieldPending <==> old(yieldPending) || Answers.PendingAtLeast(old(State()))
    {
      hide Settled, Steps.MoveHead, Answers.PendingAtLeast;
      Answers.MovePendingAnswer(State());
      ghost var goal := Steps.MovePending(State());
      while lists.pending != []
        invariant Steps.Inv(State())
        invariant Steps.MovePending(State()) == goal
        decreases |lists.pending|
      {
        MoveHead();
      }
    }

    /** The second loop of xTaskResumeAll. */
    method Replay()
      requires Steps.Inv(State())
      modifies this
      ensures State() == Steps.Replay(old(State()), old(pendedTicks))
    {
      hide Settled, Steps.TickNow, Time.Timely;
      ghost var goal := Steps.Replay(State(), pendedTicks);
      var left := pendedTicks;
      while left > 0
        invariant Steps.Inv(State())
        invariant Steps.Replay(State(), left) == goal
        decreases left
      {
        ghost var before := State();
        var wanted := TickNow();
        assert State() == Steps.TickNow(before).0;
        if wanted {
          yieldPending := true;
        }
        left := left - 1;
      }
    }

    /** xTaskResumeAll. */
    method ResumeAll() returns (alreadyYielded: bool)
      requires Steps.Inv(State()) && suspendCount > 0
      modifies this
      ensures State() == Steps.ResumeAll(old(State()))
      ensures alreadyYielded == (suspendCount == 0 && yieldPending)
      ensures Time.Timely(old(State())) ==> (alreadyYielded <==> old(suspendCount) == 1 && Answers.WantsSwitch(old(State())))
    {
      hide Settled, Steps.MovePending, Steps.Replay, Time.Timely, Answers.WantsSwitch, Answers.PendingAtLeast;
      ghost var start := State();
      if Time.Timely(start) && suspendCount == 1 { Answers.ResumeAllAnswer(start); }
      alreadyYielded := false;
      suspendCount := suspendCount - 1;
      if suspendCount == 0 {
        var moved := lists.pending != [];
        MovePending();
        if moved {
          ResetNextUnblock();
        }
        Replay();
        pendedTicks := 0;
        alreadyYielded := yieldPending;
      }
    }

    /** xTaskRemoveFromEventList. */
    method Signal(t: Task) returns (higher: bool)
      requires Steps.Inv(State()) && t in lists.place && lists.event[t].WaitingOn?
      modifies this`lists, this`yieldPending
      ensures State() == Steps.Signal(old(State()), t)
      ensures higher <==> Steps.Outranks(old(State()), t)
    {
      hide Settled;
      if suspendCount == 0 {
        lists := Steps.MakeReady(lists, t);
      } else {
        lists := AddToPending(lists, t);
      }
      Steps.RunningIsLive(State());
      higher := lists.priority[t] > lists.priority[running];
      if higher {
        yieldPending := true;
      }
    }

    /** vTaskResume; it yields when the resumed task has at least the running task's priority. */
    method Resume(t: Task) returns (switch: bool)
      requires Steps.Inv(State())
      modifies this`lists
      ensures State() == Steps.Resume(old(State()), t)
      ensures switch <==> t != running && Steps.IsSuspended(old(lists), t) && Answers.AtLeast(old(State()), t)
    {
      hide Settled, Steps.MakeReady;
      switch := false;
      if t != running && Steps.IsSuspended(lists, t) {
        Steps.RunningIsLive(State());
        lists := Steps.MakeReady(lists, t);
        if lists.priority[t] >= lists.priority[running] {
          switch := true;
        }
      }
    }

    /** xTaskResumeFromISR; under a suspended scheduler the task is held pending. */
    method ResumeFromIsr(t: Task) returns (yieldRequired: bool)
      requires Steps.Inv(State())
      modifies this`lists
      ensures State() == Steps.ResumeFromIsr(old(State()), t)
      ensures yieldRequired <==>
                old(suspendCount) == 0 && Steps.IsSuspended(old(lists), t) && Answers.AtLeast(old(State()), t)
    {
      hide Settled, Steps.MakeReady, AddToPending;
      yieldRequired := false;
      if Steps.IsSuspended(lists, t) {
        Steps.RunningIsLive(State());
        if suspendCount == 0 {
          if lists.priority[t] >= lists.priority[running] {
            yieldRequired := true;
          }
          lists := Steps.MakeReady(lists, t);
        } else {
          lists := AddToPending(lists, t);
        }
      }
    }

    /** vTaskDelete. */
    method Delete(t: Task)
      requires Steps.Inv(State()) && t in lists.place
      modifies this`lists, this`nextUnblock
      ensures State() == Steps.Delete(old(State()), t)
    {
      hide Settled;
      lists := ClearEvent(Unlist(lists, t), t);
      if t == running {
        lists := AddToTerminating(lists, t);
      } else {
        lists := FreeTcb(lists, t);
        ResetNextUnblock();
      }
    }

    /** The loop of taskSELECT_HIGHEST_PRIORITY_TASK: it comes down from uxTopReadyPriority and
        stops because some task is ready. */
    method HighestReady() returns (top: int)
      requires |lists.ready| == PRIORITIES && 0 <= lists.topReady < PRIORITIES
      requires exists q :: 0 <= q <= lists.topReady && lists.ready[q].items != []
      ensures top == Steps.HighestReady(lists.ready, lists.topReady)
    {
      top := lists.topReady;
      while lists.ready[top].items == []
        invariant 0 <= top <= lists.topReady
        invariant exists q :: 0 <= q <= top && lists.ready[q].items != []
        invariant Steps.HighestReady(lists.ready, top) == Steps.HighestReady(lists.ready, lists.topReady)
        decreases top
      {
        top := top - 1;
      }
    }

    /** vTaskSwitchContext. */
    method SwitchContext()
      requires Steps.Inv(State()) && (suspendCount == 0 ==> Steps.SomeReady(lists))
      modifies this`lists, this`running, this`yieldPending
      ensures State() == Steps.SwitchContext(old(State()))
      ensures yieldPending <==> old(suspendCount) > 0
    {
      if suspendCount != 0 {
        yieldPending := true;
      } else {
        yieldPending := false;
        Steps.SomeListReady(lists);
        var top := HighestReady();
        running := Rings.Selected(lists.ready[top]);
        lists := lists.(ready := lists.ready[top := Rings.Advance(lists.ready[top])], topReady := top);
      }
    }
  }
}
