/** The scheduler from start-up on: the state in which it starts has every invariant, so what
    the theorems say of timely states holds at every point of every run. */
module SchedulerBoot {
  import opened Sequences
  import opened Tasks
  import opened TickTime
  import opened SchedulerState
  import opened SchedulerSteps
  import opened SchedulerTime
  import opened SchedulerRuns
  import opened SchedulerTheorems

  lemma BootIsTimely(idle: Task)
    ensures Timely(Boot(idle)) && Boot(idle).lists.IsReady(idle) && Now(Boot(idle)) == 0
    ensures Boot(idle).running == idle && Boot(idle).suspendCount == 0 && !Boot(idle).yieldPending
  {
  }

  // ----- A ready task is on no event list ----------------------------------------------------

  /** No ready task's event item is in a list. */
  ghost predicate Quiet(l: TaskLists) {
    forall t :: l.IsReady(t) ==> t in l.event && l.event[t] == NoEvent
  }

  lemma {:induction false} UnblockQuiet(s: Sched)
    requires Inv(s) && Quiet(s.lists)
    ensures Quiet(UnblockDue(s).0.lists)
    decreases |s.Delayed()|
  {
    hide Settled;
    if s.Delayed() != [] {
      MakeReadyFromDelay(s.lists, s.Delayed()[0], s.current);
      if s.tick >= s.lists.wake[s.Delayed()[0]] {
        UnblockQuiet(s.(lists := MakeReady(s.lists, s.Delayed()[0])));
      }
    }
  }

  lemma TickQuiet(s: Sched)
    requires Inv(s) && Quiet(s.lists)
    ensures Quiet(TickNow(s).0.lists)
  {
    hide Settled;
    TickIsCountThenUnblock(s);
    UnblockQuiet(CountTick(s));
  }

  lemma {:induction false} MovePendingQuiet(s: Sched)
    requires Inv(s) && Quiet(s.lists)
    ensures Quiet(MovePending(s).lists)
    decreases |s.lists.pending|
  {
    hide Settled;
    if s.lists.pending != [] { MovePendingQuiet(MoveHead(s)); }
  }

  lemma {:induction false} ReplayQuiet(s: Sched, n: nat)
    requires Inv(s) && Quiet(s.lists)
    ensures Quiet(Replay(s, n).lists)
    decreases n
  {
    hide Settled;
    if n > 0 {
      TickQuiet(s);
      var (s1, wanted) := TickNow(s);
      ReplayQuiet(s1.(yieldPending := s1.yieldPending || wanted), n - 1);
    }
  }

  lemma ResumeAllQuiet(s: Sched)
    requires Inv(s) && Quiet(s.lists) && s.suspendCount > 0
    ensures Quiet(SchedulerSteps.ResumeAll(s).lists)
  {
    hide Settled, Quiet, MovePending, Replay;
    var s1 := s.(suspendCount := s.suspendCount - 1);
    if s1.suspendCount == 0 {
      MovePendingQuiet(s1);
      var s2 := MovePending(s1);
      var s3 := if s1.lists.pending != [] then ResetNextUnblock(s2) else s2;
      assert s3.lists == s2.lists;
      ReplayQuiet(s3, s3.pendedTicks);
    }
  }

  lemma StepQuiet(s: Sched, e: Event)
    requires Inv(s) && Enabled(s, e) && Quiet(s.lists)
    ensures Quiet(Step(s, e).lists)
  {
    hide Inv, Quiet;
    match e
    case Tick => if s.suspendCount == 0 { TickQuiet(s); }
    case ResumeAll => ResumeAllQuiet(s);
    case Delay(d) => BlockQuiet(s, e);
    case Block(q, d) => BlockQuiet(s, e);
    case Suspend(t) => LeaveQuiet(s, e);
    case Delete(t) => LeaveQuiet(s, e);
    case Reap => LeaveQuiet(s, e);
    case Switch => OthersQuiet(s, e);
    case SuspendAll =>
    case _ => WakeQuiet(s, e);
  }

  lemma BlockQuiet(s: Sched, e: Event)
    requires Inv(s) && Enabled(s, e) && Quiet(s.lists) && (e.Delay? || e.Block?)
    ensures Quiet(Step(s, e).lists)
  {
    hide Settled, DelayRunning, PlaceOnEventList;
    var r := Step(s, e).lists;
    assert forall t :: r.IsReady(t) ==> t != s.running && s.lists.IsReady(t);
  }

  lemma LeaveQuiet(s: Sched, e: Event)
    requires Inv(s) && Enabled(s, e) && Quiet(s.lists) && (e.Suspend? || e.Delete? || e.Reap?)
    ensures Quiet(Step(s, e).lists)
  {
    hide Settled, SchedulerSteps.Suspend, SchedulerSteps.Delete, SchedulerSteps.Reap;
  }

  lemma WakeQuiet(s: Sched, e: Event)
    requires Inv(s) && Enabled(s, e) && Quiet(s.lists)
    requires e.Signal? || e.SignalUnordered? || e.Resume? || e.ResumeFromIsr? || e.Create? || e.Reprioritise?
    ensures Quiet(Step(s, e).lists)
  {
    hide Settled, SchedulerSteps.Signal, SchedulerSteps.SignalUnordered, SchedulerSteps.Resume, SchedulerSteps.ResumeFromIsr;
    hide SchedulerSteps.Create, ChangePriority;
  }

  lemma OthersQuiet(s: Sched, e: Event)
    requires Inv(s) && Enabled(s, e) && Quiet(s.lists) && e.Switch?
    ensures Quiet(Step(s, e).lists)
  {
    hide Settled;
  }

  lemma {:induction false} RunQuiet(s: Sched, es: seq<Event>)
    requires Legal(s, es) && Quiet(s.lists)
    ensures Quiet(Run(s, es).lists)
    decreases |es|
  {
    hide Inv, Quiet, Step;
    if es != [] {
      StepQuiet(s, es[0]);
      RunQuiet(Step(s, es[0]), es[1..]);
    }
  }

  // ----- The theorems, from start-up ------------------------------------------------------------

  /** Some run leads here from start-up. */
  ghost predicate Reachable(s: Sched) {
    exists idle, es :: Legal(Boot(idle), es) && Run(Boot(idle), es) == s
  }

  /** In every reachable state the delayed lists are in wake order, nobody is overdue, the next
      unblock time is early enough, and no ready task waits for anything. */
  lemma ReachableIsTimely(s: Sched)
    requires Reachable(s)
    ensures Timely(s) && Quiet(s.lists)
  {
    hide Timely, Legal, Run, Quiet;
    var idle, es :| Legal(Boot(idle), es) && Run(Boot(idle), es) == s;
    BootIsTimely(idle);
    BootIsQuiet(idle);
    RunKeepsTimely(Boot(idle), es);
    RunQuiet(Boot(idle), es);
  }

  lemma BootIsQuiet(idle: Task)
    ensures Quiet(Boot(idle).lists)
  {
  }

  lemma RunningIsQuiet(s: Sched)
    requires Inv(s) && Quiet(s.lists) && s.lists.IsReady(s.running)
    ensures s.running in s.lists.event && s.lists.event[s.running] == NoEvent
  {
  }

  /** Whatever has happened since start-up, a task that delays for d ticks is ready again exactly
      d ticks later, unless it is touched meanwhile. */
  lemma EveryDelayWakesOnTime(s: Sched, d: Tick, es: seq<Event>)
    requires Reachable(s) && s.lists.IsReady(s.running) && d > 0 && Inv(s)
    requires Legal(Step(s, Delay(d)), es) && forall e :: e in es ==> !Touches(e, s.running)
    ensures WakesOnTime(Step(s, Delay(d)), s.running, Now(s) + d, es)
  {
    hide Reachable, Timely, Inv, Quiet, Legal, Step, WakesOnTime;
    ReachableIsTimely(s);
    RunningIsQuiet(s);
    DelayWakesExactlyOnTime(s, d, es);
  }

  lemma EveryTimeOutIsOnTime(s: Sched, q: nat, d: Tick, es: seq<Event>)
    requires Reachable(s) && Inv(s) && Enabled(s, Block(q, d)) && d < MAX_DELAY
    requires Legal(Step(s, Block(q, d)), es) && forall e :: e in es ==> !Touches(e, s.running)
    ensures WakesOnTime(Step(s, Block(q, d)), s.running, Now(s) + d, es)
  {
    hide Reachable, Timely, Inv, Enabled, Legal, Step, WakesOnTime;
    ReachableIsTimely(s);
    BlockTimesOutExactlyOnTime(s, q, d, es);
  }

  lemma TickIsNow(s: Sched)
    ensures s.tick == Now(s) % WRAP
  {
  }

  /** The k-th call of a periodic task, made at or after its previous wake time: if its next wake
      time is still ahead it blocks, and is ready from exactly tick first + (k + 1) * increment on;
      if not, and the call is less than a wrap late, it does not block. */
  lemma PeriodicCallWakesOnTime(s: Sched, first: nat, increment: Tick, k: nat, es: seq<Event>)
    requires Reachable(s) && Inv(s) && s.lists.IsReady(s.running) && 0 < increment
    requires first + k * increment <= Now(s) < first + k * increment + WRAP
    ensures ShouldDelay(WakeVariable(first % WRAP, increment, k), increment, s.tick) <==> Now(s) < first + (k + 1) * increment
    ensures var d := Sub(WakeVariable(first % WRAP, increment, k + 1), s.tick);
            Now(s) < first + (k + 1) * increment ==>
              && d > 0
              && (Legal(Step(s, Delay(d)), es) && (forall e :: e in es ==> !Touches(e, s.running)) ==>
                    WakesOnTime(Step(s, Delay(d)), s.running, first + (k + 1) * increment, es))
  {
    hide Reachable, Inv, Legal, Step, WakesOnTime, WakeVariable, ShouldDelay, Sub;
    TickIsNow(s);
    assert (k + 1) * increment == k * increment + increment;
    PeriodicCallsDoNotDrift(first, increment, k, Now(s));
    var d := Sub(WakeVariable(first % WRAP, increment, k + 1), s.tick);
    if Now(s) < first + (k + 1) * increment && Legal(Step(s, Delay(d)), es) && forall e :: e in es ==> !Touches(e, s.running) {
      EveryDelayWakesOnTime(s, d, es);
    }
  }

  // ----- What resuming the scheduler does --------------------------------------------------------

  /** Ready tasks stay ready and nothing becomes pending. */
  ghost predicate OnlyReadies(l: TaskLists, r: TaskLists) {
    (forall t :: l.IsReady(t) ==> r.IsReady(t)) && (l.pending == [] ==> r.pending == [])
  }

  lemma MakeReadyOnlyReadies(l: TaskLists, t: Task)
    requires Settled(l) && t in l.place
    ensures OnlyReadies(l, MakeReady(l, t))
  {
    hide Settled, MakeReady;
  }

  lemma {:induction false} UnblockOnlyReadies(s: Sched)
    requires Inv(s)
    ensures OnlyReadies(s.lists, UnblockDue(s).0.lists)
    decreases |s.Delayed()|
  {
    hide Settled, MakeReady;
    if s.Delayed() != [] {
      MakeReadyFromDelay(s.lists, s.Delayed()[0], s.current);
      if s.tick >= s.lists.wake[s.Delayed()[0]] {
        MakeReadyOnlyReadies(s.lists, s.Delayed()[0]);
        UnblockOnlyReadies(s.(lists := MakeReady(s.lists, s.Delayed()[0])));
      }
    }
  }

  lemma {:induction false} ReplayOnlyReadies(s: Sched, n: nat)
    requires Inv(s)
    ensures OnlyReadies(s.lists, Replay(s, n).lists)
    decreases n
  {
    hide Settled;
    if n > 0 {
      TickIsCountThenUnblock(s);
      UnblockOnlyReadies(CountTick(s));
      var (s1, wanted) := TickNow(s);
      ReplayOnlyReadies(s1.(yieldPending := s1.yieldPending || wanted), n - 1);
    }
  }

  lemma {:induction false} MovePendingReadies(s: Sched, t: Task)
    requires Inv(s) && (t in s.lists.pending || s.lists.IsReady(t))
    ensures MovePending(s).lists.IsReady(t)
    decreases |s.lists.pending|
  {
    hide Settled;
    if s.lists.pending != [] {
      var h := s.lists.pending[0];
      if t != h && t in s.lists.pending { StillPending(s.lists, h, t); }
      MovePendingReadies(MoveHead(s), t);
    }
  }

  lemma StillPending(l: TaskLists, h: Task, t: Task)
    requires Settled(l) && h in l.pending && t in l.pending && t != h
    ensures h in l.place && t in MakeReady(l, h).pending
  {
    PendingIsLive(l, h);
    WithoutMembers(l.pending, h);
  }

  /** The last resume makes every pending task ready, leaves none pending, and processes exactly
      the ticks pended; any other only counts down. */
  lemma ResumeAllReleases(s: Sched)
    requires Inv(s) && s.suspendCount > 0
    ensures s.suspendCount > 1 ==> SchedulerSteps.ResumeAll(s) == s.(suspendCount := s.suspendCount - 1)
    ensures s.suspendCount == 1 ==>
              var r := SchedulerSteps.ResumeAll(s);
              && r.suspendCount == 0 && r.pendedTicks == 0 && r.lists.pending == [] && Now(r) == Now(s) + s.pendedTicks
              && forall t :: t in s.lists.pending || s.lists.IsReady(t) ==> r.lists.IsReady(t)
  {
    hide Settled;
    ResumeAllCounts(s);
    if s.suspendCount == 1 {
      var s1 := s.(suspendCount := 0);
      var s2 := MovePending(s1);
      var s3 := if s1.lists.pending != [] then ResetNextUnblock(s2) else s2;
      ReplayOnlyReadies(s3, s3.pendedTicks);
      forall t | t in s.lists.pending || s.lists.IsReady(t)
        ensures SchedulerSteps.ResumeAll(s).lists.IsReady(t)
      {
        MovePendingReadies(s1, t);
      }
    }
  }

  // ----- Every live task is in exactly one list ------------------------------------------------------

  function One(b: bool): nat { if b then 1 else 0 }

  /** In how many of the ready lists below priority n the task is. */
  ghost function ReadyListsWith(ready: ReadyLists, t: Task, n: nat): nat
    requires n <= |ready|
  {
    if n == 0 then 0 else ReadyListsWith(ready, t, n - 1) + One(t in ready[n - 1].items)
  }

  /** In how many of the state lists the task is. */
  ghost function StateListsWith(l: TaskLists, t: Task): nat
    requires |l.ready| == PRIORITIES && |l.delay| == 2
  {
    ReadyListsWith(l.ready, t, PRIORITIES) + One(t in l.delay[0]) + One(t in l.delay[1])
    + One(t in l.suspended) + One(t in l.terminating)
  }

  lemma {:induction false} ReadyListsWithIs(l: TaskLists, t: Task, n: nat)
    requires Settled(l) && n <= PRIORITIES
    ensures ReadyListsWith(l.ready, t, n) == One(l.IsReady(t) && l.place[t].priority < n)
    decreases n
  {
    if n > 0 {
      ReadyListsWithIs(l, t, n - 1);
      assert Holds(l.place, l.ready[n - 1].items, InReady(n - 1));
    }
  }

  lemma InExactlyOneList(l: TaskLists, t: Task)
    requires Settled(l)
    ensures StateListsWith(l, t) == One(t in l.place)
  {
    ReadyListsWithIs(l, t, PRIORITIES);
    assert Holds(l.place, l.delay[0], InDelay(0)) && Holds(l.place, l.delay[1], InDelay(1));
    assert Holds(l.place, l.suspended, InSuspended) && Holds(l.place, l.terminating, InTerminating);
    if t in l.place { assert PlaceInRange(l.place[t]) && l.place[t] != Nowhere; }
  }

  /** Over every run each live task is in exactly one of the ready, delayed, overflow, suspended
      and termination lists and any other in none, the ready ones in the list of their priority,
      and the number of tasks is the total length of the lists. */
  lemma RunAccountsForEveryTask(s: Sched, es: seq<Event>)
    requires Legal(s, es)
    ensures var r := Run(s, es);
            && |r.lists.ready| == PRIORITIES && |r.lists.delay| == 2
            && (forall t :: StateListsWith(r.lists, t) == One(t in r.lists.place))
            && (forall t :: r.lists.IsReady(t) ==>
                  r.lists.place[t].priority == r.lists.priority[t] <= r.lists.topReady)
            && r.lists.taskCount == ReadyTotal(r.lists.ready, PRIORITIES) + |r.Delayed()| + |r.Overflow()|
                                    + |r.lists.suspended| + |r.lists.terminating|
            && r.lists.reapable == |r.lists.terminating|
  {
    var r := Run(s, es);
    ListsAccountForEveryTask(r);
    forall t
      ensures StateListsWith(r.lists, t) == One(t in r.lists.place)
    {
      InExactlyOneList(r.lists, t);
    }
    forall t | r.lists.IsReady(t)
      ensures r.lists.place[t].priority == r.lists.priority[t] <= r.lists.topReady
    {
      var p := r.lists.place[t].priority;
      assert Holds(r.lists.place, r.lists.ready[p].items, InReady(p)) && t in r.lists.ready[p].items;
    }
  }
}
