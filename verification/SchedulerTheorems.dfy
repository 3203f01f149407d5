/** What holds over every run of the scheduler: a blocked task wakes exactly at its deadline,
    no tick is lost, pended ticks replay as direct ones, and the lists always account for
    every live task. */
module SchedulerTheorems {
  import opened Sequences
  import opened Tasks
  import opened TickTime
  import opened SchedulerState
  import opened SchedulerSteps
  import opened SchedulerTime
  import opened SchedulerRuns
  import Rings

  ghost predicate Legal(s: Sched, es: seq<Event>)
    decreases |es|
  {
    Inv(s) && (es != [] ==> Enabled(s, es[0]) && Legal(Step(s, es[0]), es[1..]))
  }

  ghost function Run(s: Sched, es: seq<Event>): (r: Sched)
    requires Legal(s, es)
    ensures Inv(r)
    decreases |es|
  {
    if es == [] then s else Run(Step(s, es[0]), es[1..])
  }

  lemma {:induction false} RunKeepsTimely(s: Sched, es: seq<Event>)
    requires Timely(s) && Legal(s, es)
    ensures Timely(Run(s, es))
    decreases |es|
  {
    if es != [] {
      StepKeepsTimely(s, es[0]);
      RunKeepsTimely(Step(s, es[0]), es[1..]);
    }
  }

  // ----- Exact wake-up -------------------------------------------------------------------

  /** t is blocked until `due` and no event has woken it. */
  ghost predicate Waiting(s: Sched, t: Task, due: int) {
    Blocked(s, t) && Due(s, t) == due && t in s.lists.event && s.lists.event[t] != PendingReady
  }

  /** The steps that take a blocked task out of its delayed list before its time. */
  predicate Touches(e: Event, t: Task) {
    e == Signal(t) || e == SignalUnordered(t) || e == Suspend(t) || e == Delete(t)
  }

  lemma SameTask(s: Sched, r: Sched, t: Task, due: int)
    requires Waiting(s, t, due)
    requires r.current == s.current && r.overflows == s.overflows
    requires t in r.lists.place && r.lists.place[t] == s.lists.place[t]
    requires t in r.lists.wake && r.lists.wake[t] == s.lists.wake[t]
    requires t in r.lists.event && r.lists.event[t] == s.lists.event[t]
    ensures Waiting(r, t, due)
  {
  }

  /** Either the deadline is still ahead and t waits for it, or it has come and t is ready. */
  ghost predicate OnTime(s: Sched, t: Task, due: int) {
    if Now(s) < due then Waiting(s, t, due) else s.lists.IsReady(t)
  }

  lemma TickOnTime(s: Sched, t: Task, due: int)
    requires Timely(s) && t in s.lists.place && OnTime(s, t, due)
    ensures Timely(TickNow(s).0) && t in TickNow(s).0.lists.place && OnTime(TickNow(s).0, t, due)
  {
    TickOnTask(s, t);
    TickKeepsTimely(s);
    DelayedIsBlocked(TickNow(s).0, t);
  }

  /** t's state item, wake time and event item are the same in both. */
  ghost predicate Same(l: TaskLists, r: TaskLists, t: Task) {
    && t in l.place && t in l.event && t in l.wake && t in r.place && t in r.event && t in r.wake
    && r.place[t] == l.place[t] && r.event[t] == l.event[t] && r.wake[t] == l.wake[t]
  }

  lemma MakeReadyOther(l: TaskLists, u: Task, t: Task)
    requires Settled(l) && u in l.place && t in l.place && u != t
    ensures Same(l, MakeReady(l, u), t)
  {
  }

  lemma AddToPendingOther(l: TaskLists, u: Task, t: Task)
    requires Settled(l) && u in l.place && t in l.place && u != t && l.event[u] != PendingReady
    ensures Same(l, AddToPending(l, u), t)
  {
  }

  lemma ChangePriorityOther(l: TaskLists, u: Task, p: int, t: Task)
    requires Settled(l) && u in l.place && t in l.place && 0 <= p < PRIORITIES && !l.IsReady(t)
    ensures Same(l, ChangePriority(l, u, p), t)
  {
  }

  lemma DetachOther(l: TaskLists, u: Task, t: Task)
    requires Settled(l) && u in l.place && t in l.place && t != u
    ensures var k := ClearEvent(Unlist(l, u), u); Detached(k, u) && Same(l, k, t)
  {
    hide Core;
    assert t in l.event && t in l.wake by { SettledKeys(l, t); }
  }

  lemma SettledKeys(l: TaskLists, t: Task)
    requires Settled(l) && t in l.place
    ensures t in l.event && t in l.wake && t in l.priority
  {
  }

  lemma LeaveOther(l: TaskLists, u: Task, t: Task)
    requires Settled(l) && u in l.place && t in l.place && t != u
    ensures var k := ClearEvent(Unlist(l, u), u);
            Same(l, AddToSuspended(k, u), t) && Same(l, AddToTerminating(k, u), t) && Same(l, FreeTcb(k, u), t)
  {
    hide Settled, Core, Detached, Unlist, ClearEvent, AddToSuspended, AddToTerminating, FreeTcb;
    DetachOther(l, u, t);
  }

  lemma CreateOther(l: TaskLists, u: Task, p: int, t: Task)
    requires Settled(l) && u !in l.place && 0 <= p < PRIORITIES && t in l.place
    ensures Same(l, AddToReady(NewTcb(l, u, p), u), t)
  {
  }

  lemma DelayOther(s: Sched, d: Tick, indefinitely: bool, t: Task)
    requires Inv(s) && t in s.lists.place && t != s.running
    ensures var r := DelayRunning(s, d, indefinitely);
            r.current == s.current && r.overflows == s.overflows && r.tick == s.tick && Same(s.lists, r.lists, t)
  {
    var l := Unlist(s.lists, s.running);
    assert Same(s.lists, l, t);
    hide Core;
  }

  lemma {:induction false} MovePendingOnTask(s: Sched, t: Task)
    requires Inv(s) && t in s.lists.place && t in s.lists.event && s.lists.event[t] != PendingReady && t in s.lists.wake
    ensures Same(s.lists, MovePending(s).lists, t)
    decreases |s.lists.pending|
  {
    if s.lists.pending != [] {
      var u := s.lists.pending[0];
      PendingIsLive(s.lists, u);
      MakeReadyOther(s.lists, u, t);
      MovePendingOnTask(MoveHead(s), t);
    }
  }

  lemma OnTimeScalars(s: Sched, r: Sched, t: Task, due: int)
    requires OnTime(s, t, due)
    requires r == s.(yieldPending := r.yieldPending, suspendCount := r.suspendCount, pendedTicks := r.pendedTicks)
    ensures OnTime(r, t, due) && (t in s.lists.place ==> t in r.lists.place)
  {
  }

  lemma {:induction false} ReplayOnTime(s: Sched, n: nat, t: Task, due: int)
    requires Timely(s) && t in s.lists.place && OnTime(s, t, due)
    ensures OnTime(Replay(s, n), t, due)
    decreases n
  {
    hide Settled, Ordered, NoneOverdue, NextOk, OnTime;
    if n > 0 {
      TickOnTime(s, t, due);
      var (s1, wanted) := TickNow(s);
      var s2 := s1.(yieldPending := s1.yieldPending || wanted);
      TimelyScalars(s1, s2);
      OnTimeScalars(s1, s2, t, due);
      ReplayOnTime(s2, n - 1, t, due);
    }
  }

  lemma ResumeAllOnTime(s: Sched, t: Task, due: int)
    requires Timely(s) && s.suspendCount > 0 && Waiting(s, t, due)
    ensures OnTime(SchedulerSteps.ResumeAll(s), t, due)
  {
    hide Settled, Ordered, NoneOverdue, NextOk;
    WaitingIsAhead(s, t, due);
    var s1 := s.(suspendCount := s.suspendCount - 1);
    TimelyScalars(s, s1);
    if s1.suspendCount == 0 {
      var s3 := Gathered(s1);
      GatheredOnTime(s1, t, due);
      ReplayAndResume(s, s3, t, due);
    }
  }

  /** xTaskResumeAll between its two loops. */
  function Gathered(s: Sched): (r: Sched)
    requires Inv(s)
    ensures Inv(r)
  {
    var s2 := MovePending(s);
    if s.lists.pending != [] then ResetNextUnblock(s2) else s2
  }

  lemma GatheredOnTime(s: Sched, t: Task, due: int)
    requires Timely(s) && Waiting(s, t, due)
    ensures Timely(Gathered(s)) && Waiting(Gathered(s), t, due) && Now(Gathered(s)) == Now(s)
  {
    MovePendingOnTask(s, t);
    hide Settled, Ordered, NoneOverdue, NextOk;
    MovePendingTimely(s);
    ResetTimely(MovePending(s));
    SameTask(s, Gathered(s), t, due);
  }

  lemma ReplayAndResume(s: Sched, s3: Sched, t: Task, due: int)
    requires Inv(s) && s.suspendCount == 1 && Timely(s3) && Waiting(s3, t, due) && Now(s3) < due
    requires SchedulerSteps.ResumeAll(s) == Replay(s3, s3.pendedTicks).(pendedTicks := 0)
    ensures OnTime(SchedulerSteps.ResumeAll(s), t, due)
  {
    ReplayOnTime(s3, s3.pendedTicks, t, due);
    OnTimeScalars(Replay(s3, s3.pendedTicks), SchedulerSteps.ResumeAll(s), t, due);
  }

  lemma WaitingIsAhead(s: Sched, t: Task, due: int)
    requires Timely(s) && Waiting(s, t, due)
    ensures Now(s) < due
  {
    DelayedIsBlocked(s, t);
  }

  lemma StepKeepsClock(s: Sched, e: Event)
    requires Inv(s) && Enabled(s, e) && e != ResumeAll && (e == Tick ==> s.suspendCount > 0)
    ensures var r := Step(s, e); r.current == s.current && r.overflows == s.overflows && r.tick == s.tick
  {
    hide Settled;
  }

  /** A step that processes no tick leaves a task that it does not touch where it is. */
  lemma StepOnOther(s: Sched, e: Event, t: Task)
    requires Inv(s) && Enabled(s, e) && !Touches(e, t) && e != ResumeAll && (e == Tick ==> s.suspendCount > 0)
    requires t in s.lists.place && s.lists.place[t].InDelay? && t in s.lists.event && t in s.lists.wake
    ensures Same(s.lists, Step(s, e).lists, t)
  {
    hide Settled, Same;
    match e
    case Delay(d) => DelayOther(s, d, false, t);
    case Block(q, d) => BlockOther(s, q, d, t);
    case Suspend(u) => LeaveOther(s.lists, u, t);
    case Delete(u) => LeaveOther(s.lists, u, t);
    case Reap => ReapOther(s, t);
    case Create(u, p) => CreateOther(s.lists, u, p, t);
    case Tick => SameLists(s.lists, s.lists, t);
    case SuspendAll => SameLists(s.lists, s.lists, t);
    case Switch => SameLists(s.lists, Step(s, e).lists, t);
    case _ => WakingOnOther(s, e, t);
  }

  lemma WakingOnOther(s: Sched, e: Event, t: Task)
    requires Inv(s) && Enabled(s, e) && !Touches(e, t)
    requires e.Signal? || e.SignalUnordered? || e.Resume? || e.ResumeFromIsr? || e.Reprioritise?
    requires t in s.lists.place && s.lists.place[t].InDelay?
    ensures Same(s.lists, Step(s, e).lists, t)
  {
    hide Settled, Same;
    match e
    case Reprioritise(u, p) => ChangePriorityOther(s.lists, u, p, t);
    case Signal(u) => SignalOther(s, u, t);
    case SignalUnordered(u) => MakeReadyOther(s.lists, u, t);
    case Resume(u) => ResumeOther(s, u, t);
    case ResumeFromIsr(u) => ResumeIsrOther(s, u, t);
  }

  lemma SameLists(l: TaskLists, r: TaskLists, t: Task)
    requires t in l.place && t in l.event && t in l.wake
    requires r.place == l.place && r.event == l.event && r.wake == l.wake
    ensures Same(l, r, t)
  {
  }

  lemma BlockOther(s: Sched, q: nat, d: Tick, t: Task)
    requires Inv(s) && t in s.lists.place && t != s.running && s.lists.event[s.running] == NoEvent
    ensures var r := PlaceOnEventList(s, q, d);
            r.current == s.current && r.overflows == s.overflows && r.tick == s.tick && Same(s.lists, r.lists, t)
  {
    var s1 := s.(lists := EnterEventList(s.lists, s.running, q));
    assert Same(s.lists, s1.lists, t);
    DelayOther(s1, d, true, t);
  }

  lemma SignalOther(s: Sched, u: Task, t: Task)
    requires Inv(s) && u in s.lists.place && s.lists.event[u].WaitingOn? && t in s.lists.place && u != t
    ensures Same(s.lists, SchedulerSteps.Signal(s, u).lists, t)
  {
    if s.suspendCount == 0 { MakeReadyOther(s.lists, u, t); } else { AddToPendingOther(s.lists, u, t); }
  }

  lemma ResumeOther(s: Sched, u: Task, t: Task)
    requires Inv(s) && t in s.lists.place && s.lists.place[t].InDelay?
    ensures Same(s.lists, SchedulerSteps.Resume(s, u).lists, t)
  {
    if IsSuspended(s.lists, u) { MakeReadyOther(s.lists, u, t); }
  }

  lemma ResumeIsrOther(s: Sched, u: Task, t: Task)
    requires Inv(s) && t in s.lists.place && s.lists.place[t].InDelay?
    ensures Same(s.lists, SchedulerSteps.ResumeFromIsr(s, u).lists, t)
  {
    if IsSuspended(s.lists, u) {
      if s.suspendCount == 0 { MakeReadyOther(s.lists, u, t); } else { AddToPendingOther(s.lists, u, t); }
    }
  }

  lemma ReapOther(s: Sched, t: Task)
    requires Inv(s) && s.lists.terminating != [] && s.lists.terminating[0] != s.running
    requires t in s.lists.place && s.lists.place[t].InDelay?
    ensures Same(s.lists, SchedulerSteps.Reap(s).lists, t)
  {
    assert Holds(s.lists.place, s.lists.terminating, InTerminating);
    LeaveOther(s.lists, s.lists.terminating[0], t);
  }

  /** One step of any kind that does not touch t. */
  lemma StepOnTime(s: Sched, e: Event, t: Task, due: int)
    requires Timely(s) && Enabled(s, e) && !Touches(e, t) && Waiting(s, t, due)
    ensures OnTime(Step(s, e), t, due)
  {
    hide Settled, Ordered, NoneOverdue, NextOk;
    WaitingIsAhead(s, t, due);
    if e == ResumeAll {
      ResumeAllOnTime(s, t, due);
    } else if e == Tick && s.suspendCount == 0 {
      TickOnTime(s, t, due);
    } else {
      StepOnOther(s, e, t);
      StepKeepsClock(s, e);
      SameTask(s, Step(s, e), t, due);
    }
  }

  /** Along the run t waits for as long as `due` is ahead, and is ready in the first state in
      which it no longer is. */
  ghost predicate WakesOnTime(s: Sched, t: Task, due: int, es: seq<Event>)
    requires Legal(s, es)
    decreases |es|
  {
    if Now(s) >= due then s.lists.IsReady(t)
    else Waiting(s, t, due) && (es != [] ==> WakesOnTime(Step(s, es[0]), t, due, es[1..]))
  }

  /** Over any run that does not touch it, a blocked task wakes exactly on time. */
  lemma {:induction false} WokenExactlyOnTime(s: Sched, t: Task, due: int, es: seq<Event>)
    requires Timely(s) && OnTime(s, t, due) && Legal(s, es)
    requires forall e :: e in es ==> !Touches(e, t)
    ensures WakesOnTime(s, t, due, es)
    decreases |es|
  {
    if Now(s) < due && es != [] {
      assert es[0] in es;
      StepOnTime(s, es[0], t, due);
      StepKeepsTimely(s, es[0]);
      WokenExactlyOnTime(Step(s, es[0]), t, due, es[1..]);
    }
  }

  /** The whole story of one delay: the running task delays for d ticks at time T, waits, and
      is ready again after the step that processes tick T + d, however often the tick wraps. */
  lemma DelayWakesExactlyOnTime(s: Sched, d: Tick, es: seq<Event>)
    requires Timely(s) && s.lists.IsReady(s.running) && d > 0
    requires s.running in s.lists.event && s.lists.event[s.running] == NoEvent
    requires Legal(Step(s, Delay(d)), es) && forall e :: e in es ==> !Touches(e, s.running)
    ensures WakesOnTime(Step(s, Delay(d)), s.running, Now(s) + d, es)
  {
    hide Step, Settled, Ordered, NoneOverdue, NextOk, Legal, OnTime;
    DelayStarts(s, d);
    WokenExactlyOnTime(Step(s, Delay(d)), s.running, Now(s) + d, es);
  }

  lemma DelayStarts(s: Sched, d: Tick)
    requires Timely(s) && s.lists.IsReady(s.running) && d > 0
    requires s.running in s.lists.event && s.lists.event[s.running] == NoEvent
    ensures Timely(Step(s, Delay(d))) && OnTime(Step(s, Delay(d)), s.running, Now(s) + d)
  {
    hide Settled, Ordered, NoneOverdue, NextOk;
    DelayTimely(s, d, false);
    DelaySetsDeadline(s, d, false);
  }

  lemma BlockStarts(s: Sched, q: nat, d: Tick)
    requires Timely(s) && Enabled(s, Block(q, d)) && d < MAX_DELAY
    ensures Timely(Step(s, Block(q, d))) && OnTime(Step(s, Block(q, d)), s.running, Now(s) + d)
  {
    hide Settled, Ordered, NoneOverdue, NextOk;
    var s1 := s.(lists := EnterEventList(s.lists, s.running, q));
    EnterTimely(s, s1);
    DelayTimely(s1, d, true);
    DelaySetsDeadline(s1, d, true);
  }

  /** The same for a wait on an object with a finite block time that nobody signals. */
  lemma BlockTimesOutExactlyOnTime(s: Sched, q: nat, d: Tick, es: seq<Event>)
    requires Timely(s) && Enabled(s, Block(q, d)) && d < MAX_DELAY
    requires Legal(Step(s, Block(q, d)), es) && forall e :: e in es ==> !Touches(e, s.running)
    ensures WakesOnTime(Step(s, Block(q, d)), s.running, Now(s) + d, es)
  {
    hide Step, Settled, Ordered, NoneOverdue, NextOk, Legal, OnTime;
    BlockStarts(s, q, d);
    WokenExactlyOnTime(Step(s, Block(q, d)), s.running, Now(s) + d, es);
  }

  // ----- No tick is lost --------------------------------------------------------------------

  function TickCount(es: seq<Event>): nat {
    if es == [] then 0 else (if es[0] == Tick then 1 else 0) + TickCount(es[1..])
  }

  lemma {:induction false} ReplayCounts(s: Sched, n: nat)
    requires Inv(s)
    ensures Now(Replay(s, n)) == Now(s) + n
    decreases n
  {
    hide Settled;
    if n > 0 {
      var (s1, wanted) := TickNow(s);
      assert Now(s1) == Now(s) + 1;
      ReplayCounts(s1.(yieldPending := s1.yieldPending || wanted), n - 1);
    }
  }

  lemma ResumeAllCounts(s: Sched)
    requires Inv(s) && s.suspendCount > 0
    ensures var r := SchedulerSteps.ResumeAll(s); Now(r) + r.pendedTicks == Now(s) + s.pendedTicks
  {
    hide Settled;
    var s1 := s.(suspendCount := s.suspendCount - 1);
    var s2 := MovePending(s1);
    var s3 := if s1.lists.pending != [] then ResetNextUnblock(s2) else s2;
    ReplayCounts(s3, s3.pendedTicks);
  }

  lemma StepCounts(s: Sched, e: Event)
    requires Inv(s) && Enabled(s, e)
    ensures var r := Step(s, e);
            Now(r) + r.pendedTicks == Now(s) + s.pendedTicks + if e == Tick then 1 else 0
  {
    hide Settled;
    if e == ResumeAll {
      ResumeAllCounts(s);
    } else if e != Tick || s.suspendCount > 0 {
      StepKeepsClock(s, e);
      PendedOnlyByTick(s, e);
    }
  }

  lemma PendedOnlyByTick(s: Sched, e: Event)
    requires Inv(s) && Enabled(s, e) && e != ResumeAll && (e == Tick ==> s.suspendCount > 0)
    ensures Step(s, e).pendedTicks == s.pendedTicks + if e == Tick then 1 else 0
  {
    hide Settled;
  }

  /** At any nesting of suspension, the processed ticks plus the pended ones are exactly the
      tick interrupts taken. */
  lemma {:induction false} NoTickIsLost(s: Sched, es: seq<Event>)
    requires Legal(s, es)
    ensures Now(Run(s, es)) + Run(s, es).pendedTicks == Now(s) + s.pendedTicks + TickCount(es)
    decreases |es|
  {
    if es != [] {
      StepCounts(s, es[0]);
      NoTickIsLost(Step(s, es[0]), es[1..]);
    }
  }

  // ----- Pended ticks replay as direct ones ---------------------------------------------------

  /** n ticks taken with the scheduler running. */
  function DirectTicks(s: Sched, n: nat): (r: Sched)
    requires Inv(s)
    ensures Inv(r)
    decreases n
  {
    if n == 0 then s else DirectTicks(TickNow(s).0, n - 1)
  }

  /** n tick interrupts, whatever the suspension count. */
  function TickInterrupts(s: Sched, n: nat): (r: Sched)
    requires Inv(s)
    ensures Inv(r)
    decreases n
  {
    if n == 0 then s else TickInterrupts(IncrementTick(s).0, n - 1)
  }

  lemma {:induction false} SuspendedTicksPend(s: Sched, n: nat)
    requires Inv(s) && s.suspendCount > 0
    ensures TickInterrupts(s, n) == s.(pendedTicks := s.pendedTicks + n)
    decreases n
  {
    if n > 0 { SuspendedTicksPend(IncrementTick(s).0, n - 1); }
  }

  /** The bookkeeping fields that a tick does not look at to decide what to unblock. */
  function Book(s: Sched, y: bool, k: nat): Sched {
    s.(yieldPending := y, pendedTicks := k)
  }

  lemma {:induction false} UnblockIgnoresBook(s: Sched, y: bool, k: nat)
    requires Inv(s)
    ensures Inv(Book(s, y, k)) && UnblockDue(Book(s, y, k)).0 == Book(UnblockDue(s).0, y, k)
    decreases |s.Delayed()|
  {
    hide Settled;
    if s.Delayed() != [] {
      var t := s.Delayed()[0];
      MakeReadyFromDelay(s.lists, t, s.current);
      if s.tick >= s.lists.wake[t] {
        UnblockIgnoresBook(s.(lists := MakeReady(s.lists, t)), y, k);
      }
    }
  }

  lemma TickIgnoresBook(s: Sched, y: bool, k: nat)
    requires Inv(s)
    ensures Inv(Book(s, y, k)) && TickNow(Book(s, y, k)).0 == Book(TickNow(s).0, y, k)
  {
    hide Settled;
    var s2 := CountTick(s);
    UnblockIgnoresBook(s2, y, k);
    TickIsCountThenUnblock(s);
    TickIsCountThenUnblock(Book(s, y, k));
    CountIgnoresBook(s, y, k);
    hide TickNow, CountTick, UnblockDue;
  }

  lemma CountIgnoresBook(s: Sched, y: bool, k: nat)
    requires Inv(s)
    ensures Inv(Book(s, y, k)) && CountTick(Book(s, y, k)) == Book(CountTick(s), y, k)
  {
    hide Settled;
  }

  lemma TickIsCountThenUnblock(s: Sched)
    requires Inv(s)
    ensures TickNow(s).0 == var s2 := CountTick(s); if s2.tick >= s2.nextUnblock then UnblockDue(s2).0 else s2
  {
    hide Settled;
  }

  lemma {:induction false} ReplayIsDirect(s: Sched, y: bool, k: nat, n: nat)
    requires Inv(s)
    ensures Inv(Book(s, y, k))
    ensures var r := Replay(Book(s, y, k), n); r == Book(DirectTicks(s, n), r.yieldPending, k)
    decreases n
  {
    hide Settled;
    if n > 0 {
      TickIgnoresBook(s, y, k);
      var (s1, wanted) := TickNow(Book(s, y, k));
      ReplayIsDirect(TickNow(s).0, s1.yieldPending || wanted, k, n - 1);
    }
  }

  /** Suspending the scheduler, taking n tick interrupts and resuming leaves the same clock and
      the same lists as n ticks with the scheduler running; only xYieldPending may differ. */
  lemma PendedTicksReplayAsDirect(s: Sched, n: nat)
    requires Inv(s) && s.suspendCount == 0 && s.pendedTicks == 0 && s.lists.pending == []
    ensures var s1 := TickInterrupts(SchedulerSteps.SuspendAll(s), n);
            && s1.suspendCount == 1
            && var r := SchedulerSteps.ResumeAll(s1);
               r == DirectTicks(s, n).(yieldPending := r.yieldPending)
  {
    hide Settled;
    SuspendedTicksPend(SchedulerSteps.SuspendAll(s), n);
    ReplayIsDirect(s, s.yieldPending, n, n);
    DirectTicksKeepBook(s, n);
    assert Book(s, s.yieldPending, n) == s.(pendedTicks := n);
  }

  lemma {:induction false} DirectTicksKeepBook(s: Sched, n: nat)
    requires Inv(s)
    ensures DirectTicks(s, n).pendedTicks == s.pendedTicks && DirectTicks(s, n).suspendCount == s.suspendCount
    decreases n
  {
    hide Settled;
    if n > 0 { DirectTicksKeepBook(TickNow(s).0, n - 1); }
  }

  // ----- The lists account for every live task --------------------------------------------------

  ghost function TasksAt(place: map<Task, Place>, where: Place): set<Task> {
    set t | t in place && place[t] == where
  }

  lemma {:induction false} DistinctSize(q: seq<Task>)
    requires Distinct(q)
    ensures |set t | t in q| == |q|
  {
    if q != [] {
      var head, tail := q[0], set t | t in q[1..];
      DistinctSize(q[1..]);
      assert (set t | t in q) == {head} + tail;
      assert head !in tail;
    }
  }

  lemma HoldsSize(place: map<Task, Place>, q: seq<Task>, where: Place)
    requires Holds(place, q, where)
    ensures |q| == |TasksAt(place, where)|
  {
    DistinctSize(q);
    var held := set t | t in q;
    assert forall t :: t in held <==> t in q;
    assert forall t :: t in q <==> t in TasksAt(place, where);
    assert held == TasksAt(place, where);
  }

  /** The number of tasks in the ready lists below priority n. */
  ghost function ReadyTotal(ready: ReadyLists, n: nat): nat
    requires n <= |ready|
  {
    if n == 0 then 0 else ReadyTotal(ready, n - 1) + |ready[n - 1].items|
  }

  ghost function ReadyTasks(place: map<Task, Place>, n: nat): set<Task> {
    set t | t in place && place[t].InReady? && 0 <= place[t].priority < n
  }

  lemma {:induction false} ReadyTotalSize(place: map<Task, Place>, ready: ReadyLists, n: nat)
    requires ReadyHold(place, ready) && n <= PRIORITIES
    ensures ReadyTotal(ready, n) == |ReadyTasks(place, n)|
  {
    if n > 0 {
      ReadyTotalSize(place, ready, n - 1);
      HoldsSize(place, ready[n - 1].items, InReady(n - 1));
      assert ReadyTasks(place, n) == ReadyTasks(place, n - 1) + TasksAt(place, InReady(n - 1));
      assert ReadyTasks(place, n - 1) !! TasksAt(place, InReady(n - 1));
    }
  }

  /** uxCurrentNumberOfTasks is the total length of the ready, delayed, overflow, suspended
      and termination lists, so that no live task is in two of them or in none. */
  lemma ListsAccountForEveryTask(s: Sched)
    requires Inv(s)
    ensures s.lists.taskCount ==
              ReadyTotal(s.lists.ready, PRIORITIES) + |s.Delayed()| + |s.Overflow()|
              + |s.lists.suspended| + |s.lists.terminating|
  {
    var l := s.lists;
    var p := l.place;
    ReadyTotalSize(p, l.ready, PRIORITIES);
    HoldsSize(p, l.delay[0], InDelay(0));
    HoldsSize(p, l.delay[1], InDelay(1));
    HoldsSize(p, l.suspended, InSuspended);
    HoldsSize(p, l.terminating, InTerminating);
    PlacesPartition(s);
  }

  lemma PlacesPartition(s: Sched)
    requires Inv(s)
    ensures var p := s.lists.place;
            |p| == |ReadyTasks(p, PRIORITIES)| + |TasksAt(p, InDelay(0))| + |TasksAt(p, InDelay(1))|
                   + |TasksAt(p, InSuspended)| + |TasksAt(p, InTerminating)|
  {
    var p := s.lists.place;
    EveryPlace(s);
    hide Inv;
    var r, d0, d1 := ReadyTasks(p, PRIORITIES), TasksAt(p, InDelay(0)), TasksAt(p, InDelay(1));
    var u, x := TasksAt(p, InSuspended), TasksAt(p, InTerminating);
    PlacesApart(p);
    hide TasksAt, ReadyTasks;
    FiveParts(p.Keys, r, d0, d1, u, x);
    assert |p| == |p.Keys|;
  }

  lemma PlacesApart(p: map<Task, Place>)
    ensures ReadyTasks(p, PRIORITIES) !! TasksAt(p, InDelay(0)) !! TasksAt(p, InDelay(1)) !! TasksAt(p, InSuspended)
            !! TasksAt(p, InTerminating)
  {
  }

  lemma EveryPlace(s: Sched)
    requires Inv(s)
    ensures var p := s.lists.place;
            p.Keys == ReadyTasks(p, PRIORITIES) + TasksAt(p, InDelay(0)) + TasksAt(p, InDelay(1))
                      + TasksAt(p, InSuspended) + TasksAt(p, InTerminating)
  {
    var p := s.lists.place;
    assert forall t :: t in p ==> PlaceInRange(p[t]) && p[t] != Nowhere;
    hide Inv, Settled;
  }

  lemma FiveParts(all: set<Task>, a: set<Task>, b: set<Task>, c: set<Task>, d: set<Task>, e: set<Task>)
    requires all == a + b + c + d + e
    requires a !! b !! c !! d !! e
    ensures |all| == |a| + |b| + |c| + |d| + |e|
  {
    assert |a + b| == |a| + |b|;
    assert |a + b + c| == |a + b| + |c|;
    assert |a + b + c + d| == |a + b + c| + |d|;
    assert |a + b + c + d + e| == |a + b + c + d| + |e|;
  }
}
