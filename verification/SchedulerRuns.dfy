/** Runs of the scheduler: every interleaving of the steps of module SchedulerSteps, and the
    properties that hold over all of them. */
module SchedulerRuns {
  import opened Sequences
  import opened Tasks
  import opened TickTime
  import opened SchedulerState
  import opened SchedulerSteps
  import opened SchedulerTime

  datatype Event =
    | Tick
    | SuspendAll
    | ResumeAll
    | Switch
    | Delay(ticks: Tick)
    | Block(object: nat, ticks: Tick)
    | Signal(t: Task)
    | SignalUnordered(t: Task)
    | Suspend(t: Task)
    | Resume(t: Task)
    | ResumeFromIsr(t: Task)
    | Create(t: Task, p: int)
    | Delete(t: Task)
    | Reap
    | Reprioritise(t: Task, p: int)

  /** What the callers of the source guarantee: only the running task delays or blocks, and
      for at least a tick; the running task is not suspended or deleted under a suspended
      scheduler; and no operation names a task that has been deleted. */
  ghost predicate Enabled(s: Sched, e: Event) {
    match e
    case Tick => true
    case SuspendAll => true
    case ResumeAll => s.suspendCount > 0
    case Switch => s.suspendCount == 0 ==> SomeReady(s.lists)
    case Delay(d) => s.lists.IsReady(s.running) && d > 0
    case Block(q, d) => s.lists.IsReady(s.running) && d > 0 && s.running in s.lists.event && s.lists.event[s.running] == NoEvent
    case Signal(t) => t in s.lists.place && t in s.lists.event && s.lists.event[t].WaitingOn?
    case SignalUnordered(t) => t in s.lists.place && t in s.lists.event && s.lists.event[t].WaitingOn?
    case Suspend(t) => t in s.lists.place && s.lists.place[t] != InTerminating && (t == s.running ==> s.suspendCount == 0)
    case Resume(t) => true
    case ResumeFromIsr(t) => true
    case Create(t, p) => t !in s.lists.place && 0 <= p < PRIORITIES
    case Delete(t) => t in s.lists.place && s.lists.place[t] != InTerminating && (t == s.running ==> s.suspendCount == 0)
    case Reap => s.lists.terminating != [] && s.lists.terminating[0] != s.running
    case Reprioritise(t, p) => t in s.lists.place && 0 <= p < PRIORITIES
  }

  ghost function Step(s: Sched, e: Event): (r: Sched)
    requires Inv(s) && Enabled(s, e)
    ensures Inv(r)
  {
    match e
    case Tick => IncrementTick(s).0
    case SuspendAll => SchedulerSteps.SuspendAll(s)
    case ResumeAll => SchedulerSteps.ResumeAll(s)
    case Switch => SwitchContext(s)
    case Delay(d) => DelayRunning(s, d, false)
    case Block(q, d) => PlaceOnEventList(s, q, d)
    case Signal(t) => SchedulerSteps.Signal(s, t)
    case SignalUnordered(t) => SchedulerSteps.SignalUnordered(s, t)
    case Suspend(t) => SchedulerSteps.Suspend(s, t)
    case Resume(t) => SchedulerSteps.Resume(s, t)
    case ResumeFromIsr(t) => SchedulerSteps.ResumeFromIsr(s, t)
    case Create(t, p) => SchedulerSteps.Create(s, t, p)
    case Delete(t) => SchedulerSteps.Delete(s, t)
    case Reap => SchedulerSteps.Reap(s)
    case Reprioritise(t, p) => s.(lists := ChangePriority(s.lists, t, p))
  }

  // ----- Timeliness is kept by every step ------------------------------------------------

  /** The delayed lists of l' come from those of l by taking tasks out, or not at all. */
  ghost predicate Thinner(l: TaskLists, l': TaskLists, b: int, t: Task)
    requires |l.delay| == 2 && |l'.delay| == 2 && 0 <= b < 2
  {
    && (l'.delay[b] == l.delay[b] || l'.delay[b] == Without(l.delay[b], t))
    && (forall x :: x in l'.delay[b] ==> x in l.delay[b] && WakeOf(l'.wake, x) == WakeOf(l.wake, x))
  }

  lemma ThinnerKeepsTimely(s: Sched, r: Sched, t: Task)
    requires Timely(s) && Inv(r)
    requires r == s.(lists := r.lists, yieldPending := r.yieldPending, nextUnblock := r.nextUnblock,
                     running := r.running, suspendCount := r.suspendCount, pendedTicks := r.pendedTicks)
    requires Thinner(s.lists, r.lists, s.current, t) && Thinner(s.lists, r.lists, 1 - s.current, t)
    requires r.nextUnblock == s.nextUnblock || NextOk(r)
    ensures Timely(r)
  {
    hide Settled, Ordered;
    ThinnerOrdered(s, r, s.current, t);
    ThinnerOrdered(s, r, 1 - s.current, t);
  }

  lemma ThinnerOrdered(s: Sched, r: Sched, b: int, t: Task)
    requires Inv(s) && Inv(r) && 0 <= b < 2 && Thinner(s.lists, r.lists, b, t)
    requires Ordered(s.lists.wake, s.lists.delay[b])
    ensures Ordered(r.lists.wake, r.lists.delay[b])
    ensures var q, q' := s.lists.delay[b], r.lists.delay[b];
            q' != [] ==> q != [] && WakeOf(s.lists.wake, q[0]) <= WakeOf(r.lists.wake, q'[0])
  {
    OrderedWithout(s.lists.wake, s.lists.delay[b], t);
    OrderedSame(s.lists.wake, r.lists.wake, r.lists.delay[b]);
    if r.lists.delay[b] != [] { assert r.lists.delay[b][0] in r.lists.delay[b]; }
  }

  lemma UnlistThins(l: TaskLists, t: Task, b: int)
    requires Settled(l) && t in l.place && 0 <= b < 2
    ensures var q := Unlist(l, t).delay[b]; q == l.delay[b] || q == Without(l.delay[b], t)
    ensures forall x :: x in Unlist(l, t).delay[b] ==> x in l.delay[b] && x != t
  {
    assert Holds(l.place, l.delay[b], InDelay(b));
    var r := Unlist(l, t);
    assert Holds(r.place, r.delay[b], InDelay(b));
  }

  lemma MakeReadyThins(l: TaskLists, t: Task, b: int)
    requires Settled(l) && t in l.place && 0 <= b < 2
    ensures Thinner(l, MakeReady(l, t), b, t)
  {
    UnlistThins(l, t, b);
  }

  lemma SuspendThins(l: TaskLists, t: Task, b: int)
    requires Settled(l) && t in l.place && 0 <= b < 2
    ensures Thinner(l, AddToSuspended(ClearEvent(Unlist(l, t), t), t), b, t)
    ensures Thinner(l, AddToTerminating(ClearEvent(Unlist(l, t), t), t), b, t)
  {
    UnlistThins(l, t, b);
    hide Core;
  }

  lemma DetachThins(l: TaskLists, t: Task, b: int)
    requires Settled(l) && t in l.place && 0 <= b < 2
    ensures var k := ClearEvent(Unlist(l, t), t);
            && Detached(k, t) && k.wake == l.wake && |l.delay| == |k.delay| == 2
            && (k.delay[b] == l.delay[b] || k.delay[b] == Without(l.delay[b], t))
            && forall x :: x in k.delay[b] ==> x in l.delay[b] && x != t
  {
    UnlistThins(l, t, b);
    hide Settled, Holds, ReadyHold, Unlist, ClearEvent;
  }

  lemma FreeThins(l: TaskLists, t: Task, b: int)
    requires Settled(l) && t in l.place && 0 <= b < 2
    ensures Thinner(l, FreeTcb(ClearEvent(Unlist(l, t), t), t), b, t)
  {
    hide Settled, Core, Detached, Unlist, ClearEvent, FreeTcb;
    DetachThins(l, t, b);
  }

  lemma ChangePriorityThins(l: TaskLists, t: Task, p: int, b: int)
    requires Settled(l) && t in l.place && 0 <= p < PRIORITIES && 0 <= b < 2
    ensures Thinner(l, ChangePriority(l, t, p), b, t)
  {
    UnlistThins(l, t, b);
  }

  lemma ResetIsOk(s: Sched)
    requires Inv(s)
    ensures NextOk(ResetNextUnblock(s))
  {
  }

  lemma ResetTimely(s: Sched)
    requires Timely(s)
    ensures Timely(ResetNextUnblock(s))
  {
    ResetIsOk(s);
  }

  lemma MakeReadyTimely(s: Sched, t: Task, y: bool)
    requires Timely(s) && t in s.lists.place
    ensures Timely(s.(lists := MakeReady(s.lists, t), yieldPending := y))
  {
    MakeReadyThins(s.lists, t, s.current);
    MakeReadyThins(s.lists, t, 1 - s.current);
    ThinnerKeepsTimely(s, s.(lists := MakeReady(s.lists, t), yieldPending := y), t);
  }

  lemma {:induction false} MovePendingTimely(s: Sched)
    requires Timely(s)
    ensures Timely(MovePending(s))
    decreases |s.lists.pending|
  {
    hide Settled, Ordered, NoneOverdue, NextOk;
    if s.lists.pending != [] {
      var s1 := MoveHead(s);
      MakeReadyTimely(s, s.lists.pending[0], s1.yieldPending);
      MovePendingTimely(s1);
    }
  }

  /** The bookkeeping fields do not bear on timeliness. */
  lemma TimelyScalars(s: Sched, r: Sched)
    requires Timely(s)
    requires r == s.(yieldPending := r.yieldPending, suspendCount := r.suspendCount, pendedTicks := r.pendedTicks)
    ensures Timely(r)
  {
  }

  lemma {:induction false} ReplayTimely(s: Sched, n: nat)
    requires Timely(s)
    ensures Timely(Replay(s, n))
    decreases n
  {
    hide Settled, Ordered, NoneOverdue, NextOk;
    if n > 0 {
      TickKeepsTimely(s);
      var (s1, wanted) := TickNow(s);
      TimelyScalars(s1, s1.(yieldPending := s1.yieldPending || wanted));
      ReplayTimely(s1.(yieldPending := s1.yieldPending || wanted), n - 1);
    }
  }

  lemma ResumeAllTimely(s: Sched)
    requires Timely(s) && s.suspendCount > 0
    ensures Timely(SchedulerSteps.ResumeAll(s))
  {
    hide Settled, Ordered, NoneOverdue, NextOk;
    var s1 := s.(suspendCount := s.suspendCount - 1);
    TimelyScalars(s, s1);
    if s1.suspendCount == 0 {
      MovePendingTimely(s1);
      var s2 := MovePending(s1);
      ResetTimely(s2);
      var s3 := if s1.lists.pending != [] then ResetNextUnblock(s2) else s2;
      ReplayTimely(s3, s3.pendedTicks);
      TimelyScalars(Replay(s3, s3.pendedTicks), SchedulerSteps.ResumeAll(s));
    }
  }

  lemma DelayTimely(s: Sched, d: Tick, indefinitely: bool)
    requires Timely(s) && s.lists.IsReady(s.running) && d > 0
    ensures Timely(DelayRunning(s, d, indefinitely))
  {
    hide Core, Ordered, NoneOverdue, NextOk;
    var t, value := s.running, Add(s.tick, d);
    if d == MAX_DELAY && indefinitely {
      SuspendSelfTimely(s);
    } else {
      DelayInserts(s, t, value, if value < s.tick then 1 - s.current else s.current);
    }
  }

  /** Delaying for 1 <= d < 2^32 ticks files the running task under the deadline Now + d. */
  lemma DelaySetsDeadline(s: Sched, d: Tick, indefinitely: bool)
    requires Timely(s) && d > 0 && (d < MAX_DELAY || !indefinitely)
    ensures var r := DelayRunning(s, d, indefinitely);
            Now(r) == Now(s) && Blocked(r, s.running) && Due(r, s.running) == Now(s) + d
            && r.lists.event == s.lists.event
  {
    hide Settled, Ordered, NoneOverdue, NextOk, InsertByWake, Add;
    var t, value, r := s.running, Add(s.tick, d), DelayRunning(s, d, indefinitely);
    AddWraps(s.tick, d);
    assert r.lists.wake[t] == value && r.overflows == s.overflows;
    assert r.lists.place[t] == InDelay(if value < s.tick then 1 - s.current else s.current);
  }

  lemma AddWraps(a: Tick, b: Tick)
    ensures Add(a, b) == if a + b < WRAP then a + b else a + b - WRAP
  {
  }

  lemma SuspendSelfTimely(s: Sched)
    requires Timely(s) && s.lists.IsReady(s.running)
    ensures Timely(s.(lists := AddToSuspended(Unlist(s.lists, s.running), s.running)))
  {
    UnlistReadyOnly(s.lists, s.running);
  }

  lemma UnlistReadyOnly(l: TaskLists, t: Task)
    requires Settled(l) && l.IsReady(t)
    ensures Unlist(l, t).delay == l.delay
  {
  }

  /** Filing t, which was ready, in delayed list b keeps both lists ordered. */
  lemma DelayInserts(s: Sched, t: Task, value: Tick, b: int)
    requires Timely(s) && s.lists.IsReady(t) && 0 <= b < 2
    requires b == s.current ==> value > s.tick
    ensures var l := AddToDelay(Unlist(s.lists, t), t, b, value);
            var r := s.(lists := l, nextUnblock := if b == s.current && value < s.nextUnblock then value else s.nextUnblock);
            Timely(r)
  {
    hide Settled, Ordered, InsertByWake;
    UnlistReadyOnly(s.lists, t);
    var wake := s.lists.wake[t := value];
    NewWake(s, t, value);
    var l := AddToDelay(Unlist(s.lists, t), t, b, value);
    assert l.delay == s.lists.delay[b := InsertByWake(wake, s.lists.delay[b], t)] && l.wake == wake;
    if b == s.current {
      InsertedInTime(wake, s.Delayed(), t, s.tick, s.nextUnblock);
    } else {
      OrderedInsert(wake, s.Overflow(), t);
    }
  }

  lemma InsertedInTime(wake: map<Task, int>, q: seq<Task>, t: Task, tick: Tick, next: Tick)
    requires Ordered(wake, q) && WakeOf(wake, t) > tick
    requires forall x :: x in q ==> WakeOf(wake, x) > tick
    requires q != [] ==> next <= WakeOf(wake, q[0])
    ensures var r := InsertByWake(wake, q, t);
            && r != [] && Ordered(wake, r)
            && (forall x :: x in r ==> WakeOf(wake, x) > tick)
            && (if WakeOf(wake, t) < next then WakeOf(wake, t) else next) <= WakeOf(wake, r[0])
  {
    hide WakeOf;
    OrderedInsert(wake, q, t);
  }

  lemma NewWake(s: Sched, t: Task, value: Tick)
    requires Timely(s) && s.lists.IsReady(t)
    ensures var wake := s.lists.wake[t := value];
            && Ordered(wake, s.Delayed()) && Ordered(wake, s.Overflow())
            && (forall x :: x in s.Delayed() ==> WakeOf(wake, x) == WakeOf(s.lists.wake, x) > s.tick)
            && WakeOf(wake, t) == value
  {
    DelayedIsBlocked(s, t);
    var wake := s.lists.wake[t := value];
    OrderedSame(s.lists.wake, wake, s.Delayed());
    OrderedSame(s.lists.wake, wake, s.Overflow());
  }

  lemma ListsTimely(s: Sched, r: Sched, t: Task)
    requires Timely(s) && Inv(r)
    requires r == s.(lists := r.lists, yieldPending := r.yieldPending)
    requires Thinner(s.lists, r.lists, s.current, t) && Thinner(s.lists, r.lists, 1 - s.current, t)
    ensures Timely(r) && Timely(ResetNextUnblock(r))
  {
    ThinnerKeepsTimely(s, r, t);
    ResetTimely(r);
  }

  /** Every step keeps both delayed lists in wake order, leaves nothing overdue, and keeps
      xNextTaskUnblockTime at or below the head of the current list. */
  lemma StepKeepsTimely(s: Sched, e: Event)
    requires Timely(s) && Enabled(s, e)
    ensures Timely(Step(s, e))
  {
    hide Settled, Ordered, NoneOverdue, NextOk, Thinner, ChangePriority, MakeReady;
    var r := Step(s, e);
    match e
    case Tick => if s.suspendCount == 0 { TickKeepsTimely(s); } else { TimelyScalars(s, r); }
    case SuspendAll => TimelyScalars(s, r);
    case ResumeAll => ResumeAllTimely(s);
    case Switch => SwitchTimely(s);
    case Delay(d) => DelayTimely(s, d, false);
    case Block(q, d) => BlockTimely(s, q, d);
    case Signal(t) => SignalTimely(s, t);
    case SignalUnordered(t) => MakeReadyTimely(s, t, r.yieldPending);
    case Suspend(t) => LeaveTimely(s, t);
    case Resume(t) => if r != s { MakeReadyTimely(s, t, s.yieldPending); }
    case ResumeFromIsr(t) => ResumeFromIsrTimely(s, t);
    case Create(t, p) => CreateTimely(s, t, p);
    case Delete(t) => LeaveTimely(s, t);
    case Reap => ReapTimely(s);
    case Reprioritise(t, p) => ReprioritiseTimely(s, t, p);
  }

  lemma ReprioritiseTimely(s: Sched, t: Task, p: int)
    requires Timely(s) && t in s.lists.place && 0 <= p < PRIORITIES
    ensures Timely(s.(lists := ChangePriority(s.lists, t, p)))
  {
    hide Ordered, NoneOverdue, NextOk, Thinner;
    ChangePriorityThins(s.lists, t, p, s.current);
    ChangePriorityThins(s.lists, t, p, 1 - s.current);
    ListsTimely(s, s.(lists := ChangePriority(s.lists, t, p)), t);
  }

  lemma SwitchTimely(s: Sched)
    requires Timely(s) && (s.suspendCount == 0 ==> SomeReady(s.lists))
    ensures Timely(SwitchContext(s))
  {
    hide Settled;
  }

  lemma BlockTimely(s: Sched, q: nat, d: Tick)
    requires Timely(s) && s.lists.IsReady(s.running) && d > 0 && s.lists.event[s.running] == NoEvent
    ensures Timely(PlaceOnEventList(s, q, d))
  {
    var s1 := s.(lists := EnterEventList(s.lists, s.running, q));
    EnterTimely(s, s1);
    DelayTimely(s1, d, true);
  }

  /** A change to event items alone. */
  lemma EnterTimely(s: Sched, r: Sched)
    requires Timely(s) && Inv(r)
    requires r == s.(lists := s.lists.(event := r.lists.event, pending := r.lists.pending), yieldPending := r.yieldPending)
    ensures Timely(r)
  {
    hide Settled;
  }

  lemma SignalTimely(s: Sched, t: Task)
    requires Timely(s) && t in s.lists.place && s.lists.event[t].WaitingOn?
    ensures Timely(SchedulerSteps.Signal(s, t))
  {
    var r := SchedulerSteps.Signal(s, t);
    if s.suspendCount == 0 { MakeReadyTimely(s, t, r.yieldPending); } else { EnterTimely(s, r); }
  }

  lemma LeaveTimely(s: Sched, t: Task)
    requires Timely(s) && t in s.lists.place
    ensures Timely(SchedulerSteps.Suspend(s, t)) && Timely(SchedulerSteps.Delete(s, t))
  {
    hide Ordered, NoneOverdue, NextOk, Thinner;
    var l := ClearEvent(Unlist(s.lists, t), t);
    SuspendThins(s.lists, t, s.current);
    SuspendThins(s.lists, t, 1 - s.current);
    FreeThins(s.lists, t, s.current);
    FreeThins(s.lists, t, 1 - s.current);
    ListsTimely(s, s.(lists := AddToSuspended(l, t)), t);
    if t == s.running {
      ListsTimely(s, s.(lists := AddToTerminating(l, t)), t);
    } else {
      ListsTimely(s, s.(lists := FreeTcb(l, t)), t);
    }
  }

  lemma ResumeFromIsrTimely(s: Sched, t: Task)
    requires Timely(s)
    ensures Timely(SchedulerSteps.ResumeFromIsr(s, t))
  {
    var r := SchedulerSteps.ResumeFromIsr(s, t);
    if IsSuspended(s.lists, t) {
      if s.suspendCount == 0 { MakeReadyTimely(s, t, s.yieldPending); } else { EnterTimely(s, r); }
    }
  }

  lemma CreateTimely(s: Sched, t: Task, p: int)
    requires Timely(s) && t !in s.lists.place && 0 <= p < PRIORITIES
    ensures Timely(SchedulerSteps.Create(s, t, p))
  {
    CreateThins(s.lists, t, p, s.current);
    CreateThins(s.lists, t, p, 1 - s.current);
    ListsTimely(s, SchedulerSteps.Create(s, t, p), t);
  }

  lemma CreateThins(l: TaskLists, t: Task, p: int, b: int)
    requires Settled(l) && t !in l.place && 0 <= p < PRIORITIES && 0 <= b < 2
    ensures Thinner(l, AddToReady(NewTcb(l, t, p), t), b, t)
  {
    assert Holds(l.place, l.delay[b], InDelay(b));
  }

  lemma ReapTimely(s: Sched)
    requires Timely(s) && s.lists.terminating != [] && s.lists.terminating[0] != s.running
    ensures Timely(SchedulerSteps.Reap(s))
  {
    var t := s.lists.terminating[0];
    assert Holds(s.lists.place, s.lists.terminating, InTerminating);
    hide Ordered, NoneOverdue, NextOk, Thinner;
    FreeThins(s.lists, t, s.current);
    FreeThins(s.lists, t, 1 - s.current);
    ListsTimely(s, SchedulerSteps.Reap(s), t);
  }
}
