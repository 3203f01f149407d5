/** No missed preemption: whenever a ready task outranks the running one, a context switch has
    been asked for or is pending. It holds over exactly the runs in which no task gives a mutex
    back in one of the ways that the source does not follow with a yield. */
module SchedulerPreemption {
  import opened Tasks
  import opened TickTime
  import opened SchedulerState
  import opened SchedulerSteps
  import opened SchedulerTime
  import opened SchedulerRuns
  import opened SchedulerTheorems
  import opened SchedulerBoot
  import opened SchedulerAnswers
  import Rings

  /** The scheduler and the port: `asked` says that a switch has been asked for (taskYIELD, or the
      answer of an interrupt) and not made yet. */
  datatype Cpu = Cpu(s: Sched, asked: bool)

  /** A step of the scheduler; or the running task gives a mutex back, falling to priority p
      (xTaskPriorityDisinherit), and with a waiter wakes the first; or the priority of a task that
      is not running is adjusted for the waiters of a mutex that it holds (xTaskPriorityInherit,
      vTaskPriorityDisinheritAfterTimeout). */
  datatype Call =
    | Plain(e: Event)
    | Give(p: int)
    | GiveAndWake(p: int, t: Task)
    | Adjust(t: Task, p: int)

  ghost predicate Possible(s: Sched, call: Call) {
    match call
    case Plain(e) => Enabled(s, e)
    case Give(p) => s.lists.IsReady(s.running) && 0 <= p < PRIORITIES
    case GiveAndWake(p, t) =>
      && s.lists.IsReady(s.running) && 0 <= p < PRIORITIES
      && t in s.lists.place && t != s.running && t in s.lists.event && s.lists.event[t].WaitingOn?
    case Adjust(t, p) => t in s.lists.place && t != s.running && 0 <= p < PRIORITIES
  }

  /** Whether a step yields, or tells its caller that it should. */
  ghost function Asks(s: Sched, e: Event): bool
    requires Inv(s) && Enabled(s, e)
  {
    match e
    case Tick => IncrementTick(s).1
    case ResumeAll => s.suspendCount == 1 && SchedulerSteps.ResumeAll(s).yieldPending
    case Signal(t) => Above(s, t)
    case Suspend(t) => t == s.running
    case Resume(t) => t != s.running && IsSuspended(s.lists, t) && AtLeast(s, t)
    case ResumeFromIsr(t) => s.suspendCount == 0 && IsSuspended(s.lists, t) && AtLeast(s, t)
    case Create(t, p) => p > s.lists.priority[s.running]
    case Delete(t) => t == s.running
    case Reprioritise(t, p) =>
      if p > s.lists.priority[t] then t != s.running && p >= s.lists.priority[s.running]
      else p < s.lists.priority[t] && t == s.running
    case _ => false
  }

  /** The running task falls to priority p. */
  function Fallen(s: Sched, p: int): (r: Sched)
    requires Inv(s) && 0 <= p < PRIORITIES
    ensures Inv(r)
  {
    s.(lists := ChangePriority(s.lists, s.running, p))
  }

  /** Giving yields when the woken task has the higher priority, and without a waiter when the
      giver's priority has changed; with one, the answer of xTaskPriorityDisinherit is dropped. */
  ghost function Next(c: Cpu, call: Call): (r: Cpu)
    requires Inv(c.s) && Possible(c.s, call)
    ensures Inv(r.s)
  {
    var s := c.s;
    match call
    case Plain(e) => Cpu(Step(s, e), e != Switch && (c.asked || Asks(s, e)))
    case Give(p) => Cpu(Fallen(s, p), c.asked || p != s.lists.priority[s.running])
    case GiveAndWake(p, t) =>
      var s1 := Fallen(s, p);
      Cpu(SchedulerSteps.Signal(s1, t), c.asked || Above(s1, t))
    case Adjust(t, p) => Cpu(s.(lists := ChangePriority(s.lists, t, p)), c.asked)
  }

  /** A ready task that outranks the running one has a switch coming. */
  ghost predicate Answered(s: Sched, asked: bool) {
    asked || s.yieldPending || forall t :: s.lists.IsReady(t) ==> !Above(s, t)
  }

  /** What a caller must see to: a giver that wakes a waiter no higher than it falls to leaves no
      other ready task above that, and no ready task is adjusted above the running one. */
  ghost predicate Careful(c: Cpu, call: Call)
    requires Inv(c.s) && Possible(c.s, call)
  {
    var s := c.s;
    || c.asked || s.yieldPending
    || match call
       case GiveAndWake(p, t) =>
         s.lists.priority[t] > p || forall u :: s.lists.IsReady(u) && u != s.running ==> s.lists.priority[u] <= p
       case Adjust(t, p) => s.lists.IsReady(t) ==> p <= s.lists.priority[s.running]
       case _ => true
  }

  // ----- The steps of the scheduler -----------------------------------------------------------

  lemma TickAnswered(s: Sched, asked: bool)
    requires Timely(s) && Answered(s, asked)
    ensures Answered(TickNow(s).0, asked || TickNow(s).1)
    ensures TickNow(s).0.yieldPending == s.yieldPending
  {
    TickParts(s) by { TimelyIsInv(s); }
    hide Timely, Rivals, TickNow, DueWithin;
    TickAnswer(s);
    if !DueWithin(s, 1) {
      forall t ensures TickNow(s).0.lists.IsReady(t) && Above(TickNow(s).0, t) ==> s.lists.IsReady(t) && Above(s, t) {
        TickOnReady(s, t);
      }
    }
  }

  /** When nobody of at least the running task's priority is due, nobody above it becomes ready. */
  lemma TickOnReady(s: Sched, t: Task)
    requires Timely(s) && !DueWithin(s, 1)
    ensures TickNow(s).0.lists.IsReady(t) && Above(TickNow(s).0, t) ==> s.lists.IsReady(t) && Above(s, t)
  {
    hide Settled, Ordered, NoneOverdue, NextOk, TickNow;
    TickKeepsPriorities(s);
    if t in s.lists.place {
      DelayedIsBlocked(s, t);
      TickOnTask(s, t);
    }
  }

  lemma {:induction false} ReplayAnswered(s: Sched, asked: bool, n: nat)
    requires Timely(s) && Answered(s, asked)
    ensures Answered(Replay(s, n), asked)
    decreases n
  {
    hide Settled, Ordered, NoneOverdue, NextOk, TickNow, Above;
    if n > 0 {
      var (s1, wanted) := TickNow(s);
      var s2 := s1.(yieldPending := s1.yieldPending || wanted);
      TickAnswered(s, asked);
      assert forall t :: Above(s2, t) == Above(s1, t) by { SameAbove(s1, s2); }
      TickKeepsTimely(s);
      TimelyScalars(s1, s2);
      ReplayAnswered(s2, asked, n - 1);
    }
  }

  lemma SameAbove(s: Sched, r: Sched)
    requires r.running == s.running && r.lists.priority == s.lists.priority
    ensures forall t :: Above(r, t) == Above(s, t)
  {
  }

  lemma {:induction false} MovePendingAnswered(s: Sched, asked: bool)
    requires Inv(s) && Answered(s, asked)
    ensures Answered(MovePending(s), asked)
    decreases |s.lists.pending|
  {
    hide Settled, MoveHead;
    if s.lists.pending != [] {
      MoveHeadAnswered(s, asked);
      MovePendingAnswered(MoveHead(s), asked);
    }
  }

  lemma MoveHeadAnswered(s: Sched, asked: bool)
    requires Inv(s) && s.lists.pending != [] && Answered(s, asked)
    ensures Answered(MoveHead(s), asked)
  {
    RunningIsLive(s);
    PendingIsLive(s.lists, s.lists.pending[0]);
    hide Settled, MakeReady;
    SameAbove(s, MoveHead(s));
  }

  lemma ResumeAllAnswered(s: Sched, asked: bool)
    requires Timely(s) && s.suspendCount > 0 && Answered(s, asked)
    ensures Answered(SchedulerSteps.ResumeAll(s), asked)
  {
    hide Settled, Ordered, NoneOverdue, NextOk, MovePending, Replay;
    var s1 := s.(suspendCount := s.suspendCount - 1);
    SameAbove(s, s1);
    if s1.suspendCount == 0 {
      TimelyScalars(s, s1);
      MovePendingTimely(s1);
      ResetTimely(MovePending(s1));
      MovePendingAnswered(s1, asked);
      SameAbove(MovePending(s1), Gathered(s1));
      ReplayAnswered(Gathered(s1), asked, s.pendedTicks);
      SameAbove(Replay(Gathered(s1), s.pendedTicks), SchedulerSteps.ResumeAll(s));
      assert SchedulerSteps.ResumeAll(s) == Replay(Gathered(s1), s.pendedTicks).(pendedTicks := 0);
    }
  }

  lemma SwitchAnswered(s: Sched)
    requires Inv(s) && Enabled(s, Switch)
    ensures Answered(SwitchContext(s), false)
  {
    hide Settled;
    var r := SwitchContext(s);
    if s.suspendCount == 0 {
      forall t | r.lists.IsReady(t)
        ensures !Above(r, t)
      {
        SwitchPicksHighest(s, t);
      }
    }
  }

  lemma QuietStepAnswered(s: Sched, e: Event, asked: bool)
    requires Inv(s) && Enabled(s, e) && Answered(s, asked)
    requires e.SuspendAll? || e.Delay? || e.Block? || e.Suspend? || e.Delete? || e.Reap?
    ensures Answered(Step(s, e), asked)
  {
    hide Settled, DelayRunning, PlaceOnEventList, SchedulerSteps.Suspend, SchedulerSteps.Delete, SchedulerSteps.Reap;
    RunningIsLive(s);
    StepKeepsBook(s, e);
    var r := Step(s, e);
    assert forall t :: r.lists.IsReady(t) ==> s.lists.IsReady(t);
    assert forall t :: Above(r, t) ==> Above(s, t);
  }

  lemma StepKeepsBook(s: Sched, e: Event)
    requires Inv(s) && Enabled(s, e)
    requires e.SuspendAll? || e.Delay? || e.Block? || e.Suspend? || e.Delete? || e.Reap?
    ensures Step(s, e).running == s.running && Step(s, e).yieldPending == s.yieldPending
  {
    hide Settled;
  }

  lemma WakingAnswered(s: Sched, e: Event, asked: bool)
    requires Inv(s) && Enabled(s, e) && Answered(s, asked)
    requires e.Signal? || e.SignalUnordered? || e.Resume? || e.ResumeFromIsr? || e.Create?
    ensures Answered(Step(s, e), asked || Asks(s, e))
  {
    hide Settled, MakeReady, AddToPending, AddToReady, NewTcb;
    RunningIsLive(s);
    var r := Step(s, e);
    assert r.running == s.running;
    forall t | r.lists.IsReady(t) && Above(r, t)
      ensures (s.lists.IsReady(t) && Above(s, t)) || Asks(s, e) || r.yieldPending
    {
    }
  }

  lemma ReprioritiseAnswered(s: Sched, t: Task, p: int, asked: bool)
    requires Inv(s) && Enabled(s, Reprioritise(t, p)) && Answered(s, asked)
    ensures Answered(Step(s, Reprioritise(t, p)), asked || Asks(s, Reprioritise(t, p)))
  {
    hide Settled, ChangePriority;
    RunningIsLive(s);
    var r := Step(s, Reprioritise(t, p));
    forall u | r.lists.IsReady(u) && Above(r, u)
      ensures (s.lists.IsReady(u) && Above(s, u)) || Asks(s, Reprioritise(t, p))
    {
    }
  }

  lemma StepAnswered(s: Sched, e: Event, asked: bool)
    requires Timely(s) && Enabled(s, e) && Answered(s, asked) && e != Switch
    ensures Answered(Step(s, e), asked || Asks(s, e))
  {
    hide Settled, Ordered, NoneOverdue, NextOk, Above, ChangePriority;
    match e
    case Tick =>
      if s.suspendCount == 0 { TickAnswered(s, asked); } else { SameAbove(s, Step(s, e)); }
    case ResumeAll => ResumeAllAnswered(s, asked);
    case Reprioritise(t, p) => ReprioritiseAnswered(s, t, p, asked);
    case Signal(_) => WakingAnswered(s, e, asked);
    case SignalUnordered(_) => WakingAnswered(s, e, asked);
    case Resume(_) => WakingAnswered(s, e, asked);
    case ResumeFromIsr(_) => WakingAnswered(s, e, asked);
    case Create(_, _) => WakingAnswered(s, e, asked);
    case _ => QuietStepAnswered(s, e, asked);
  }

  // ----- Giving mutexes back --------------------------------------------------------------------

  lemma FallenIs(s: Sched, p: int)
    requires Inv(s) && s.lists.IsReady(s.running) && 0 <= p < PRIORITIES
    ensures var r := Fallen(s, p);
            && r.running == s.running && r.yieldPending == s.yieldPending && r.suspendCount == s.suspendCount
            && r.lists.priority == s.lists.priority[s.running := p] && r.lists.event == s.lists.event
            && forall u :: r.lists.IsReady(u) == s.lists.IsReady(u)
  {
    hide Settled, ChangePriority;
  }

  lemma GiveAnsweredIff(c: Cpu, call: Call)
    requires Inv(c.s) && Possible(c.s, call) && Answered(c.s, c.asked) && !call.Plain?
    ensures Answered(Next(c, call).s, Next(c, call).asked) <==> Careful(c, call)
  {
    hide Settled, ChangePriority, Fallen;
    var s, n := c.s, Next(c, call);
    RunningIsLive(s);
    match call
    case Give(p) => FallenIs(s, p);
    case GiveAndWake(p, t) => FallenIs(s, p); GiveAndWakeAnsweredIff(c, p, t);
    case Adjust(t, p) => AdjustAnsweredIff(c, t, p);
  }

  lemma GiveAndWakeAnsweredIff(c: Cpu, p: int, t: Task)
    requires Inv(c.s) && Possible(c.s, GiveAndWake(p, t)) && Answered(c.s, c.asked)
    ensures var n := Next(c, GiveAndWake(p, t)); Answered(n.s, n.asked) <==> Careful(c, GiveAndWake(p, t))
  {
    hide Settled, Fallen, MakeReady, AddToPending;
    var s, s1, n := c.s, Fallen(c.s, p), Next(c, GiveAndWake(p, t));
    RunningIsLive(s);
    FallenIs(s, p);
    assert n.s.lists.priority == s.lists.priority[s.running := p] && n.s.running == s.running;
    forall u | u != s.running && u != t
      ensures n.s.lists.IsReady(u) == s.lists.IsReady(u)
      ensures u in s.lists.priority ==> (Above(n.s, u) <==> s.lists.priority[u] > p)
    {
    }
    assert Above(n.s, t) <==> s.lists.priority[t] > p;
    assert !Above(n.s, s.running);
  }

  lemma AdjustAnsweredIff(c: Cpu, t: Task, p: int)
    requires Inv(c.s) && Possible(c.s, Adjust(t, p)) && Answered(c.s, c.asked)
    ensures var n := Next(c, Adjust(t, p)); Answered(n.s, n.asked) <==> Careful(c, Adjust(t, p))
  {
    hide Settled, ChangePriority;
    var s, n := c.s, Next(c, Adjust(t, p));
    RunningIsLive(s);
    assert forall u :: u != t ==> Above(n.s, u) == Above(s, u) && n.s.lists.IsReady(u) == s.lists.IsReady(u);
    assert n.s.lists.IsReady(t) == s.lists.IsReady(t);
    assert Above(n.s, t) <==> p > s.lists.priority[s.running];
  }

  /** One step leaves no ready task above the running one unanswered exactly when it is careful. */
  lemma NextAnsweredIff(c: Cpu, call: Call)
    requires Timely(c.s) && Possible(c.s, call) && Answered(c.s, c.asked)
    ensures Answered(Next(c, call).s, Next(c, call).asked) <==> Careful(c, call)
  {
    hide Timely, Answered, Asks;
    assert Inv(c.s) by { hide Inv; assert Timely(c.s); TimelyIsInv(c.s); }
    if call.Plain? {
      if call.e == Switch { SwitchAnswered(c.s); } else { StepAnswered(c.s, call.e, c.asked); }
    } else {
      GiveAnsweredIff(c, call);
    }
  }

  lemma TimelyIsInv(s: Sched)
    requires Timely(s)
    ensures Inv(s)
  {
  }

  lemma NextTimely(c: Cpu, call: Call)
    requires Timely(c.s) && Possible(c.s, call)
    ensures Timely(Next(c, call).s)
  {
    hide Settled, Ordered, NoneOverdue, NextOk, Asks;
    match call
    case Plain(e) => StepKeepsTimely(c.s, e);
    case Give(p) => ReprioritiseTimely(c.s, c.s.running, p);
    case GiveAndWake(p, t) =>
      ReprioritiseTimely(c.s, c.s.running, p);
      SignalTimely(Fallen(c.s, p), t);
    case Adjust(t, p) => ReprioritiseTimely(c.s, t, p);
  }

  // ----- Runs ----------------------------------------------------------------------------------

  ghost predicate LegalCalls(c: Cpu, calls: seq<Call>)
    decreases |calls|
  {
    Inv(c.s) && (calls != [] ==> Possible(c.s, calls[0]) && LegalCalls(Next(c, calls[0]), calls[1..]))
  }

  ghost predicate AlwaysAnswered(c: Cpu, calls: seq<Call>)
    requires LegalCalls(c, calls)
    decreases |calls|
  {
    Answered(c.s, c.asked) && (calls != [] ==> AlwaysAnswered(Next(c, calls[0]), calls[1..]))
  }

  ghost predicate AlwaysCareful(c: Cpu, calls: seq<Call>)
    requires LegalCalls(c, calls)
    decreases |calls|
  {
    calls != [] ==> Careful(c, calls[0]) && AlwaysCareful(Next(c, calls[0]), calls[1..])
  }

  lemma {:induction false} AnsweredIff(c: Cpu, calls: seq<Call>)
    requires LegalCalls(c, calls) && Timely(c.s) && Answered(c.s, c.asked)
    ensures AlwaysAnswered(c, calls) <==> AlwaysCareful(c, calls)
    decreases |calls|
  {
    hide Timely, Inv, Possible, Careful, Answered, Next;
    if calls != [] {
      NextAnsweredIff(c, calls[0]);
      NextTimely(c, calls[0]);
      if Careful(c, calls[0]) {
        AnsweredIff(Next(c, calls[0]), calls[1..]);
      } else if AlwaysAnswered(c, calls) {
        HeadAnswered(Next(c, calls[0]), calls[1..]);
      }
    }
  }

  lemma HeadAnswered(c: Cpu, calls: seq<Call>)
    requires LegalCalls(c, calls) && AlwaysAnswered(c, calls)
    ensures Answered(c.s, c.asked)
  {
  }

  /** From start-up on, over every run, no ready task outranks the running one without a switch
      asked for or pending, exactly when every mutex is given back and adjusted carefully. */
  lemma NoMissedPreemptionIff(idle: Task, calls: seq<Call>)
    requires LegalCalls(Cpu(Boot(idle), false), calls)
    ensures AlwaysAnswered(Cpu(Boot(idle), false), calls) <==> AlwaysCareful(Cpu(Boot(idle), false), calls)
  {
    BootIsTimely(idle);
    BootAnswered(idle);
    hide Timely, LegalCalls, AlwaysAnswered, AlwaysCareful, Answered;
    AnsweredIff(Cpu(Boot(idle), false), calls);
  }

  lemma BootAnswered(idle: Task)
    ensures Answered(Boot(idle), false)
  {
  }

  /** A run in which no mutex is given back to a waiter or adjusted needs no care. */
  lemma {:induction false} NoMissedPreemption(c: Cpu, calls: seq<Call>)
    requires LegalCalls(c, calls) && Timely(c.s) && Answered(c.s, c.asked)
    requires forall call :: call in calls ==> call.Plain? || call.Give?
    ensures AlwaysAnswered(c, calls)
    decreases |calls|
  {
    hide Timely, Inv, Possible, Answered, Next;
    if calls != [] {
      assert calls[0] in calls;
      NextAnsweredIff(c, calls[0]);
      NextTimely(c, calls[0]);
      NoMissedPreemption(Next(c, calls[0]), calls[1..]);
    }
  }

  // ----- What a careless give costs ------------------------------------------------------------

  /** One of the next n ticks asks for a switch. */
  ghost predicate TicksAsk(s: Sched, n: nat)
    requires Inv(s)
    decreases n
  {
    n > 0 && (TickNow(s).1 || TicksAsk(TickNow(s).0, n - 1))
  }

  /** Ticks go on without a switch exactly while no yield is pending, no two ready tasks share the
      running task's priority, and nobody of at least that priority is due. */
  lemma {:induction false} TicksAskIff(s: Sched, n: nat)
    requires Timely(s)
    ensures TicksAsk(s, n) <==> n > 0 && (s.yieldPending || Rivals(s) || DueWithin(s, n))
    decreases n
  {
    hide Settled, Ordered, NoneOverdue, NextOk, Rivals, DueWithin, TickNow;
    if n > 0 {
      TickAnswer(s);
      TickKeepsTimely(s);
      TicksAskIff(TickNow(s).0, n - 1);
      AfterTick(s, n);
      NoneDueNow(TickNow(s).0);
      if !TickNow(s).1 { assert TickNow(s).0 == TickNow(s).0.(yieldPending := TickNow(s).0.yieldPending || false); }
    }
  }

  /** After a careless give, some ready task outranks the giver, and no tick asks for a switch for
      as long as the giver shares its priority with nobody and nobody as high is due. */
  lemma CarelessGiveStarves(c: Cpu, p: int, t: Task, n: nat)
    requires Timely(c.s) && Possible(c.s, GiveAndWake(p, t)) && Answered(c.s, c.asked) && !Careful(c, GiveAndWake(p, t))
    requires var r := Next(c, GiveAndWake(p, t)).s; !Rivals(r) && !DueWithin(r, n)
    ensures var r := Next(c, GiveAndWake(p, t));
            !r.asked && !TicksAsk(r.s, n) && exists u :: r.s.lists.IsReady(u) && Above(r.s, u)
  {
    hide Timely, Rivals, DueWithin, Next, Careful, Possible;
    NextAnsweredIff(c, GiveAndWake(p, t));
    NextTimely(c, GiveAndWake(p, t));
    TimelyIsInv(c.s);
    TicksAskIff(Next(c, GiveAndWake(p, t)).s, n);
  }

  // ----- A give that is careless ------------------------------------------------------------------

  /** Task 1 runs at 4, which it has inherited from task 2, over a base of 2. It has given task 2 its
      mutex back and still holds one that task 3 waits for; task 0 is the idle task. */
  function TwoMutexes(): Sched {
    Sched(TaskLists(map[0 := 0, 1 := 4, 2 := 4, 3 := 1],
                    map[0 := InReady(0), 1 := InReady(4), 2 := InReady(4), 3 := InSuspended],
                    map[0 := NoEvent, 1 := NoEvent, 2 := NoEvent, 3 := WaitingOn(9)],
                    map[0 := 0, 1 := 0, 2 := 0, 3 := 0],
                    [Rings.Ring([0], 0), Rings.Ring([], 0), Rings.Ring([], 0), Rings.Ring([], 0), Rings.Ring([1, 2], 1)],
                    [[], []], [3], [], [], 4, 4, 0),
          1, 0, 0, 0, 0, MAX_DELAY, 0, false)
  }

  lemma TwoMutexesAreListed()
    ensures var l := TwoMutexes().lists;
            && ReadyHold(l.place, l.ready)
            && Holds(l.place, l.delay[0], InDelay(0)) && Holds(l.place, l.delay[1], InDelay(1))
            && Holds(l.place, l.suspended, InSuspended) && Holds(l.place, l.terminating, InTerminating)
            && Holds(l.event, l.pending, PendingReady)
  {
    var l := TwoMutexes().lists;
    assert Holds(l.place, l.ready[0].items, InReady(0));
    assert Holds(l.place, l.ready[1].items, InReady(1)) && Holds(l.place, l.ready[2].items, InReady(2));
    assert Holds(l.place, l.ready[3].items, InReady(3));
    assert Holds(l.place, l.ready[4].items, InReady(4)) by {
      assert l.ready[4].items[0] == 1 && l.ready[4].items[1] == 2;
    }
  }

  lemma TwoMutexesInRange()
    ensures var l := TwoMutexes().lists;
            && InRange(l)
            && (forall t :: t in l.place ==> PlaceInRange(l.place[t]) && l.place[t] != Nowhere)
            && (forall t :: t in l.place && l.place[t].InReady? ==> l.place[t].priority == l.priority[t])
  {
  }

  lemma TwoMutexesCounted()
    ensures var l := TwoMutexes().lists;
            l.place.Keys == l.priority.Keys == l.event.Keys == l.wake.Keys && |l.place| == 4
  {
    var l := TwoMutexes().lists;
    assert l.place.Keys == {0, 1, 2, 3} && l.priority.Keys == {0, 1, 2, 3};
    assert l.event.Keys == {0, 1, 2, 3} && l.wake.Keys == {0, 1, 2, 3};
    assert |l.place| == |l.place.Keys|;
  }

  lemma TwoMutexesIsTimely()
    ensures Timely(TwoMutexes())
  {
    hide ReadyHold, Holds, InRange, PlaceInRange;
    TwoMutexesAreListed();
    TwoMutexesInRange();
    TwoMutexesCounted();
  }

  /** What the give leads to. */
  lemma TwoMutexesGiven()
    requires Inv(TwoMutexes())
    ensures var s := TwoMutexes();
            && Possible(s, GiveAndWake(2, 3)) && Answered(s, false) && !Careful(Cpu(s, false), GiveAndWake(2, 3))
            && var r := Next(Cpu(s, false), GiveAndWake(2, 3));
               && r.s.lists.place == map[0 := InReady(0), 1 := InReady(2), 2 := InReady(4), 3 := InReady(1)]
               && r.s.lists.priority == map[0 := 0, 1 := 2, 2 := 4, 3 := 1]
               && r.s.running == 1 && !r.asked && !r.s.yieldPending
  {
    hide Settled, ChangePriority, MakeReady;
    var s := TwoMutexes();
    FallenIs(s, 2);
    assert s.lists.IsReady(2);
  }

  /** It gives that one back: it falls below task 2, which is ready, no switch is asked for, and none
      will be by any number of ticks. */
  lemma GivingBackTheSecondMutexStrandsATask(n: nat)
    ensures Timely(TwoMutexes()) && Possible(TwoMutexes(), GiveAndWake(2, 3)) && Answered(TwoMutexes(), false)
    ensures var r := Next(Cpu(TwoMutexes(), false), GiveAndWake(2, 3));
            && !r.asked && !r.s.yieldPending && r.s.running == 1 && r.s.lists.IsReady(2) && Above(r.s, 2)
            && !TicksAsk(r.s, n)
  {
    TwoMutexesIsTimely();
    hide Settled, Ordered, NoneOverdue, NextOk, Next, Careful, Possible, TicksAsk, Answered;
    TwoMutexesGiven();
    NobodyElse(Next(Cpu(TwoMutexes(), false), GiveAndWake(2, 3)).s, n);
    CarelessGiveStarves(Cpu(TwoMutexes(), false), 2, 3, n);
  }

  lemma NobodyElse(r: Sched, n: nat)
    requires r.lists.place == map[0 := InReady(0), 1 := InReady(2), 2 := InReady(4), 3 := InReady(1)]
    requires r.lists.priority == map[0 := 0, 1 := 2, 2 := 4, 3 := 1] && r.running == 1
    ensures !Rivals(r) && !DueWithin(r, n) && r.lists.IsReady(2) && Above(r, 2)
  {
    assert forall t :: !Blocked(r, t);
    assert forall t :: Peer(r, t) ==> t == 1;
  }
}
