/** Round robin over whole runs of the scheduler: each ready list goes through the operations of
    a ring, so a ready task gets the processor exactly when the ring's account says so. */
module SchedulerFairness {
  import opened Sequences
  import opened Tasks
  import opened TickTime
  import opened SchedulerState
  import opened SchedulerSteps
  import opened SchedulerRuns
  import opened SchedulerTheorems
  import Rings

  type Op = Rings.Op<Task>

  // ----- The ring operations of each step ---------------------------------------------------------

  /** x's state item leaves its list. */
  function LeaveOps(l: TaskLists, x: Task, p: int): (ops: seq<Op>)
    ensures Rings.Select !in ops
  {
    if x in l.place && l.place[x] == InReady(p) then [Rings.Drop(x)] else []
  }

  /** x's state item enters the ready list of a priority. */
  function EnterOps(x: Task, priority: int, p: int): (ops: seq<Op>)
    ensures Rings.Select !in ops
  {
    if priority == p then [Rings.Insert(x)] else []
  }

  function MakeReadyOps(l: TaskLists, x: Task, p: int): (ops: seq<Op>)
    requires x in l.priority
    ensures Rings.Select !in ops
  {
    LeaveOps(l, x, p) + EnterOps(x, l.priority[x], p)
  }

  lemma ListIsRing(l: TaskLists, p: int)
    requires Settled(l) && 0 <= p < PRIORITIES
    ensures |l.ready| == PRIORITIES && Rings.Valid(l.ready[p])
    ensures forall x :: x in l.ready[p].items <==> x in l.place && l.place[x] == InReady(p)
  {
    assert Holds(l.place, l.ready[p].items, InReady(p));
  }

  lemma UnlistTurns(l: TaskLists, x: Task, p: int)
    requires Settled(l) && x in l.place && 0 <= p < PRIORITIES
    ensures |l.ready| == PRIORITIES && |Unlist(l, x).ready| == PRIORITIES
    ensures Rings.Turns(l.ready[p], LeaveOps(l, x, p), Unlist(l, x).ready[p])
  {
    ListIsRing(l, p);
    if l.place[x] == InReady(p) { Rings.TurnsOnce(l.ready[p], Rings.Drop(x)); }
  }

  lemma AddTurns(l: TaskLists, x: Task, p: int)
    requires Detached(l, x) && 0 <= p < PRIORITIES
    ensures |l.ready| == PRIORITIES && |AddToReady(l, x).ready| == PRIORITIES && x in l.priority
    ensures Rings.Turns(l.ready[p], EnterOps(x, l.priority[x], p), AddToReady(l, x).ready[p])
  {
    assert Holds(l.place, l.ready[p].items, InReady(p));
    if l.priority[x] == p { Rings.TurnsOnce(l.ready[p], Rings.Insert(x)); }
  }

  lemma MakeReadyTurns(l: TaskLists, x: Task, p: int)
    requires Settled(l) && x in l.place && 0 <= p < PRIORITIES
    ensures |l.ready| == PRIORITIES && |MakeReady(l, x).ready| == PRIORITIES && x in l.priority
    ensures Rings.Turns(l.ready[p], MakeReadyOps(l, x, p), MakeReady(l, x).ready[p])
  {
    var k := ClearEvent(Unlist(l, x), x);
    UnlistTurns(l, x, p);
    AddTurns(k, x, p);
    assert k.ready == Unlist(l, x).ready && k.priority == l.priority;
    Rings.TurnsOn(l.ready[p], LeaveOps(l, x, p), k.ready[p], EnterOps(x, l.priority[x], p), AddToReady(k, x).ready[p]);
  }

  /** The loop of the tick interrupt. */
  function UnblockOps(s: Sched, p: int): (ops: seq<Op>)
    requires Inv(s)
    ensures Rings.Select !in ops
    decreases |s.Delayed()|
  {
    if s.Delayed() == [] then []
    else
      var x := s.Delayed()[0];
      MakeReadyFromDelay(s.lists, x, s.current);
      if s.tick < s.lists.wake[x] then []
      else MakeReadyOps(s.lists, x, p) + UnblockOps(s.(lists := MakeReady(s.lists, x)), p)
  }

  lemma {:induction false} UnblockTurns(s: Sched, p: int)
    requires Inv(s) && 0 <= p < PRIORITIES
    ensures |s.lists.ready| == PRIORITIES && |UnblockDue(s).0.lists.ready| == PRIORITIES
    ensures Rings.Turns(s.lists.ready[p], UnblockOps(s, p), UnblockDue(s).0.lists.ready[p])
    decreases |s.Delayed()|
  {
    hide Settled, MakeReady, MakeReadyOps, Rings.Turns;
    ListIsRing(s.lists, p);
    StandStill(s.lists.ready[p]);
    DelayHead(s);
    if s.Delayed() != [] {
      var x := s.Delayed()[0];
      MakeReadyFromDelay(s.lists, x, s.current);
      if s.tick >= s.lists.wake[x] {
        var s1 := s.(lists := MakeReady(s.lists, x));
        MakeReadyTurns(s.lists, x, p);
        UnblockTurns(s1, p);
        UnblockDueRound(s);
        Rings.TurnsOn(s.lists.ready[p], MakeReadyOps(s.lists, x, p), s1.lists.ready[p], UnblockOps(s1, p),
                      UnblockDue(s1).0.lists.ready[p]);
      }
    }
  }

  lemma StandStill(r: Rings.Ring<Task>)
    ensures Rings.Turns(r, [], r)
  {
  }

  function TickOps(s: Sched, p: int): (ops: seq<Op>)
    requires Inv(s)
    ensures Rings.Select !in ops
  {
    var s2 := CountTick(s);
    if s2.tick >= s2.nextUnblock then UnblockOps(s2, p) else []
  }

  lemma TickTurns(s: Sched, p: int)
    requires Inv(s) && 0 <= p < PRIORITIES
    ensures |s.lists.ready| == PRIORITIES && |TickNow(s).0.lists.ready| == PRIORITIES
    ensures Rings.Turns(s.lists.ready[p], TickOps(s, p), TickNow(s).0.lists.ready[p])
  {
    hide Settled, Rings.Turns, UnblockOps, UnblockDue;
    ListIsRing(s.lists, p);
    StandStill(s.lists.ready[p]);
    TickIsCountThenUnblock(s);
    UnblockTurns(CountTick(s), p);
    hide TickNow;
  }

  /** The two loops of xTaskResumeAll. */
  function PendingOps(s: Sched, p: int): (ops: seq<Op>)
    requires Inv(s)
    ensures Rings.Select !in ops
    decreases |s.lists.pending|
  {
    if s.lists.pending == [] then []
    else
      PendingIsLive(s.lists, s.lists.pending[0]);
      MakeReadyOps(s.lists, s.lists.pending[0], p) + PendingOps(MoveHead(s), p)
  }

  lemma {:induction false} PendingTurns(s: Sched, p: int)
    requires Inv(s) && 0 <= p < PRIORITIES
    ensures |s.lists.ready| == PRIORITIES && |MovePending(s).lists.ready| == PRIORITIES
    ensures Rings.Turns(s.lists.ready[p], PendingOps(s, p), MovePending(s).lists.ready[p])
    decreases |s.lists.pending|
  {
    hide Settled, MakeReadyOps, Rings.Turns;
    ListIsRing(s.lists, p);
    StandStill(s.lists.ready[p]);
    if s.lists.pending != [] {
      var x, s1 := s.lists.pending[0], MoveHead(s);
      MakeReadyTurns(s.lists, x, p);
      PendingTurns(s1, p);
      Rings.TurnsOn(s.lists.ready[p], MakeReadyOps(s.lists, x, p), s1.lists.ready[p], PendingOps(s1, p),
                    MovePending(s1).lists.ready[p]);
    }
  }

  /** The state after one replayed tick. */
  function Ticked(s: Sched): (r: Sched)
    requires Inv(s)
    ensures Inv(r) && r.lists == TickNow(s).0.lists
  {
    var (s1, wanted) := TickNow(s);
    s1.(yieldPending := s1.yieldPending || wanted)
  }

  function ReplayOps(s: Sched, n: nat, p: int): (ops: seq<Op>)
    requires Inv(s)
    ensures Rings.Select !in ops
    decreases n
  {
    if n == 0 then [] else TickOps(s, p) + ReplayOps(Ticked(s), n - 1, p)
  }

  lemma {:induction false} ReplayTurns(s: Sched, n: nat, p: int)
    requires Inv(s) && 0 <= p < PRIORITIES
    ensures |s.lists.ready| == PRIORITIES && |Replay(s, n).lists.ready| == PRIORITIES
    ensures Rings.Turns(s.lists.ready[p], ReplayOps(s, n, p), Replay(s, n).lists.ready[p])
    decreases n
  {
    hide Settled, Rings.Turns, TickOps;
    ListIsRing(s.lists, p);
    StandStill(s.lists.ready[p]);
    if n > 0 {
      TickTurns(s, p);
      ReplayTurns(Ticked(s), n - 1, p);
      Rings.TurnsOn(s.lists.ready[p], TickOps(s, p), Ticked(s).lists.ready[p], ReplayOps(Ticked(s), n - 1, p),
                    Replay(Ticked(s), n - 1).lists.ready[p]);
    }
  }

  function ResumeOps(s: Sched, p: int): (ops: seq<Op>)
    requires Inv(s) && s.suspendCount > 0
    ensures Rings.Select !in ops
  {
    var s1 := s.(suspendCount := s.suspendCount - 1);
    if s1.suspendCount > 0 then [] else PendingOps(s1, p) + ReplayOps(Gathered(s1), s.pendedTicks, p)
  }

  lemma ResumeTurns(s: Sched, p: int)
    requires Inv(s) && s.suspendCount > 0 && 0 <= p < PRIORITIES
    ensures |s.lists.ready| == PRIORITIES && |SchedulerSteps.ResumeAll(s).lists.ready| == PRIORITIES
    ensures Rings.Turns(s.lists.ready[p], ResumeOps(s, p), SchedulerSteps.ResumeAll(s).lists.ready[p])
  {
    hide Settled, Rings.Turns, PendingOps, ReplayOps, Replay, MovePending;
    ListIsRing(s.lists, p);
    StandStill(s.lists.ready[p]);
    var s1 := s.(suspendCount := s.suspendCount - 1);
    if s1.suspendCount == 0 {
      var s3 := Gathered(s1);
      assert s3.lists == MovePending(s1).lists && s3.pendedTicks == s.pendedTicks;
      PendingTurns(s1, p);
      ReplayTurns(s3, s.pendedTicks, p);
      Rings.TurnsOn(s.lists.ready[p], PendingOps(s1, p), s3.lists.ready[p], ReplayOps(s3, s.pendedTicks, p),
                    Replay(s3, s.pendedTicks).lists.ready[p]);
    }
  }

  /** The priority whose list the next switch selects from. */
  function Chosen(s: Sched): int
    requires Inv(s) && SomeReady(s.lists)
  {
    SomeListReady(s.lists);
    HighestReady(s.lists.ready, s.lists.topReady)
  }

  ghost function StepOps(s: Sched, e: Event, p: int): seq<Op>
    requires Inv(s) && Enabled(s, e)
  {
    match e
    case Tick => if s.suspendCount == 0 then TickOps(s, p) else []
    case SuspendAll => []
    case ResumeAll => ResumeOps(s, p)
    case Switch => if s.suspendCount == 0 && Chosen(s) == p then [Rings.Select] else []
    case Delay(_) => LeaveOps(s.lists, s.running, p)
    case Block(_, _) => LeaveOps(s.lists, s.running, p)
    case Signal(x) => if s.suspendCount == 0 then MakeReadyOps(s.lists, x, p) else []
    case SignalUnordered(x) => MakeReadyOps(s.lists, x, p)
    case Suspend(x) => LeaveOps(s.lists, x, p)
    case Resume(x) => if x != s.running && IsSuspended(s.lists, x) then MakeReadyOps(s.lists, x, p) else []
    case ResumeFromIsr(x) => if s.suspendCount == 0 && IsSuspended(s.lists, x) then MakeReadyOps(s.lists, x, p) else []
    case Create(x, q) => EnterOps(x, q, p)
    case Delete(x) => LeaveOps(s.lists, x, p)
    case Reap => LeaveOps(s.lists, s.lists.terminating[0], p)
    case Reprioritise(x, q) => if s.lists.IsReady(x) then LeaveOps(s.lists, x, p) + EnterOps(x, q, p) else []
  }

  lemma LeaveTurns(s: Sched, e: Event, p: int)
    requires Inv(s) && Enabled(s, e) && 0 <= p < PRIORITIES && (e.Suspend? || e.Delete? || e.Reap?)
    ensures |s.lists.ready| == PRIORITIES && |Step(s, e).lists.ready| == PRIORITIES
    ensures Rings.Turns(s.lists.ready[p], StepOps(s, e, p), Step(s, e).lists.ready[p])
  {
    hide Core, Rings.Turns, LeaveOps;
    ListIsRing(s.lists, p);
    var x := if e.Suspend? || e.Delete? then e.t else s.lists.terminating[0];
    assert Holds(s.lists.place, s.lists.terminating, InTerminating) by { TerminatingHold(s.lists); }
    UnlistTurns(s.lists, x, p);
    assert Step(s, e).lists.ready == Unlist(s.lists, x).ready;
  }

  lemma DelayTurns(s: Sched, d: Tick, indefinitely: bool, p: int)
    requires Inv(s) && 0 <= p < PRIORITIES
    ensures |s.lists.ready| == PRIORITIES && |DelayRunning(s, d, indefinitely).lists.ready| == PRIORITIES
    ensures Rings.Turns(s.lists.ready[p], LeaveOps(s.lists, s.running, p), DelayRunning(s, d, indefinitely).lists.ready[p])
  {
    hide Core, Rings.Turns, LeaveOps;
    ListIsRing(s.lists, p);
    UnlistTurns(s.lists, s.running, p);
    assert DelayRunning(s, d, indefinitely).lists.ready == Unlist(s.lists, s.running).ready;
  }

  lemma BlockTurns(s: Sched, q: nat, d: Tick, p: int)
    requires Inv(s) && s.lists.event[s.running] == NoEvent && 0 <= p < PRIORITIES
    ensures |s.lists.ready| == PRIORITIES && |PlaceOnEventList(s, q, d).lists.ready| == PRIORITIES
    ensures Rings.Turns(s.lists.ready[p], LeaveOps(s.lists, s.running, p), PlaceOnEventList(s, q, d).lists.ready[p])
  {
    hide Core, Rings.Turns, LeaveOps, DelayRunning;
    var s1 := s.(lists := EnterEventList(s.lists, s.running, q));
    DelayTurns(s1, d, true, p);
    SameLeave(s1.lists, s.lists, s.running, p);
  }

  lemma TerminatingHold(l: TaskLists)
    requires Settled(l)
    ensures Holds(l.place, l.terminating, InTerminating)
  {
  }

  lemma SameLeave(l: TaskLists, k: TaskLists, x: Task, p: int)
    requires l.place == k.place
    ensures LeaveOps(l, x, p) == LeaveOps(k, x, p)
  {
  }

  lemma WakeTurns(s: Sched, e: Event, p: int)
    requires Inv(s) && Enabled(s, e) && 0 <= p < PRIORITIES
    requires e.Signal? || e.SignalUnordered? || e.Resume? || e.ResumeFromIsr?
    ensures |s.lists.ready| == PRIORITIES && |Step(s, e).lists.ready| == PRIORITIES
    ensures Rings.Turns(s.lists.ready[p], StepOps(s, e, p), Step(s, e).lists.ready[p])
  {
    hide Core, Rings.Turns, MakeReadyOps, MakeReady;
    ListIsRing(s.lists, p);
    StandStill(s.lists.ready[p]);
    if e.t in s.lists.place { MakeReadyTurns(s.lists, e.t, p); }
  }

  lemma CreateTurns(s: Sched, x: Task, q: int, p: int)
    requires Inv(s) && x !in s.lists.place && 0 <= q < PRIORITIES && 0 <= p < PRIORITIES
    ensures |s.lists.ready| == PRIORITIES && |SchedulerSteps.Create(s, x, q).lists.ready| == PRIORITIES
    ensures Rings.Turns(s.lists.ready[p], EnterOps(x, q, p), SchedulerSteps.Create(s, x, q).lists.ready[p])
  {
    hide Core, Rings.Turns;
    AddTurns(NewTcb(s.lists, x, q), x, p);
  }

  lemma ReprioritiseTurns(l: TaskLists, x: Task, q: int, p: int)
    requires Settled(l) && x in l.place && 0 <= q < PRIORITIES && 0 <= p < PRIORITIES
    ensures |l.ready| == PRIORITIES && |ChangePriority(l, x, q).ready| == PRIORITIES
    ensures l.IsReady(x) ==> Rings.Turns(l.ready[p], LeaveOps(l, x, p) + EnterOps(x, q, p), ChangePriority(l, x, q).ready[p])
    ensures !l.IsReady(x) ==> ChangePriority(l, x, q).ready == l.ready
  {
    hide Core, Rings.Turns, LeaveOps, EnterOps;
    ListIsRing(l, p);
    if l.IsReady(x) {
      var k := SetPriority(Unlist(l, x), x, q);
      UnlistTurns(l, x, p);
      AddTurns(k, x, p);
      Rings.TurnsOn(l.ready[p], LeaveOps(l, x, p), k.ready[p], EnterOps(x, q, p), AddToReady(k, x).ready[p]);
    }
  }

  lemma SwitchTurns(s: Sched, p: int)
    requires Inv(s) && Enabled(s, Switch) && 0 <= p < PRIORITIES
    ensures |s.lists.ready| == PRIORITIES && |SwitchContext(s).lists.ready| == PRIORITIES
    ensures Rings.Turns(s.lists.ready[p], StepOps(s, Switch, p), SwitchContext(s).lists.ready[p])
  {
    ListIsRing(s.lists, p);
    if s.suspendCount == 0 && Chosen(s) == p { Rings.TurnsOnce(s.lists.ready[p], Rings.Select); }
  }

  /** Each step of the scheduler takes each ready list through its ring operations. */
  lemma StepTurns(s: Sched, e: Event, p: int)
    requires Inv(s) && Enabled(s, e) && 0 <= p < PRIORITIES
    ensures |s.lists.ready| == PRIORITIES && |Step(s, e).lists.ready| == PRIORITIES
    ensures Rings.Turns(s.lists.ready[p], StepOps(s, e, p), Step(s, e).lists.ready[p])
  {
    hide Settled, Rings.Turns;
    ListIsRing(s.lists, p);
    StandStill(s.lists.ready[p]);
    match e
    case Tick => if s.suspendCount == 0 { TickTurns(s, p); }
    case SuspendAll =>
    case ResumeAll => ResumeTurns(s, p);
    case Switch => SwitchTurns(s, p);
    case Create(x, q) => CreateTurns(s, x, q, p);
    case Reprioritise(x, q) => ReprioritiseTurns(s.lists, x, q, p);
    case Signal(_) => WakeTurns(s, e, p);
    case SignalUnordered(_) => WakeTurns(s, e, p);
    case Resume(_) => WakeTurns(s, e, p);
    case ResumeFromIsr(_) => WakeTurns(s, e, p);
    case Delay(d) => DelayTurns(s, d, false, p);
    case Block(q, d) => BlockTurns(s, q, d, p);
    case _ => LeaveTurns(s, e, p);
  }

  // ----- A task that stays ready --------------------------------------------------------------------

  /** t is in the ready list of priority p and on no event list. */
  ghost predicate Steady(l: TaskLists, t: Task, p: int) {
    t in l.place && l.place[t] == InReady(p) && t in l.event && l.event[t] == NoEvent && 0 <= p < PRIORITIES
  }

  /** The steps that take a ready task out of its list. */
  predicate Moves(s: Sched, e: Event, t: Task) {
    e == Suspend(t) || e == Delete(t) || (e.Reprioritise? && e.t == t) || ((e.Delay? || e.Block?) && s.running == t)
  }

  lemma MakeReadySpares(l: TaskLists, x: Task, t: Task, p: int)
    requires Settled(l) && x in l.place && x in l.priority && Steady(l, t, p) && x != t
    ensures Steady(MakeReady(l, x), t, p) && Rings.Drop(t) !in MakeReadyOps(l, x, p)
  {
    hide Settled, MakeReady;
  }

  lemma {:induction false} UnblockSpares(s: Sched, t: Task, p: int)
    requires Inv(s) && Steady(s.lists, t, p)
    ensures Steady(UnblockDue(s).0.lists, t, p) && Rings.Drop(t) !in UnblockOps(s, p)
    decreases |s.Delayed()|
  {
    hide Settled, MakeReady, MakeReadyOps, Steady;
    if s.Delayed() != [] {
      var x := s.Delayed()[0];
      MakeReadyFromDelay(s.lists, x, s.current);
      if s.tick >= s.lists.wake[x] {
        assert x != t by { DelayedIsNotSteady(s.lists, x, t, p); }
        MakeReadySpares(s.lists, x, t, p);
        UnblockSpares(s.(lists := MakeReady(s.lists, x)), t, p);
      }
    }
  }

  lemma DelayedIsNotSteady(l: TaskLists, x: Task, t: Task, p: int)
    requires x in l.place && l.place[x].InDelay? && Steady(l, t, p)
    ensures x != t
  {
  }

  lemma TickSpares(s: Sched, t: Task, p: int)
    requires Inv(s) && Steady(s.lists, t, p)
    ensures Steady(TickNow(s).0.lists, t, p) && Rings.Drop(t) !in TickOps(s, p)
  {
    hide Settled, Steady;
    TickIsCountThenUnblock(s);
    UnblockSpares(CountTick(s), t, p);
  }

  lemma {:induction false} PendingSpares(s: Sched, t: Task, p: int)
    requires Inv(s) && Steady(s.lists, t, p)
    ensures Steady(MovePending(s).lists, t, p) && Rings.Drop(t) !in PendingOps(s, p)
    decreases |s.lists.pending|
  {
    hide Settled, MakeReady, MakeReadyOps, Steady;
    if s.lists.pending != [] {
      var x := s.lists.pending[0];
      PendingIsLive(s.lists, x);
      RunningIsLive(s);
      assert x != t by { PendingIsNotSteady(s.lists, x, t, p); }
      MakeReadySpares(s.lists, x, t, p);
      PendingSpares(MoveHead(s), t, p);
    }
  }

  lemma PendingIsNotSteady(l: TaskLists, x: Task, t: Task, p: int)
    requires x in l.event && l.event[x] == PendingReady && Steady(l, t, p)
    ensures x != t
  {
  }

  lemma {:induction false} ReplaySpares(s: Sched, n: nat, t: Task, p: int)
    requires Inv(s) && Steady(s.lists, t, p)
    ensures Steady(Replay(s, n).lists, t, p) && Rings.Drop(t) !in ReplayOps(s, n, p)
    decreases n
  {
    hide Settled, Steady, TickOps;
    if n > 0 {
      TickSpares(s, t, p);
      ReplaySpares(Ticked(s), n - 1, t, p);
    }
  }

  lemma ResumeSpares(s: Sched, t: Task, p: int)
    requires Inv(s) && s.suspendCount > 0 && Steady(s.lists, t, p)
    ensures Steady(SchedulerSteps.ResumeAll(s).lists, t, p) && Rings.Drop(t) !in ResumeOps(s, p)
  {
    hide Settled, Steady, PendingOps, ReplayOps, Replay, MovePending;
    var s1 := s.(suspendCount := s.suspendCount - 1);
    if s1.suspendCount == 0 {
      PendingSpares(s1, t, p);
      assert Gathered(s1).lists == MovePending(s1).lists && Gathered(s1).pendedTicks == s.pendedTicks;
      ReplaySpares(Gathered(s1), s.pendedTicks, t, p);
    }
  }

  lemma LeaveSpares(s: Sched, e: Event, t: Task, p: int)
    requires Inv(s) && Enabled(s, e) && Steady(s.lists, t, p) && !Moves(s, e, t)
    requires e.Suspend? || e.Delete? || e.Reap? || e.Delay? || e.Block?
    ensures Steady(Step(s, e).lists, t, p) && Rings.Drop(t) !in StepOps(s, e, p)
  {
    hide Core, DelayRunning, PlaceOnEventList, SchedulerSteps.Suspend, SchedulerSteps.Delete, SchedulerSteps.Reap;
    TerminatingHold(s.lists);
    if e.Reap? { assert s.lists.terminating[0] in s.lists.terminating; }
  }

  lemma WakeSpares(s: Sched, e: Event, t: Task, p: int)
    requires Inv(s) && Enabled(s, e) && Steady(s.lists, t, p) && !Moves(s, e, t)
    requires e.Signal? || e.SignalUnordered? || e.Resume? || e.ResumeFromIsr? || e.Create? || e.Reprioritise?
    ensures Steady(Step(s, e).lists, t, p) && Rings.Drop(t) !in StepOps(s, e, p)
  {
    hide Core, SchedulerSteps.Signal, SchedulerSteps.SignalUnordered, SchedulerSteps.Resume, SchedulerSteps.ResumeFromIsr;
    hide SchedulerSteps.Create, ChangePriority;
  }

  lemma StepSpares(s: Sched, e: Event, t: Task, p: int)
    requires Inv(s) && Enabled(s, e) && Steady(s.lists, t, p) && !Moves(s, e, t)
    ensures Steady(Step(s, e).lists, t, p) && Rings.Drop(t) !in StepOps(s, e, p)
  {
    hide Settled, Steady;
    match e
    case Tick => if s.suspendCount == 0 { TickSpares(s, t, p); }
    case ResumeAll => ResumeSpares(s, t, p);
    case SuspendAll =>
    case Switch => SwitchSpares(s, t, p);
    case Suspend(_) => LeaveSpares(s, e, t, p);
    case Delete(_) => LeaveSpares(s, e, t, p);
    case Reap => LeaveSpares(s, e, t, p);
    case Delay(_) => LeaveSpares(s, e, t, p);
    case Block(_, _) => LeaveSpares(s, e, t, p);
    case _ => WakeSpares(s, e, t, p);
  }

  lemma SwitchSpares(s: Sched, t: Task, p: int)
    requires Inv(s) && Enabled(s, Switch) && Steady(s.lists, t, p)
    ensures Steady(SwitchContext(s).lists, t, p) && Rings.Drop(t) !in StepOps(s, Switch, p)
  {
    hide Core;
  }

  // ----- Who gets the processor ------------------------------------------------------------------------

  /** The step is a switch, with the scheduler running, that gives t the processor. */
  ghost predicate Dispatches(s: Sched, e: Event, t: Task)
    requires Inv(s) && Enabled(s, e)
  {
    e == Switch && s.suspendCount == 0 && Step(s, e).running == t
  }

  lemma StepServesIff(s: Sched, e: Event, t: Task, p: int)
    requires Inv(s) && Enabled(s, e) && Steady(s.lists, t, p)
    ensures |s.lists.ready| == PRIORITIES && Rings.LegalRun(s.lists.ready[p], StepOps(s, e, p))
    ensures Rings.Served(s.lists.ready[p], StepOps(s, e, p), t) <==> Dispatches(s, e, t)
  {
    hide Core, Rings.Turns;
    StepTurns(s, e, p);
    Rings.TurnsIsLegal(s.lists.ready[p], StepOps(s, e, p), Step(s, e).lists.ready[p]);
    if e == Switch && s.suspendCount == 0 {
      SwitchServesIff(s, t, p);
    } else {
      NoSelections(s, e, p);
      Rings.UnselectedUnserved(s.lists.ready[p], StepOps(s, e, p), t);
    }
  }

  lemma NoSelections(s: Sched, e: Event, p: int)
    requires Inv(s) && Enabled(s, e) && !(e == Switch && s.suspendCount == 0)
    ensures Rings.Select !in StepOps(s, e, p)
  {
    hide Settled;
  }

  lemma SwitchServesIff(s: Sched, t: Task, p: int)
    requires Inv(s) && Enabled(s, Switch) && s.suspendCount == 0 && Steady(s.lists, t, p)
    requires |s.lists.ready| == PRIORITIES && Rings.LegalRun(s.lists.ready[p], StepOps(s, Switch, p))
    ensures Rings.Served(s.lists.ready[p], StepOps(s, Switch, p), t) <==> SwitchContext(s).running == t
  {
    var q := Chosen(s);
    ListIsRing(s.lists, p);
    ListIsRing(s.lists, q);
    var u := Rings.Selected(s.lists.ready[q]);
    assert u in s.lists.ready[q].items;
    assert SwitchContext(s).running == u;
    if q == p { assert StepOps(s, Switch, p)[1..] == []; }
  }

  ghost function RunOps(s: Sched, es: seq<Event>, p: int): seq<Op>
    requires Legal(s, es)
    decreases |es|
  {
    if es == [] then [] else StepOps(s, es[0], p) + RunOps(Step(s, es[0]), es[1..], p)
  }

  ghost predicate Untouched(s: Sched, es: seq<Event>, t: Task)
    requires Legal(s, es)
    decreases |es|
  {
    es == [] || (!Moves(s, es[0], t) && Untouched(Step(s, es[0]), es[1..], t))
  }

  /** t is given the processor somewhere in the run. */
  ghost predicate Dispatched(s: Sched, es: seq<Event>, t: Task)
    requires Legal(s, es)
    decreases |es|
  {
    es != [] && (Dispatches(s, es[0], t) || Dispatched(Step(s, es[0]), es[1..], t))
  }

  /** Over a run each ready list goes through the operations of its steps. */
  lemma {:induction false} RunTurns(s: Sched, es: seq<Event>, p: int)
    requires Legal(s, es) && 0 <= p < PRIORITIES
    ensures |s.lists.ready| == PRIORITIES && |Run(s, es).lists.ready| == PRIORITIES
    ensures Rings.Turns(s.lists.ready[p], RunOps(s, es, p), Run(s, es).lists.ready[p])
    decreases |es|
  {
    hide Settled, Rings.Turns, Step, StepOps, Enabled;
    ListIsRing(s.lists, p);
    StandStill(s.lists.ready[p]);
    if es != [] {
      var s1 := Step(s, es[0]);
      StepTurns(s, es[0], p);
      RunTurns(s1, es[1..], p);
      Rings.TurnsOn(s.lists.ready[p], StepOps(s, es[0], p), s1.lists.ready[p], RunOps(s1, es[1..], p), Run(s, es).lists.ready[p]);
    }
  }

  lemma {:induction false} RunSpares(s: Sched, es: seq<Event>, t: Task, p: int)
    requires Legal(s, es) && Steady(s.lists, t, p) && Untouched(s, es, t)
    ensures Rings.Drop(t) !in RunOps(s, es, p)
    decreases |es|
  {
    hide Settled, Step, StepOps, Enabled, Steady, Moves;
    if es != [] {
      StepSpares(s, es[0], t, p);
      RunSpares(Step(s, es[0]), es[1..], t, p);
    }
  }

  lemma {:induction false} DispatchedIffServed(s: Sched, es: seq<Event>, t: Task, p: int)
    requires Legal(s, es) && Steady(s.lists, t, p) && Untouched(s, es, t)
    ensures |s.lists.ready| == PRIORITIES && Rings.LegalRun(s.lists.ready[p], RunOps(s, es, p))
    ensures Dispatched(s, es, t) <==> Rings.Served(s.lists.ready[p], RunOps(s, es, p), t)
    decreases |es|
  {
    hide Settled, Step, StepOps, Enabled, Moves, Dispatches, Rings.Turns;
    assert 0 <= p < PRIORITIES;
    RunTurns(s, es, p);
    Rings.TurnsIsLegal(s.lists.ready[p], RunOps(s, es, p), Run(s, es).lists.ready[p]);
    if es != [] {
      var s1 := Step(s, es[0]);
      StepTurns(s, es[0], p);
      StepServesIff(s, es[0], t, p);
      StepSpares(s, es[0], t, p);
      RunTurns(s1, es[1..], p);
      DispatchedIffServed(s1, es[1..], t, p);
      Rings.ServedOn(s.lists.ready[p], StepOps(s, es[0], p), s1.lists.ready[p], RunOps(s1, es[1..], p),
                     Run(s1, es[1..]).lists.ready[p], t);
    }
  }

  /** Over every run that leaves it ready, a task is given the processor exactly when at some
      point the selections from its list and the members that have left it from ahead of the
      task outnumber its distance and the arrivals while the list's index stood on it. */
  lemma DispatchedIff(s: Sched, es: seq<Event>, t: Task, p: int)
    requires Legal(s, es) && Steady(s.lists, t, p) && Untouched(s, es, t)
    ensures var r, ops := s.lists.ready[p], RunOps(s, es, p);
            && Rings.Valid(r) && t in r.items && Rings.LegalRun(r, ops) && Rings.Drop(t) !in ops
            && (Dispatched(s, es, t) <==> exists n: nat :: n <= |ops| && Rings.Progress(r, ops, t, n) > Rings.Distance(r, t))
  {
    hide Rings.LegalRun, Rings.Served, Rings.Progress, Rings.Distance, Dispatched, RunOps;
    ListIsRing(s.lists, p);
    DispatchedIffServed(s, es, t, p);
    RunSpares(s, es, t, p);
    Rings.ServedIff(s.lists.ready[p], RunOps(s, es, p), t);
  }

  // ----- The highest ready priority ---------------------------------------------------------------------

  /** Whenever a switch is made with the scheduler running, nothing above p is ready. */
  ghost predicate Tops(s: Sched, es: seq<Event>, p: int)
    requires Legal(s, es)
    decreases |es|
  {
    es != [] ==>
      && (es[0] == Switch && s.suspendCount == 0 ==> forall t :: s.lists.IsReady(t) ==> s.lists.place[t].priority <= p)
      && Tops(Step(s, es[0]), es[1..], p)
  }

  ghost function Switches(s: Sched, es: seq<Event>): nat
    requires Legal(s, es)
    decreases |es|
  {
    if es == [] then 0
    else (if es[0] == Switch && s.suspendCount == 0 then 1 else 0) + Switches(Step(s, es[0]), es[1..])
  }

  lemma SwitchSelects(s: Sched, t: Task, p: int)
    requires Inv(s) && Enabled(s, Switch) && s.suspendCount == 0 && Steady(s.lists, t, p)
    requires forall u :: s.lists.IsReady(u) ==> s.lists.place[u].priority <= p
    ensures StepOps(s, Switch, p) == [Rings.Select]
  {
    var q := Chosen(s);
    ListIsRing(s.lists, p);
    ListIsRing(s.lists, q);
    assert t in s.lists.ready[p].items;
    var u := Rings.Selected(s.lists.ready[q]);
    assert u in s.lists.ready[q].items && s.lists.IsReady(u);
  }

  lemma {:induction false} EverySwitchSelects(s: Sched, es: seq<Event>, t: Task, p: int)
    requires Legal(s, es) && Steady(s.lists, t, p) && Untouched(s, es, t) && Tops(s, es, p)
    ensures Rings.Selections(RunOps(s, es, p)) == Switches(s, es)
    decreases |es|
  {
    hide Settled, Step, StepOps, Enabled, Moves, Steady;
    if es != [] {
      StepSpares(s, es[0], t, p);
      EverySwitchSelects(Step(s, es[0]), es[1..], t, p);
      Rings.SelectionsOn(StepOps(s, es[0], p), RunOps(Step(s, es[0]), es[1..], p));
      if es[0] == Switch && s.suspendCount == 0 {
        SwitchSelects(s, t, p);
        OneSelection();
      } else {
        NoSelections(s, es[0], p);
        Unselected(StepOps(s, es[0], p));
      }
    }
  }

  lemma OneSelection()
    ensures Rings.Selections<Task>([Rings.Select]) == 1
  {
    var ops: seq<Op> := [Rings.Select];
    assert ops[1..] == [];
  }

  lemma {:induction false} Unselected(ops: seq<Op>)
    requires Rings.Select !in ops
    ensures Rings.Selections(ops) == 0
    decreases |ops|
  {
    if ops != [] {
      assert ops[0] in ops;
      Unselected(ops[1..]);
    }
  }

  /** A ready task with nothing ready above it is given the processor within as many switches as
      its distance in its list and the arrivals while the list's index stood on it, and one. */
  lemma TopTaskIsDispatched(s: Sched, es: seq<Event>, t: Task, p: int)
    requires Legal(s, es) && Steady(s.lists, t, p) && Untouched(s, es, t) && Tops(s, es, p)
    ensures var r, ops := s.lists.ready[p], RunOps(s, es, p);
            && Rings.Valid(r) && t in r.items && Rings.LegalRun(r, ops)
            && (Switches(s, es) > Rings.Distance(r, t) + Rings.Overtakes(r, ops, t) ==> Dispatched(s, es, t))
  {
    hide Rings.LegalRun, Rings.Served, Rings.Overtakes, Rings.Distance, Dispatched, RunOps, Switches;
    ListIsRing(s.lists, p);
    DispatchedIffServed(s, es, t, p);
    RunSpares(s, es, t, p);
    EverySwitchSelects(s, es, t, p);
    Rings.BoundedBypass(s.lists.ready[p], RunOps(s, es, p), t);
  }
}
