/** What the scheduler answers: when a tick, a resume or a wake-up asks for a context switch, and
    that no ready task of a higher priority is left behind without one being asked for. */
module SchedulerAnswers {
  import opened Sequences
  import opened Tasks
  import opened TickTime
  import opened SchedulerState
  import opened SchedulerSteps
  import opened SchedulerTime
  import opened SchedulerRuns
  import opened SchedulerTheorems
  import opened SchedulerBoot
  import Rings

  // ----- Priorities beside the running task's ---------------------------------------------

  ghost predicate Above(s: Sched, t: Task) {
    t in s.lists.priority && s.running in s.lists.priority && s.lists.priority[t] > s.lists.priority[s.running]
  }

  ghost predicate AtLeast(s: Sched, t: Task) {
    t in s.lists.priority && s.running in s.lists.priority && s.lists.priority[t] >= s.lists.priority[s.running]
  }

  /** A ready task of the running task's priority, as the running task itself may be. */
  ghost predicate Peer(s: Sched, t: Task) {
    s.lists.IsReady(t) && AtLeast(s, t) && !Above(s, t)
  }

  /** Two tasks share the processor at the running task's priority. */
  ghost predicate Rivals(s: Sched) {
    exists t, u :: t != u && Peer(s, t) && Peer(s, u)
  }

  /** Some task with at least the running task's priority is due within k ticks. */
  ghost predicate DueWithin(s: Sched, k: nat) {
    exists t :: Blocked(s, t) && Due(s, t) <= Now(s) + k && AtLeast(s, t)
  }

  /** Some such task waits on the pending ready list. */
  ghost predicate PendingAtLeast(s: Sched) {
    exists t :: t in s.lists.pending && AtLeast(s, t)
  }

  // ----- The tick ---------------------------------------------------------------------------

  lemma ShareIff(s: Sched)
    requires Inv(s)
    ensures SharesPriority(s) <==> Rivals(s)
  {
    var p := s.lists.priority[s.running];
    var q := s.lists.ready[p].items;
    assert Holds(s.lists.place, q, InReady(p));
    assert forall t :: Peer(s, t) <==> t in q;
    if |q| > 1 {
      assert Peer(s, q[0]) && Peer(s, q[1]);
    }
    if t, u :| t != u && Peer(s, t) && Peer(s, u) {
      assert t in q && u in q;
    }
  }

  lemma {:induction false} UnblockAnswer(s: Sched)
    requires Inv(s) && Ordered(s.lists.wake, s.Delayed())
    ensures UnblockDue(s).1 <==> exists t :: Overdue(s, t) && AtLeast(s, t)
    decreases |s.Delayed()|
  {
    hide Settled, Ordered, AtLeast, UnblockDue;
    DelayHead(s);
    if s.Delayed() == [] {
      forall t ensures !Overdue(s, t) { NoneOverdueWhenEmpty(s, t); }
    } else if s.tick < WakeOf(s.lists.wake, s.Delayed()[0]) {
      forall t ensures !Overdue(s, t) {
        if t in s.lists.place { NotYet(s, t); } else { AbsentIsNotOverdue(s, t); }
      }
    } else {
      var s1 := UnblockRound(s);
      UnblockDueRound(s);
      UnblockAnswer(s1);
      DelayedIsBlocked(s, s.Delayed()[0]);
      RoundAnswer(s, s1);
    }
  }

  lemma NoneOverdueWhenEmpty(s: Sched, t: Task)
    requires Inv(s) && s.Delayed() == []
    ensures !Overdue(s, t)
  {
    DelayedIsBlocked(s, t);
  }

  lemma AbsentIsNotOverdue(s: Sched, t: Task)
    requires t !in s.lists.place
    ensures !Overdue(s, t)
  {
  }

  /** One round of the loop takes its head off the overdue tasks, and no other. */
  lemma RoundAnswer(s: Sched, s1: Sched)
    requires Inv(s) && s.Delayed() != []
    requires var h := s.Delayed()[0]; Overdue(s, h) && s1 == s.(lists := MakeReady(s.lists, h))
    ensures var h := s.Delayed()[0];
            && AtLeast(s, h) == (s.lists.priority[h] >= s.lists.priority[s.running])
            && ((exists t :: Overdue(s, t) && AtLeast(s, t))
                <==> AtLeast(s, h) || exists t :: Overdue(s1, t) && AtLeast(s1, t))
  {
    RunningIsLive(s);
    hide Settled;
    var h := s.Delayed()[0];
    RoundOnTask(s, s1, h);
    forall t
      ensures AtLeast(s1, t) == AtLeast(s, t)
      ensures Overdue(s, t) <==> t == h || Overdue(s1, t)
    {
      if t in s.lists.place { RoundOnTask(s, s1, t); }
    }
  }

  lemma TickParts(s: Sched)
    requires Inv(s)
    ensures var s2, r := CountTick(s), TickNow(s);
            && r.0.running == s.running && r.0.yieldPending == s.yieldPending
            && r.1 == ((s2.tick >= s2.nextUnblock && UnblockDue(s2).1) || SharesPriority(r.0) || s.yieldPending)
  {
    hide Settled;
  }

  lemma CountedOverdue(s: Sched, t: Task)
    requires Timely(s)
    ensures var s2 := CountTick(s);
            && (Overdue(s2, t) <==> Blocked(s, t) && Due(s, t) <= Now(s) + 1)
            && (Overdue(s2, t) ==> s2.tick >= s2.nextUnblock)
            && AtLeast(s2, t) == AtLeast(s, t)
  {
    hide Settled, Ordered, NoneOverdue;
    var s2 := CountTick(s);
    CountTickKeepsDeadlines(s);
    DelayedIsBlocked(s, t);
    DelayedIsBlocked(s2, t);
    if t in s.lists.place {
      TickOnTask(s, t);
      OverdueIsDue(s2, t);
      if t in s2.Delayed() { HeadIsLeast(s2, t); }
    }
  }

  /** The loop of the tick interrupt finds a task to switch to exactly when one is due. */
  lemma TickUnblocks(s: Sched)
    requires Timely(s)
    ensures var s2 := CountTick(s); s2.tick >= s2.nextUnblock && UnblockDue(s2).1 <==> DueWithin(s, 1)
  {
    assert Inv(s);
    hide Timely, Inv, Overdue, AtLeast, Blocked, Due;
    var s2 := CountTick(s);
    forall t ensures (Overdue(s2, t) <==> Blocked(s, t) && Due(s, t) <= Now(s) + 1)
                     && (Overdue(s2, t) ==> s2.tick >= s2.nextUnblock) && AtLeast(s2, t) == AtLeast(s, t) {
      CountedOverdue(s, t);
    }
    CountTickKeepsDeadlines(s);
    UnblockAnswer(s2);
  }

  /** When nobody of at least that priority is due, the tick leaves the peers as they were. */
  lemma TickOnPeer(s: Sched, t: Task)
    requires Timely(s) && !DueWithin(s, 1)
    ensures Peer(TickNow(s).0, t) == Peer(s, t)
  {
    hide Settled, Ordered, NoneOverdue, NextOk;
    TickKeepsPriorities(s);
    if t in s.lists.place { TickOnTask(s, t); }
  }

  lemma TickKeepsPriorities(s: Sched)
    requires Timely(s)
    ensures var r := TickNow(s).0;
            r.running == s.running && r.lists.priority == s.lists.priority && r.lists.place.Keys == s.lists.place.Keys
  {
    hide Settled, Ordered, NoneOverdue, NextOk;
    CountTickKeepsDeadlines(s);
    UnblockDueLists(CountTick(s));
    TickIsCountThenUnblock(s);
  }

  /** A tick asks for a switch exactly when it is the deadline of a task with at least the
      running task's priority, or two ready tasks share that priority, or a yield was pending. */
  lemma TickAnswer(s: Sched)
    requires Timely(s)
    ensures TickNow(s).1 <==> DueWithin(s, 1) || Rivals(s) || s.yieldPending
  {
    assert Inv(s);
    hide Timely, Inv, DueWithin, Peer, TickNow, CountTick, UnblockDue, SharesPriority;
    TickParts(s);
    TickUnblocks(s);
    ShareIff(TickNow(s).0);
    if !DueWithin(s, 1) {
      forall t ensures Peer(TickNow(s).0, t) == Peer(s, t) { TickOnPeer(s, t); }
    }
  }

  /** While the running task is ready, it is one of the two. */
  lemma RunningHasRival(s: Sched)
    requires Inv(s) && s.lists.IsReady(s.running)
    ensures Rivals(s) <==> exists t :: t != s.running && s.lists.IsReady(t) && s.lists.priority[t] == s.lists.priority[s.running]
  {
    assert Peer(s, s.running);
    if t :| t != s.running && s.lists.IsReady(t) && s.lists.priority[t] == s.lists.priority[s.running] {
      assert Peer(s, t);
    }
  }

  /** The same with the scheduler suspended or not: a suspended tick is pended, moves nothing, and
      only reports a yield that is already pending. */
  lemma IncrementTickAnswer(s: Sched)
    requires Timely(s)
    ensures IncrementTick(s).1 <==> s.yieldPending || (s.suspendCount == 0 && (DueWithin(s, 1) || Rivals(s)))
    ensures s.suspendCount > 0 ==> IncrementTick(s).0 == s.(pendedTicks := s.pendedTicks + 1)
  {
    hide Timely, Inv;
    TickAnswer(s);
  }

  // ----- Resuming the scheduler ----------------------------------------------------------------

  lemma {:induction false} ReplayAnswer(s: Sched, n: nat)
    requires Timely(s)
    ensures Replay(s, n).yieldPending <==> s.yieldPending || (n > 0 && Rivals(s)) || DueWithin(s, n)
    decreases n
  {
    hide Settled, Ordered, NoneOverdue, NextOk, Rivals, DueWithin, TickNow;
    if n == 0 {
      NoneDueNow(s);
    } else {
      var (s1, wanted) := TickNow(s);
      var s2 := s1.(yieldPending := s1.yieldPending || wanted);
      TickKeepsTimely(s);
      TimelyScalars(s1, s2);
      TickAnswer(s);
      ReplayAnswer(s2, n - 1);
      AfterTick(s, n);
    }
  }

  lemma NoneDueNow(s: Sched)
    requires Timely(s)
    ensures !DueWithin(s, 0)
  {
    hide Settled, Ordered, NextOk;
    forall t ensures !(Blocked(s, t) && Due(s, t) <= Now(s)) { DelayedIsBlocked(s, t); }
  }

  /** What is due or shares the priority after a tick that found nothing, and before it. */
  lemma AfterTick(s: Sched, n: nat)
    requires Timely(s) && n > 0
    ensures var (s1, wanted) := TickNow(s);
            var s2 := s1.(yieldPending := s1.yieldPending || wanted);
            && (DueWithin(s, 1) ==> DueWithin(s, n))
            && (!DueWithin(s, 1) ==> Rivals(s2) == Rivals(s) && DueWithin(s2, n - 1) == DueWithin(s, n))
            && s2.yieldPending == (s.yieldPending || wanted)
  {
    hide Settled, Ordered, NoneOverdue, NextOk, TickNow;
    TickKeepsPriorities(s);
    TickParts(s);
    var (s1, wanted) := TickNow(s);
    var s2 := s1.(yieldPending := s1.yieldPending || wanted);
    if !DueWithin(s, 1) {
      forall t ensures Peer(s2, t) == Peer(s, t) {
        TickOnPeer(s, t);
        assert Peer(s2, t) == Peer(s1, t);
      }
      forall t
        ensures (Blocked(s2, t) && Due(s2, t) <= Now(s2) + (n - 1) && AtLeast(s2, t))
                == (Blocked(s, t) && Due(s, t) <= Now(s) + n && AtLeast(s, t))
      {
        DelayedIsBlocked(s, t);
        if t in s.lists.place { TickOnTask(s, t); }
      }
    }
  }

  lemma {:induction false} MovePendingAnswer(s: Sched)
    requires Inv(s)
    ensures var r := MovePending(s);
            && (r.yieldPending <==> s.yieldPending || PendingAtLeast(s))
            && r.lists.priority == s.lists.priority && r.lists.place.Keys == s.lists.place.Keys
            && r.lists.wake == s.lists.wake
    decreases |s.lists.pending|
  {
    hide Settled, MoveHead, PendingAtLeast;
    if s.lists.pending == [] {
      NonePending(s);
    } else {
      MoveHeadAnswer(s);
      MovePendingAnswer(MoveHead(s));
    }
  }

  lemma NonePending(s: Sched)
    requires s.lists.pending == []
    ensures !PendingAtLeast(s)
  {
  }

  /** One round takes the head off the pending list, and asks for a yield when it should. */
  lemma MoveHeadAnswer(s: Sched)
    requires Inv(s) && s.lists.pending != []
    ensures var r := MoveHead(s);
            && (r.yieldPending || PendingAtLeast(r) <==> s.yieldPending || PendingAtLeast(s))
            && r.lists.priority == s.lists.priority && r.lists.place.Keys == s.lists.place.Keys
            && r.lists.wake == s.lists.wake
  {
    var h, r := s.lists.pending[0], MoveHead(s);
    RunningIsLive(s);
    PendingIsLive(s.lists, h);
    assert r.yieldPending <==> s.yieldPending || AtLeast(s, h);
    hide Settled, MakeReady;
    forall t ensures t in s.lists.pending <==> t == h || t in r.lists.pending {
      if t in s.lists.pending && t != h { StillPending(s.lists, h, t); }
      if t in r.lists.pending { StaysPending(s.lists, h, t); }
    }
    assert forall t :: AtLeast(r, t) == AtLeast(s, t);
  }

  lemma StaysPending(l: TaskLists, h: Task, t: Task)
    requires Settled(l) && h in l.pending && h in l.place && t in MakeReady(l, h).pending
    ensures t in l.pending && t != h
  {
    WithoutMembers(l.pending, h);
    assert l.event[h] == PendingReady;
  }

  /** Gathering the pending tasks changes nothing for the others. */
  lemma GatheredOther(s: Sched, t: Task)
    requires Timely(s) && t !in s.lists.pending
    ensures var r := Gathered(s);
            && Peer(r, t) == Peer(s, t) && AtLeast(r, t) == AtLeast(s, t) && Now(r) == Now(s)
            && Blocked(r, t) == Blocked(s, t) && (Blocked(s, t) ==> Due(r, t) == Due(s, t))
  {
    hide Settled, Ordered, NoneOverdue, NextOk, MovePending;
    MovePendingAnswer(s);
    if t in s.lists.place {
      DelayedIsBlocked(s, t);
      NotPending(s, t);
      MovePendingOnTask(s, t);
    }
  }

  lemma NotPending(s: Sched, t: Task)
    requires Inv(s) && t in s.lists.place && t !in s.lists.pending
    ensures t in s.lists.event && s.lists.event[t] != PendingReady
  {
  }

  lemma GatheredAnswer(s: Sched, k: nat)
    requires Timely(s)
    ensures var r := Gathered(s);
            && Timely(r) && r.pendedTicks == s.pendedTicks
            && (r.yieldPending <==> s.yieldPending || PendingAtLeast(s))
            && (!PendingAtLeast(s) ==> Rivals(r) == Rivals(s) && DueWithin(r, k) == DueWithin(s, k))
  {
    hide Settled, Ordered, NoneOverdue, NextOk, MovePending;
    MovePendingTimely(s);
    ResetTimely(MovePending(s));
    MovePendingAnswer(s);
    var r := Gathered(s);
    if !PendingAtLeast(s) {
      forall t
        ensures Peer(r, t) == Peer(s, t)
        ensures (Blocked(r, t) && Due(r, t) <= Now(r) + k && AtLeast(r, t))
                == (Blocked(s, t) && Due(s, t) <= Now(s) + k && AtLeast(s, t))
      {
        assert AtLeast(r, t) == AtLeast(s, t);
        if t !in s.lists.pending { GatheredOther(s, t); }
      }
    }
  }

  /** When the last resume asks for a switch: a yield was pending, or some task on the pending
      ready list has at least the running task's priority, or so has some task that a pended tick
      wakes, or two ready tasks share that priority when a tick was pended. */
  ghost predicate WantsSwitch(s: Sched) {
    s.yieldPending || PendingAtLeast(s) || DueWithin(s, s.pendedTicks) || (s.pendedTicks > 0 && Rivals(s))
  }

  lemma ResumeAllAnswer(s: Sched)
    requires Timely(s) && s.suspendCount == 1
    ensures SchedulerSteps.ResumeAll(s).yieldPending <==> WantsSwitch(s)
  {
    hide Settled, Ordered, NoneOverdue, NextOk, Rivals, DueWithin, PendingAtLeast, MovePending, Replay;
    var s1 := s.(suspendCount := 0);
    TimelyScalars(s, s1);
    GatheredAnswer(s1, s.pendedTicks);
    ReplayAnswer(Gathered(s1), s.pendedTicks);
    SameWants(s, s1);
    assert SchedulerSteps.ResumeAll(s) == Replay(Gathered(s1), s.pendedTicks).(pendedTicks := 0);
  }

  lemma SameWants(s: Sched, r: Sched)
    requires r == s.(yieldPending := r.yieldPending, suspendCount := r.suspendCount, pendedTicks := r.pendedTicks)
    ensures PendingAtLeast(r) == PendingAtLeast(s) && Rivals(r) == Rivals(s)
    ensures forall k: nat :: DueWithin(r, k) == DueWithin(s, k)
  {
    assert forall t :: AtLeast(r, t) == AtLeast(s, t) && Peer(r, t) == Peer(s, t);
    assert forall t :: Blocked(r, t) == Blocked(s, t) && (Blocked(s, t) ==> Due(r, t) == Due(s, t));
  }

  // ----- The next unblock time -------------------------------------------------------------------

  /** An exact xNextTaskUnblockTime is the earliest deadline there is, so that every tick before it
      can skip the delayed list. */
  lemma NextIsEarliest(s: Sched)
    requires Timely(s) && NextExact(s) && s.Delayed() != []
    ensures exists t :: Blocked(s, t) && Due(s, t) == s.overflows * WRAP + s.nextUnblock
    ensures forall t :: Blocked(s, t) ==> Due(s, t) >= s.overflows * WRAP + s.nextUnblock
  {
    hide Settled, Ordered, NoneOverdue, NextOk;
    var h := s.Delayed()[0];
    DelayedIsBlocked(s, h);
    assert Blocked(s, h) && Due(s, h) == s.overflows * WRAP + s.nextUnblock;
    forall t | Blocked(s, t)
      ensures Due(s, t) >= s.overflows * WRAP + s.nextUnblock
    {
      DelayedIsBlocked(s, t);
      if t in s.Delayed() { HeadIsLeast(s, t); }
    }
  }

  lemma TickKeepsNextExact(s: Sched)
    requires Timely(s) && NextExact(s)
    ensures NextExact(TickNow(s).0)
  {
    hide Settled, Ordered, NoneOverdue, NextOk;
    TickIsCountThenUnblock(s);
    CountKeepsNextExact(s);
  }

  lemma CountKeepsNextExact(s: Sched)
    requires Inv(s) && NextExact(s)
    ensures NextExact(CountTick(s))
  {
  }

  lemma {:induction false} ReplayKeepsNextExact(s: Sched, n: nat)
    requires Timely(s) && NextExact(s)
    ensures NextExact(Replay(s, n))
    decreases n
  {
    hide Settled, Ordered, NoneOverdue, NextOk, TickNow;
    if n > 0 {
      var (s1, wanted) := TickNow(s);
      var s2 := s1.(yieldPending := s1.yieldPending || wanted);
      TickKeepsNextExact(s);
      TickKeepsTimely(s);
      TimelyScalars(s1, s2);
      ReplayKeepsNextExact(s2, n - 1);
    }
  }

  /** A resume that moves some pending task, and so may have emptied the delayed list of its head,
      leaves the next unblock time exact. */
  lemma ResumeAllResetsNext(s: Sched)
    requires Timely(s) && s.suspendCount == 1 && s.lists.pending != []
    ensures NextExact(SchedulerSteps.ResumeAll(s))
  {
    hide Settled, Ordered, NoneOverdue, NextOk, MovePending, Replay;
    var s1 := s.(suspendCount := 0);
    TimelyScalars(s, s1);
    MovePendingTimely(s1);
    ResetTimely(MovePending(s1));
    ReplayKeepsNextExact(Gathered(s1), s.pendedTicks);
    assert SchedulerSteps.ResumeAll(s) == Replay(Gathered(s1), s.pendedTicks).(pendedTicks := 0);
  }
}
