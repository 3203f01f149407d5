/** Unbounded time under the 32-bit tick: both delayed lists stay in wake order, a blocked
    task becomes ready exactly when its deadline is processed, across any number of tick
    wraps, and no tick is lost while the scheduler is suspended. */
module SchedulerTime {
  import opened Sequences
  import opened Tasks
  import opened TickTime
  import opened SchedulerState
  import opened SchedulerSteps
  import Lists
  import Rings

  /** Ticks processed since the scheduler started, counted without wrapping. */
  function Now(s: Sched): nat { s.overflows * WRAP + s.tick }

  ghost predicate Blocked(s: Sched, t: Task) {
    t in s.lists.place && s.lists.place[t].InDelay? && t in s.lists.wake
  }

  /** The unbounded time at which a blocked task is due: an item of the overflow list
      belongs to the next round of the counter. */
  ghost function Due(s: Sched, t: Task): int
    requires Blocked(s, t)
  {
    s.overflows * WRAP + (if s.lists.place[t].list == s.current then 0 else WRAP) + s.lists.wake[t]
  }

  ghost predicate Ordered(wake: map<Task, int>, q: seq<Task>) {
    Lists.Sorted(Wakes(wake, q))
  }

  /** xNextTaskUnblockTime never exceeds the head of the current delayed list. */
  ghost predicate NextOk(s: Sched)
    requires |s.lists.delay| == 2 && 0 <= s.current < 2
  {
    s.Delayed() != [] ==> s.nextUnblock <= WakeOf(s.lists.wake, s.Delayed()[0])
  }

  /** No task in the current delayed list is overdue. */
  ghost predicate NoneOverdue(s: Sched)
    requires |s.lists.delay| == 2 && 0 <= s.current < 2
  {
    forall t :: t in s.Delayed() ==> WakeOf(s.lists.wake, t) > s.tick
  }

  ghost predicate Timely(s: Sched) {
    && Inv(s)
    && Ordered(s.lists.wake, s.Delayed())
    && Ordered(s.lists.wake, s.Overflow())
    && NoneOverdue(s)
    && NextOk(s)
  }

  lemma DelayedIsBlocked(s: Sched, t: Task)
    requires Inv(s)
    ensures t in s.Delayed() <==> t in s.lists.place && s.lists.place[t] == InDelay(s.current)
    ensures t in s.Overflow() <==> t in s.lists.place && s.lists.place[t] == InDelay(1 - s.current)
    ensures t in s.lists.place ==> t in s.lists.wake && WakeOf(s.lists.wake, t) == s.lists.wake[t] < WRAP
    ensures t in s.lists.place && s.lists.place[t].InDelay? ==> 0 <= s.lists.place[t].list < 2
  {
    assert Holds(s.lists.place, s.lists.delay[0], InDelay(0));
    assert Holds(s.lists.place, s.lists.delay[1], InDelay(1));
  }

  // ----- Order under removal and insertion ---------------------------------------------

  lemma OrderedWithout(wake: map<Task, int>, q: seq<Task>, t: Task)
    requires Ordered(wake, q)
    ensures Ordered(wake, Without(q, t))
    ensures var r := Without(q, t);
            r != [] ==> q != [] && WakeOf(wake, q[0]) <= WakeOf(wake, r[0])
  {
    hide WakeOf, Rings.IndexOf, Lists.Sorted, Without;
    if t in q {
      var w, k := Wakes(wake, q), Rings.IndexOf(q, t);
      WithoutAt(q, k);
      assert Wakes(wake, Without(q, t)) == w[..k] + w[k + 1..];
      SortedDrop(w, k);
    } else {
      WithoutAbsent(q, t);
    }
  }

  lemma SortedDrop(w: seq<Tick>, k: nat)
    requires Lists.Sorted(w) && k < |w|
    ensures var d := w[..k] + w[k + 1..];
            Lists.Sorted(d) && (d != [] ==> w[0] <= d[0])
  {
    var d := w[..k] + w[k + 1..];
    forall i, j | 0 <= i < j < |d|
      ensures d[i] <= d[j]
    {
      assert d[i] == w[if i < k then i else i + 1] && d[j] == w[if j < k then j else j + 1];
    }
  }

  lemma OrderedSame(wake: map<Task, int>, wake': map<Task, int>, q: seq<Task>)
    requires Ordered(wake, q) && (forall t :: t in q ==> WakeOf(wake', t) == WakeOf(wake, t))
    ensures Ordered(wake', q)
  {
    assert Wakes(wake', q) == Wakes(wake, q);
  }

  lemma OrderedInsert(wake: map<Task, int>, q: seq<Task>, t: Task)
    requires Ordered(wake, q)
    ensures var r := InsertByWake(wake, q, t);
            && Ordered(wake, r)
            && (forall x :: x in r <==> x in q || x == t)
            && WakeOf(wake, r[0]) == if q != [] && WakeOf(wake, q[0]) <= WakeOf(wake, t)
                                     then WakeOf(wake, q[0]) else WakeOf(wake, t)
  {
    var w, v := Wakes(wake, q), WakeOf(wake, t);
    var k := Lists.UpperBound(w, v);
    Lists.InsertKeepsSorted(w, v);
    assert Wakes(wake, q[..k] + [t] + q[k..]) == w[..k] + [v] + w[k..];
    InsertMember(q, k, t);
    if q != [] { assert w[0] == WakeOf(wake, q[0]); }
  }

  lemma InsertMember(q: seq<Task>, k: nat, t: Task)
    requires k <= |q|
    ensures forall x :: x in q[..k] + [t] + q[k..] <==> x in q || x == t
  {
    assert q == q[..k] + q[k..];
  }

  // ----- One tick -----------------------------------------------------------------------

  lemma HeadIsLeast(s: Sched, t: Task)
    requires Inv(s) && Ordered(s.lists.wake, s.Delayed()) && t in s.Delayed()
    ensures WakeOf(s.lists.wake, s.Delayed()[0]) <= WakeOf(s.lists.wake, t)
  {
    var q := s.Delayed();
    var i := Rings.IndexOf(q, t);
    assert Wakes(s.lists.wake, q)[0] <= Wakes(s.lists.wake, q)[i];
  }

  /** One round of the loop of the tick interrupt. */
  lemma UnblockRound(s: Sched) returns (s1: Sched)
    requires Inv(s) && Ordered(s.lists.wake, s.Delayed())
    requires s.Delayed() != [] && s.tick >= WakeOf(s.lists.wake, s.Delayed()[0])
    ensures var t := s.Delayed()[0];
            && t in s.lists.place && t in s.lists.wake && s.lists.place[t] == InDelay(s.current)
            && s.lists.wake[t] <= s.tick
            && s1 == s.(lists := MakeReady(s.lists, t))
    ensures Inv(s1) && UnblockDue(s).0 == UnblockDue(s1).0
    ensures s1.Delayed() == Without(s.Delayed(), s.Delayed()[0]) && s1.Overflow() == s.Overflow()
    ensures Ordered(s1.lists.wake, s1.Delayed())
  {
    var t := s.Delayed()[0];
    DelayedIsBlocked(s, t);
    MakeReadyFromDelay(s.lists, t, s.current);
    OrderedWithout(s.lists.wake, s.Delayed(), t);
    s1 := s.(lists := MakeReady(s.lists, t));
  }

  /** What the loop of the tick interrupt does to the delayed lists as a whole. */
  lemma {:induction false} UnblockDueLists(s: Sched)
    requires Inv(s) && Ordered(s.lists.wake, s.Delayed())
    ensures var r := UnblockDue(s).0;
            && r.lists.wake == s.lists.wake && r.lists.priority == s.lists.priority
            && r.lists.place.Keys == s.lists.place.Keys
            && r.Overflow() == s.Overflow()
            && Ordered(r.lists.wake, r.Delayed()) && NextOk(r) && NoneOverdue(r)
    decreases |s.Delayed()|
  {
    if s.Delayed() != [] {
      DelayedIsBlocked(s, s.Delayed()[0]);
      if s.tick < s.lists.wake[s.Delayed()[0]] {
        forall t | t in s.Delayed()
          ensures WakeOf(s.lists.wake, t) > s.tick
        {
          HeadIsLeast(s, t);
        }
      } else {
        var s1 := UnblockRound(s);
        assert s1.lists.place.Keys == s.lists.place.Keys;
        UnblockDueLists(s1);
      }
    }
  }

  /** The loop unblocks exactly the tasks of the current delayed list whose wake time has
      come, and leaves every other task where it is. */
  lemma {:induction false} UnblockDueTask(s: Sched, t: Task)
    requires Inv(s) && Ordered(s.lists.wake, s.Delayed()) && t in s.lists.place
    ensures var l := UnblockDue(s).0.lists;
            && t in l.place
            && l.place[t] == (if Overdue(s, t) then InReady(s.lists.priority[t]) else s.lists.place[t])
            && l.event[t] == (if Overdue(s, t) then NoEvent else s.lists.event[t])
    decreases |s.Delayed()|
  {
    DelayedIsBlocked(s, t);
    if s.Delayed() == [] {
    } else if s.tick < WakeOf(s.lists.wake, s.Delayed()[0]) {
      NotYet(s, t);
    } else {
      var s1 := UnblockRound(s);
      UnblockDueTask(s1, t);
      RoundOnTask(s, s1, t);
    }
  }

  lemma RoundOnTask(s: Sched, s1: Sched, t: Task)
    requires Inv(s) && t in s.lists.place && s.Delayed() != []
    requires var h := s.Delayed()[0]; Overdue(s, h) && s1 == s.(lists := MakeReady(s.lists, h))
    ensures t in s1.lists.place && t in s1.lists.event && t in s1.lists.priority
    ensures s1.lists.priority == s.lists.priority
    ensures t == s.Delayed()[0] ==>
              Overdue(s, t) && s1.lists.place[t] == InReady(s.lists.priority[t]) && s1.lists.event[t] == NoEvent
    ensures t != s.Delayed()[0] ==>
              Overdue(s1, t) == Overdue(s, t)
              && s1.lists.place[t] == s.lists.place[t] && s1.lists.event[t] == s.lists.event[t]
  {
  }

  ghost predicate Overdue(s: Sched, t: Task) {
    t in s.lists.place && s.lists.place[t] == InDelay(s.current) && WakeOf(s.lists.wake, t) <= s.tick
  }

  lemma NotYet(s: Sched, t: Task)
    requires Inv(s) && Ordered(s.lists.wake, s.Delayed()) && t in s.lists.place
    requires s.Delayed() != [] && s.tick < WakeOf(s.lists.wake, s.Delayed()[0])
    ensures !Overdue(s, t) && UnblockDue(s).0.lists == s.lists
  {
    DelayedIsBlocked(s, t);
    DelayedIsBlocked(s, s.Delayed()[0]);
    if t in s.Delayed() { HeadIsLeast(s, t); }
  }

  /** Counting a tick keeps every deadline: at a wrap the current list is already empty, so
      the switch moves only tasks whose round has come. */
  lemma CountTickKeepsDeadlines(s: Sched)
    requires Timely(s)
    ensures var r := CountTick(s);
            && Now(r) == Now(s) + 1 && r.lists == s.lists
            && Ordered(r.lists.wake, r.Delayed()) && Ordered(r.lists.wake, r.Overflow()) && NextOk(r)
            && (forall t :: Blocked(s, t) ==> Blocked(r, t) && Due(r, t) == Due(s, t))
            && (forall t :: t in r.Delayed() ==> WakeOf(r.lists.wake, t) >= r.tick)
  {
    var r := CountTick(s);
    if r.tick == 0 {
      assert forall t :: t !in s.Delayed();
      assert s.Delayed() == [];
      forall t | Blocked(s, t)
        ensures Due(r, t) == Due(s, t)
      {
        DelayedIsBlocked(s, t);
      }
    }
  }

  /** One processed tick: the task whose deadline it is becomes ready; a blocked task with a
      later deadline stays blocked with the same deadline; any other task stays put. */
  lemma TickOnTask(s: Sched, t: Task)
    requires Timely(s) && t in s.lists.place
    ensures var r := TickNow(s).0;
            && Now(r) == Now(s) + 1 && t in r.lists.place
            && (Blocked(s, t) ==> Due(s, t) > Now(s))
            && (Blocked(s, t) && Due(s, t) == Now(r) ==>
                  r.lists.IsReady(t) && r.lists.event[t] == NoEvent)
            && (Blocked(s, t) && Due(s, t) > Now(r) ==>
                  Blocked(r, t) && Due(r, t) == Due(s, t) && r.lists.event[t] == s.lists.event[t])
            && (!Blocked(s, t) ==>
                  r.lists.place[t] == s.lists.place[t] && r.lists.event[t] == s.lists.event[t])
  {
    var s2, r := CountTick(s), TickNow(s).0;
    CountTickKeepsDeadlines(s);
    DelayedIsBlocked(s, t);
    DelayedIsBlocked(s2, t);
    if s2.tick >= s2.nextUnblock {
      assert r == UnblockDue(s2).0;
      UnblockDueTask(s2, t);
      UnblockDueLists(s2);
      OverdueIsDue(s2, t);
    } else {
      assert r == s2;
      if t in s2.Delayed() { HeadIsLeast(s2, t); }
    }
  }

  lemma OverdueIsDue(s: Sched, t: Task)
    requires Inv(s) && t in s.lists.place
    requires forall t :: t in s.Delayed() ==> WakeOf(s.lists.wake, t) >= s.tick
    ensures Overdue(s, t) <==> Blocked(s, t) && Due(s, t) == Now(s)
    ensures Blocked(s, t) ==> Due(s, t) >= Now(s)
  {
    DelayedIsBlocked(s, t);
  }

  lemma TickKeepsTimely(s: Sched)
    requires Timely(s)
    ensures Timely(TickNow(s).0)
  {
    var s2 := CountTick(s);
    CountTickKeepsDeadlines(s);
    if s2.tick >= s2.nextUnblock {
      UnblockDueLists(s2);
      assert TickNow(s).0 == UnblockDue(s2).0;
    } else {
      assert TickNow(s).0 == s2;
      forall t | t in s2.Delayed()
        ensures WakeOf(s2.lists.wake, t) > s2.tick
      {
        HeadIsLeast(s2, t);
      }
    }
  }
}
