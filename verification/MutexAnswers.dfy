/** What a task is told that gives a mutex back: falling from an inherited priority may leave it
    below a ready task, and then it has to yield. */
module MutexAnswers {
  import opened Sequences
  import opened Tasks
  import opened Mutexes
  import opened MutexBound

  /** The semaphore itself goes back: a recursive mutex does with its last give only. */
  predicate Releases(s: State, m: Mutex)
    requires m in s.mutexes
  {
    m !in s.recursive || s.mutexes[m].recursion == 1
  }

  /** Whether giving yields (xQueueGenericSend): for the first waiter, which is woken, if there is
      one, and otherwise as xTaskPriorityDisinherit says. */
  function Yields(s: State, t: Task, m: Mutex): bool
    requires Enabled(s, Give(t, m))
  {
    && Releases(s, m)
    && var q := s.mutexes[m].waiters;
       if q == [] then Disinherit(s.tcbs[t]).1 else s.tcbs[q[0]].priority > Disinherit(s.tcbs[t]).0.priority
  }

  /** The giver falls to its base exactly with the last mutex it holds, and nobody else's TCB
      changes. */
  lemma GiverFalls(s: State, t: Task, m: Mutex)
    requires Conserved(s) && Enabled(s, Give(t, m))
    ensures var r := Step(s, Give(t, m));
            && t in r.tcbs
            && r.tcbs[t].priority == (if Releases(s, m) && HeldBy(s, t) == {m} then s.tcbs[t].base else s.tcbs[t].priority)
            && r.tcbs[t].base == s.tcbs[t].base
            && r.tcbs.Keys == s.tcbs.Keys && forall u :: u in s.tcbs && u != t ==> r.tcbs[u] == s.tcbs[u]
  {
    assert TaskOk(s, t) && MutexOk(s, m) && m in HeldBy(s, t);
    if |HeldBy(s, t)| == 1 {
      OneOf(HeldBy(s, t), m);
    }
  }

  lemma OneOf<T>(a: set<T>, x: T)
    requires x in a && |a| == 1
    ensures a == {x}
  {
    assert a == {x} + (a - {x});
  }

  /** Without a waiter the giver yields exactly when its priority has changed. */
  lemma FallIsAnswered(s: State, t: Task, m: Mutex)
    requires Conserved(s) && Enabled(s, Give(t, m)) && Releases(s, m) && s.mutexes[m].waiters == []
    ensures var r := Step(s, Give(t, m));
            t in r.tcbs && (Yields(s, t, m) <==> r.tcbs[t].priority != s.tcbs[t].priority)
  {
  }

  /** With one it yields exactly when the woken task has the higher priority. */
  lemma WakeIsAnswered(s: State, t: Task, m: Mutex)
    requires Conserved(s) && Enabled(s, Give(t, m)) && Releases(s, m) && s.mutexes[m].waiters != []
    ensures var r, w := Step(s, Give(t, m)), s.mutexes[m].waiters[0];
            && t in r.tcbs && w in r.tcbs && w in r.ready
            && (Yields(s, t, m) <==> r.tcbs[w].priority > r.tcbs[t].priority)
  {
    var w := s.mutexes[m].waiters[0];
    assert MutexOk(s, m) && w in s.mutexes[m].waiters && TaskOk(s, t);
  }

  /** No ready task outranks t. */
  ghost predicate Leads(s: State, t: Task) {
    t in s.tcbs && forall u :: u in s.ready && u in s.tcbs ==> s.tcbs[u].priority <= s.tcbs[t].priority
  }

  /** The last mutex of a task goes back to a waiter no higher than the task's base while another
      ready task is above it. */
  ghost predicate OutOfTurn(s: State, t: Task, m: Mutex)
    requires Enabled(s, Give(t, m))
  {
    && Releases(s, m) && HeldBy(s, t) == {m}
    && s.mutexes[m].waiters != [] && s.tcbs[s.mutexes[m].waiters[0]].priority <= s.tcbs[t].base
    && exists u :: u in s.ready && u in s.tcbs && u != t && s.tcbs[u].priority > s.tcbs[t].base
  }

  /** A giver that falls below a ready task is told to yield, except out of turn. */
  lemma GiverIsToldIff(s: State, t: Task, m: Mutex)
    requires Conserved(s) && Enabled(s, Give(t, m)) && Leads(s, t)
    ensures Leads(Step(s, Give(t, m)), t) || Yields(s, t, m) <==> !OutOfTurn(s, t, m)
  {
    hide Conserved, Disinherit;
    GiverFalls(s, t, m);
    ReadyAfterGive(s, t, m);
    if Releases(s, m) {
      if s.mutexes[m].waiters == [] { FallIsAnswered(s, t, m); } else { WakeIsAnswered(s, t, m); }
    }
  }

  /** Giving makes the first waiter ready, and nobody else. */
  lemma ReadyAfterGive(s: State, t: Task, m: Mutex)
    requires Conserved(s) && Enabled(s, Give(t, m))
    ensures var q := s.mutexes[m].waiters;
            Step(s, Give(t, m)).ready == if Releases(s, m) && q != [] then s.ready + {q[0]} else s.ready
  {
  }

  // ----- Over runs ---------------------------------------------------------------------------------

  /** Every giver that no ready task outranks when it gives is told when one then does. */
  ghost predicate AlwaysTold(s: State, es: seq<Event>)
    requires LegalRun(s, es)
    decreases |es|
  {
    es != [] ==>
      && (es[0].Give? && Leads(s, es[0].t) ==> Leads(Step(s, es[0]), es[0].t) || Yields(s, es[0].t, es[0].m))
      && AlwaysTold(Step(s, es[0]), es[1..])
  }

  ghost predicate NeverOutOfTurn(s: State, es: seq<Event>)
    requires LegalRun(s, es)
    decreases |es|
  {
    es != [] ==>
      && (es[0].Give? && Leads(s, es[0].t) ==> !OutOfTurn(s, es[0].t, es[0].m))
      && NeverOutOfTurn(Step(s, es[0]), es[1..])
  }

  lemma {:induction false} ToldIff(s: State, es: seq<Event>)
    requires Conserved(s) && LegalRun(s, es)
    ensures AlwaysTold(s, es) <==> NeverOutOfTurn(s, es)
    decreases |es|
  {
    hide Conserved, Enabled, Step, Leads, Yields, OutOfTurn;
    if es != [] {
      if es[0].Give? && Leads(s, es[0].t) { GiverIsToldIff(s, es[0].t, es[0].m); }
      StepConserves(s, es[0]);
      ToldIff(Step(s, es[0]), es[1..]);
    }
  }

  /** From the start on, over every run, a giver that falls below a ready task is told to yield
      exactly when no task gives its last mutex back out of turn. */
  lemma GiversAreToldIff(bases: map<Task, int>, mutexes: set<Mutex>, recursive: set<Mutex>, es: seq<Event>)
    requires LegalRun(Start(bases, mutexes, recursive), es)
    ensures AlwaysTold(Start(bases, mutexes, recursive), es) <==> NeverOutOfTurn(Start(bases, mutexes, recursive), es)
  {
    StartConserves(bases, mutexes, recursive);
    ToldIff(Start(bases, mutexes, recursive), es);
  }

  /** A task that holds one mutex at a time, the waiters of which gave it the priority it runs at,
      is always told: the waiter it wakes is the one it inherited from. */
  lemma SingleGiverIsTold(s: State, t: Task, m: Mutex)
    requires Conserved(s) && Enabled(s, Give(t, m)) && Leads(s, t)
    requires s.mutexes[m].waiters != [] ==> s.tcbs[s.mutexes[m].waiters[0]].priority >= s.tcbs[t].priority
    ensures Leads(Step(s, Give(t, m)), t) || Yields(s, t, m)
  {
    hide Conserved, Enabled, Step;
    GiverIsToldIff(s, t, m);
  }

  // ----- What blocking and giving up do to the holder ---------------------------------------------

  /** Blocking raises the holder to the blocked task's priority if that is the higher, and the task
      remembers that it did when the holder's base is lower, or its priority was. */
  lemma BlockRaises(s: State, t: Task, m: Mutex)
    requires Conserved(s) && Enabled(s, Block(t, m)) && Holder(s, m).Some? && Holder(s, m) != Some(t)
    ensures var r, h := Step(s, Block(t, m)), Holder(s, m).value;
            && t in r.mutexes[m].waiters && t !in r.ready && h in r.tcbs && h in s.tcbs
            && r.tcbs[h].priority == Max(s.tcbs[h].priority, s.tcbs[t].priority) && r.tcbs[h].base == s.tcbs[h].base
            && r.pc[t] == Blocked(m, Min(s.tcbs[h].priority, s.tcbs[h].base) < s.tcbs[t].priority)
            && r.tcbs.Keys == s.tcbs.Keys && forall u :: u in s.tcbs && u != h ==> r.tcbs[u] == s.tcbs[u]
  {
    var h := Holder(s, m).value;
    PlaceMembers(s.tcbs[h := Inherit(s.tcbs[h], s.tcbs[t].priority).0], s.mutexes[m].waiters, t);
  }

  /** Giving up brings a holder of that mutex alone down to the higher of its base and the first
      task still waiting, if the one that leaves had raised it; a holder of several stays. */
  lemma GiveUpSettles(s: State, t: Task)
    requires Conserved(s) && Enabled(s, GiveUp(t)) && Holder(s, s.pc[t].m).Some?
    ensures var r, m := Step(s, GiveUp(t)), s.pc[t].m;
            var h, q := Holder(s, m).value, s.mutexes[m].waiters;
            && h in s.tcbs && h in r.tcbs && r.mutexes == s.mutexes && r.pc == s.pc[t := Idle]
            && r.tcbs[h].priority
               == (if s.pc[t].inherited && HeldBy(s, h) == {m}
                   then Max(s.tcbs[h].base, if q == [] then IDLE_PRIORITY else s.tcbs[q[0]].item) else s.tcbs[h].priority)
            && r.tcbs.Keys == s.tcbs.Keys && forall u :: u in s.tcbs && u != h ==> r.tcbs[u] == s.tcbs[u]
  {
    var m := s.pc[t].m;
    var h := Holder(s, m).value;
    assert TaskOk(s, h) && m in HeldBy(s, h);
    if |HeldBy(s, h)| == 1 {
      OneOf(HeldBy(s, h), m);
    }
  }

  /** A waiter that had raised the holder, times out and finds the mutex still taken: it leaves the
      list, gives up, and a holder of that mutex alone is brought down to the higher of its base
      and the first task that waits on. */
  lemma TimedOutWaiterLetsGo(s: State, t: Task, m: Mutex)
    requires Conserved(s) && t in s.pc && s.pc[t] == Blocked(m, true) && m in s.mutexes
    requires Holder(s, m).Some? && Holder(s, m) != Some(t)
    ensures var a := s.(pc := s.pc[t := TimedOut(m, true)], ready := s.ready + {t},
                        mutexes := s.mutexes[m := s.mutexes[m].(waiters := Without(s.mutexes[m].waiters, t))]);
            var b := a.(pc := a.pc[t := Leaving(m, true)]);
            && Enabled(s, TimeOut(t)) && Step(s, TimeOut(t)) == a && Enabled(a, Look(t)) && Step(a, Look(t)) == b
            && Enabled(b, GiveUp(t))
            && var (r, h, q) := (Step(b, GiveUp(t)), Holder(s, m).value, Without(s.mutexes[m].waiters, t));
               && t in r.pc && r.pc[t] == Idle && h in r.tcbs && h in s.tcbs
               && (HeldBy(s, h) == {m} ==>
                     AllIn(q, s.tcbs)
                     && r.tcbs[h].priority == Max(s.tcbs[h].base, if q == [] then IDLE_PRIORITY else s.tcbs[q[0]].item))
  {
    var h := Holder(s, m).value;
    var a := Step(s, TimeOut(t));
    TimeOutConserves(s, t);
    TimedOutLooks(s, t, m);
    var b := Step(a, Look(t));
    StepConserves(a, Look(t));
    SameHeld(s, b, h);
    hide Conserved, Enabled, Step, HeldBy;
    GiveUpSettles(b, t);
  }

  lemma TimedOutLooks(s: State, t: Task, m: Mutex)
    requires Conserved(s) && t in s.pc && s.pc[t] == Blocked(m, true) && m in s.mutexes && Holder(s, m).Some?
    ensures var a := Step(s, TimeOut(t));
            Conserved(a) ==> Enabled(a, Look(t)) && Enabled(Step(a, Look(t)), GiveUp(t))
  {
    assert TaskOk(s, t) && MutexOk(s, m);
  }

  // ----- Event items in use ---------------------------------------------------------------------------

  /** A task that waits for an event group keeps what it stored in its event item: inheritance,
      disinheritance and new priorities leave the item alone until the task itself reads the
      outcome, and the task is at no mutex meanwhile. */
  lemma {:induction false} ItemInUseIsKept(s: State, t: Task, es: seq<Event>)
    requires Conserved(s) && t in s.tcbs && s.tcbs[t].inUse && LegalRun(s, es)
    requires forall i :: 0 <= i < |es| ==> es[i] != ReadBits(t)
    ensures var r := Run(s, es);
            t in r.tcbs && r.tcbs[t].inUse && r.tcbs[t].item == s.tcbs[t].item && t in r.pc && r.pc[t] == Idle
    decreases |es|
  {
    assert TaskOk(s, t);
    if es != [] {
      StepKeepsItem(s, es[0], t);
      StepConserves(s, es[0]);
      ItemInUseIsKept(Step(s, es[0]), t, es[1..]);
    }
  }

  lemma StepKeepsItem(s: State, e: Event, t: Task)
    requires Enabled(s, e) && t in s.tcbs && s.tcbs[t].inUse && e != ReadBits(t)
    ensures t in Step(s, e).tcbs && Step(s, e).tcbs[t].inUse && Step(s, e).tcbs[t].item == s.tcbs[t].item
  {
  }

  /** The wait puts the item in use; reading the outcome gives it the task's priority again. */
  lemma WaitForBitsAndBack(s: State, t: Task)
    requires Conserved(s) && Enabled(s, AwaitBits(t))
    ensures var r := Step(s, AwaitBits(t));
            && r.tcbs[t].inUse && r.tcbs[t].item == s.tcbs[t].item && t !in r.ready
            && (forall m :: m in s.mutexes ==> !Enabled(r, Take(t, m)) && !Enabled(r, Give(t, m)))
            && Enabled(r, Wake(t)) && Enabled(Step(r, Wake(t)), ReadBits(t))
            && var q := Step(Step(r, Wake(t)), ReadBits(t));
               !q.tcbs[t].inUse && q.tcbs[t].item == q.tcbs[t].priority && CanRun(q, t)
  {
  }

  // ----- A run on which a giver is not told -----------------------------------------------------------

  /** Task 1 with base 2, task 2 with base 4 and task 3 with base 1, and two mutexes. */
  function Trio(first: Tcb, second: Pc, third: Pc, ready: set<Task>, a: Queue, b: Queue): State {
    State(map[1 := first, 2 := Plain(4, 4, 0), 3 := Plain(1, 1, 0)], map[1 := Idle, 2 := second, 3 := third], ready,
          map[1 := a, 2 := b], {})
  }

  const BASES: map<Task, int> := map[1 := 2, 2 := 4, 3 := 1]

  lemma TrioStarts()
    ensures Start(BASES, {1, 2}, {})
         == Trio(Plain(2, 2, 0), Idle, Idle, {1, 2, 3}, Queue(1, None, 0, []), Queue(1, None, 0, []))
  {
    var s := Start(BASES, {1, 2}, {});
    assert BASES.Keys == {1, 2, 3};
    assert s.tcbs == map[1 := Plain(2, 2, 0), 2 := Plain(4, 4, 0), 3 := Plain(1, 1, 0)];
    assert s.pc == map[1 := Idle, 2 := Idle, 3 := Idle];
    assert s.mutexes == map[1 := Queue(1, None, 0, []), 2 := Queue(1, None, 0, [])];
  }

  /** Task 1 has both mutexes, which task 2 and task 3 wait for; task 2 has raised it to 4. */
  function Waited(): State {
    Trio(Plain(4, 2, 2), Blocked(1, true), Blocked(2, false), {1}, Queue(0, Some(1), 0, [2]), Queue(0, Some(1), 0, [3]))
  }

  /** Task 1 has given the first one back, and task 2 is ready. */
  function Reached(): State {
    Trio(Plain(4, 2, 1), Woken(1, true), Blocked(2, false), {1, 2}, Queue(1, None, 0, []), Queue(0, Some(1), 0, [3]))
  }

  lemma Rested(first: Tcb, third: Pc, ready: set<Task>, a: Queue, b: Queue, t: Task)
    requires t == 1 || t == 2
    requires a.waiters == [] && b.waiters in {[], [3]} && a.holder in {None, Some(1)} && b.holder in {None, Some(1)}
    requires ready <= {1, 2, 3} && (!third.Idle? ==> third.m == 2)
    ensures var s := Trio(first, Idle, third, ready, a, b);
            && (t in ready && !first.inUse ==> Enabled(s, Sleep(t)) && Step(s, Sleep(t)) == s.(ready := ready - {t}))
            && Enabled(s, Wake(t)) && Step(s, Wake(t)) == s.(ready := ready + {t})
  {
  }

  lemma FirstTaken()
    ensures var s := Trio(Plain(2, 2, 0), Idle, Idle, {1, 3}, Queue(1, None, 0, []), Queue(1, None, 0, []));
            && Enabled(s, Take(1, 1))
            && Step(s, Take(1, 1)) == Trio(Plain(2, 2, 1), Idle, Idle, {1, 3}, Queue(0, Some(1), 0, []), Queue(1, None, 0, []))
  {
    var s := Trio(Plain(2, 2, 0), Idle, Idle, {1, 3}, Queue(1, None, 0, []), Queue(1, None, 0, []));
    assert s.pc[1 := Idle] == s.pc;
  }

  lemma SecondTaken()
    ensures var s := Trio(Plain(2, 2, 1), Idle, Idle, {1, 3}, Queue(0, Some(1), 0, []), Queue(1, None, 0, []));
            && Enabled(s, Take(1, 2))
            && Step(s, Take(1, 2)) == Trio(Plain(2, 2, 2), Idle, Idle, {1, 3}, Queue(0, Some(1), 0, []), Queue(0, Some(1), 0, []))
  {
    var s := Trio(Plain(2, 2, 1), Idle, Idle, {1, 3}, Queue(0, Some(1), 0, []), Queue(1, None, 0, []));
    assert s.pc[1 := Idle] == s.pc;
  }

  lemma LowBlocks()
    ensures var s := Trio(Plain(2, 2, 2), Idle, Idle, {3}, Queue(0, Some(1), 0, []), Queue(0, Some(1), 0, []));
            && Enabled(s, Block(3, 2))
            && Step(s, Block(3, 2))
               == Trio(Plain(2, 2, 2), Idle, Blocked(2, false), {}, Queue(0, Some(1), 0, []), Queue(0, Some(1), 0, [3]))
  {
    var s := Trio(Plain(2, 2, 2), Idle, Idle, {3}, Queue(0, Some(1), 0, []), Queue(0, Some(1), 0, []));
    assert {3} - {3} == {};
    assert Inherit(s.tcbs[1], 1) == (s.tcbs[1], false) && s.tcbs[1 := s.tcbs[1]] == s.tcbs;
    assert PlaceByPriority(s.tcbs, [], 3) == [3];
    assert Step(s, Block(3, 2)).pc == map[1 := Idle, 2 := Idle, 3 := Blocked(2, false)];
  }

  lemma HighBlocks()
    ensures var s := Trio(Plain(2, 2, 2), Idle, Blocked(2, false), {1, 2}, Queue(0, Some(1), 0, []), Queue(0, Some(1), 0, [3]));
            Enabled(s, Block(2, 1)) && Step(s, Block(2, 1)) == Waited()
  {
    var s := Trio(Plain(2, 2, 2), Idle, Blocked(2, false), {1, 2}, Queue(0, Some(1), 0, []), Queue(0, Some(1), 0, [3]));
    assert {1, 2} - {2} == {1};
    assert Inherit(s.tcbs[1], 4) == (Plain(4, 2, 2), true) && s.tcbs[1 := Plain(4, 2, 2)] == Waited().tcbs;
    assert PlaceByPriority(Waited().tcbs, [], 2) == [2];
    assert Step(s, Block(2, 1)).pc == Waited().pc;
  }

  lemma GiveToOne(s: State, t: Task, m: Mutex, w: Task)
    requires Enabled(s, Give(t, m)) && m !in s.recursive && s.mutexes[m].waiters == [w] && w in s.pc && s.pc[w].Blocked?
    ensures Step(s, Give(t, m))
         == s.(tcbs := s.tcbs[t := Disinherit(s.tcbs[t]).0], ready := s.ready + {w},
               mutexes := s.mutexes[m := Queue(s.mutexes[m].count + 1, None, 0, [])],
               pc := s.pc[w := Woken(m, s.pc[w].inherited)])
  {
    assert [w][1..] == [];
  }

  lemma GiveEnabled()
    ensures Enabled(Waited(), Give(1, 1))
  {
  }

  /** Writing to the three parts of such a state. */
  lemma TrioWrites(s: State, first: Tcb, second: Pc, a: Queue)
    requires s.tcbs.Keys == s.pc.Keys == {1, 2, 3} && s.mutexes.Keys == {1, 2}
    ensures s.tcbs[1 := first] == map[1 := first, 2 := s.tcbs[2], 3 := s.tcbs[3]]
    ensures s.pc[2 := second] == map[1 := s.pc[1], 2 := second, 3 := s.pc[3]]
    ensures s.mutexes[1 := a] == map[1 := a, 2 := s.mutexes[2]]
  {
  }

  lemma FirstGiven()
    ensures Enabled(Waited(), Give(1, 1)) && Step(Waited(), Give(1, 1)) == Reached()
  {
    hide Enabled, Step;
    GiveEnabled();
    GiveToOne(Waited(), 1, 1, 2);
    TrioWrites(Waited(), Plain(4, 2, 1), Woken(1, true), Queue(1, None, 0, []));
    assert {1} + {2} == {1, 2};
  }

  /** Tasks 2 and 1 wake up; task 2 blocks on the first mutex, and task 1 gives that one back. */
  function Late(): seq<Event> { [Wake(2), Wake(1), Block(2, 1), Give(1, 1)] }

  /** Task 2 sleeps; task 1 takes both mutexes and sleeps; task 3 blocks on the second. */
  function Early(): seq<Event> { [Sleep(2), Take(1, 1), Take(1, 2), Sleep(1), Block(3, 2)] }

  function Opened(): State {
    Trio(Plain(2, 2, 2), Idle, Blocked(2, false), {}, Queue(0, Some(1), 0, []), Queue(0, Some(1), 0, [3]))
  }

  lemma LateRun()
    ensures LegalRun(Opened(), Late()) && Run(Opened(), Late()) == Reached()
  {
    hide Enabled, Step, LegalRun, Run;
    var held, waited := Queue(0, Some(1), 0, []), Queue(0, Some(1), 0, [3]);
    Rested(Plain(2, 2, 2), Blocked(2, false), {}, held, waited, 2);
    Rested(Plain(2, 2, 2), Blocked(2, false), {2}, held, waited, 1);
    assert {} + {2} == {2} && {2} + {1} == {1, 2};
    HighBlocks();
    FirstGiven();
    Rests(Reached());
    var e3 := [Block(2, 1)] + [Give(1, 1)];
    var e2 := [Wake(1)] + e3;
    StepThenRun(Waited(), Give(1, 1), []);
    assert [Give(1, 1)] + [] == [Give(1, 1)];
    StepThenRun(Trio(Plain(2, 2, 2), Idle, Blocked(2, false), {1, 2}, held, waited), Block(2, 1), [Give(1, 1)]);
    StepThenRun(Trio(Plain(2, 2, 2), Idle, Blocked(2, false), {2}, held, waited), Wake(1), e3);
    StepThenRun(Opened(), Wake(2), e2);
    assert Late() == [Wake(2)] + e2;
  }

  lemma EarlyRun(es: seq<Event>)
    requires LegalRun(Opened(), es)
    ensures var s := Start(BASES, {1, 2}, {}); LegalRun(s, Early() + es) && Run(s, Early() + es) == Run(Opened(), es)
  {
    hide Enabled, Step, LegalRun, Run, Start;
    var free, held := Queue(1, None, 0, []), Queue(0, Some(1), 0, []);
    TrioStarts();
    Rested(Plain(2, 2, 0), Idle, {1, 2, 3}, free, free, 2);
    Rested(Plain(2, 2, 2), Idle, {1, 3}, held, held, 1);
    assert {1, 2, 3} - {2} == {1, 3} && {1, 3} - {1} == {3};
    FirstTaken();
    SecondTaken();
    LowBlocks();
    var e5 := [Block(3, 2)] + es;
    var e4 := [Sleep(1)] + e5;
    var e3 := [Take(1, 2)] + e4;
    var e2 := [Take(1, 1)] + e3;
    StepThenRun(Trio(Plain(2, 2, 2), Idle, Idle, {3}, held, held), Block(3, 2), es);
    StepThenRun(Trio(Plain(2, 2, 2), Idle, Idle, {1, 3}, held, held), Sleep(1), e5);
    StepThenRun(Trio(Plain(2, 2, 1), Idle, Idle, {1, 3}, held, free), Take(1, 2), e4);
    StepThenRun(Trio(Plain(2, 2, 0), Idle, Idle, {1, 3}, free, free), Take(1, 1), e3);
    StepThenRun(Start(BASES, {1, 2}, {}), Sleep(2), e2);
    assert Early() + es == [Sleep(2)] + e2;
  }

  /** Task 1 takes both mutexes; task 3 blocks on the second and task 2 on the first, which raises
      task 1 to 4. It gives the first one back, which makes task 2 ready, and then the second: it
      falls to 2, below task 2, and is not told, because the task it wakes is task 3. */
  lemma FallingGiverIsNotTold()
    ensures var s := Start(BASES, {1, 2}, {}); LegalRun(s, Early() + Late()) && Run(s, Early() + Late()) == Reached()
    ensures var s := Reached();
            && Enabled(s, Give(1, 2)) && Leads(s, 1) && !Yields(s, 1, 2)
            && var r := Step(s, Give(1, 2));
            && r.tcbs[1].priority == 2 && 2 in r.ready && r.tcbs[2].priority == 4
  {
    hide Enabled, Step, LegalRun, Run, Leads, Yields;
    LateRun();
    EarlyRun(Late());
    LastGive();
  }

  lemma LastGive()
    ensures var s := Reached();
            && Enabled(s, Give(1, 2)) && Leads(s, 1) && !Yields(s, 1, 2)
            && var r := Step(s, Give(1, 2));
            && r.tcbs[1].priority == 2 && 2 in r.ready && r.tcbs[2].priority == 4
  {
  }
}
