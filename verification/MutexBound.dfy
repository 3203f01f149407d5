/** How far priority inheritance reaches: the exact condition under which each event leaves the
    holder of every mutex no lower than the tasks waiting for it, and side conditions on the
    application that meet it: no task blocks on a mutex while holding one, priorities are set
    only for tasks not waiting and are not lowered under a holder, and a mutex is taken by a
    task no lower than any that is ready. */
module MutexBound {
  import opened Mutexes
  import opened Sequences
  import opened Tasks

  // ----- The invariant -----------------------------------------------------------------------

  ghost predicate Sorted(tcbs: map<Task, Tcb>, q: seq<Task>)
    requires AllIn(q, tcbs)
  {
    forall i, j :: 0 <= i < j < |q| ==> tcbs[q[i]].priority >= tcbs[q[j]].priority
  }

  /** No waiting task is above this priority. */
  ghost predicate Tops(tcbs: map<Task, Tcb>, q: seq<Task>, priority: int)
    requires AllIn(q, tcbs)
  {
    forall i :: 0 <= i < |q| ==> tcbs[q[i]].priority <= priority
  }

  /** A task woken for the free mutex, ready to run and at least as high as any still waiting. */
  ghost predicate Heir(s: State, m: Mutex, w: Task)
    requires m in s.mutexes && AllIn(s.mutexes[m].waiters, s.tcbs)
  {
    && w in s.tcbs && w in s.pc && s.pc[w].Woken? && s.pc[w].m == m && w in s.ready
    && Tops(s.tcbs, s.mutexes[m].waiters, s.tcbs[w].priority)
  }

  /** The waiting tasks are in priority order; the holder is at least as high as all of them;
      a free mutex has an heir. */
  ghost predicate WaitersOk(s: State, m: Mutex)
    requires m in s.mutexes && AllIn(s.mutexes[m].waiters, s.tcbs)
  {
    var q := s.mutexes[m];
    && Sorted(s.tcbs, q.waiters)
    && (q.holder.Some? && q.holder.value in s.tcbs ==> Tops(s.tcbs, q.waiters, s.tcbs[q.holder.value].priority))
    && (q.holder.None? && q.waiters != [] ==> exists w :: Heir(s, m, w))
  }

  /** A task between blocking on a mutex and its next try holds none, and once woken is ready. */
  ghost predicate EmptyHanded(s: State, t: Task)
    requires t in s.pc && t in s.tcbs
  {
    (!s.pc[t].Idle? ==> s.tcbs[t].held == 0) && (s.pc[t].Woken? ==> t in s.ready)
  }

  ghost predicate Bounded(s: State) {
    && Conserved(s)
    && (forall t :: t in s.tcbs ==> EmptyHanded(s, t))
    && (forall m :: m in s.mutexes ==> WaitersOk(s, m))
  }

  /** The side conditions, event by event. */
  predicate Modest(s: State, e: Event) {
    Enabled(s, e) &&
    match e
    case Take(t, _) => forall u :: u in s.ready ==> s.tcbs[u].priority <= s.tcbs[t].priority
    case Block(t, _) => s.tcbs[t].held == 0
    case SetPriority(t, p) => s.pc[t].Idle? && (s.tcbs[t].held == 0 || PrioritySet(s.tcbs[t], p).priority >= s.tcbs[t].priority)
    case _ => true
  }

  // ----- Queues an event does not touch ------------------------------------------------------------

  /** Nothing that matters to the waiters of x changes for the worse. */
  ghost predicate Undisturbed(s: State, r: State, x: Mutex)
    requires x in s.mutexes && AllIn(s.mutexes[x].waiters, s.tcbs)
  {
    var q := s.mutexes[x];
    && x in r.mutexes && r.mutexes[x].waiters == q.waiters && r.mutexes[x].holder == q.holder
    && (forall t :: t in s.tcbs ==> t in r.tcbs)
    && (forall i :: 0 <= i < |q.waiters| ==> r.tcbs[q.waiters[i]].priority == s.tcbs[q.waiters[i]].priority)
    && (q.holder.Some? && q.holder.value in r.tcbs ==>
          (q.holder.value in s.tcbs && r.tcbs[q.holder.value].priority >= s.tcbs[q.holder.value].priority))
    && (forall w :: w in s.tcbs && w in s.pc && s.pc[w].Woken? && s.pc[w].m == x && w in s.ready ==>
          w in r.pc && r.pc[w] == s.pc[w] && w in r.ready && r.tcbs[w].priority == s.tcbs[w].priority)
  }

  lemma UndisturbedKeeps(s: State, r: State, x: Mutex)
    requires x in s.mutexes && AllIn(s.mutexes[x].waiters, s.tcbs) && WaitersOk(s, x) && Undisturbed(s, r, x)
    ensures AllIn(r.mutexes[x].waiters, r.tcbs) && WaitersOk(r, x)
  {
    var q := s.mutexes[x];
    forall i | 0 <= i < |q.waiters|
      ensures q.waiters[i] in r.tcbs
    {
      var u := q.waiters[i];
      assert u in s.tcbs;
    }
    if q.holder.None? && q.waiters != [] {
      var w :| Heir(s, x, w);
      assert Heir(r, x, w);
    }
  }

  lemma WaiterHoldsNone(s: State, x: Mutex, i: nat)
    requires Bounded(s) && x in s.mutexes && i < |s.mutexes[x].waiters|
    ensures var w := s.mutexes[x].waiters[i];
            && w in s.pc && w in s.tcbs && s.pc[w].Blocked? && s.pc[w].m == x && s.tcbs[w].held == 0
            && s.tcbs[w].item == s.tcbs[w].priority
  {
    var w := s.mutexes[x].waiters[i];
    assert w in s.mutexes[x].waiters && MutexOk(s, x) && EmptyHanded(s, w) && TaskOk(s, w);
  }

  // ----- Event by event --------------------------------------------------------------------------------

  lemma TakeBounds(s: State, t: Task, m: Mutex, x: Mutex)
    requires Bounded(s) && Modest(s, Take(t, m)) && x in s.mutexes
    ensures var r := Step(s, Take(t, m)); x in r.mutexes && AllIn(r.mutexes[x].waiters, r.tcbs) && WaitersOk(r, x)
  {
    var r := Step(s, Take(t, m));
    assert MutexOk(s, m) && WaitersOk(s, x);
    if x == m {
      if s.mutexes[m].waiters != [] {
        var w :| Heir(s, m, w);
        assert s.tcbs[w].priority <= s.tcbs[t].priority;
      }
    } else {
      UndisturbedKeeps(s, r, x);
    }
  }

  lemma ReleaseBounds(s: State, t: Task, m: Mutex, x: Mutex)
    requires Bounded(s) && m in s.mutexes && s.mutexes[m].holder == Some(t) && x in s.mutexes
    requires Conserved(Release(s, t, m))
    requires s.pc[t] == Idle
    ensures var r := Release(s, t, m); x in r.mutexes && WaitersOk(r, x)
  {
    var r, q := Release(s, t, m), s.mutexes[m].waiters;
    assert WaitersOk(s, x) && MutexOk(s, m) && TaskOk(s, t);
    HolderHolds(s, m);
    if x == m {
      if q != [] {
        var w := q[0];
        WaiterHoldsNone(s, m, 0);
        assert Tops(s.tcbs, q, s.tcbs[w].priority);
        HeadOnce(q);
        ReleaseHeir(s, t, m);
      }
    } else {
      ReleaseElsewhere(s, t, m, x);
      UndisturbedKeeps(s, r, x);
    }
  }

  /** The first waiter, woken, is the heir of those behind it. */
  lemma ReleaseHeir(s: State, t: Task, m: Mutex)
    requires Bounded(s) && m in s.mutexes && s.mutexes[m].holder == Some(t) && s.mutexes[m].waiters != []
    requires Conserved(Release(s, t, m)) && s.pc[t] == Idle
    ensures Heir(Release(s, t, m), m, s.mutexes[m].waiters[0])
    ensures Sorted(Release(s, t, m).tcbs, Release(s, t, m).mutexes[m].waiters)
  {
    var r, q := Release(s, t, m), s.mutexes[m].waiters;
    assert WaitersOk(s, m);
    forall i | 0 <= i < |q|
      ensures q[i] != t && r.tcbs[q[i]] == s.tcbs[q[i]]
    {
      WaiterHoldsNone(s, m, i);
    }
    WaiterHoldsNone(s, m, 0);
    var p := r.mutexes[m].waiters;
    assert forall i :: 0 <= i < |p| ==> p[i] == q[i + 1];
  }

  lemma ReleaseElsewhere(s: State, t: Task, m: Mutex, x: Mutex)
    requires Bounded(s) && m in s.mutexes && s.mutexes[m].holder == Some(t) && x in s.mutexes && x != m && s.pc[t] == Idle
    ensures Undisturbed(s, Release(s, t, m), x)
  {
    var r, q := Release(s, t, m), s.mutexes[x];
    HolderHolds(s, m);
    assert TaskOk(s, t);
    forall i | 0 <= i < |q.waiters|
      ensures r.tcbs[q.waiters[i]] == s.tcbs[q.waiters[i]]
    {
      WaiterHoldsNone(s, x, i);
    }
    if q.holder == Some(t) {
      assert {m, x} <= HeldBy(s, t);
      TwoOrMore(HeldBy(s, t), m, x);
    }
    if s.mutexes[m].waiters != [] { WaiterHoldsNone(s, m, 0); }
  }

  lemma TwoOrMore(q: set<Mutex>, a: Mutex, b: Mutex)
    requires a in q && b in q && a != b
    ensures |q| >= 2
  {
    assert |q - {a}| == |q| - 1 && b in q - {a};
  }

  /** The event items of waiting tasks stand for what they run at. */
  ghost predicate ItemsMatch(tcbs: map<Task, Tcb>, q: seq<Task>)
    requires AllIn(q, tcbs)
  {
    forall i :: 0 <= i < |q| ==> tcbs[q[i]].item == tcbs[q[i]].priority
  }

  lemma {:induction false} PlaceSorted(tcbs: map<Task, Tcb>, q: seq<Task>, t: Task, priority: int)
    requires t in tcbs && AllIn(q, tcbs) && ItemsMatch(tcbs, q) && tcbs[t].item == tcbs[t].priority
    requires Sorted(tcbs, q) && Tops(tcbs, q, priority) && tcbs[t].priority <= priority
    ensures var r := PlaceByPriority(tcbs, q, t); AllIn(r, tcbs) && Sorted(tcbs, r) && Tops(tcbs, r, priority)
    decreases |q|
  {
    if q != [] && tcbs[q[0]].item >= tcbs[t].item {
      PlaceSorted(tcbs, q[1..], t, tcbs[q[0]].priority);
    }
  }

  lemma {:induction false} WithoutSorted(tcbs: map<Task, Tcb>, q: seq<Task>, t: Task, priority: int)
    requires AllIn(q, tcbs) && Sorted(tcbs, q) && Tops(tcbs, q, priority)
    ensures var r := Without(q, t); AllIn(r, tcbs) && Sorted(tcbs, r) && Tops(tcbs, r, priority)
    decreases |q|
  {
    if q != [] && q[0] != t {
      WithoutSorted(tcbs, q[1..], t, tcbs[q[0]].priority);
    }
  }

  lemma BlockBounds(s: State, t: Task, m: Mutex, x: Mutex)
    requires Bounded(s) && Modest(s, Block(t, m)) && x in s.mutexes && Conserved(Step(s, Block(t, m)))
    ensures var r := Step(s, Block(t, m)); x in r.mutexes && WaitersOk(r, x)
  {
    var r, q := Step(s, Block(t, m)), s.mutexes[x];
    assert MutexOk(s, m) && WaitersOk(s, x);
    HolderHolds(s, m);
    var h := s.mutexes[m].holder.value;
    assert h != t && EmptyHanded(s, h);
    forall i | 0 <= i < |q.waiters|
      ensures q.waiters[i] in r.tcbs && r.tcbs[q.waiters[i]] == s.tcbs[q.waiters[i]]
      ensures s.tcbs[q.waiters[i]].item == s.tcbs[q.waiters[i]].priority
    {
      WaiterHoldsNone(s, x, i);
    }
    if x == m {
      assert Tops(r.tcbs, q.waiters, r.tcbs[h].priority) && Sorted(r.tcbs, q.waiters);
      assert EmptyHanded(s, t) && TaskOk(s, t);
      PlaceSorted(r.tcbs, q.waiters, t, r.tcbs[h].priority);
    } else {
      UndisturbedKeeps(s, r, x);
    }
  }

  lemma TimeOutBounds(s: State, t: Task, x: Mutex)
    requires Bounded(s) && Modest(s, TimeOut(t)) && x in s.mutexes && Conserved(Step(s, TimeOut(t)))
    ensures var r := Step(s, TimeOut(t)); x in r.mutexes && WaitersOk(r, x)
  {
    var r, q := Step(s, TimeOut(t)), s.mutexes[x];
    assert WaitersOk(s, x) && MutexOk(s, x);
    if x == s.pc[t].m {
      if q.holder.Some? {
        WithoutSorted(s.tcbs, q.waiters, t, s.tcbs[q.holder.value].priority);
      } else if q.waiters != [] {
        var w :| Heir(s, x, w);
        WithoutSorted(s.tcbs, q.waiters, t, s.tcbs[w].priority);
        assert Heir(r, x, w);
      }
    } else {
      UndisturbedKeeps(s, r, x);
    }
  }

  /** A task that looks again finds the mutex taken, so no heir is needed. */
  lemma LookBounds(s: State, t: Task, x: Mutex)
    requires Bounded(s) && Modest(s, Look(t)) && x in s.mutexes
    ensures var r := Step(s, Look(t)); x in r.mutexes && AllIn(r.mutexes[x].waiters, r.tcbs) && WaitersOk(r, x)
  {
    assert WaitersOk(s, x) && MutexOk(s, s.pc[t].m);
    if x != s.pc[t].m { UndisturbedKeeps(s, Step(s, Look(t)), x); }
  }

  lemma GiveUpBounds(s: State, t: Task, x: Mutex)
    requires Bounded(s) && Modest(s, GiveUp(t)) && x in s.mutexes && Conserved(Step(s, GiveUp(t)))
    ensures var r := Step(s, GiveUp(t)); x in r.mutexes && WaitersOk(r, x)
  {
    var r, q, m := Step(s, GiveUp(t)), s.mutexes[x], s.pc[t].m;
    assert WaitersOk(s, x);
    if s.mutexes[m].holder.None? {
      UndisturbedKeeps(s, r, x);
    } else {
      HolderHolds(s, m);
      forall i | 0 <= i < |q.waiters|
        ensures q.waiters[i] in r.tcbs && r.tcbs[q.waiters[i]].priority == s.tcbs[q.waiters[i]].priority
      {
        WaiterHoldsNone(s, x, i);
      }
      if x == m {
        if q.waiters != [] { WaiterHoldsNone(s, x, 0); }
        assert forall i :: 0 <= i < |q.waiters| ==> s.tcbs[q.waiters[i]].priority <= HighestWaiting(s, m);
        assert r.mutexes[x] == q;
      } else {
        GiveUpElsewhere(s, t, x);
        UndisturbedKeeps(s, r, x);
      }
    }
  }

  lemma GiveUpElsewhere(s: State, t: Task, x: Mutex)
    requires Bounded(s) && Modest(s, GiveUp(t)) && x in s.mutexes && x != s.pc[t].m && s.mutexes[s.pc[t].m].holder.Some?
    requires forall i :: 0 <= i < |s.mutexes[x].waiters| ==>
               s.mutexes[x].waiters[i] in s.tcbs
               && Step(s, GiveUp(t)).tcbs[s.mutexes[x].waiters[i]].priority == s.tcbs[s.mutexes[x].waiters[i]].priority
    ensures Undisturbed(s, Step(s, GiveUp(t)), x)
  {
    var m := s.pc[t].m;
    HolderHolds(s, m);
    var h := s.mutexes[m].holder.value;
    assert EmptyHanded(s, h) && TaskOk(s, h);
    if s.mutexes[x].holder == Some(h) { TwoOrMore(HeldBy(s, h), m, x); }
  }

  lemma OtherBounds(s: State, e: Event, x: Mutex)
    requires Bounded(s) && Modest(s, e) && x in s.mutexes && Conserved(Step(s, e))
    requires e.TakeAgain? || e.AwaitBits? || e.ReadBits? || e.Sleep? || e.Wake? || e.SetPriority?
             || (e.Give? && e.m in s.recursive && s.mutexes[e.m].recursion != 1)
    ensures var r := Step(s, e); x in r.mutexes && WaitersOk(r, x)
  {
    assert WaitersOk(s, x);
    if e.SetPriority? { PrioritySetBounds(s, e.t, e.priority, x); } else { UndisturbedKeeps(s, Step(s, e), x); }
  }

  lemma PrioritySetBounds(s: State, t: Task, p: int, x: Mutex)
    requires Bounded(s) && Modest(s, SetPriority(t, p)) && x in s.mutexes
    ensures var r := Step(s, SetPriority(t, p)); x in r.mutexes && AllIn(r.mutexes[x].waiters, r.tcbs) && WaitersOk(r, x)
  {
    var r, q := Step(s, SetPriority(t, p)), s.mutexes[x];
    assert WaitersOk(s, x) && MutexOk(s, x);
    forall i | 0 <= i < |q.waiters|
      ensures q.waiters[i] != t
    {
      WaiterHoldsNone(s, x, i);
    }
    if q.holder.Some? { HolderHolds(s, x); }
    UndisturbedKeeps(s, r, x);
  }

  lemma StepEmptyHanded(s: State, e: Event, u: Task)
    requires Bounded(s) && Modest(s, e) && u in s.tcbs && Conserved(Step(s, e))
    ensures u in Step(s, e).tcbs && EmptyHanded(Step(s, e), u)
  {
    assert EmptyHanded(s, u);
    if e.Give? {
      if s.mutexes[e.m].waiters != [] { WaiterHoldsNone(s, e.m, 0); }
    } else if e.Block? && s.mutexes[e.m].holder.Some? {
      HolderHolds(s, e.m);
    } else if e.GiveUp? && s.mutexes[s.pc[e.t].m].holder.Some? {
      HolderHolds(s, s.pc[e.t].m);
    }
  }

  lemma StepKeepsBounded(s: State, e: Event)
    requires Bounded(s) && Modest(s, e)
    ensures Bounded(Step(s, e))
  {
    var r := Step(s, e);
    StepConserves(s, e);
    forall u | u in r.tcbs ensures EmptyHanded(r, u) { StepEmptyHanded(s, e, u); }
    forall x | x in r.mutexes ensures WaitersOk(r, x) { StepWaiters(s, e, x); }
  }

  lemma StepWaiters(s: State, e: Event, x: Mutex)
    requires Bounded(s) && Modest(s, e) && x in s.mutexes && Conserved(Step(s, e))
    ensures x in Step(s, e).mutexes && WaitersOk(Step(s, e), x)
  {
    hide WaitersOk;
    match e
    case Take(t, m) => TakeBounds(s, t, m, x);
    case Block(t, m) => BlockBounds(s, t, m, x);
    case Give(t, m) =>
      if m in s.recursive && s.mutexes[m].recursion != 1 { OtherBounds(s, e, x); } else { ReleaseBounds(s, t, m, x); }
    case TimeOut(t) => TimeOutBounds(s, t, x);
    case Look(t) => LookBounds(s, t, x);
    case GiveUp(t) => GiveUpBounds(s, t, x);
    case _ => OtherBounds(s, e, x);
  }

  // ----- The theorem ---------------------------------------------------------------------------------

  ghost predicate ModestRun(s: State, es: seq<Event>)
    decreases |es|
  {
    es == [] || (Modest(s, es[0]) && ModestRun(Step(s, es[0]), es[1..]))
  }

  lemma {:induction false} ModestIsLegal(s: State, es: seq<Event>)
    requires ModestRun(s, es)
    ensures LegalRun(s, es)
    decreases |es|
  {
    if es != [] { ModestIsLegal(Step(s, es[0]), es[1..]); }
  }

  lemma {:induction false} RunKeepsBounded(s: State, es: seq<Event>)
    requires Bounded(s) && ModestRun(s, es)
    ensures LegalRun(s, es) && Bounded(Run(s, es))
    decreases |es|
  {
    ModestIsLegal(s, es);
    if es != [] {
      StepKeepsBounded(s, es[0]);
      RunKeepsBounded(Step(s, es[0]), es[1..]);
    }
  }

  /** The holder h of m is at least as high as w, if w waits for it. */
  ghost predicate PairOk(s: State, m: Mutex, w: Task, h: Task) {
    m in s.mutexes && w in s.mutexes[m].waiters && s.mutexes[m].holder == Some(h) && w in s.tcbs && h in s.tcbs ==>
      s.tcbs[h].priority >= s.tcbs[w].priority
  }

  /** The holder of a mutex is at least as high as each task waiting for it. */
  ghost predicate Bound(s: State) {
    forall m, w, h :: PairOk(s, m, w, h)
  }

  lemma InheritanceBound(bases: map<Task, int>, mutexes: set<Mutex>, recursive: set<Mutex>, es: seq<Event>)
    requires ModestRun(Start(bases, mutexes, recursive), es)
    ensures LegalRun(Start(bases, mutexes, recursive), es) && Bound(Run(Start(bases, mutexes, recursive), es))
  {
    var s0 := Start(bases, mutexes, recursive);
    StartConserves(bases, mutexes, recursive);
    RunKeepsBounded(s0, es);
    var s := Run(s0, es);
    forall m, w, h
      ensures PairOk(s, m, w, h)
    {
      if m in s.mutexes && w in s.mutexes[m].waiters && s.mutexes[m].holder == Some(h) {
        assert WaitersOk(s, m);
        var i :| 0 <= i < |s.mutexes[m].waiters| && s.mutexes[m].waiters[i] == w;
      }
    }
  }

  // ----- The bound step by step ------------------------------------------------------------------------

  /** t may run at this priority: no other task waiting on a mutex it holds is above, and the
      holder of no mutex it waits for is below. */
  ghost predicate MayRunAt(s: State, t: Task, priority: int) {
    && (forall m, w :: m in s.mutexes && s.mutexes[m].holder == Some(t) && w in s.mutexes[m].waiters && w != t && w in s.tcbs ==>
          s.tcbs[w].priority <= priority)
    && (forall m, h :: m in s.mutexes && t in s.mutexes[m].waiters && s.mutexes[m].holder == Some(h) && h != t && h in s.tcbs ==>
          priority <= s.tcbs[h].priority)
  }

  /** Changing one priority keeps the bound exactly when the task may run at the new one. */
  lemma OnePriorityIff(s: State, r: State, t: Task)
    requires Bound(s) && r.mutexes == s.mutexes && r.tcbs.Keys == s.tcbs.Keys && t in s.tcbs
    requires forall u :: u in s.tcbs && u != t ==> r.tcbs[u].priority == s.tcbs[u].priority
    ensures Bound(r) <==> MayRunAt(s, t, r.tcbs[t].priority)
  {
    if MayRunAt(s, t, r.tcbs[t].priority) {
      forall m, w, h
        ensures PairOk(r, m, w, h)
      {
        assert PairOk(s, m, w, h);
      }
    }
    if Bound(r) {
      forall m, w | m in s.mutexes && s.mutexes[m].holder == Some(t) && w in s.mutexes[m].waiters && w != t && w in s.tcbs
        ensures s.tcbs[w].priority <= r.tcbs[t].priority
      {
        assert PairOk(r, m, w, t);
      }
      forall m, h | m in s.mutexes && t in s.mutexes[m].waiters && s.mutexes[m].holder == Some(h) && h != t && h in s.tcbs
        ensures r.tcbs[t].priority <= s.tcbs[h].priority
      {
        assert PairOk(r, m, t, h);
      }
    }
  }

  /** Inheritance is not passed on. Blocking keeps the bound exactly when the holder needs to
      inherit nothing, or waits for no mutex whose own holder is below the blocking task. */
  lemma BlockKeepsBoundIff(s: State, t: Task, m: Mutex)
    requires Conserved(s) && Bound(s) && Enabled(s, Block(t, m))
    ensures s.mutexes[m].holder.Some?
    ensures var h := s.mutexes[m].holder.value;
            Bound(Step(s, Block(t, m))) <==>
              s.tcbs[h].priority >= s.tcbs[t].priority || !PassesOver(s, h, s.tcbs[t].priority)
  {
    assert MutexOk(s, m);
    var h := s.mutexes[m].holder.value;
    if s.tcbs[h].priority < s.tcbs[t].priority && PassesOver(s, h, s.tcbs[t].priority) {
      BlockBreaksBound(s, t, m);
    } else {
      BlockKeepsBound(s, t, m);
    }
  }

  lemma BlockBreaksBound(s: State, t: Task, m: Mutex)
    requires Conserved(s) && Enabled(s, Block(t, m)) && s.mutexes[m].holder.Some?
    requires var h := s.mutexes[m].holder.value; s.tcbs[h].priority < s.tcbs[t].priority && PassesOver(s, h, s.tcbs[t].priority)
    ensures !Bound(Step(s, Block(t, m)))
  {
    var h, r := s.mutexes[m].holder.value, Step(s, Block(t, m));
    var x :| x in s.mutexes && h in s.mutexes[x].waiters && s.mutexes[x].holder.Some? && s.mutexes[x].holder.value in s.tcbs
             && s.mutexes[x].holder.value != h && s.tcbs[s.mutexes[x].holder.value].priority < s.tcbs[t].priority;
    var g := s.mutexes[x].holder.value;
    assert x != m && r.mutexes[x] == s.mutexes[x];
    assert !PairOk(r, x, h, g);
  }

  lemma BlockKeepsBound(s: State, t: Task, m: Mutex)
    requires Conserved(s) && Bound(s) && Enabled(s, Block(t, m)) && s.mutexes[m].holder.Some?
    requires var h := s.mutexes[m].holder.value; s.tcbs[h].priority >= s.tcbs[t].priority || !PassesOver(s, h, s.tcbs[t].priority)
    ensures Bound(Step(s, Block(t, m)))
  {
    var r := Step(s, Block(t, m));
    PlaceMembers(r.tcbs, s.mutexes[m].waiters, t);
    hide Conserved, MutexOk, TaskOk;
    forall x, w, g
      ensures PairOk(r, x, w, g)
    {
      assert PairOk(s, x, w, g);
      if x in r.mutexes && w in r.mutexes[x].waiters { assert w in s.mutexes[x].waiters || (w == t && x == m); }
    }
  }

  /** The task waits for a mutex held by another that runs below the priority. */
  ghost predicate PassesOver(s: State, h: Task, priority: int) {
    exists x :: x in s.mutexes && h in s.mutexes[x].waiters && s.mutexes[x].holder.Some? && s.mutexes[x].holder.value in s.tcbs
                && s.mutexes[x].holder.value != h && s.tcbs[s.mutexes[x].holder.value].priority < priority
  }

  /** Taking inherits nothing from those who already wait: it keeps the bound exactly when each
      of them is no higher than the taker. */
  lemma TakeKeepsBoundIff(s: State, t: Task, m: Mutex)
    requires Conserved(s) && Bound(s) && Enabled(s, Take(t, m))
    ensures Bound(Step(s, Take(t, m))) <==>
              forall w :: w in s.mutexes[m].waiters ==> w in s.tcbs && s.tcbs[w].priority <= s.tcbs[t].priority
  {
    var r := Step(s, Take(t, m));
    assert MutexOk(s, m);
    forall w | w in s.mutexes[m].waiters
      ensures PairOk(r, m, w, t) <==> w in s.tcbs && s.tcbs[w].priority <= s.tcbs[t].priority
    {
    }
    forall x, w, h | x != m || h != t
      ensures PairOk(r, x, w, h)
    {
      assert PairOk(s, x, w, h);
    }
  }

  /** vTaskPrioritySet keeps it exactly when the task may run at what it is left running at. */
  lemma SetPriorityKeepsBoundIff(s: State, t: Task, p: int)
    requires Conserved(s) && Bound(s) && Enabled(s, SetPriority(t, p))
    ensures Bound(Step(s, SetPriority(t, p))) <==> MayRunAt(s, t, PrioritySet(s.tcbs[t], p).priority)
  {
    OnePriorityIff(s, Step(s, SetPriority(t, p)), t);
  }

  /** What the holder is left running at after a waiter of m gives up. */
  function LeftAt(s: State, h: Task, m: Mutex): int
    requires m in s.mutexes && AllIn(s.mutexes[m].waiters, s.tcbs) && h in s.tcbs
  {
    DisinheritAfterTimeout(s.tcbs[h], HighestWaiting(s, m)).priority
  }

  /** Giving up lets the holder drop to what the first waiter's event item stands for, or to its
      base: the bound is kept exactly when the holder may run there. */
  lemma GiveUpKeepsBoundIff(s: State, t: Task)
    requires Conserved(s) && Bound(s) && Enabled(s, GiveUp(t))
    ensures Bound(Step(s, GiveUp(t))) <==>
              (s.pc[t].inherited && s.mutexes[s.pc[t].m].holder.Some? ==>
                 MayRunAt(s, s.mutexes[s.pc[t].m].holder.value, LeftAt(s, s.mutexes[s.pc[t].m].holder.value, s.pc[t].m)))
  {
    var m, r := s.pc[t].m, Step(s, GiveUp(t));
    if s.pc[t].inherited && s.mutexes[m].holder.Some? {
      HolderHolds(s, m);
      OnePriorityIff(s, r, s.mutexes[m].holder.value);
    } else {
      forall x, w, h
        ensures PairOk(r, x, w, h)
      {
        assert PairOk(s, x, w, h);
      }
    }
  }

  /** A give frees the mutex, and a task that drops to its base holds no other. */
  lemma GiveKeepsBound(s: State, t: Task, m: Mutex)
    requires Conserved(s) && Bound(s) && Enabled(s, Give(t, m))
    ensures Bound(Step(s, Give(t, m)))
  {
    var r := Step(s, Give(t, m));
    assert MutexOk(s, m) && TaskOk(s, t);
    HolderHolds(s, m);
    forall x, w, h
      ensures PairOk(r, x, w, h)
    {
      assert PairOk(s, x, w, h);
      if x in s.mutexes && s.mutexes[x].holder == Some(t) && x != m {
        assert {m, x} <= HeldBy(s, t);
        TwoOrMore(HeldBy(s, t), m, x);
      }
      if x in s.mutexes { assert MutexOk(s, x); }
    }
  }

  lemma OthersKeepBound(s: State, e: Event)
    requires Conserved(s) && Bound(s) && Enabled(s, e)
    requires e.TakeAgain? || e.TimeOut? || e.Look? || e.AwaitBits? || e.ReadBits? || e.Sleep? || e.Wake?
    ensures Bound(Step(s, e))
  {
    var r := Step(s, e);
    if e.TimeOut? {
      assert MutexOk(s, s.pc[e.t].m);
      WithoutMembers(s.mutexes[s.pc[e.t].m].waiters, e.t);
    }
    forall x, w, h
      ensures PairOk(r, x, w, h)
    {
      assert PairOk(s, x, w, h);
    }
  }

  /** The events that keep the bound. */
  ghost predicate KeepsBound(s: State, e: Event)
    requires Enabled(s, e)
  {
    match e
    case Take(t, m) => forall w :: w in s.mutexes[m].waiters ==> w in s.tcbs && s.tcbs[w].priority <= s.tcbs[t].priority
    case Block(t, m) =>
      s.mutexes[m].holder.Some? ==>
        var h := s.mutexes[m].holder.value;
        s.tcbs[h].priority >= s.tcbs[t].priority || !PassesOver(s, h, s.tcbs[t].priority)
    case GiveUp(t) =>
      s.pc[t].inherited && s.mutexes[s.pc[t].m].holder.Some? ==>
        MayRunAt(s, s.mutexes[s.pc[t].m].holder.value, LeftAt(s, s.mutexes[s.pc[t].m].holder.value, s.pc[t].m))
    case SetPriority(t, p) => MayRunAt(s, t, PrioritySet(s.tcbs[t], p).priority)
    case _ => true
  }

  lemma StepKeepsBoundIff(s: State, e: Event)
    requires Conserved(s) && Bound(s) && Enabled(s, e)
    ensures Bound(Step(s, e)) <==> KeepsBound(s, e)
  {
    hide Conserved, Bound, Step, MayRunAt, PassesOver;
    match e
    case Take(t, m) => TakeKeepsBoundIff(s, t, m);
    case Block(t, m) => BlockKeepsBoundIff(s, t, m);
    case Give(t, m) => GiveKeepsBound(s, t, m);
    case GiveUp(t) => GiveUpKeepsBoundIff(s, t);
    case SetPriority(t, p) => SetPriorityKeepsBoundIff(s, t, p);
    case _ => OthersKeepBound(s, e);
  }

  ghost predicate AlwaysBound(s: State, es: seq<Event>)
    requires LegalRun(s, es)
    decreases |es|
  {
    Bound(s) && (es != [] ==> AlwaysBound(Step(s, es[0]), es[1..]))
  }

  ghost predicate EachKeepsBound(s: State, es: seq<Event>)
    requires LegalRun(s, es)
    decreases |es|
  {
    es != [] ==> KeepsBound(s, es[0]) && EachKeepsBound(Step(s, es[0]), es[1..])
  }

  lemma {:induction false} AlwaysBoundFrom(s: State, es: seq<Event>)
    requires Conserved(s) && Bound(s) && LegalRun(s, es)
    ensures AlwaysBound(s, es) <==> EachKeepsBound(s, es)
    decreases |es|
  {
    hide Conserved, Bound, Step, KeepsBound;
    if es != [] {
      StepConserves(s, es[0]);
      StepKeepsBoundIff(s, es[0]);
      if KeepsBound(s, es[0]) {
        AlwaysBoundFrom(Step(s, es[0]), es[1..]);
      } else {
        assert !AlwaysBound(Step(s, es[0]), es[1..]);
      }
    }
  }

  /** Over every run of mutex operations, time-outs and priority settings, the holder of each
      mutex is at least as high as its waiters all along exactly when each event keeps it so. */
  lemma AlwaysBoundIff(bases: map<Task, int>, mutexes: set<Mutex>, recursive: set<Mutex>, es: seq<Event>)
    requires LegalRun(Start(bases, mutexes, recursive), es)
    ensures AlwaysBound(Start(bases, mutexes, recursive), es) <==> EachKeepsBound(Start(bases, mutexes, recursive), es)
  {
    var s := Start(bases, mutexes, recursive);
    StartConserves(bases, mutexes, recursive);
    forall m, w, h
      ensures PairOk(s, m, w, h)
    {
    }
    AlwaysBoundFrom(s, es);
  }

  // ----- Runs on which it fails ------------------------------------------------------------------------

  /** Two mutexes and three tasks, of which the first two may hold one. */
  function Pair(first: Tcb, second: Tcb, a: Queue, b: Queue): State {
    State(map[1 := first, 2 := second, 3 := Plain(3, 3, 0)], map[1 := Idle, 2 := Idle, 3 := Idle], {1, 2, 3},
          map[1 := a, 2 := b], {})
  }

  /** Tasks 1 and 2 hold mutexes 1 and 2. */
  function TwoHeld(): State {
    Pair(Plain(1, 1, 1), Plain(2, 2, 1), Queue(0, Some(1), 0, []), Queue(0, Some(2), 0, []))
  }

  lemma PairFree()
    ensures Start(map[1 := 1, 2 := 2, 3 := 3], {1, 2}, {})
         == Pair(Plain(1, 1, 0), Plain(2, 2, 0), Queue(1, None, 0, []), Queue(1, None, 0, []))
  {
    var bases, s := map[1 := 1, 2 := 2, 3 := 3], Start(map[1 := 1, 2 := 2, 3 := 3], {1, 2}, {});
    assert bases.Keys == {1, 2, 3};
    assert s.tcbs == map[1 := Plain(1, 1, 0), 2 := Plain(2, 2, 0), 3 := Plain(3, 3, 0)];
    assert s.pc == map[1 := Idle, 2 := Idle, 3 := Idle];
    assert s.mutexes == map[1 := Queue(1, None, 0, []), 2 := Queue(1, None, 0, [])];
  }

  lemma PairTakes()
    ensures var s := Pair(Plain(1, 1, 0), Plain(2, 2, 0), Queue(1, None, 0, []), Queue(1, None, 0, []));
            && Enabled(s, Take(1, 1))
            && Step(s, Take(1, 1)) == Pair(Plain(1, 1, 1), Plain(2, 2, 0), Queue(0, Some(1), 0, []), Queue(1, None, 0, []))
    ensures var s := Pair(Plain(1, 1, 1), Plain(2, 2, 0), Queue(0, Some(1), 0, []), Queue(1, None, 0, []));
            Enabled(s, Take(2, 2)) && Step(s, Take(2, 2)) == TwoHeld()
  {
    var s := Pair(Plain(1, 1, 1), Plain(2, 2, 0), Queue(0, Some(1), 0, []), Queue(1, None, 0, []));
    assert s.pc[1 := Idle] == s.pc && s.pc[2 := Idle] == s.pc;
  }

  /** Task 1 holds mutex 1, task 2 holds mutex 2 and blocks on mutex 1, task 3 blocks on mutex
      2: task 2 is raised to 3 and waits behind task 1, which stays at 2. */
  lemma ChainedBlockingBreaksTheBound()
    ensures LegalRun(Start(map[1 := 1, 2 := 2, 3 := 3], {1, 2}, {}), [Take(1, 1), Take(2, 2)])
    ensures Run(Start(map[1 := 1, 2 := 2, 3 := 3], {1, 2}, {}), [Take(1, 1), Take(2, 2)]) == TwoHeld()
    ensures var s := TwoHeld();
            && Enabled(s, Block(2, 1))
            && var s1 := Step(s, Block(2, 1));
            && Enabled(s1, Block(3, 2))
            && var s2 := Step(s1, Block(3, 2));
            && s2.mutexes[1].waiters == [2] && s2.mutexes[1].holder == Some(1)
            && s2.tcbs[1].priority == 2 && s2.tcbs[2].priority == 3 && !Bound(s2)
  {
    hide Enabled, Step;
    PairFree();
    PairTakes();
    TwoSteps(Start(map[1 := 1, 2 := 2, 3 := 3], {1, 2}, {}), Take(1, 1), Take(2, 2));
    ChainBreaks();
  }

  lemma TwoSteps(s: State, a: Event, b: Event)
    requires Enabled(s, a) && Enabled(Step(s, a), b)
    ensures LegalRun(s, [a, b]) && Run(s, [a, b]) == Step(Step(s, a), b)
  {
    hide Enabled, Step;
    assert [a, b][1..] == [b] && [b][1..] == [];
    Rests(Step(Step(s, a), b));
    StepThenRun(Step(s, a), b, []);
    assert [b] + [] == [b];
  }

  lemma ChainBreaks()
    ensures var s := TwoHeld();
            && Enabled(s, Block(2, 1))
            && var s1 := Step(s, Block(2, 1));
            && Enabled(s1, Block(3, 2))
            && var s2 := Step(s1, Block(3, 2));
            && s2.mutexes[1].waiters == [2] && s2.mutexes[1].holder == Some(1)
            && s2.tcbs[1].priority == 2 && s2.tcbs[2].priority == 3 && !Bound(s2)
  {
    var s1 := Step(TwoHeld(), Block(2, 1));
    assert s1.mutexes[1] == Queue(0, Some(1), 0, [2]) && s1.mutexes[2] == Queue(0, Some(2), 0, []);
    assert !PairOk(Step(s1, Block(3, 2)), 1, 2, 1);
  }

  /** Two tasks and a mutex. */
  function Duo(first: Tcb, second: Pc, ready: set<Task>, q: Queue): State {
    State(map[1 := first, 2 := Plain(2, 2, 0)], map[1 := Idle, 2 := second], ready, map[1 := q], {})
  }

  lemma DuoFree()
    ensures Start(map[1 := 2, 2 := 2], {1}, {}) == Duo(Plain(2, 2, 0), Idle, {1, 2}, Queue(1, None, 0, []))
  {
    var bases, s := map[1 := 2, 2 := 2], Start(map[1 := 2, 2 := 2], {1}, {});
    assert bases.Keys == {1, 2};
    assert s.tcbs == map[1 := Plain(2, 2, 0), 2 := Plain(2, 2, 0)];
    assert s.pc == map[1 := Idle, 2 := Idle] && s.mutexes == map[1 := Queue(1, None, 0, [])];
  }

  lemma DuoTakes()
    ensures var s := Duo(Plain(2, 2, 0), Idle, {1, 2}, Queue(1, None, 0, []));
            Enabled(s, Take(1, 1)) && Step(s, Take(1, 1)) == Duo(Plain(2, 2, 1), Idle, {1, 2}, Queue(0, Some(1), 0, []))
  {
    var s := Duo(Plain(2, 2, 0), Idle, {1, 2}, Queue(1, None, 0, []));
    assert s.pc[1 := Idle] == s.pc;
  }

  lemma DuoBlocks()
    ensures var s := Duo(Plain(2, 2, 1), Idle, {1, 2}, Queue(0, Some(1), 0, []));
            && Enabled(s, Block(2, 1))
            && Step(s, Block(2, 1)) == Duo(Plain(2, 2, 1), Blocked(1, false), {1}, Queue(0, Some(1), 0, [2]))
  {
    var s := Duo(Plain(2, 2, 1), Idle, {1, 2}, Queue(0, Some(1), 0, []));
    assert {1, 2} - {2} == {1} && s.tcbs[1 := Plain(2, 2, 1)] == s.tcbs;
    assert PlaceByPriority(s.tcbs, [], 2) == [2];
  }

  lemma DuoSets()
    ensures var s := Duo(Plain(2, 2, 1), Blocked(1, false), {1}, Queue(0, Some(1), 0, [2]));
            && Enabled(s, SetPriority(1, 0))
            && Step(s, SetPriority(1, 0)) == Duo(Plain(0, 0, 1), Blocked(1, false), {1}, Queue(0, Some(1), 0, [2]))
  {
  }

  /** Task 1 holds a mutex that task 2 waits for, and has its priority set below task 2's. */
  lemma LoweringAHolderBreaksTheBound()
    ensures var es := [Take(1, 1), Block(2, 1), SetPriority(1, 0)];
            && LegalRun(Start(map[1 := 2, 2 := 2], {1}, {}), es)
            && var s := Run(Start(map[1 := 2, 2 := 2], {1}, {}), es);
            && s.mutexes[1].waiters == [2] && s.mutexes[1].holder == Some(1)
            && s.tcbs[1].priority == 0 && s.tcbs[2].priority == 2 && !Bound(s)
  {
    var s2 := Duo(Plain(2, 2, 1), Blocked(1, false), {1}, Queue(0, Some(1), 0, [2]));
    var s3 := Duo(Plain(0, 0, 1), Blocked(1, false), {1}, Queue(0, Some(1), 0, [2]));
    hide Enabled, Step, LegalRun, Run;
    DuoSets();
    DuoFree();
    DuoTakes();
    DuoBlocks();
    assert !PairOk(s3, 1, 2, 1);
    Rests(s3);
    StepThenRun(s2, SetPriority(1, 0), []);
    assert [SetPriority(1, 0)] + [] == [SetPriority(1, 0)];
    assert [Block(2, 1)] + [SetPriority(1, 0)] == [Block(2, 1), SetPriority(1, 0)];
    assert [Take(1, 1)] + [Block(2, 1), SetPriority(1, 0)] == [Take(1, 1), Block(2, 1), SetPriority(1, 0)];
    StepThenRun(Duo(Plain(2, 2, 1), Idle, {1, 2}, Queue(0, Some(1), 0, [])), Block(2, 1), [SetPriority(1, 0)]);
    StepThenRun(Start(map[1 := 2, 2 := 2], {1}, {}), Take(1, 1), [Block(2, 1), SetPriority(1, 0)]);
  }

  /** Three tasks and a mutex. */
  function Stage(first: Tcb, second: Pc, third: Pc, ready: set<Task>, q: Queue): State {
    State(map[1 := first, 2 := Plain(2, 2, 0), 3 := Plain(2, 2, 0)], map[1 := Idle, 2 := second, 3 := third], ready,
          map[1 := q], {})
  }

  /** Tasks 2 and 3 wait for a mutex that task 1 holds at an inherited priority. */
  function TwoWait(): State {
    Stage(Plain(2, 1, 1), Blocked(1, true), Blocked(1, true), {1}, Queue(0, Some(1), 0, [2, 3]))
  }

  lemma StageOne()
    ensures Start(map[1 := 1, 2 := 2, 3 := 2], {1}, {}) == Stage(Plain(1, 1, 0), Idle, Idle, {1, 2, 3}, Queue(1, None, 0, []))
  {
    var bases, s := map[1 := 1, 2 := 2, 3 := 2], Start(map[1 := 1, 2 := 2, 3 := 2], {1}, {});
    assert bases.Keys == {1, 2, 3};
    assert s.tcbs == map[1 := Plain(1, 1, 0), 2 := Plain(2, 2, 0), 3 := Plain(2, 2, 0)];
    assert s.pc == map[1 := Idle, 2 := Idle, 3 := Idle];
    assert s.mutexes == map[1 := Queue(1, None, 0, [])];
  }

  lemma StageTwo()
    ensures var s := Stage(Plain(1, 1, 0), Idle, Idle, {1, 2, 3}, Queue(1, None, 0, []));
            && Enabled(s, Take(1, 1))
            && Step(s, Take(1, 1)) == Stage(Plain(1, 1, 1), Idle, Idle, {1, 2, 3}, Queue(0, Some(1), 0, []))
  {
    var s := Stage(Plain(1, 1, 0), Idle, Idle, {1, 2, 3}, Queue(1, None, 0, []));
    assert s.pc[1 := Idle] == s.pc;
  }

  lemma StageThree()
    ensures var s := Stage(Plain(1, 1, 1), Idle, Idle, {1, 2, 3}, Queue(0, Some(1), 0, []));
            && Enabled(s, Block(2, 1))
            && Step(s, Block(2, 1)) == Stage(Plain(2, 1, 1), Blocked(1, true), Idle, {1, 3}, Queue(0, Some(1), 0, [2]))
  {
    assert {1, 2, 3} - {2} == {1, 3};
    var s := Stage(Plain(1, 1, 1), Idle, Idle, {1, 2, 3}, Queue(0, Some(1), 0, []));
    var r := Stage(Plain(2, 1, 1), Blocked(1, true), Idle, {1, 3}, Queue(0, Some(1), 0, [2]));
    assert Inherit(s.tcbs[1], 2) == (Plain(2, 1, 1), true);
    assert s.tcbs[1 := Plain(2, 1, 1)] == r.tcbs;
    assert PlaceByPriority(r.tcbs, [], 2) == [2];
    assert Step(s, Block(2, 1)).pc == r.pc && Step(s, Block(2, 1)).mutexes[1] == r.mutexes[1];
  }

  lemma StageFour()
    ensures var s := Stage(Plain(2, 1, 1), Blocked(1, true), Idle, {1, 3}, Queue(0, Some(1), 0, [2]));
            && Enabled(s, Block(3, 1))
            && Step(s, Block(3, 1)) == TwoWait()
  {
    assert {1, 3} - {3} == {1};
    assert [2][1..] == [] && [2] + [3] == [2, 3];
    var s := Stage(Plain(2, 1, 1), Blocked(1, true), Idle, {1, 3}, Queue(0, Some(1), 0, [2]));
    assert s.tcbs[1 := Plain(2, 1, 1)] == s.tcbs;
    assert PlaceByPriority(s.tcbs, [], 3) == [3];
    assert PlaceByPriority(s.tcbs, [2], 3) == [2, 3];
    assert Step(s, Block(3, 1)).mutexes[1] == Queue(0, Some(1), 0, [2, 3]);
    assert Step(s, Block(3, 1)).pc == TwoWait().pc;
    assert Step(s, Block(3, 1)).tcbs == TwoWait().tcbs;
  }

  lemma StageFive()
    ensures Enabled(TwoWait(), Give(1, 1))
    ensures Step(TwoWait(), Give(1, 1)) == Stage(Plain(1, 1, 0), Woken(1, true), Blocked(1, true), {1, 2}, Queue(1, None, 0, [3]))
  {
    assert [2, 3][1..] == [3];
  }

  lemma StageSix()
    ensures var s := Stage(Plain(1, 1, 0), Woken(1, true), Blocked(1, true), {1, 2}, Queue(1, None, 0, [3]));
            && Enabled(s, Take(1, 1))
            && Step(s, Take(1, 1)) == Stage(Plain(1, 1, 1), Woken(1, true), Blocked(1, true), {1, 2}, Queue(0, Some(1), 0, [3]))
  {
    var s := Stage(Plain(1, 1, 0), Woken(1, true), Blocked(1, true), {1, 2}, Queue(1, None, 0, [3]));
    assert s.pc[1 := Idle] == s.pc;
  }

  /** Tasks 2 and 3 come to wait for a mutex that task 1 holds. When it is given back task 2 is
      woken, but task 1 takes it again first and inherits nothing from task 3. */
  lemma LowTakerBreaksTheBound()
    ensures var es := [Take(1, 1), Block(2, 1), Block(3, 1), Give(1, 1), Take(1, 1)];
            && LegalRun(Start(map[1 := 1, 2 := 2, 3 := 2], {1}, {}), es)
            && var s := Run(Start(map[1 := 1, 2 := 2, 3 := 2], {1}, {}), es);
            && s.mutexes[1].waiters == [3] && s.mutexes[1].holder == Some(1)
            && s.tcbs[1].priority == 1 && s.tcbs[3].priority == 2 && !Bound(s)
  {
    hide Enabled, Step;
    StageOne();
    StageTwo();
    StageThree();
    StageFour();
    StageFive();
    StageSix();
    var s := Stage(Plain(1, 1, 1), Woken(1, true), Blocked(1, true), {1, 2}, Queue(0, Some(1), 0, [3]));
    assert !PairOk(s, 1, 3, 1);
    hide Run, LegalRun;
    assert LegalRun(s, []) && Run(s, []) == s by { Rests(s); }
    StepThenRun(Stage(Plain(1, 1, 0), Woken(1, true), Blocked(1, true), {1, 2}, Queue(1, None, 0, [3])), Take(1, 1), []);
    StepThenRun(TwoWait(), Give(1, 1), [Take(1, 1)]);
    StepThenRun(Stage(Plain(2, 1, 1), Blocked(1, true), Idle, {1, 3}, Queue(0, Some(1), 0, [2])), Block(3, 1),
                [Give(1, 1), Take(1, 1)]);
    StepThenRun(Stage(Plain(1, 1, 1), Idle, Idle, {1, 2, 3}, Queue(0, Some(1), 0, [])), Block(2, 1),
          [Block(3, 1), Give(1, 1), Take(1, 1)]);
    StepThenRun(Start(map[1 := 1, 2 := 2, 3 := 2], {1}, {}), Take(1, 1), [Block(2, 1), Block(3, 1), Give(1, 1), Take(1, 1)]);
  }

  lemma StepThenRun(s: State, e: Event, es: seq<Event>)
    requires Enabled(s, e) && LegalRun(Step(s, e), es)
    ensures LegalRun(s, [e] + es) && Run(s, [e] + es) == Run(Step(s, e), es)
  {
    assert ([e] + es)[1..] == es;
  }

  lemma Rests(s: State)
    ensures LegalRun(s, []) && Run(s, []) == s
  {
  }
}
