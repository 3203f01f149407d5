/** Mutexes with priority inheritance (freertos/queue.c and freertos/tasks.c): who holds what,
    what priority it runs at, and how far inheritance reaches. */
module Mutexes {
  import opened Sequences
  import opened Tasks

  type Mutex = int

  datatype Option<T> = None | Some(value: T)

  const MAX_PRIORITIES: int := 5
  const IDLE_PRIORITY: int := 0
  /** taskEVENT_LIST_ITEM_VALUE_IN_USE, the top bit of an item value. */
  const VALUE_IN_USE: int := 0x8000_0000

  /** What the mutex operations read and write of a TCB: uxPriority, uxBasePriority,
      uxMutexesHeld, the priority that the value of xEventListItem stands for, and whether that
      value is in use for something else (taskEVENT_LIST_ITEM_VALUE_IN_USE), as it is while the
      task waits for an event group. */
  datatype Tcb = Tcb(priority: int, base: int, held: int, item: int, inUse: bool)

  /** A TCB whose event item stands for the priority it runs at. */
  function Plain(priority: int, base: int, held: int): Tcb {
    Tcb(priority, base, held, priority, false)
  }

  /** The event item is given a new value unless its value is in use. */
  function SetItem(t: Tcb, priority: int): Tcb {
    if t.inUse then t else t.(item := priority)
  }

  function Max(a: int, b: int): int { if a < b then b else a }

  function Min(a: int, b: int): int { if a < b then a else b }

  // ----- The priority arithmetic -------------------------------------------------------------

  /** xTaskPriorityInherit, for a holder and the priority of the task about to block: the
      holder's TCB and whether inheritance has occurred. */
  function Inherit(holder: Tcb, current: int): (Tcb, bool) {
    if holder.priority < current then (SetItem(holder, current).(priority := current), true)
    else (holder, holder.base < current)
  }

  /** xTaskPriorityDisinherit, by the holder giving a mutex back: its TCB and whether a switch
      is required. */
  function Disinherit(holder: Tcb): (Tcb, bool) {
    var less := holder.(held := holder.held - 1);
    if holder.priority == holder.base || less.held != 0 then (less, false)
    else (less.(priority := holder.base, item := holder.base, inUse := false), true)
  }

  /** vTaskPriorityDisinheritAfterTimeout, given the highest priority still waiting. */
  function DisinheritAfterTimeout(holder: Tcb, highestWaiting: int): Tcb {
    var p := if holder.base < highestWaiting then highestWaiting else holder.base;
    if holder.priority != p && holder.held == 1 then SetItem(holder, p).(priority := p) else holder
  }

  /** vTaskPrioritySet: the base is set whatever, to the highest priority there is if more is asked
      for, and the priority follows unless it is inherited. */
  function PrioritySet(t: Tcb, requested: int): (r: Tcb)
    ensures r.base == Min(requested, MAX_PRIORITIES - 1) && r.held == t.held && r.inUse == t.inUse
    ensures r.priority == if t.priority == t.base then r.base else t.priority
  {
    var p := if requested >= MAX_PRIORITIES then MAX_PRIORITIES - 1 else requested;
    if t.base == p then t
    else SetItem(if t.base == t.priority then t.(priority := p) else t, p).(base := p)
  }

  /** Setting a priority leaves a task above or at its base exactly when it has inherited
      nothing, or at least as much as the new base. */
  lemma PrioritySetKeepsAboveBaseIff(t: Tcb, requested: int)
    requires t.priority >= t.base && 0 <= requested < MAX_PRIORITIES
    ensures PrioritySet(t, requested).priority >= PrioritySet(t, requested).base
       <==> t.priority == t.base || requested <= t.priority
  {
  }

  /** A holder that has inherited 2 over a base of 1 is left running at 2 when its base is
      raised to 4, while its event item is given the new base. */
  lemma RaisingABaseIsLostOnAHolder()
    ensures PrioritySet(Tcb(2, 1, 1, 2, false), 4) == Tcb(2, 4, 1, 4, false)
  {
  }

  // ----- The state -------------------------------------------------------------------------------

  /** What a task is doing about a mutex: blocked on it, woken or timed out and about to try
      again, or about to give up; and whether blocking made the holder inherit. */
  datatype Pc = Idle | Blocked(m: Mutex, inherited: bool) | Woken(m: Mutex, inherited: bool) | TimedOut(m: Mutex, inherited: bool)
              | Leaving(m: Mutex, inherited: bool)

  /** A mutex as a queue of length one: its count, holder, uxRecursiveCallCount and the tasks
      waiting to take it, in list order. */
  datatype Queue = Queue(count: int, holder: Option<Task>, recursion: int, waiters: seq<Task>)

  /** recursive: the mutexes used through the recursive interface. */
  datatype State = State(tcbs: map<Task, Tcb>, pc: map<Task, Pc>, ready: set<Task>, mutexes: map<Mutex, Queue>,
                         recursive: set<Mutex>)

  function Holder(s: State, m: Mutex): Option<Task>
    requires m in s.mutexes
  {
    s.mutexes[m].holder
  }

  predicate AllIn(q: seq<Task>, tcbs: map<Task, Tcb>) {
    forall i :: 0 <= i < |q| ==> q[i] in tcbs
  }

  /** The list position that a task's event item gives it: before the first of a lower priority. */
  function PlaceByPriority(tcbs: map<Task, Tcb>, q: seq<Task>, t: Task): seq<Task>
    requires t in tcbs && AllIn(q, tcbs)
  {
    if q == [] || tcbs[q[0]].item < tcbs[t].item then [t] + q
    else [q[0]] + PlaceByPriority(tcbs, q[1..], t)
  }

  /** prvGetDisinheritPriorityAfterTimeout */
  function HighestWaiting(s: State, m: Mutex): int
    requires m in s.mutexes && AllIn(s.mutexes[m].waiters, s.tcbs)
  {
    var q := s.mutexes[m].waiters;
    if q == [] then IDLE_PRIORITY else s.tcbs[q[0]].item
  }

  /** A task that has timed out, or was woken and beaten to the mutex by another, looks again when
      its time has expired; if the mutex is taken it gives up, in a critical section of its own. A
      task that waits for an event group stores what it waits for in its event item, and gives the
      item its priority again when it reads the outcome (uxTaskResetEventItemValue). */
  datatype Event =
    | Take(t: Task, m: Mutex)
    | TakeAgain(t: Task, m: Mutex)
    | Block(t: Task, m: Mutex)
    | Give(t: Task, m: Mutex)
    | TimeOut(t: Task)
    | Look(t: Task)
    | GiveUp(t: Task)
    | AwaitBits(t: Task)
    | ReadBits(t: Task)
    | Sleep(t: Task)
    | Wake(t: Task)
    | SetPriority(t: Task, priority: int)

  /** The task can run code of its own: it is ready, and has read the outcome of any wait for an
      event group. */
  predicate CanRun(s: State, t: Task) {
    t in s.ready && t in s.pc && t in s.tcbs && !s.tcbs[t].inUse
  }

  /** The task is at the top of the take loop for this mutex. */
  predicate Tries(s: State, t: Task, m: Mutex) {
    && CanRun(s, t) && m in s.mutexes
    && (s.pc[t] == Idle || (s.pc[t].Woken? && s.pc[t].m == m) || (s.pc[t].TimedOut? && s.pc[t].m == m))
  }

  predicate Known(s: State) {
    && s.pc.Keys == s.tcbs.Keys && s.ready <= s.tcbs.Keys
    && (forall m :: m in s.mutexes ==> AllIn(s.mutexes[m].waiters, s.tcbs))
    && (forall m :: m in s.mutexes && s.mutexes[m].holder.Some? ==> s.mutexes[m].holder.value in s.tcbs)
    && (forall t :: t in s.pc && !s.pc[t].Idle? ==> s.pc[t].m in s.mutexes)
  }

  predicate Enabled(s: State, e: Event) {
    Known(s) &&
    match e
    case Take(t, m) => Tries(s, t, m) && s.mutexes[m].count > 0
    case TakeAgain(t, m) =>
      CanRun(s, t) && s.pc[t] == Idle && m in s.mutexes && m in s.recursive && Holder(s, m) == Some(t)
    case Block(t, m) =>
      Tries(s, t, m) && !s.pc[t].TimedOut? && s.mutexes[m].count == 0 && !(m in s.recursive && Holder(s, m) == Some(t))
    case Give(t, m) => CanRun(s, t) && s.pc[t] == Idle && m in s.mutexes && Holder(s, m) == Some(t)
    case TimeOut(t) => t in s.pc && s.pc[t].Blocked?
    case Look(t) => CanRun(s, t) && (s.pc[t].TimedOut? || s.pc[t].Woken?) && s.mutexes[s.pc[t].m].count == 0
    case GiveUp(t) => CanRun(s, t) && s.pc[t].Leaving?
    case AwaitBits(t) => CanRun(s, t) && s.pc[t] == Idle
    case ReadBits(t) => t in s.ready && t in s.pc && t in s.tcbs && s.pc[t] == Idle && s.tcbs[t].inUse
    case Sleep(t) => CanRun(s, t) && s.pc[t] == Idle
    case Wake(t) => t in s.pc && s.pc[t] == Idle
    case SetPriority(t, p) => t in s.tcbs && 0 <= p
  }

  /** The semaphore handed back: free again, and its first waiter woken to try. */
  function Release(s: State, t: Task, m: Mutex): State
    requires Known(s) && t in s.tcbs && m in s.mutexes
  {
    var q := s.mutexes[m];
    var tcbs := s.tcbs[t := Disinherit(s.tcbs[t]).0];
    if q.waiters == [] then s.(tcbs := tcbs, mutexes := s.mutexes[m := Queue(q.count + 1, None, 0, [])])
    else
      var w := q.waiters[0];
      s.(tcbs := tcbs, mutexes := s.mutexes[m := Queue(q.count + 1, None, 0, q.waiters[1..])], ready := s.ready + {w},
         pc := s.pc[w := if w in s.pc && s.pc[w].Blocked? then Woken(m, s.pc[w].inherited) else Woken(m, false)])
  }

  function Step(s: State, e: Event): State
    requires Enabled(s, e)
  {
    match e
    case Take(t, m) =>
      var q := s.mutexes[m];
      s.(tcbs := s.tcbs[t := s.tcbs[t].(held := s.tcbs[t].held + 1)], pc := s.pc[t := Idle],
         mutexes := s.mutexes[m := q.(count := q.count - 1, holder := Some(t),
                                      recursion := if m in s.recursive then q.recursion + 1 else q.recursion)])
    case TakeAgain(_, m) => s.(mutexes := s.mutexes[m := s.mutexes[m].(recursion := s.mutexes[m].recursion + 1)])
    case Block(t, m) =>
      var q := s.mutexes[m];
      var (tcbs, inherited) :=
        if q.holder.None? then (s.tcbs, false)
        else var r := Inherit(s.tcbs[q.holder.value], s.tcbs[t].priority); (s.tcbs[q.holder.value := r.0], r.1);
      s.(tcbs := tcbs, ready := s.ready - {t}, pc := s.pc[t := Blocked(m, inherited)],
         mutexes := s.mutexes[m := q.(waiters := PlaceByPriority(tcbs, q.waiters, t))])
    case Give(t, m) =>
      var q := s.mutexes[m];
      if m in s.recursive && q.recursion != 1 then s.(mutexes := s.mutexes[m := q.(recursion := q.recursion - 1)])
      else Release(s, t, m)
    case TimeOut(t) =>
      var p := s.pc[t];
      var q := s.mutexes[p.m];
      s.(pc := s.pc[t := TimedOut(p.m, p.inherited)], ready := s.ready + {t},
         mutexes := s.mutexes[p.m := q.(waiters := Without(q.waiters, t))])
    case Look(t) => s.(pc := s.pc[t := Leaving(s.pc[t].m, s.pc[t].inherited)])
    case GiveUp(t) =>
      var p := s.pc[t];
      var h := s.mutexes[p.m].holder;
      s.(pc := s.pc[t := Idle],
         tcbs := if p.inherited && h.Some?
                 then s.tcbs[h.value := DisinheritAfterTimeout(s.tcbs[h.value], HighestWaiting(s, p.m))] else s.tcbs)
    case AwaitBits(t) => s.(ready := s.ready - {t}, tcbs := s.tcbs[t := s.tcbs[t].(inUse := true)])
    case ReadBits(t) => s.(tcbs := s.tcbs[t := s.tcbs[t].(item := s.tcbs[t].priority, inUse := false)])
    case Sleep(t) => s.(ready := s.ready - {t})
    case Wake(t) => s.(ready := s.ready + {t})
    case SetPriority(t, p) => s.(tcbs := s.tcbs[t := PrioritySet(s.tcbs[t], p)])
  }

  // ----- Conservation --------------------------------------------------------------------------------

  ghost function HeldBy(s: State, t: Task): set<Mutex> {
    set m | m in s.mutexes && s.mutexes[m].holder == Some(t)
  }

  /** Its count is one exactly while nobody holds it; a recursive one is held exactly while its
      takes outnumber its gives. */
  ghost predicate MutexOk(s: State, m: Mutex)
    requires m in s.mutexes
  {
    var q := s.mutexes[m];
    && (q.count == 0 || q.count == 1) && (q.count == 1 <==> q.holder == None)
    && q.recursion >= 0 && (q.recursion > 0 <==> m in s.recursive && q.holder.Some?)
    && Distinct(q.waiters)
    && (forall u :: u in q.waiters ==> u in s.pc && s.pc[u].Blocked? && s.pc[u].m == m)
  }

  /** uxMutexesHeld counts the mutexes a task holds; one that holds none runs at its base, and the
      event item of one that runs at its base stands for that, unless it is in use, which it is
      not while the task is at a mutex. */
  ghost predicate TaskOk(s: State, t: Task)
    requires t in s.tcbs
  {
    s.tcbs[t].held == |HeldBy(s, t)| && (s.tcbs[t].held == 0 ==> s.tcbs[t].priority == s.tcbs[t].base)
    && (s.tcbs[t].priority == s.tcbs[t].base && !s.tcbs[t].inUse ==> s.tcbs[t].item == s.tcbs[t].base)
    && (t in s.pc && !s.pc[t].Idle? ==> !s.tcbs[t].inUse)
  }

  ghost predicate Conserved(s: State) {
    && Known(s)
    && (forall m :: m in s.mutexes ==> MutexOk(s, m))
    && (forall t :: t in s.tcbs ==> TaskOk(s, t))
  }

  lemma {:induction false} PlaceMembers(tcbs: map<Task, Tcb>, q: seq<Task>, t: Task)
    requires t in tcbs && AllIn(q, tcbs)
    ensures forall u :: u in PlaceByPriority(tcbs, q, t) <==> u == t || u in q
    ensures t !in q && Distinct(q) ==> Distinct(PlaceByPriority(tcbs, q, t))
    decreases |q|
  {
    if q != [] && tcbs[q[0]].item >= tcbs[t].item {
      PlaceMembers(tcbs, q[1..], t);
      var r := PlaceByPriority(tcbs, q[1..], t);
      assert forall u :: u in q <==> u == q[0] || u in q[1..];
      if t !in q && Distinct(q) {
        HeadOnce(q);
        assert forall j :: 0 <= j < |r| ==> r[j] in r;
      }
    }
  }

  lemma AllInOf(q: seq<Task>, tcbs: map<Task, Tcb>)
    requires forall u :: u in q ==> u in tcbs
    ensures AllIn(q, tcbs)
  {
    forall i | 0 <= i < |q|
      ensures q[i] in tcbs
    {
      var u := q[i];
      assert u in q;
    }
  }

  ghost predicate SameKeys(s: State, r: State) {
    forall x :: x in r.mutexes <==> x in s.mutexes
  }

  /** Only the holder of m differs. */
  ghost predicate HoldersBut(s: State, r: State, m: Mutex) {
    m in s.mutexes && SameKeys(s, r)
    && forall x :: x in s.mutexes && x != m ==> r.mutexes[x].holder == s.mutexes[x].holder
  }

  lemma HeldAfter(s: State, r: State, m: Mutex, u: Task)
    requires HoldersBut(s, r, m)
    ensures HeldBy(r, u) == if r.mutexes[m].holder == Some(u) then HeldBy(s, u) + {m} else HeldBy(s, u) - {m}
  {
    var expected := if r.mutexes[m].holder == Some(u) then HeldBy(s, u) + {m} else HeldBy(s, u) - {m};
    forall x
      ensures x in HeldBy(r, u) <==> x in expected
    {
    }
  }

  lemma SameHeld(s: State, r: State, u: Task)
    requires SameKeys(s, r) && forall x :: x in s.mutexes ==> r.mutexes[x].holder == s.mutexes[x].holder
    ensures HeldBy(r, u) == HeldBy(s, u)
  {
    forall x
      ensures x in HeldBy(r, u) <==> x in HeldBy(s, u)
    {
    }
  }

  lemma HolderHolds(s: State, m: Mutex)
    requires Conserved(s) && m in s.mutexes && s.mutexes[m].holder.Some?
    ensures s.mutexes[m].holder.value in s.tcbs && s.tcbs[s.mutexes[m].holder.value].held >= 1
  {
    var h := s.mutexes[m].holder.value;
    assert m in HeldBy(s, h) && TaskOk(s, h);
  }

  lemma TakeConserves(s: State, t: Task, m: Mutex)
    requires Conserved(s) && Enabled(s, Take(t, m))
    ensures Conserved(Step(s, Take(t, m)))
  {
    var r := Step(s, Take(t, m));
    forall u | u in r.tcbs ensures TaskOk(r, u) { TakeTaskOk(s, t, m, u); }
    hide TaskOk;
    assert MutexOk(s, m);
    forall x | x in r.mutexes ensures MutexOk(r, x) { assert MutexOk(s, x); }
  }

  lemma TakeTaskOk(s: State, t: Task, m: Mutex, u: Task)
    requires Conserved(s) && Enabled(s, Take(t, m)) && u in s.tcbs
    ensures TaskOk(Step(s, Take(t, m)), u)
  {
    var r := Step(s, Take(t, m));
    assert MutexOk(s, m) && TaskOk(s, u);
    assert m !in HeldBy(s, u);
    HeldAfter(s, r, m, u);
  }

  lemma ReleaseConserves(s: State, t: Task, m: Mutex)
    requires Conserved(s) && m in s.mutexes && s.mutexes[m].holder == Some(t)
    requires m in s.recursive ==> s.mutexes[m].recursion == 1
    ensures Conserved(Release(s, t, m))
  {
    var r := Release(s, t, m);
    assert MutexOk(s, m);
    HolderHolds(s, m);
    var q := s.mutexes[m].waiters;
    if q != [] { HeadOnce(q); assert q[0] in q; }
    forall u | u in r.tcbs ensures TaskOk(r, u) { HeldAfter(s, r, m, u); assert TaskOk(s, u); }
    forall x | x in r.mutexes ensures MutexOk(r, x) && AllIn(r.mutexes[x].waiters, r.tcbs) { assert MutexOk(s, x); }
  }

  lemma BlockConserves(s: State, t: Task, m: Mutex)
    requires Conserved(s) && Enabled(s, Block(t, m))
    ensures Conserved(Step(s, Block(t, m)))
  {
    var r := Step(s, Block(t, m));
    assert MutexOk(s, m);
    HolderHolds(s, m);
    var q := s.mutexes[m].waiters;
    assert forall u :: u in q ==> u in s.tcbs;
    PlaceMembers(r.tcbs, q, t);
    AllInOf(r.mutexes[m].waiters, r.tcbs);
    forall u | u in r.tcbs ensures TaskOk(r, u) { SameHeld(s, r, u); assert TaskOk(s, u); }
    forall x | x in r.mutexes ensures MutexOk(r, x) && AllIn(r.mutexes[x].waiters, r.tcbs) { assert MutexOk(s, x); }
  }

  lemma TimeOutConserves(s: State, t: Task)
    requires Conserved(s) && Enabled(s, TimeOut(t))
    ensures Conserved(Step(s, TimeOut(t)))
  {
    var r, m := Step(s, TimeOut(t)), s.pc[t].m;
    assert MutexOk(s, m);
    WithoutMembers(s.mutexes[m].waiters, t);
    assert forall u :: u in s.mutexes[m].waiters ==> u in s.tcbs;
    AllInOf(r.mutexes[m].waiters, r.tcbs);
    forall u | u in r.tcbs ensures TaskOk(r, u) { SameHeld(s, r, u); assert TaskOk(s, u); }
    forall x | x in r.mutexes ensures MutexOk(r, x) && AllIn(r.mutexes[x].waiters, r.tcbs) { assert MutexOk(s, x); }
  }

  lemma OtherConserves(s: State, e: Event)
    requires Conserved(s) && Enabled(s, e)
    requires e.TakeAgain? || e.Look? || e.GiveUp? || e.AwaitBits? || e.ReadBits? || e.Sleep? || e.Wake? || e.SetPriority?
             || (e.Give? && e.m in s.recursive && s.mutexes[e.m].recursion != 1)
    ensures Conserved(Step(s, e))
  {
    var r := Step(s, e);
    if e.GiveUp? && s.mutexes[s.pc[e.t].m].holder.Some? { HolderHolds(s, s.pc[e.t].m); }
    forall u | u in r.tcbs ensures TaskOk(r, u) { SameHeld(s, r, u); assert TaskOk(s, u); }
    forall x | x in r.mutexes ensures MutexOk(r, x) && AllIn(r.mutexes[x].waiters, r.tcbs) { assert MutexOk(s, x); }
  }

  lemma StepConserves(s: State, e: Event)
    requires Conserved(s) && Enabled(s, e)
    ensures Conserved(Step(s, e))
  {
    hide Conserved;
    match e
    case Take(t, m) => TakeConserves(s, t, m);
    case Block(t, m) => BlockConserves(s, t, m);
    case Give(t, m) =>
      if m in s.recursive && s.mutexes[m].recursion != 1 { OtherConserves(s, e); } else { ReleaseConserves(s, t, m); }
    case TimeOut(t) => TimeOutConserves(s, t);
    case _ => OtherConserves(s, e);
  }

  // ----- Runs and the balance of recursive takes ------------------------------------------------------

  ghost predicate LegalRun(s: State, es: seq<Event>)
    decreases |es|
  {
    es == [] || (Enabled(s, es[0]) && LegalRun(Step(s, es[0]), es[1..]))
  }

  ghost function Run(s: State, es: seq<Event>): State
    requires LegalRun(s, es)
    decreases |es|
  {
    if es == [] then s else Run(Step(s, es[0]), es[1..])
  }

  /** Tasks at their base priorities and free mutexes. */
  function Start(bases: map<Task, int>, mutexes: set<Mutex>, recursive: set<Mutex>): State {
    State(map t | t in bases :: Plain(bases[t], bases[t], 0), map t | t in bases :: Idle, bases.Keys,
          map m | m in mutexes :: Queue(1, None, 0, []), recursive)
  }

  lemma StartConserves(bases: map<Task, int>, mutexes: set<Mutex>, recursive: set<Mutex>)
    ensures Conserved(Start(bases, mutexes, recursive))
  {
    var s := Start(bases, mutexes, recursive);
    forall t | t in s.tcbs ensures TaskOk(s, t) { assert HeldBy(s, t) == {}; }
  }

  lemma {:induction false} RunConserves(s: State, es: seq<Event>)
    requires Conserved(s) && LegalRun(s, es)
    ensures Conserved(Run(s, es))
    decreases |es|
  {
    if es != [] {
      StepConserves(s, es[0]);
      RunConserves(Step(s, es[0]), es[1..]);
    }
  }

  /** Over every run, priorities set along the way or not: a mutex's count is one exactly while
      it has no holder, uxMutexesHeld is the number of mutexes a task holds, and a task that
      holds none runs at its base priority. */
  lemma MutexesAreConserved(bases: map<Task, int>, mutexes: set<Mutex>, recursive: set<Mutex>, es: seq<Event>)
    requires LegalRun(Start(bases, mutexes, recursive), es)
    ensures var s := Run(Start(bases, mutexes, recursive), es);
            && (forall m :: m in s.mutexes ==> (s.mutexes[m].count == 1 <==> s.mutexes[m].holder == None))
            && (forall t :: t in s.tcbs ==> s.tcbs[t].held == |HeldBy(s, t)|)
            && (forall t :: t in s.tcbs && HeldBy(s, t) == {} ==> s.tcbs[t].priority == s.tcbs[t].base)
  {
    var s := Run(Start(bases, mutexes, recursive), es);
    StartConserves(bases, mutexes, recursive);
    RunConserves(Start(bases, mutexes, recursive), es);
    assert forall m :: m in s.mutexes ==> MutexOk(s, m);
    assert forall t :: t in s.tcbs ==> TaskOk(s, t);
  }

  /** Takes less gives of a mutex. */
  function Net(es: seq<Event>, m: Mutex): int {
    if es == [] then 0
    else (if (es[0].Take? || es[0].TakeAgain?) && es[0].m == m then 1 else if es[0].Give? && es[0].m == m then -1 else 0)
         + Net(es[1..], m)
  }

  lemma StepCounts(s: State, e: Event, m: Mutex)
    requires Conserved(s) && Enabled(s, e) && m in s.mutexes && m in s.recursive
    ensures m in Step(s, e).mutexes && Step(s, e).recursive == s.recursive
    ensures Step(s, e).mutexes[m].recursion == s.mutexes[m].recursion + Net([e], m)
  {
    assert MutexOk(s, m);
    assert [e][1..] == [];
  }

  /** A recursive mutex is free exactly when gives balance takes. */
  lemma {:induction false} RecursionCounts(s: State, es: seq<Event>, m: Mutex)
    requires Conserved(s) && LegalRun(s, es) && m in s.mutexes && m in s.recursive
    ensures m in Run(s, es).mutexes && m in Run(s, es).recursive
    ensures Run(s, es).mutexes[m].recursion == s.mutexes[m].recursion + Net(es, m)
    decreases |es|
  {
    if es != [] {
      StepCounts(s, es[0], m);
      StepConserves(s, es[0]);
      RecursionCounts(Step(s, es[0]), es[1..], m);
      assert [es[0]][1..] == [];
    }
  }

  lemma GivesMustBalanceTakes(bases: map<Task, int>, mutexes: set<Mutex>, recursive: set<Mutex>, es: seq<Event>, m: Mutex)
    requires LegalRun(Start(bases, mutexes, recursive), es) && m in mutexes && m in recursive
    ensures var s := Run(Start(bases, mutexes, recursive), es);
            m in s.mutexes && Net(es, m) >= 0 && (s.mutexes[m].holder == None <==> Net(es, m) == 0)
  {
    var s0 := Start(bases, mutexes, recursive);
    StartConserves(bases, mutexes, recursive);
    RunConserves(s0, es);
    RecursionCounts(s0, es, m);
    assert MutexOk(Run(s0, es), m);
  }

  // ----- The TCBs and ready lists in place ----------------------------------------------------------

  /** A task moved from the ready list of one priority to the end of another. */
  function Moved(lists: seq<seq<Task>>, t: Task, from: int, to: int): seq<seq<Task>>
    requires 0 <= from < |lists| && 0 <= to < |lists|
  {
    var out := lists[from := Without(lists[from], t)];
    out[to := out[to] + [t]]
  }

  class TaskTable {
    var uxPriority: map<Task, int>
    var uxBasePriority: map<Task, int>
    var uxMutexesHeld: map<Task, int>
    /** The values of the event items. */
    var xItemValue: map<Task, int>
    var pxReadyTasksLists: seq<seq<Task>>

    predicate Has(t: Task)
      reads this
    {
      t in uxPriority && t in uxBasePriority && t in uxMutexesHeld && t in xItemValue
    }

    function TcbOf(t: Task): Tcb
      requires Has(t)
      reads this
    {
      Tcb(uxPriority[t], uxBasePriority[t], uxMutexesHeld[t], MAX_PRIORITIES - xItemValue[t], xItemValue[t] >= VALUE_IN_USE)
    }

    /** A ready task is in the list of its priority. */
    ghost predicate Valid()
      reads this
    {
      && |pxReadyTasksLists| == MAX_PRIORITIES
      && (forall t :: t in uxPriority ==> 0 <= uxPriority[t] < MAX_PRIORITIES)
      && (forall p :: 0 <= p < MAX_PRIORITIES ==> Distinct(pxReadyTasksLists[p]))
      && (forall p, t :: 0 <= p < MAX_PRIORITIES && t in pxReadyTasksLists[p] ==> t in uxPriority && uxPriority[t] == p)
    }

    /** The lists after t changes from one priority to another, if it was ready. */
    ghost function ListsAfter(lists: seq<seq<Task>>, t: Task, from: int, to: int): seq<seq<Task>>
      requires 0 <= from < |lists| && 0 <= to < |lists|
    {
      if from != to && t in lists[from] then Moved(lists, t, from, to) else lists
    }

    /** Take a ready task off its list, change its priority, and put it on the new list; one that
        is not ready only has its priority changed. */
    method Reprioritise(t: Task, p: int)
      requires Valid() && Has(t) && 0 <= p < MAX_PRIORITIES && p != uxPriority[t]
      modifies this`uxPriority, this`pxReadyTasksLists
      ensures Valid() && uxPriority == old(uxPriority)[t := p]
      ensures pxReadyTasksLists == ListsAfter(old(pxReadyTasksLists), t, old(uxPriority)[t], p)
    {
      var from := uxPriority[t];
      if t in pxReadyTasksLists[from] {
        WithoutMembers(pxReadyTasksLists[from], t);
        pxReadyTasksLists := pxReadyTasksLists[from := Without(pxReadyTasksLists[from], t)];
        uxPriority := uxPriority[t := p];
        pxReadyTasksLists := pxReadyTasksLists[p := pxReadyTasksLists[p] + [t]];
      } else {
        uxPriority := uxPriority[t := p];
      }
    }

    /** xTaskPriorityInherit */
    method PriorityInherit(holder: Option<Task>, current: Task) returns (occurred: bool)
      requires Valid() && Has(current) && (holder.Some? ==> Has(holder.value))
      modifies this`uxPriority, this`pxReadyTasksLists, this`xItemValue
      ensures Valid()
      ensures holder.None? ==>
                !occurred && uxPriority == old(uxPriority) && pxReadyTasksLists == old(pxReadyTasksLists)
                && xItemValue == old(xItemValue)
      ensures holder.Some? ==>
                && Has(holder.value)
                && (TcbOf(holder.value), occurred) == Inherit(old(TcbOf(holder.value)), old(uxPriority)[current])
                && uxPriority[holder.value] == Max(old(uxPriority)[holder.value], old(uxPriority)[current])
                && (occurred <==> Min(old(uxPriority)[holder.value], uxBasePriority[holder.value]) < old(uxPriority)[current])
                && uxPriority == old(uxPriority)[holder.value := uxPriority[holder.value]]
                && xItemValue == old(xItemValue)[holder.value := xItemValue[holder.value]]
                && pxReadyTasksLists
                   == ListsAfter(old(pxReadyTasksLists), holder.value, old(uxPriority)[holder.value], uxPriority[holder.value])
    {
      occurred := false;
      if holder.Some? {
        if uxPriority[holder.value] < uxPriority[current] {
          if xItemValue[holder.value] < VALUE_IN_USE {
            xItemValue := xItemValue[holder.value := MAX_PRIORITIES - uxPriority[current]];
          }
          Reprioritise(holder.value, uxPriority[current]);
          occurred := true;
        } else if uxBasePriority[holder.value] < uxPriority[current] {
          occurred := true;
        }
      }
    }

    /** xTaskPriorityDisinherit, by the running task that holds the mutex. */
    method PriorityDisinherit(holder: Option<Task>) returns (switch: bool)
      requires Valid() && (holder.Some? ==> Has(holder.value) && 0 <= uxBasePriority[holder.value] < MAX_PRIORITIES)
      requires holder.Some? ==> uxMutexesHeld[holder.value] > 0 && holder.value in pxReadyTasksLists[uxPriority[holder.value]]
      modifies this
      ensures Valid()
      ensures holder.None? ==>
                !switch && uxPriority == old(uxPriority) && pxReadyTasksLists == old(pxReadyTasksLists)
                && xItemValue == old(xItemValue)
      ensures holder.Some? ==>
                && Has(holder.value)
                && (TcbOf(holder.value), switch) == Disinherit(old(TcbOf(holder.value)))
                && (switch <==> uxPriority[holder.value] != old(uxPriority)[holder.value])
                && uxMutexesHeld[holder.value] == old(uxMutexesHeld)[holder.value] - 1
                && uxPriority[holder.value]
                   == (if uxMutexesHeld[holder.value] == 0 then uxBasePriority else old(uxPriority))[holder.value]
                && uxPriority == old(uxPriority)[holder.value := uxPriority[holder.value]]
                && xItemValue == old(xItemValue)[holder.value := xItemValue[holder.value]]
                && uxMutexesHeld == old(uxMutexesHeld)[holder.value := uxMutexesHeld[holder.value]]
                && pxReadyTasksLists
                   == ListsAfter(old(pxReadyTasksLists), holder.value, old(uxPriority)[holder.value], uxPriority[holder.value])
      ensures uxBasePriority == old(uxBasePriority)
    {
      switch := false;
      if holder.Some? {
        var t := holder.value;
        uxMutexesHeld := uxMutexesHeld[t := uxMutexesHeld[t] - 1];
        if uxPriority[t] != uxBasePriority[t] {
          if uxMutexesHeld[t] == 0 {
            Reprioritise(t, uxBasePriority[t]);
            xItemValue := xItemValue[t := MAX_PRIORITIES - uxPriority[t]];
            switch := true;
          }
        }
      }
    }

    /** vTaskPriorityDisinheritAfterTimeout */
    method PriorityDisinheritAfterTimeout(holder: Option<Task>, highestWaiting: int)
      requires Valid() && (holder.Some? ==> Has(holder.value) && 0 <= uxBasePriority[holder.value] < MAX_PRIORITIES)
      requires 0 <= highestWaiting < MAX_PRIORITIES
      modifies this`uxPriority, this`pxReadyTasksLists, this`xItemValue
      ensures Valid()
      ensures holder.None? ==>
                uxPriority == old(uxPriority) && pxReadyTasksLists == old(pxReadyTasksLists)
                && xItemValue == old(xItemValue)
      ensures holder.Some? ==>
                && Has(holder.value)
                && TcbOf(holder.value) == DisinheritAfterTimeout(old(TcbOf(holder.value)), highestWaiting)
                && uxPriority[holder.value]
                   == (if uxMutexesHeld[holder.value] == 1 then Max(uxBasePriority[holder.value], highestWaiting)
                       else old(uxPriority)[holder.value])
                && uxPriority == old(uxPriority)[holder.value := uxPriority[holder.value]]
                && xItemValue == old(xItemValue)[holder.value := xItemValue[holder.value]]
                && pxReadyTasksLists
                   == ListsAfter(old(pxReadyTasksLists), holder.value, old(uxPriority)[holder.value], uxPriority[holder.value])
    {
      if holder.Some? {
        var t := holder.value;
        var p := uxBasePriority[t];
        if uxBasePriority[t] < highestWaiting { p := highestWaiting; }
        if uxPriority[t] != p {
          if uxMutexesHeld[t] == 1 {
            Reprioritise(t, p);
            if xItemValue[t] < VALUE_IN_USE { xItemValue := xItemValue[t := MAX_PRIORITIES - p]; }
          }
        }
      }
    }
  }
}
