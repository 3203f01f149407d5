/** The task lists of freertos/tasks.c as one value, and the list moves from which its
    critical sections are made. Each move is a function whose contract keeps the structural
    invariant. */
module SchedulerState {
  import opened Sequences
  import opened Tasks
  import opened TickTime
  import Rings
  import Lists

  const PRIORITIES: nat := 5

  /** pxContainer of xStateListItem; InDelay(0) and InDelay(1) are xDelayedTaskList1 and 2. */
  datatype Place = Nowhere | InReady(priority: int) | InDelay(list: int) | InSuspended | InTerminating

  /** pxContainer of xEventListItem: none, xPendingReadyList, or the list of some object. */
  datatype EventPlace = NoEvent | PendingReady | WaitingOn(list: nat)

  type ReadyLists = seq<Rings.Ring<Task>>

  /** The task lists, the fields of the TCBs (one map per field), and the counters that
      depend on them alone. */
  datatype TaskLists = TaskLists(
    priority: map<Task, int>,
    place: map<Task, Place>,
    event: map<Task, EventPlace>,
    wake: map<Task, int>,
    ready: ReadyLists,
    delay: seq<seq<Task>>,
    suspended: seq<Task>,
    terminating: seq<Task>,
    pending: seq<Task>,
    topReady: int,
    taskCount: int,
    reapable: int)
  {
    predicate IsReady(t: Task) { t in place && place[t].InReady? }
  }

  // ----- The structural invariant ------------------------------------------------

  /** The list q holds exactly the tasks whose container is `where`, each once. */
  ghost predicate Holds<P(!new)>(container: map<Task, P>, q: seq<Task>, where: P) {
    Distinct(q) && forall t :: t in q <==> t in container && container[t] == where
  }

  ghost predicate ReadyHold(place: map<Task, Place>, ready: ReadyLists) {
    |ready| == PRIORITIES && forall p :: 0 <= p < PRIORITIES ==>
      Holds(place, ready[p].items, InReady(p)) && ready[p].cursor <= |ready[p].items|
  }

  predicate PlaceInRange(p: Place) {
    (p.InDelay? ==> 0 <= p.list < 2) && (p.InReady? ==> 0 <= p.priority < PRIORITIES)
  }

  /** The ranges of the TCB fields. */
  ghost predicate InRange(s: TaskLists) {
    && (forall t :: t in s.priority ==> 0 <= s.priority[t] < PRIORITIES)
    && (forall t :: t in s.wake ==> 0 <= s.wake[t] < WRAP)
    && |s.delay| == 2
    && 0 <= s.topReady < PRIORITIES
  }

  /** The state lists are what the containers say, a ready task is in the list of its
      priority, the counters agree with the lists, and uxTopReadyPriority bounds the
      non-empty ready lists. */
  ghost predicate Core(s: TaskLists) {
    && s.place.Keys == s.priority.Keys == s.event.Keys == s.wake.Keys
    && InRange(s)
    && ReadyHold(s.place, s.ready)
    && Holds(s.place, s.delay[0], InDelay(0))
    && Holds(s.place, s.delay[1], InDelay(1))
    && Holds(s.place, s.suspended, InSuspended)
    && Holds(s.place, s.terminating, InTerminating)
    && Holds(s.event, s.pending, PendingReady)
    && (forall t :: t in s.place ==> PlaceInRange(s.place[t]))
    && (forall t :: t in s.place && s.place[t].InReady? ==> s.place[t].priority == s.priority[t])
    && (forall p :: s.topReady < p < PRIORITIES ==> s.ready[p].items == [])
    && s.taskCount == |s.place|
    && s.reapable == |s.terminating|
  }

  /** Between critical sections every live task is in some state list. */
  ghost predicate Settled(s: TaskLists) {
    Core(s) && forall t :: t in s.place ==> s.place[t] != Nowhere
  }

  /** The same with t alone taken out. */
  ghost predicate Detached(s: TaskLists, t: Task) {
    && Core(s) && t in s.place && s.place[t] == Nowhere
    && forall x :: x in s.place && x != t ==> s.place[x] != Nowhere
  }

  lemma HoldsWithout<P(!new)>(c: map<Task, P>, q: seq<Task>, t: Task, other: P)
    requires t in c && Holds(c, q, c[t]) && other != c[t]
    ensures t in q && Holds(c[t := other], Without(q, t), c[t])
  {
    WithoutMembers(q, t);
  }

  lemma HoldsElsewhere<P(!new)>(c: map<Task, P>, q: seq<Task>, where: P, t: Task, other: P)
    requires t in c && c[t] != where && other != where && Holds(c, q, where)
    ensures Holds(c[t := other], q, where)
  {
  }

  lemma HoldsWith<P(!new)>(c: map<Task, P>, q: seq<Task>, k: nat, t: Task, where: P)
    requires t in c && c[t] != where && k <= |q| && Holds(c, q, where)
    ensures Holds(c[t := where], q[..k] + [t] + q[k..], where)
  {
    var r := q[..k] + [t] + q[k..];
    assert q == q[..k] + q[k..];
    assert forall x :: x in r <==> x in q || x == t;
    assert t !in q;
  }

  // ----- Taking a state item out of its list, and putting it into one ------------

  /** uxListRemove of t's state item, through its container. */
  function Unlist(s: TaskLists, t: Task): (r: TaskLists)
    requires Settled(s) && t in s.place
    ensures Detached(r, t)
    ensures r == s.(place := s.place[t := Nowhere], ready := r.ready, delay := r.delay,
                    suspended := r.suspended, terminating := r.terminating, reapable := r.reapable)
  {
    UnlistKeepsCore(s, t);
    UnlistFrom(s, t)
  }

  function UnlistFrom(s: TaskLists, t: Task): (r: TaskLists)
    requires Core(s) && t in s.place && s.place[t] != Nowhere && PlaceInRange(s.place[t])
  {
    var gone := s.place[t := Nowhere];
    match s.place[t]
    case InReady(p) => s.(place := gone, ready := s.ready[p := Rings.Remove(s.ready[p], t)])
    case InDelay(b) => s.(place := gone, delay := s.delay[b := Without(s.delay[b], t)])
    case InSuspended => s.(place := gone, suspended := Without(s.suspended, t))
    case InTerminating => s.(place := gone, terminating := Without(s.terminating, t), reapable := s.reapable - 1)
  }

  lemma ReadyElsewhere(place: map<Task, Place>, ready: ReadyLists, t: Task, other: Place)
    requires t in place && !place[t].InReady? && !other.InReady? && ReadyHold(place, ready)
    ensures ReadyHold(place[t := other], ready)
  {
    forall p | 0 <= p < PRIORITIES
      ensures Holds(place[t := other], ready[p].items, InReady(p))
    {
      HoldsElsewhere(place, ready[p].items, InReady(p), t, other);
    }
  }

  /** The plain lists that t neither leaves nor enters. */
  lemma PlainElsewhere(s: TaskLists, t: Task, other: Place)
    requires Core(s) && t in s.place
    ensures s.place[t] != InDelay(0) && other != InDelay(0) ==> Holds(s.place[t := other], s.delay[0], InDelay(0))
    ensures s.place[t] != InDelay(1) && other != InDelay(1) ==> Holds(s.place[t := other], s.delay[1], InDelay(1))
    ensures s.place[t] != InSuspended && other != InSuspended ==> Holds(s.place[t := other], s.suspended, InSuspended)
    ensures s.place[t] != InTerminating && other != InTerminating ==>
              Holds(s.place[t := other], s.terminating, InTerminating)
  {
  }

  lemma UnlistReady(place: map<Task, Place>, ready: ReadyLists, t: Task)
    requires ReadyHold(place, ready) && t in place && place[t].InReady? && 0 <= place[t].priority < PRIORITIES
    ensures var p := place[t].priority;
            t in ready[p].items && ReadyHold(place[t := Nowhere], ready[p := Rings.Remove(ready[p], t)])
  {
    var p := place[t].priority;
    HoldsWithout(place, ready[p].items, t, Nowhere);
    var r := ready[p := Rings.Remove(ready[p], t)];
    forall b | 0 <= b < PRIORITIES
      ensures Holds(place[t := Nowhere], r[b].items, InReady(b)) && r[b].cursor <= |r[b].items|
    {
      if b != p {
        HoldsElsewhere(place, ready[b].items, InReady(b), t, Nowhere);
      }
    }
  }

  lemma UnlistKeepsCore(s: TaskLists, t: Task)
    requires Settled(s) && t in s.place
    ensures Detached(UnlistFrom(s, t), t)
  {
    match s.place[t] {
      case InReady(p) => UnlistReadyCore(s, t);
      case InDelay(b) => UnlistDelayCore(s, t);
      case InSuspended => UnlistPlainCore(s, t);
      case InTerminating => UnlistPlainCore(s, t);
    }
  }

  lemma UnlistReadyCore(s: TaskLists, t: Task)
    requires Settled(s) && t in s.place && s.place[t].InReady?
    ensures Detached(UnlistFrom(s, t), t)
  {
    PlainElsewhere(s, t, Nowhere);
    UnlistReady(s.place, s.ready, t);
  }

  lemma UnlistDelayCore(s: TaskLists, t: Task)
    requires Settled(s) && t in s.place && s.place[t].InDelay?
    ensures Detached(UnlistFrom(s, t), t)
  {
    PlainElsewhere(s, t, Nowhere);
    ReadyElsewhere(s.place, s.ready, t, Nowhere);
    HoldsWithout(s.place, s.delay[s.place[t].list], t, Nowhere);
  }

  lemma UnlistPlainCore(s: TaskLists, t: Task)
    requires Settled(s) && t in s.place && (s.place[t].InSuspended? || s.place[t].InTerminating?)
    ensures Detached(UnlistFrom(s, t), t)
  {
    PlainElsewhere(s, t, Nowhere);
    ReadyElsewhere(s.place, s.ready, t, Nowhere);
    HoldsWithout(s.place, if s.place[t].InSuspended? then s.suspended else s.terminating, t, Nowhere);
  }

  /** prvAddTaskToReadyList. */
  function AddToReady(s: TaskLists, t: Task): (r: TaskLists)
    requires Detached(s, t)
    ensures Settled(r) && r.IsReady(t)
    ensures r == s.(place := s.place[t := InReady(s.priority[t])], ready := r.ready, topReady := r.topReady)
    ensures r.ready == s.ready[s.priority[t] := Rings.InsertEnd(s.ready[s.priority[t]], t)]
  {
    var p := s.priority[t];
    var r := s.(place := s.place[t := InReady(p)],
                ready := s.ready[p := Rings.InsertEnd(s.ready[p], t)],
                topReady := if p > s.topReady then p else s.topReady);
    AddToReadyKeepsCore(s, t, r);
    r
  }

  lemma AddToReadyKeepsCore(s: TaskLists, t: Task, r: TaskLists)
    requires Detached(s, t)
    requires var p := s.priority[t];
             r == s.(place := s.place[t := InReady(p)],
                     ready := s.ready[p := Rings.InsertEnd(s.ready[p], t)],
                     topReady := if p > s.topReady then p else s.topReady)
    ensures Settled(r)
  {
    ListReady(s.place, s.ready, t, s.priority[t]);
    PlainElsewhere(s, t, InReady(s.priority[t]));
    assert r.place.Keys == s.place.Keys;
  }

  lemma ListReady(place: map<Task, Place>, ready: ReadyLists, t: Task, p: int)
    requires ReadyHold(place, ready) && t in place && place[t] == Nowhere && 0 <= p < PRIORITIES
    ensures ReadyHold(place[t := InReady(p)], ready[p := Rings.InsertEnd(ready[p], t)])
  {
    var q := ready[p];
    HoldsWith(place, q.items, if q.cursor == 0 then |q.items| else q.cursor - 1, t, InReady(p));
    assert q.items[..|q.items|] + [t] + q.items[|q.items|..] == q.items + [t];
    var r := ready[p := Rings.InsertEnd(q, t)];
    forall b | 0 <= b < PRIORITIES
      ensures Holds(place[t := InReady(p)], r[b].items, InReady(b)) && r[b].cursor <= |r[b].items|
    {
      if b != p {
        HoldsElsewhere(place, ready[b].items, InReady(b), t, InReady(p));
      }
    }
  }

  /** vListInsertEnd into xSuspendedTaskList, whose index never leaves the end marker. */
  function AddToSuspended(s: TaskLists, t: Task): (r: TaskLists)
    requires Detached(s, t)
    ensures Settled(r)
    ensures r == s.(place := s.place[t := InSuspended], suspended := r.suspended)
  {
    HoldsWith(s.place, s.suspended, |s.suspended|, t, InSuspended);
    assert s.suspended[..|s.suspended|] + [t] + s.suspended[|s.suspended|..] == s.suspended + [t];
    PlainElsewhere(s, t, InSuspended);
    ReadyElsewhere(s.place, s.ready, t, InSuspended);
    s.(place := s.place[t := InSuspended], suspended := s.suspended + [t])
  }

  /** vListInsertEnd into xTasksWaitingTermination. */
  function AddToTerminating(s: TaskLists, t: Task): (r: TaskLists)
    requires Detached(s, t)
    ensures Settled(r)
    ensures r == s.(place := s.place[t := InTerminating], terminating := r.terminating, reapable := r.reapable)
  {
    HoldsWith(s.place, s.terminating, |s.terminating|, t, InTerminating);
    assert s.terminating[..|s.terminating|] + [t] + s.terminating[|s.terminating|..] == s.terminating + [t];
    PlainElsewhere(s, t, InTerminating);
    ReadyElsewhere(s.place, s.ready, t, InTerminating);
    s.(place := s.place[t := InTerminating], terminating := s.terminating + [t], reapable := s.reapable + 1)
  }

  // ----- The delayed lists ---------------------------------------------------------

  function WakeOf(wake: map<Task, int>, t: Task): Tick {
    if t in wake && 0 <= wake[t] < WRAP then wake[t] else 0
  }

  /** The item values of a delayed list. */
  function Wakes(wake: map<Task, int>, q: seq<Task>): (w: seq<Tick>)
    ensures |w| == |q|
    ensures forall i :: 0 <= i < |q| ==> w[i] == WakeOf(wake, q[i])
  {
    seq(|q|, i requires 0 <= i < |q| => WakeOf(wake, q[i]))
  }

  /** vListInsert of t, ordered by wake time. */
  function InsertByWake(wake: map<Task, int>, q: seq<Task>, t: Task): seq<Task> {
    var k := Lists.UpperBound(Wakes(wake, q), WakeOf(wake, t));
    q[..k] + [t] + q[k..]
  }

  /** listSET_LIST_ITEM_VALUE of t's state item, then vListInsert into a delayed list. */
  function AddToDelay(s: TaskLists, t: Task, b: int, value: Tick): (r: TaskLists)
    requires Detached(s, t) && 0 <= b < 2
    ensures Settled(r)
    ensures r == s.(place := s.place[t := InDelay(b)], wake := s.wake[t := value],
                    delay := s.delay[b := InsertByWake(s.wake[t := value], s.delay[b], t)])
  {
    var wake := s.wake[t := value];
    var r := s.(place := s.place[t := InDelay(b)], wake := wake,
                delay := s.delay[b := InsertByWake(wake, s.delay[b], t)]);
    AddToDelayKeepsCore(s, t, b, value, r);
    r
  }

  lemma AddToDelayKeepsCore(s: TaskLists, t: Task, b: int, value: Tick, r: TaskLists)
    requires Detached(s, t) && 0 <= b < 2
    requires var wake := s.wake[t := value];
             r == s.(place := s.place[t := InDelay(b)], wake := wake,
                     delay := s.delay[b := InsertByWake(wake, s.delay[b], t)])
    ensures Settled(r)
  {
    HoldsWith(s.place, s.delay[b], Lists.UpperBound(Wakes(r.wake, s.delay[b]), WakeOf(r.wake, t)), t, InDelay(b));
    PlainElsewhere(s, t, InDelay(b));
    ReadyElsewhere(s.place, s.ready, t, InDelay(b));
    assert r.wake.Keys == s.wake.Keys;
    assert r.place.Keys == s.place.Keys;
  }

  // ----- Event items ---------------------------------------------------------------

  /** uxListRemove of t's event item, when it is in a list. */
  function ClearEvent(s: TaskLists, t: Task): (r: TaskLists)
    requires Detached(s, t)
    ensures Detached(r, t)
    ensures r == s.(event := s.event[t := NoEvent], pending := r.pending)
    ensures r.pending == if s.event[t] == PendingReady then Without(s.pending, t) else s.pending
  {
    if s.event[t] == PendingReady then
      HoldsWithout(s.event, s.pending, t, NoEvent);
      assert s.event[t := NoEvent].Keys == s.event.Keys;
      s.(event := s.event[t := NoEvent], pending := Without(s.pending, t))
    else
      assert s.event[t := NoEvent].Keys == s.event.Keys;
      s.(event := s.event[t := NoEvent])
  }

  /** vListInsert of t's event item into the list of object q. */
  function EnterEventList(s: TaskLists, t: Task, q: nat): (r: TaskLists)
    requires Settled(s) && t in s.place && s.event[t] != PendingReady
    ensures Settled(r) && r == s.(event := s.event[t := WaitingOn(q)])
  {
    var r := s.(event := s.event[t := WaitingOn(q)]);
    assert r.event.Keys == s.event.Keys;
    r
  }

  /** Moves t's event item to xPendingReadyList. */
  function AddToPending(s: TaskLists, t: Task): (r: TaskLists)
    requires Settled(s) && t in s.place && s.event[t] != PendingReady
    ensures Settled(r)
  {
    HoldsWith(s.event, s.pending, |s.pending|, t, PendingReady);
    assert s.pending[..|s.pending|] + [t] + s.pending[|s.pending|..] == s.pending + [t];
    assert s.event[t := PendingReady].Keys == s.event.Keys;
    s.(event := s.event[t := PendingReady], pending := s.pending + [t])
  }

  // ----- Creating, deleting and re-prioritising -------------------------------------

  /** A new TCB: in no state list, on no event list. */
  function NewTcb(s: TaskLists, t: Task, p: int): (r: TaskLists)
    requires Settled(s) && t !in s.place && 0 <= p < PRIORITIES
    ensures Detached(r, t)
    ensures r == s.(priority := s.priority[t := p], place := s.place[t := Nowhere],
                    event := s.event[t := NoEvent], wake := s.wake[t := 0], taskCount := s.taskCount + 1)
  {
    var r := s.(priority := s.priority[t := p], place := s.place[t := Nowhere],
                event := s.event[t := NoEvent], wake := s.wake[t := 0], taskCount := s.taskCount + 1);
    NewTcbKeepsCore(s, t, p, r);
    r
  }

  lemma NewTcbKeepsCore(s: TaskLists, t: Task, p: int, r: TaskLists)
    requires Settled(s) && t !in s.place && 0 <= p < PRIORITIES
    requires r == s.(priority := s.priority[t := p], place := s.place[t := Nowhere],
                     event := s.event[t := NoEvent], wake := s.wake[t := 0], taskCount := s.taskCount + 1)
    ensures Detached(r, t)
  {
    hide Holds, ReadyHold;
    KeysNew(s, t, p);
    ReadyNew(s.place, s.ready, t);
    PlainNew(s, t);
  }

  lemma KeysNew(s: TaskLists, t: Task, p: int)
    requires s.place.Keys == s.priority.Keys == s.event.Keys == s.wake.Keys && t !in s.place
    ensures var r := s.place[t := Nowhere];
            r.Keys == s.priority[t := p].Keys == s.event[t := NoEvent].Keys == s.wake[t := 0].Keys && |r| == |s.place| + 1
  {
    var r, keys := s.place[t := Nowhere], s.place.Keys + {t};
    assert r.Keys == keys && s.priority[t := p].Keys == keys;
    assert s.event[t := NoEvent].Keys == keys && s.wake[t := 0].Keys == keys;
    assert |r| == |r.Keys| && |s.place| == |s.place.Keys|;
  }

  lemma ReadyNew(place: map<Task, Place>, ready: ReadyLists, t: Task)
    requires ReadyHold(place, ready) && t !in place
    ensures ReadyHold(place[t := Nowhere], ready)
  {
    forall p | 0 <= p < PRIORITIES
      ensures Holds(place[t := Nowhere], ready[p].items, InReady(p))
    {
      HoldsNew(place, ready[p].items, InReady(p), t, Nowhere);
    }
  }

  lemma PlainNew(s: TaskLists, t: Task)
    requires Core(s) && t !in s.place
    ensures Holds(s.place[t := Nowhere], s.delay[0], InDelay(0))
    ensures Holds(s.place[t := Nowhere], s.delay[1], InDelay(1))
    ensures Holds(s.place[t := Nowhere], s.suspended, InSuspended)
    ensures Holds(s.place[t := Nowhere], s.terminating, InTerminating)
    ensures Holds(s.event[t := NoEvent], s.pending, PendingReady)
  {
  }

  lemma HoldsNew<P(!new)>(c: map<Task, P>, q: seq<Task>, where: P, t: Task, other: P)
    requires t !in c && other != where && Holds(c, q, where)
    ensures Holds(c[t := other], q, where)
  {
  }

  /** prvDeleteTCB of a task that is in no list. */
  function FreeTcb(s: TaskLists, t: Task): (r: TaskLists)
    requires Detached(s, t) && s.event[t] != PendingReady
    ensures Settled(r)
    ensures r == s.(priority := s.priority - {t}, place := s.place - {t},
                    event := s.event - {t}, wake := s.wake - {t}, taskCount := s.taskCount - 1)
  {
    var r := s.(priority := s.priority - {t}, place := s.place - {t},
                event := s.event - {t}, wake := s.wake - {t}, taskCount := s.taskCount - 1);
    FreeTcbKeepsCore(s, t, r);
    r
  }

  lemma FreeTcbKeepsCore(s: TaskLists, t: Task, r: TaskLists)
    requires Detached(s, t) && s.event[t] != PendingReady
    requires r == s.(priority := s.priority - {t}, place := s.place - {t},
                     event := s.event - {t}, wake := s.wake - {t}, taskCount := s.taskCount - 1)
    ensures Settled(r)
  {
    assert r.place.Keys == s.place.Keys - {t};
    assert |r.place| == |r.place.Keys| && |s.place| == |s.place.Keys|;
    forall p | 0 <= p < PRIORITIES
      ensures Holds(r.place, r.ready[p].items, InReady(p))
    {
      assert Holds(s.place, s.ready[p].items, InReady(p));
    }
  }

  /** A write to uxPriority of a task that is in no ready list. */
  function SetPriority(s: TaskLists, t: Task, p: int): (r: TaskLists)
    requires Core(s) && t in s.place && !s.place[t].InReady? && 0 <= p < PRIORITIES
    ensures Core(r) && r == s.(priority := s.priority[t := p])
    ensures Settled(s) ==> Settled(r)
    ensures Detached(s, t) ==> Detached(r, t)
  {
    assert s.priority[t := p].Keys == s.priority.Keys;
    s.(priority := s.priority[t := p])
  }
}
