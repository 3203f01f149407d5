/** Who waits on a queue and who wakes them (freertos/queue.c): tasks try, miss, lock the
    queue, decide, place themselves on an event list, unlock; interrupts send and receive in
    between, leaving the event lists of a locked queue alone and counting in cTxLock and
    cRxLock what they owe; tasks are suspended, resumed and deleted. No wake-up is lost, and
    each event that could lose one has the exact condition under which it does not. */
module QueueProtocol {
  import opened Sequences
  import opened Tasks

  const UNLOCKED: int := -1

  /** One event list with its bookkeeping: the tasks on it in list order, those taken off it
      by a wake-up who are still to try again, and the lock count that stands for wake-ups
      owed to it: cTxLock for the receivers, cRxLock for the senders. */
  datatype Side = Side(wait: seq<Task>, woken: set<Task>, lock: int)

  /** The value of an int8_t after an increment. */
  function Int8(x: int): int {
    if x > 127 then x - 256 else x
  }

  function Max(a: int, b: int): int {
    if a < b then b else a
  }

  /** xTaskRemoveFromEventList on a non-empty list. */
  function Notify(sd: Side): Side {
    if sd.wait == [] then sd else sd.(wait := sd.wait[1..], woken := sd.woken + {sd.wait[0]})
  }

  function FromIsr(sd: Side): Side {
    if sd.lock == UNLOCKED then Notify(sd) else sd.(lock := Int8(sd.lock + 1))
  }

  function LockSide(sd: Side): Side {
    if sd.lock == UNLOCKED then sd.(lock := 0) else sd
  }

  /** One half of prvUnlockQueue: a wake-up for each one owed, until the list is empty. */
  function Drain(sd: Side): Side
    decreases sd.lock
  {
    if sd.lock > 0 && sd.wait != [] then Drain(Notify(sd).(lock := sd.lock - 1)) else sd.(lock := UNLOCKED)
  }

  /** A task tries again, woken or not. */
  function Retry(sd: Side, t: Task): Side {
    sd.(woken := sd.woken - {t})
  }

  /** vTaskPlaceOnEventList, at the place the task's priority gives it. */
  function PlaceOn(sd: Side, t: Task, at: nat): Side
    requires at <= |sd.wait|
  {
    sd.(wait := sd.wait[..at] + [t] + sd.wait[at..])
  }

  // ----- The state machine ---------------------------------------------------------------------

  datatype Kind = Recv | Peek | Send | Overwrite

  /** Where a task is in xQueueReceive, xQueueSemaphoreTake, xQueuePeek or xQueueGenericSend:
      before the first critical section, after missing, holding the lock, having seen the
      queue still empty or full, unlocking, blocked, or timed out with one more look to take. */
  datatype Pc = Idle | Trying(kind: Kind) | Missed(kind: Kind) | Locked(kind: Kind) | Deciding(kind: Kind)
              | Unlocking(kind: Kind, placed: bool, expired: bool, stage: nat) | Blocked(kind: Kind) | Expired(kind: Kind)

  /** items says that the queue stores items, which a semaphore does not; locker is the task
      that has the scheduler suspended around its locked region, if any; suspended are the
      tasks vTaskSuspend has put aside. */
  datatype State = State(messages: int, length: int, items: bool, recv: Side, send: Side, pc: map<Task, Pc>,
                         locker: set<Task>, suspended: set<Task>)

  function Receives(k: Kind): bool { k == Recv || k == Peek }

  /** The operation of this kind finds nothing to do. */
  function Blocks(s: State, k: Kind): bool {
    match k
    case Recv => s.messages == 0
    case Peek => s.messages == 0
    case Send => s.messages >= s.length
    case Overwrite => false
  }

  datatype Event =
    | Begin(t: Task, kind: Kind)
    | Attempt(t: Task, giveUp: bool)
    | Lock(t: Task)
    | Check(t: Task, timedOut: bool)
    | Place(t: Task, at: nat)
    | UnlockTx(t: Task)
    | UnlockRx(t: Task)
    | Resume(t: Task)
    | LookAgain(t: Task)
    | Dispatch(t: Task)
    | TimeOut(t: Task)
    | IsrSend
    | IsrOverwrite
    | IsrReceive
    | Reset(t: Task)
    | Suspend(t: Task)
    | ResumeTask(t: Task)
    | Delete(t: Task)

  /** The task can take a step of its own while no other has the scheduler suspended. */
  predicate Free(s: State, t: Task) {
    t in s.pc && t !in s.suspended && s.locker == {}
  }

  predicate Enabled(s: State, e: Event) {
    match e
    case Begin(t, k) => Free(s, t) && s.pc[t] == Idle && (k == Overwrite ==> s.length == 1)
    case Attempt(t, _) => Free(s, t) && s.pc[t].Trying?
    case Lock(t) => Free(s, t) && s.pc[t].Missed?
    case Check(t, _) => t in s.pc && s.pc[t].Locked?
    case Place(t, at) => t in s.pc && s.pc[t].Deciding? && at <= |(if Receives(s.pc[t].kind) then s.recv else s.send).wait|
    case UnlockTx(t) => t in s.pc && s.pc[t].Unlocking? && s.pc[t].stage == 0
    case UnlockRx(t) => t in s.pc && s.pc[t].Unlocking? && s.pc[t].stage == 1
    case Resume(t) => t in s.pc && s.pc[t].Unlocking? && s.pc[t].stage == 2
    case LookAgain(t) => Free(s, t) && s.pc[t].Expired?
    case Dispatch(t) => Free(s, t) && s.pc[t].Blocked? && t !in s.recv.wait && t !in s.send.wait
    case TimeOut(t) => Free(s, t) && s.pc[t].Blocked?
    case IsrSend => true
    case IsrOverwrite => s.length == 1
    case IsrReceive => true
    case Reset(t) => Free(s, t) && s.pc[t] == Idle
    case Suspend(t) => Free(s, t)
    case ResumeTask(t) => t in s.suspended
    case Delete(t) => t in s.pc && s.locker == {}
  }

  /** The count after an overwriting send: a queue of items then holds the one item, a
      semaphore counts up whatever the position. */
  function Overwritten(s: State): int {
    if s.items then 1 else s.messages + 1
  }

  /** The critical section at the top of the loop, when it succeeds. */
  function Succeed(s: State, t: Task, k: Kind): State {
    match k
    case Recv => s.(messages := s.messages - 1, recv := Retry(s.recv, t), send := Notify(s.send))
    case Peek => s.(recv := Notify(Retry(s.recv, t)))
    case Send => s.(messages := s.messages + 1, send := Retry(s.send, t), recv := Notify(s.recv))
    case Overwrite => s.(messages := Overwritten(s), recv := Notify(s.recv))
  }

  function Fail(s: State, t: Task, k: Kind): State {
    if Receives(k) then s.(recv := Retry(s.recv, t)) else s.(send := Retry(s.send, t))
  }

  function At(s: State, t: Task, pc: Pc): State {
    s.(pc := s.pc[t := pc])
  }

  /** t put on its event list. */
  function Queued(s: State, t: Task, k: Kind, at: nat): State
    requires at <= |(if Receives(k) then s.recv else s.send).wait|
  {
    if Receives(k) then s.(recv := PlaceOn(s.recv, t, at)) else s.(send := PlaceOn(s.send, t, at))
  }

  function Step(s: State, e: Event): State
    requires Enabled(s, e)
  {
    match e
    case Begin(t, k) => At(s, t, Trying(k))
    case Attempt(t, giveUp) =>
      var k := s.pc[t].kind;
      if !Blocks(s, k) then At(Succeed(s, t, k), t, Idle)
      else At(Fail(s, t, k), t, if giveUp then Idle else Missed(k))
    case Lock(t) => At(s.(recv := LockSide(s.recv), send := LockSide(s.send), locker := {t}), t, Locked(s.pc[t].kind))
    case Check(t, timedOut) =>
      var k := s.pc[t].kind;
      At(s, t, if !timedOut && Blocks(s, k) then Deciding(k) else Unlocking(k, false, timedOut, 0))
    case Place(t, at) =>
      var k := s.pc[t].kind;
      At(Queued(s, t, k, at), t, Unlocking(k, true, false, 0))
    case UnlockTx(t) => At(s.(recv := Drain(s.recv)), t, s.pc[t].(stage := 1))
    case UnlockRx(t) => At(s.(send := Drain(s.send)), t, s.pc[t].(stage := 2))
    case Resume(t) =>
      var p := s.pc[t];
      At(s.(locker := {}), t,
         if p.placed then Blocked(p.kind) else if !p.expired then Trying(p.kind)
         else if Receives(p.kind) then Expired(p.kind) else Idle)
    case LookAgain(t) => At(s, t, if s.messages == 0 then Idle else Trying(s.pc[t].kind))
    case Dispatch(t) => At(s, t, Trying(s.pc[t].kind))
    case TimeOut(t) => s.(recv := s.recv.(wait := Without(s.recv.wait, t)), send := s.send.(wait := Without(s.send.wait, t)))
    case IsrSend => if s.messages < s.length then s.(messages := s.messages + 1, recv := FromIsr(s.recv)) else s
    case IsrOverwrite => s.(messages := Overwritten(s), recv := FromIsr(s.recv))
    case IsrReceive => if s.messages > 0 then s.(messages := s.messages - 1, send := FromIsr(s.send)) else s
    case Reset(_) =>
      s.(messages := 0, recv := s.recv.(lock := UNLOCKED), send := Notify(s.send.(lock := UNLOCKED)))
    case Suspend(t) => Left(s, t).(suspended := s.suspended + {t})
    case ResumeTask(t) => s.(suspended := s.suspended - {t})
    case Delete(t) => Left(s, t).(pc := s.pc - {t}, suspended := s.suspended - {t})
  }

  function LeaveSide(sd: Side, t: Task): Side {
    sd.(wait := Without(sd.wait, t), woken := sd.woken - {t})
  }

  /** t off both event lists and, if it had been woken, not going to try again. */
  function Left(s: State, t: Task): State {
    s.(recv := LeaveSide(s.recv, t), send := LeaveSide(s.send, t))
  }

  // ----- One event list ----------------------------------------------------------------------------

  /** No task is on the list twice, or on it and woken; the count is an int8_t. */
  ghost predicate Shape(sd: Side) {
    Distinct(sd.wait) && (forall t :: t in sd.wait ==> t !in sd.woken) && -128 <= sd.lock <= 127
  }

  /** A non-empty event list is matched: whatever is available is owed to tasks already woken
      or will be handed out by the unlock. */
  ghost predicate Matched(sd: Side, available: int) {
    sd.wait != [] ==> available <= |sd.woken| + Max(sd.lock, 0)
  }

  ghost predicate SideInv(sd: Side, available: int) {
    Shape(sd) && Matched(sd, available)
  }

  lemma Fewer(sd: Side, available: int, fewer: int)
    requires SideInv(sd, available) && fewer <= available
    ensures SideInv(sd, fewer)
  {
  }

  lemma NotifyMoves(sd: Side)
    ensures forall u :: u in Notify(sd).wait ==> u in sd.wait
    ensures forall u :: u in Notify(sd).woken ==> u in sd.woken || u in sd.wait
  {
    assert sd.wait != [] ==> sd.wait[0] in sd.wait;
  }

  lemma NotifyMatches(sd: Side, available: int)
    requires SideInv(sd, available)
    ensures SideInv(Notify(sd), available + 1)
  {
    if sd.wait != [] {
      var t := sd.wait[0];
      assert t in sd.wait && t !in sd.woken;
      HeadOnce(sd.wait);
    }
  }

  /** A woken task that tries again consumes one, or found none. */
  lemma RetryMatches(sd: Side, available: int, t: Task)
    requires SideInv(sd, available)
    ensures SideInv(Retry(sd, t), available - 1)
    ensures available <= 0 ==> SideInv(Retry(sd, t), available)
    ensures SideInv(Notify(Retry(sd, t)), available)
  {
    NotifyMatches(Retry(sd, t), available - 1);
  }

  lemma {:induction false} DrainMatches(sd: Side, available: int)
    requires SideInv(sd, available)
    ensures SideInv(Drain(sd), available) && Drain(sd).lock == UNLOCKED
    ensures forall t :: t in Drain(sd).wait ==> t in sd.wait
    ensures forall t :: t in Drain(sd).woken ==> t in sd.woken || t in sd.wait
    decreases sd.lock
  {
    if sd.lock > 0 && sd.wait != [] {
      NotifyMatches(sd, available);
      DrainMatches(Notify(sd).(lock := sd.lock - 1), available);
      assert sd.wait[0] in sd.wait;
    }
  }

  /** An interrupt operation at 127 wraps the count, and one after that counts what the unlock
      will not see: then nobody may be waiting, or enough must have been woken already. */
  ghost predicate CountCovers(sd: Side, available: int) {
    (sd.lock == 127 || sd.lock < UNLOCKED) && sd.wait != [] ==> available <= |sd.woken|
  }

  /** An interrupt operation that makes at most one more available leaves the list matched exactly
      when the count can take it. */
  lemma FromIsrMatchesIff(sd: Side, available: int, after: int)
    requires SideInv(sd, available) && after <= available + 1
    ensures Shape(FromIsr(sd)) && (Matched(FromIsr(sd), after) <==> CountCovers(sd, after))
    ensures FromIsr(sd).lock == UNLOCKED <== sd.lock == UNLOCKED
    ensures forall u :: u in FromIsr(sd).wait ==> u in sd.wait
    ensures forall u :: u in FromIsr(sd).woken ==> u in sd.woken || u in sd.wait
  {
    NotifyMatches(sd, available);
    NotifyMoves(sd);
  }

  /** A task woken and not going to try again takes its wake-up along: whoever waits stays
      matched exactly when there was one to spare. */
  ghost predicate Spare(sd: Side, available: int, t: Task) {
    t in sd.woken && sd.wait != [] ==> available < |sd.woken| + Max(sd.lock, 0)
  }

  lemma LeaveMatchesIff(sd: Side, available: int, t: Task)
    requires SideInv(sd, available)
    ensures Shape(LeaveSide(sd, t)) && (Matched(LeaveSide(sd, t), available) <==> Spare(sd, available, t))
    ensures forall u :: u in LeaveSide(sd, t).wait ==> u in sd.wait && u != t
  {
    WithoutMembers(sd.wait, t);
    if t in sd.woken {
      WithoutAbsent(sd.wait, t);
      assert |sd.woken - {t}| == |sd.woken| - 1;
    } else {
      assert sd.woken - {t} == sd.woken;
      assert Without(sd.wait, t) != [] ==> sd.wait != [];
    }
  }

  /** A task that joins the list must find what is available covered. */
  ghost predicate Covered(sd: Side, available: int) {
    available <= |sd.woken| + Max(sd.lock, 0)
  }

  lemma PlaceMatchesIff(sd: Side, available: int, t: Task, at: nat)
    requires Shape(sd) && at <= |sd.wait| && t !in sd.wait && t !in sd.woken
    ensures Shape(PlaceOn(sd, t, at)) && (Matched(PlaceOn(sd, t, at), available) <==> Covered(sd, available))
    ensures forall u :: u in PlaceOn(sd, t, at).wait <==> u == t || u in sd.wait
  {
    var q := PlaceOn(sd, t, at).wait;
    forall u
      ensures u in q <==> u == t || u in sd.wait
    {
      if u == t { assert q[at] == t; }
      if u in sd.wait {
        var i :| 0 <= i < |sd.wait| && sd.wait[i] == u;
        assert q[if i < at then i else i + 1] == u;
      }
    }
  }

  // ----- What every step keeps ------------------------------------------------------------------

  /** The task has put itself on an event list and has not returned to the top of its loop. */
  predicate Placed(p: Pc) { p.Blocked? || (p.Unlocking? && p.placed) }

  /** The task holds the queue locked with the scheduler suspended. */
  predicate InRegion(p: Pc) { p.Locked? || p.Deciding? || p.Unlocking? }

  ghost predicate ListedRight(p: Pc, waits: bool, woken: bool, receives: bool) {
    && (waits ==> Placed(p) && if receives then Receives(p.kind) else p.kind == Send)
    && (woken ==> (Placed(p) || p.Trying?) && if receives then Receives(p.kind) else p.kind == Send)
  }

  ghost predicate TaskOk(s: State, t: Task)
    requires t in s.pc
  {
    var p := s.pc[t];
    && ListedRight(p, t in s.recv.wait, t in s.recv.woken, true)
    && ListedRight(p, t in s.send.wait, t in s.send.woken, false)
    && (InRegion(p) <==> t in s.locker)
    && (p.Unlocking? ==> (p.stage >= 1 ==> s.recv.lock == UNLOCKED) && (p.stage >= 2 ==> s.send.lock == UNLOCKED))
    && (p.Deciding? ==> p.kind != Overwrite)
    && (p != Idle && p.kind == Overwrite ==> s.length == 1)
  }

  ghost predicate TasksOk(s: State) {
    && (forall t :: t in s.pc ==> TaskOk(s, t))
    && (forall t :: t in s.recv.wait || t in s.recv.woken || t in s.send.wait || t in s.send.woken || t in s.locker ==>
          t in s.pc && t !in s.suspended)
    && (forall t, u :: t in s.locker && u in s.locker ==> t == u)
    && (s.locker == {} ==> s.recv.lock == UNLOCKED && s.send.lock == UNLOCKED)
  }

  /** What holds whatever happens: who may be on which list, who holds the lock, and a queue of
      items is not overfilled. */
  ghost predicate Sound(s: State) {
    && 0 <= s.messages && (s.items ==> s.messages <= s.length)
    && Shape(s.recv) && Shape(s.send) && TasksOk(s)
  }

  /** No wake-up is lost: both event lists are matched. */
  ghost predicate AllMatched(s: State) {
    Matched(s.recv, s.messages) && Matched(s.send, s.length - s.messages)
  }

  lemma Sides(s: State)
    requires Sound(s)
    ensures SideInv(s.recv, 0) && SideInv(s.send, 0)
    ensures AllMatched(s) <==> SideInv(s.recv, s.messages) && SideInv(s.send, s.length - s.messages)
  {
  }

  ghost predicate CanLeave(s: State, t: Task) {
    Spare(s.recv, s.messages, t) && Spare(s.send, s.length - s.messages, t)
  }

  /** The events that lose no wake-up: an interrupt operation that does not wrap the count past
      waiting tasks; a reset while the one sender it wakes is enough; a woken task suspended or
      deleted while a wake-up is to spare; and a task joining an event list while what is
      available is covered, which it always is unless a count has wrapped. */
  ghost predicate Harmless(s: State, e: Event)
    requires Enabled(s, e)
  {
    match e
    case Place(t, _) =>
      if Receives(s.pc[t].kind) then Covered(s.recv, s.messages) else Covered(s.send, s.length - s.messages)
    case IsrSend => s.messages < s.length ==> CountCovers(s.recv, s.messages + 1)
    case IsrOverwrite => CountCovers(s.recv, Overwritten(s))
    case IsrReceive => s.messages > 0 ==> CountCovers(s.send, s.length - s.messages + 1)
    case Reset(_) => |s.send.wait| <= 1 || s.length <= |s.send.woken| + 1
    case Suspend(t) => CanLeave(s, t)
    case Delete(t) => CanLeave(s, t)
    case _ => true
  }

  // ----- Event by event -----------------------------------------------------------------------------

  /** Steps that only move a task on. */
  lemma MoveOnKeeps(s: State, e: Event)
    requires Sound(s) && Enabled(s, e)
    requires e.Begin? || e.Check? || e.Resume? || e.LookAgain? || e.Dispatch? || e.ResumeTask?
    ensures Sound(Step(s, e)) && (AllMatched(s) ==> AllMatched(Step(s, e)))
  {
    hide Shape;
    var r := Step(s, e);
    assert e.t in s.pc ==> TaskOk(s, e.t);
    forall u | u in r.pc ensures TaskOk(r, u) { assert TaskOk(s, u); }
  }

  lemma LockKeeps(s: State, t: Task)
    requires Sound(s) && Enabled(s, Lock(t))
    ensures Sound(Step(s, Lock(t))) && (AllMatched(s) ==> AllMatched(Step(s, Lock(t))))
  {
    var r := Step(s, Lock(t));
    assert TaskOk(s, t);
    forall u | u in r.pc ensures TaskOk(r, u) { assert TaskOk(s, u); }
  }

  lemma SucceedKeeps(s: State, t: Task, giveUp: bool)
    requires Sound(s) && Enabled(s, Attempt(t, giveUp)) && !Blocks(s, s.pc[t].kind)
    ensures Sound(Step(s, Attempt(t, giveUp))) && (AllMatched(s) ==> AllMatched(Step(s, Attempt(t, giveUp))))
  {
    assert TaskOk(s, t);
    assert s.pc[t].kind == Overwrite ==> s.length == 1;
    hide SideInv, Shape, Matched, TasksOk, Notify, Retry;
    SucceedTasks(s, t, giveUp);
    SucceedSides(s, t, s.pc[t].kind);
  }

  lemma SucceedSides(s: State, t: Task, k: Kind)
    requires Sound(s) && !Blocks(s, k) && (k == Overwrite ==> s.length == 1)
    ensures var r := Succeed(s, t, k);
            && 0 <= r.messages && (r.items ==> r.messages <= r.length)
            && Shape(r.recv) && Shape(r.send) && (AllMatched(s) ==> AllMatched(r))
  {
    hide Notify, Retry, Shape, TasksOk;
    SucceedSide(s, t, k, 0, 0);
    Sides(s);
    if AllMatched(s) { SucceedSide(s, t, k, s.messages, s.length - s.messages); }
  }

  /** What the operation does to the lists, given what they are matched against. */
  lemma SucceedSide(s: State, t: Task, k: Kind, items: int, slots: int)
    requires SideInv(s.recv, items) && SideInv(s.send, slots)
    ensures var r := Succeed(s, t, k);
            match k
            case Recv => SideInv(r.recv, items - 1) && SideInv(r.send, slots + 1)
            case Peek => SideInv(r.recv, items) && SideInv(r.send, slots)
            case Send => SideInv(r.recv, items + 1) && SideInv(r.send, slots - 1)
            case Overwrite => SideInv(r.recv, items + 1) && SideInv(r.send, slots)
  {
    hide SideInv, Notify, Retry;
    match k
    case Recv =>
      RetryMatches(s.recv, items, t);
      NotifyMatches(s.send, slots);
    case Peek => RetryMatches(s.recv, items, t);
    case Send =>
      RetryMatches(s.send, slots, t);
      NotifyMatches(s.recv, items);
    case Overwrite => NotifyMatches(s.recv, items);
  }

  lemma SucceedTasks(s: State, t: Task, giveUp: bool)
    requires TasksOk(s) && Enabled(s, Attempt(t, giveUp)) && !Blocks(s, s.pc[t].kind)
    ensures TasksOk(Step(s, Attempt(t, giveUp)))
  {
    hide Notify;
    var r := Step(s, Attempt(t, giveUp));
    assert TaskOk(s, t);
    NotifyKeepsLock(s.recv);
    NotifyKeepsLock(s.send);
    NotifyKeepsLock(Retry(s.recv, t));
    NotifyMoves(s.recv);
    NotifyMoves(s.send);
    NotifyMoves(Retry(s.recv, t));
    forall u | u in r.pc ensures TaskOk(r, u) { assert TaskOk(s, u); }
  }

  lemma NotifyKeepsLock(sd: Side)
    ensures Notify(sd).lock == sd.lock
  {
  }

  lemma FailKeeps(s: State, t: Task, giveUp: bool)
    requires Sound(s) && Enabled(s, Attempt(t, giveUp)) && Blocks(s, s.pc[t].kind)
    ensures Sound(Step(s, Attempt(t, giveUp))) && (AllMatched(s) ==> AllMatched(Step(s, Attempt(t, giveUp))))
  {
    hide TasksOk;
    Sides(s);
    RetryMatches(s.recv, 0, t);
    RetryMatches(s.send, 0, t);
    FailTasks(s, t, giveUp);
  }

  lemma FailTasks(s: State, t: Task, giveUp: bool)
    requires TasksOk(s) && Enabled(s, Attempt(t, giveUp)) && Blocks(s, s.pc[t].kind)
    ensures TasksOk(Step(s, Attempt(t, giveUp)))
  {
    var r := Step(s, Attempt(t, giveUp));
    assert TaskOk(s, t);
    forall u | u in r.pc ensures TaskOk(r, u) { assert TaskOk(s, u); }
  }

  lemma PlaceKeepsIff(s: State, t: Task, at: nat)
    requires Sound(s) && Enabled(s, Place(t, at))
    ensures Sound(Step(s, Place(t, at)))
    ensures AllMatched(s) ==> (AllMatched(Step(s, Place(t, at))) <==> Harmless(s, Place(t, at)))
  {
    var r := Step(s, Place(t, at));
    assert TaskOk(s, t);
    if Receives(s.pc[t].kind) {
      PlaceMatchesIff(s.recv, s.messages, t, at);
    } else {
      PlaceMatchesIff(s.send, s.length - s.messages, t, at);
    }
    hide PlaceOn, Shape, Matched;
    PlaceKeepsLock(s.recv, t, at);
    PlaceKeepsLock(s.send, t, at);
    forall u | u in r.pc ensures TaskOk(r, u) { assert TaskOk(s, u); }
  }

  lemma PlaceKeepsLock(sd: Side, t: Task, at: nat)
    ensures at <= |sd.wait| ==> PlaceOn(sd, t, at).lock == sd.lock && PlaceOn(sd, t, at).woken == sd.woken
  {
  }

  lemma UnlockKeeps(s: State, e: Event)
    requires Sound(s) && Enabled(s, e) && (e.UnlockTx? || e.UnlockRx?)
    ensures Sound(Step(s, e)) && (AllMatched(s) ==> AllMatched(Step(s, e)))
  {
    var r := Step(s, e);
    assert TaskOk(s, e.t);
    var sd, available := if e.UnlockTx? then s.recv else s.send, if e.UnlockTx? then s.messages else s.length - s.messages;
    hide Drain;
    DrainMatches(sd, 0);
    if AllMatched(s) { DrainMatches(sd, available); }
    forall u | u in r.pc ensures TaskOk(r, u) { assert TaskOk(s, u); }
  }

  lemma TimeOutKeeps(s: State, t: Task)
    requires Sound(s) && Enabled(s, TimeOut(t))
    ensures Sound(Step(s, TimeOut(t))) && (AllMatched(s) ==> AllMatched(Step(s, TimeOut(t))))
  {
    var r := Step(s, TimeOut(t));
    WithoutMembers(s.recv.wait, t);
    WithoutMembers(s.send.wait, t);
    forall u | u in r.pc ensures TaskOk(r, u) { assert TaskOk(s, u); }
  }

  lemma IsrSendKeepsIff(s: State, e: Event)
    requires Sound(s) && Enabled(s, e) && (e == IsrSend || e == IsrOverwrite)
    ensures Sound(Step(s, e))
    ensures AllMatched(s) ==> (AllMatched(Step(s, e)) <==> Harmless(s, e))
  {
    hide Shape, Matched, CountCovers, FromIsr;
    var r := Step(s, e);
    Sides(s);
    if e == IsrOverwrite || s.messages < s.length {
      FromIsrMatchesIff(s.recv, 0, 0);
      IsrTasks(s, r);
      if AllMatched(s) {
        FromIsrMatchesIff(s.recv, s.messages, r.messages);
        Fewer(s.send, s.length - s.messages, s.length - r.messages);
      }
    }
  }

  /** What an interrupt operation leaves the tasks with. */
  lemma IsrTasks(s: State, r: State)
    requires TasksOk(s)
    requires r == s.(messages := r.messages, recv := r.recv, send := r.send)
    requires (r.recv == s.recv && FromSide(s.send, r.send)) || (r.send == s.send && FromSide(s.recv, r.recv))
    ensures TasksOk(r)
  {
    forall u | u in r.pc ensures TaskOk(r, u) { assert TaskOk(s, u); }
  }

  /** An event list loses at most its head, to the tasks woken, and an unlocked one stays so. */
  ghost predicate FromSide(sd: Side, r: Side) {
    && (forall u :: u in r.wait ==> u in sd.wait) && (forall u :: u in r.woken ==> u in sd.woken || u in sd.wait)
    && (sd.lock == UNLOCKED ==> r.lock == UNLOCKED)
  }

  lemma IsrReceiveKeepsIff(s: State)
    requires Sound(s)
    ensures Sound(Step(s, IsrReceive))
    ensures AllMatched(s) ==> (AllMatched(Step(s, IsrReceive)) <==> Harmless(s, IsrReceive))
  {
    hide Shape, Matched, CountCovers, FromIsr;
    var r := Step(s, IsrReceive);
    Sides(s);
    if s.messages > 0 {
      FromIsrMatchesIff(s.send, 0, 0);
      IsrTasks(s, r);
      if AllMatched(s) {
        FromIsrMatchesIff(s.send, s.length - s.messages, s.length - r.messages);
        Fewer(s.recv, s.messages, r.messages);
      }
    }
  }

  /** xQueueGenericReset frees every slot but wakes one sender: the matching survives exactly
      when that is enough. */
  lemma ResetKeepsIff(s: State, t: Task)
    requires Sound(s) && Enabled(s, Reset(t))
    ensures Sound(Step(s, Reset(t)))
    ensures AllMatched(Step(s, Reset(t))) <==> |s.send.wait| <= 1 || s.length <= |s.send.woken| + 1
  {
    var r, sd := Step(s, Reset(t)), s.send.(lock := UNLOCKED);
    Sides(s);
    NotifyMatches(sd, 0);
    NotifyMoves(sd);
    if s.send.wait != [] {
      var u := s.send.wait[0];
      assert u in s.send.wait && u !in s.send.woken;
    }
    assert AllMatched(r) <==> |s.send.wait| <= 1 || s.length <= |s.send.woken| + 1;
    hide Notify, Matched;
    NotifyKeepsLock(sd);
    ResetTasks(s, r);
  }

  lemma ResetTasks(s: State, r: State)
    requires TasksOk(s) && s.locker == {}
    requires r == s.(messages := 0, recv := r.recv, send := r.send)
    requires r.recv == s.recv.(lock := UNLOCKED) && FromSide(s.send, r.send)
    ensures TasksOk(r)
  {
    forall u | u in r.pc ensures TaskOk(r, u) { assert TaskOk(s, u); }
  }

  /** Suspending or deleting a task keeps the matching exactly when neither event list loses a
      wake-up it needs. */
  lemma LeaveKeepsIff(s: State, e: Event)
    requires Sound(s) && Enabled(s, e) && (e.Suspend? || e.Delete?)
    ensures Sound(Step(s, e)) && (AllMatched(s) ==> (AllMatched(Step(s, e)) <==> CanLeave(s, e.t)))
  {
    hide Shape, Matched, TasksOk, LeaveSide, Spare;
    Sides(s);
    LeaveMatchesIff(s.recv, 0, e.t);
    LeaveMatchesIff(s.send, 0, e.t);
    if AllMatched(s) {
      LeaveMatchesIff(s.recv, s.messages, e.t);
      LeaveMatchesIff(s.send, s.length - s.messages, e.t);
    }
    LeaveTasks(s, e);
  }

  lemma LeaveTasks(s: State, e: Event)
    requires TasksOk(s) && Enabled(s, e) && (e.Suspend? || e.Delete?)
    requires forall u :: u in LeaveSide(s.recv, e.t).wait ==> u in s.recv.wait && u != e.t
    requires forall u :: u in LeaveSide(s.send, e.t).wait ==> u in s.send.wait && u != e.t
    ensures TasksOk(Step(s, e))
  {
    hide Without;
    var r := Step(s, e);
    forall u | u in r.pc ensures TaskOk(r, u) { assert TaskOk(s, u); }
  }

  /** Every event, harmless or not, keeps the lists, the lock and the count in order. */
  lemma StepKeepsSound(s: State, e: Event)
    requires Sound(s) && Enabled(s, e)
    ensures Sound(Step(s, e))
    ensures AllMatched(s) ==> (AllMatched(Step(s, e)) <==> Harmless(s, e))
  {
    hide Sound, AllMatched, Step;
    match e
    case Attempt(t, giveUp) => if Blocks(s, s.pc[t].kind) { FailKeeps(s, t, giveUp); } else { SucceedKeeps(s, t, giveUp); }
    case Lock(t) => LockKeeps(s, t);
    case Place(t, at) => PlaceKeepsIff(s, t, at);
    case UnlockTx(_) => UnlockKeeps(s, e);
    case UnlockRx(_) => UnlockKeeps(s, e);
    case TimeOut(t) => TimeOutKeeps(s, t);
    case IsrSend => IsrSendKeepsIff(s, e);
    case IsrOverwrite => IsrSendKeepsIff(s, e);
    case IsrReceive => IsrReceiveKeepsIff(s);
    case Reset(t) => ResetKeepsIff(s, t);
    case Suspend(_) => LeaveKeepsIff(s, e);
    case Delete(_) => LeaveKeepsIff(s, e);
    case _ => MoveOnKeeps(s, e);
  }

  /** Every event of every task and interrupt loses no wake-up exactly when it is harmless. */
  lemma StepKeepsMatchedIff(s: State, e: Event)
    requires Sound(s) && AllMatched(s) && Enabled(s, e)
    ensures AllMatched(Step(s, e)) <==> Harmless(s, e)
  {
    StepKeepsSound(s, e);
  }

  lemma DeleteKeepsMatchedIff(s: State, t: Task)
    requires Sound(s) && AllMatched(s) && Enabled(s, Delete(t))
    ensures AllMatched(Step(s, Delete(t))) <==>
              && (t in s.recv.woken && s.recv.wait != [] ==> s.messages < |s.recv.woken|)
              && (t in s.send.woken && s.send.wait != [] ==> s.length - s.messages < |s.send.woken|)
  {
    LeaveKeepsIff(s, Delete(t));
  }

  lemma SuspendKeepsMatchedIff(s: State, t: Task)
    requires Sound(s) && AllMatched(s) && Enabled(s, Suspend(t))
    ensures AllMatched(Step(s, Suspend(t))) <==>
              && (t in s.recv.woken && s.recv.wait != [] ==> s.messages < |s.recv.woken|)
              && (t in s.send.woken && s.send.wait != [] ==> s.length - s.messages < |s.send.woken|)
  {
    LeaveKeepsIff(s, Suspend(t));
  }

  /** The lock counts are int8_t. An interrupt send at 127 loses a wake-up exactly when some task
      waits and not enough have been woken; below 127 none is lost. */
  lemma IsrSendKeepsMatchedIff(s: State)
    requires Sound(s) && AllMatched(s) && s.messages < s.length && UNLOCKED <= s.recv.lock
    ensures AllMatched(Step(s, IsrSend)) <==> s.recv.lock < 127 || s.recv.wait == [] || s.messages < |s.recv.woken|
  {
    IsrSendKeepsIff(s, IsrSend);
  }

  lemma IsrReceiveKeepsMatchedIff(s: State)
    requires Sound(s) && AllMatched(s) && s.messages > 0 && UNLOCKED <= s.send.lock
    ensures AllMatched(Step(s, IsrReceive)) <==>
              s.send.lock < 127 || s.send.wait == [] || s.length - s.messages < |s.send.woken|
  {
    IsrReceiveKeepsIff(s);
  }

  // ----- Runs ----------------------------------------------------------------------------------

  ghost predicate EnabledRun(s: State, es: seq<Event>)
    decreases |es|
  {
    es == [] || (Enabled(s, es[0]) && EnabledRun(Step(s, es[0]), es[1..]))
  }

  ghost function Run(s: State, es: seq<Event>): State
    requires EnabledRun(s, es)
    decreases |es|
  {
    if es == [] then s else Run(Step(s, es[0]), es[1..])
  }

  ghost predicate AlwaysMatched(s: State, es: seq<Event>)
    requires EnabledRun(s, es)
    decreases |es|
  {
    AllMatched(s) && (es != [] ==> AlwaysMatched(Step(s, es[0]), es[1..]))
  }

  ghost predicate EachHarmless(s: State, es: seq<Event>)
    requires EnabledRun(s, es)
    decreases |es|
  {
    es != [] ==> Harmless(s, es[0]) && EachHarmless(Step(s, es[0]), es[1..])
  }

  /** A new queue, or semaphore with an initial count, used by some tasks. */
  function Start(count: nat, length: nat, items: bool, tasks: set<Task>): State {
    State(count, length, items, Side([], {}, UNLOCKED), Side([], {}, UNLOCKED), map t | t in tasks :: Idle, {}, {})
  }

  lemma StartIsSound(count: nat, length: nat, items: bool, tasks: set<Task>)
    requires count <= length
    ensures Sound(Start(count, length, items, tasks)) && AllMatched(Start(count, length, items, tasks))
  {
  }

  lemma {:induction false} RunKeepsSound(s: State, es: seq<Event>)
    requires Sound(s) && EnabledRun(s, es)
    ensures Sound(Run(s, es))
    decreases |es|
  {
    hide Sound, Enabled, Step;
    if es != [] {
      StepKeepsSound(s, es[0]);
      RunKeepsSound(Step(s, es[0]), es[1..]);
    }
  }

  lemma {:induction false} AlwaysMatchedFrom(s: State, es: seq<Event>)
    requires Sound(s) && AllMatched(s) && EnabledRun(s, es)
    ensures AlwaysMatched(s, es) <==> EachHarmless(s, es)
    decreases |es|
  {
    hide Sound, AllMatched, Harmless, Enabled, Step;
    if es != [] {
      StepKeepsSound(s, es[0]);
      if Harmless(s, es[0]) {
        AlwaysMatchedFrom(Step(s, es[0]), es[1..]);
      } else {
        assert !AlwaysMatched(Step(s, es[0]), es[1..]);
      }
    }
  }

  /** Over every run of tasks and interrupts, resets, suspensions and deletions, no wake-up is
      lost all along exactly when each event is harmless. */
  lemma NoLostWakeUpIff(count: nat, length: nat, items: bool, tasks: set<Task>, es: seq<Event>)
    requires count <= length && EnabledRun(Start(count, length, items, tasks), es)
    ensures AlwaysMatched(Start(count, length, items, tasks), es) <==> EachHarmless(Start(count, length, items, tasks), es)
  {
    StartIsSound(count, length, items, tasks);
    AlwaysMatchedFrom(Start(count, length, items, tasks), es);
  }

  lemma {:induction false} MatchedAtTheEnd(s: State, es: seq<Event>)
    requires EnabledRun(s, es) && AlwaysMatched(s, es)
    ensures AllMatched(Run(s, es))
    decreases |es|
  {
    hide AllMatched, Enabled, Step;
    if es != [] { MatchedAtTheEnd(Step(s, es[0]), es[1..]); }
  }

  /** After harmless events the items available are no more than the wake-ups under way, if any
      receiver waits: receivers woken that have not tried again, and those the unlock still owes.
      The same for the free slots and the senders. */
  lemma NoLostWakeUp(count: nat, length: nat, items: bool, tasks: set<Task>, es: seq<Event>)
    requires count <= length && EnabledRun(Start(count, length, items, tasks), es)
    requires EachHarmless(Start(count, length, items, tasks), es)
    ensures var s := Run(Start(count, length, items, tasks), es);
            && 0 <= s.messages && (items ==> s.messages <= s.length)
            && (s.recv.wait != [] ==> s.messages <= |s.recv.woken| + Max(s.recv.lock, 0))
            && (s.send.wait != [] ==> s.length - s.messages <= |s.send.woken| + Max(s.send.lock, 0))
  {
    hide EachHarmless, AlwaysMatched, Enabled, Step;
    StartIsSound(count, length, items, tasks);
    RunKeepsSound(Start(count, length, items, tasks), es);
    RunKeepsKind(Start(count, length, items, tasks), es);
    NoLostWakeUpIff(count, length, items, tasks, es);
    MatchedAtTheEnd(Start(count, length, items, tasks), es);
  }

  lemma {:induction false} RunKeepsKind(s: State, es: seq<Event>)
    requires EnabledRun(s, es)
    ensures Run(s, es).items == s.items && Run(s, es).length == s.length
    decreases |es|
  {
    if es != [] { RunKeepsKind(Step(s, es[0]), es[1..]); }
  }

  /** Then once every woken task has tried again and no task holds the queue locked, no receiver
      waits on a queue with items and no sender on one with room. */
  lemma SettledMeansMatched(count: nat, length: nat, items: bool, tasks: set<Task>, es: seq<Event>)
    requires count <= length && EnabledRun(Start(count, length, items, tasks), es)
    requires EachHarmless(Start(count, length, items, tasks), es)
    ensures var s := Run(Start(count, length, items, tasks), es);
            s.locker == {} ==>
              && (s.recv.woken == {} && s.recv.wait != [] ==> s.messages == 0)
              && (s.send.woken == {} && s.send.wait != [] ==> s.messages >= s.length)
  {
    NoLostWakeUp(count, length, items, tasks, es);
    StartIsSound(count, length, items, tasks);
    RunKeepsSound(Start(count, length, items, tasks), es);
    var s := Run(Start(count, length, items, tasks), es);
    if s.locker == {} { assert s.recv.lock == UNLOCKED && s.send.lock == UNLOCKED; }
  }

  /** A woken task is never stuck: with the scheduler running it can go back to its loop or is
      already there. And the locked region is held by one task at a time. */
  lemma WokenTasksCanTry(s: State, t: Task)
    requires Sound(s) && s.locker == {} && (t in s.recv.woken || t in s.send.woken)
    ensures Enabled(s, Dispatch(t)) || Enabled(s, Attempt(t, true))
  {
    assert TaskOk(s, t);
  }

  lemma OneLocker(s: State, t: Task, u: Task)
    requires Sound(s) && t in s.pc && u in s.pc && InRegion(s.pc[t]) && InRegion(s.pc[u])
    ensures t == u
  {
    assert TaskOk(s, t) && TaskOk(s, u);
  }

  // ----- Runs on which no count wraps ---------------------------------------------------------------

  /** The lock counts are up from the lock to the matching half of the unlock. */
  ghost predicate LocksRight(s: State, p: Pc) {
    var stage := if p.Unlocking? then p.stage else 0;
    (s.recv.lock >= 0 <==> stage < 1) && (s.send.lock >= 0 <==> stage < 2)
  }

  /** Having seen the queue empty or full is as good as it was: interrupts since are counted. */
  ghost predicate Decided(s: State, k: Kind) {
    if Receives(k) then s.messages <= |s.recv.woken| + s.recv.lock
    else s.length - s.messages <= |s.send.woken| + s.send.lock
  }

  ghost predicate RegionOk(s: State, p: Pc) {
    (InRegion(p) ==> LocksRight(s, p)) && (p.Deciding? ==> Decided(s, p.kind))
  }

  ghost predicate Counted(s: State) {
    UNLOCKED <= s.recv.lock && UNLOCKED <= s.send.lock && forall t :: t in s.pc ==> RegionOk(s, s.pc[t])
  }

  /** Fewer than 128 interrupt operations each way are counted in one locked period. */
  predicate BelowLimit(s: State, e: Event) {
    match e
    case IsrSend => s.messages < s.length ==> s.recv.lock < 127
    case IsrOverwrite => s.recv.lock < 127
    case IsrReceive => s.messages > 0 ==> s.send.lock < 127
    case _ => true
  }

  lemma StepKeepsCounted(s: State, e: Event)
    requires Sound(s) && Counted(s) && Enabled(s, e) && BelowLimit(s, e)
    ensures Counted(Step(s, e))
  {
    if e.IsrSend? || e.IsrOverwrite? || e.IsrReceive? {
      IsrKeepsCounted(s, e);
    } else {
      TaskKeepsCounted(s, e);
    }
  }

  lemma IsrKeepsCounted(s: State, e: Event)
    requires Sound(s) && Counted(s) && Enabled(s, e) && BelowLimit(s, e) && (e.IsrSend? || e.IsrOverwrite? || e.IsrReceive?)
    ensures Counted(Step(s, e))
  {
    hide Shape, ListedRight, Notify;
    var r := Step(s, e);
    NotifyKeepsLock(s.recv);
    NotifyKeepsLock(s.send);
    forall t | t in r.pc ensures RegionOk(r, r.pc[t]) { assert RegionOk(s, s.pc[t]); }
    assert UNLOCKED <= r.recv.lock && UNLOCKED <= r.send.lock;
  }

  lemma TaskKeepsCounted(s: State, e: Event)
    requires Sound(s) && Counted(s) && Enabled(s, e) && !e.IsrSend? && !e.IsrOverwrite? && !e.IsrReceive?
    ensures Counted(Step(s, e))
  {
    hide Shape, ListedRight, Notify, Without;
    var r := Step(s, e);
    NotifyKeepsLock(s.recv);
    NotifyKeepsLock(s.send);
    NotifyKeepsLock(s.send.(lock := UNLOCKED));
    if e.Attempt? { NotifyKeepsLock(Retry(s.recv, e.t)); }
    if e.UnlockTx? { DrainUnlocks(s.recv); }
    if e.UnlockRx? { DrainUnlocks(s.send); }
    forall t | t in r.pc ensures RegionOk(r, r.pc[t]) { assert TaskOk(s, t) && RegionOk(s, s.pc[t]); }
  }

  lemma {:induction false} DrainUnlocks(sd: Side)
    ensures Drain(sd).lock == UNLOCKED
    decreases sd.lock
  {
    if sd.lock > 0 && sd.wait != [] { DrainUnlocks(Notify(sd).(lock := sd.lock - 1)); }
  }

  /** While no count wraps, the second look under the lock is enough: a task that joins an event
      list is covered, and interrupt operations lose nothing. */
  lemma CountedIsHarmless(s: State, e: Event)
    requires Sound(s) && Counted(s) && Enabled(s, e) && BelowLimit(s, e) && !e.Reset? && !e.Suspend? && !e.Delete?
    ensures Harmless(s, e)
  {
    if e.Place? { assert TaskOk(s, e.t); }
  }

  /** No count wraps, a reset finds the one wake-up enough, and a task suspended or deleted takes
      no wake-up along that is needed. */
  ghost predicate Modest(s: State, e: Event)
    requires Enabled(s, e)
  {
    BelowLimit(s, e) && (e.Reset? || e.Suspend? || e.Delete? ==> Harmless(s, e))
  }

  ghost predicate ModestRun(s: State, es: seq<Event>)
    requires EnabledRun(s, es)
    decreases |es|
  {
    es != [] ==> Modest(s, es[0]) && ModestRun(Step(s, es[0]), es[1..])
  }

  lemma {:induction false} ModestIsHarmless(s: State, es: seq<Event>)
    requires Sound(s) && Counted(s) && EnabledRun(s, es) && ModestRun(s, es)
    ensures EachHarmless(s, es)
    decreases |es|
  {
    hide Sound, Counted, Enabled, Step, Harmless, BelowLimit;
    if es != [] {
      if !es[0].Reset? && !es[0].Suspend? && !es[0].Delete? { CountedIsHarmless(s, es[0]); }
      StepKeepsCounted(s, es[0]);
      StepKeepsSound(s, es[0]);
      ModestIsHarmless(Step(s, es[0]), es[1..]);
    }
  }

  /** So on every such run no wake-up is lost, overwriting sends to full semaphores included. */
  lemma ModestRunsLoseNoWakeUp(count: nat, length: nat, items: bool, tasks: set<Task>, es: seq<Event>)
    requires count <= length && EnabledRun(Start(count, length, items, tasks), es)
    requires ModestRun(Start(count, length, items, tasks), es)
    ensures AlwaysMatched(Start(count, length, items, tasks), es)
  {
    var s := Start(count, length, items, tasks);
    StartIsSound(count, length, items, tasks);
    assert Counted(s);
    ModestIsHarmless(s, es);
    NoLostWakeUpIff(count, length, items, tasks, es);
  }

  // ----- Where it stops holding --------------------------------------------------------------------

  /** The run es leads from s to r. */
  ghost predicate Leads(s: State, es: seq<Event>, r: State) {
    EnabledRun(s, es) && Run(s, es) == r
  }

  lemma {:induction false} LeadsOn(s: State, es: seq<Event>, r: State, fs: seq<Event>, q: State)
    requires Leads(s, es, r) && Leads(r, fs, q)
    ensures Leads(s, es + fs, q)
    decreases |es|
  {
    if es == [] {
      assert es + fs == fs;
    } else {
      assert (es + fs)[0] == es[0] && (es + fs)[1..] == es[1..] + fs;
      LeadsOn(Step(s, es[0]), es[1..], r, fs, q);
    }
  }

  lemma LeadsStep(s: State, es: seq<Event>, r: State, e: Event)
    requires Leads(s, es, r) && Enabled(r, e)
    ensures Leads(s, es + [e], Step(r, e))
  {
    assert [e][1..] == [];
    LeadsOn(s, es, r, [e], Step(r, e));
  }

  lemma NoSteps(s: State)
    ensures Leads(s, [], s)
  {
  }

  /** An operation that finds nothing to do and is not disturbed, until it is on its event list
      and until it has blocked. */
  function PlacingRun(t: Task, k: Kind, at: nat): seq<Event> {
    [] + [Begin(t, k)] + [Attempt(t, false)] + [Lock(t)] + [Check(t, false)] + [Place(t, at)]
  }

  function BlockingRun(t: Task, k: Kind, at: nat): seq<Event> {
    PlacingRun(t, k, at) + [UnlockTx(t)] + [UnlockRx(t)] + [Resume(t)]
  }

  /** t can start an operation of this kind, and it will find nothing to do. */
  ghost predicate WillBlock(s: State, t: Task, k: Kind) {
    && Free(s, t) && s.pc[t] == Idle && Blocks(s, k) && t !in s.recv.woken && t !in s.send.woken
    && s.recv.lock == UNLOCKED && s.send.lock == UNLOCKED
  }

  function Locking(s: State, t: Task): State {
    s.(recv := s.recv.(lock := 0), send := s.send.(lock := 0), locker := {t})
  }

  lemma AtTwice(s: State, t: Task, p: Pc, q: Pc)
    ensures At(At(s, t, p), t, q) == At(s, t, q)
  {
    assert s.pc[t := p][t := q] == s.pc[t := q];
  }

  lemma MissSteps(s: State, t: Task, k: Kind)
    requires WillBlock(s, t, k)
    ensures Enabled(s, Begin(t, k)) && Step(s, Begin(t, k)) == At(s, t, Trying(k))
    ensures Enabled(At(s, t, Trying(k)), Attempt(t, false)) && Step(At(s, t, Trying(k)), Attempt(t, false)) == At(s, t, Missed(k))
  {
    assert s.recv.woken - {t} == s.recv.woken && s.send.woken - {t} == s.send.woken;
    AtTwice(s, t, Trying(k), Missed(k));
  }

  lemma LockSteps(s: State, t: Task, k: Kind)
    requires WillBlock(s, t, k)
    ensures Enabled(At(s, t, Missed(k)), Lock(t)) && Step(At(s, t, Missed(k)), Lock(t)) == At(Locking(s, t), t, Locked(k))
    ensures Enabled(At(Locking(s, t), t, Locked(k)), Check(t, false))
    ensures Step(At(Locking(s, t), t, Locked(k)), Check(t, false)) == At(Locking(s, t), t, Deciding(k))
  {
    AtTwice(Locking(s, t), t, Missed(k), Locked(k));
    AtTwice(Locking(s, t), t, Locked(k), Deciding(k));
  }

  lemma PlaceStep(s: State, t: Task, k: Kind, at: nat)
    requires at <= |(if Receives(k) then s.recv else s.send).wait|
    ensures Enabled(At(s, t, Deciding(k)), Place(t, at))
    ensures Step(At(s, t, Deciding(k)), Place(t, at)) == At(Queued(s, t, k, at), t, Unlocking(k, true, false, 0))
  {
    hide PlaceOn;
    AtTwice(Queued(s, t, k, at), t, Deciding(k), Unlocking(k, true, false, 0));
  }

  lemma PlacingLeads(s: State, t: Task, k: Kind, at: nat)
    requires WillBlock(s, t, k) && at <= |(if Receives(k) then s.recv else s.send).wait|
    ensures Leads(s, PlacingRun(t, k, at), At(Queued(Locking(s, t), t, k, at), t, Unlocking(k, true, false, 0)))
  {
    hide Leads, Enabled, Step;
    var m, l := At(s, t, Missed(k)), At(Locking(s, t), t, Locked(k));
    NoSteps(s);
    MissSteps(s, t, k);
    LeadsStep(s, [], s, Begin(t, k));
    LeadsStep(s, [] + [Begin(t, k)], At(s, t, Trying(k)), Attempt(t, false));
    LockSteps(s, t, k);
    LeadsStep(s, [] + [Begin(t, k)] + [Attempt(t, false)], m, Lock(t));
    LeadsStep(s, [] + [Begin(t, k)] + [Attempt(t, false)] + [Lock(t)], l, Check(t, false));
    PlaceStep(Locking(s, t), t, k, at);
    LeadsStep(s, [] + [Begin(t, k)] + [Attempt(t, false)] + [Lock(t)] + [Check(t, false)],
              At(Locking(s, t), t, Deciding(k)), Place(t, at));
  }

  /** The two halves of the unlock, and going to sleep. */
  function Unlocked(s: State): State {
    s.(recv := Drain(s.recv), send := Drain(s.send), locker := {})
  }

  lemma UnlockSteps(s: State, t: Task, k: Kind)
    ensures var r0 := At(s, t, Unlocking(k, true, false, 0));
            var r1 := At(s.(recv := Drain(s.recv)), t, Unlocking(k, true, false, 1));
            var r2 := At(s.(recv := Drain(s.recv), send := Drain(s.send)), t, Unlocking(k, true, false, 2));
            && Enabled(r0, UnlockTx(t)) && Step(r0, UnlockTx(t)) == r1
            && Enabled(r1, UnlockRx(t)) && Step(r1, UnlockRx(t)) == r2
            && Enabled(r2, Resume(t)) && Step(r2, Resume(t)) == At(Unlocked(s), t, Blocked(k))
  {
    hide Drain;
    var r1, r2 := s.(recv := Drain(s.recv)), s.(recv := Drain(s.recv), send := Drain(s.send));
    AtTwice(r1, t, Unlocking(k, true, false, 0), Unlocking(k, true, false, 1));
    AtTwice(r2, t, Unlocking(k, true, false, 1), Unlocking(k, true, false, 2));
    AtTwice(Unlocked(s), t, Unlocking(k, true, false, 2), Blocked(k));
  }

  lemma UnlockingLeads(s: State, es: seq<Event>, r: State, t: Task, k: Kind)
    requires Leads(s, es, At(r, t, Unlocking(k, true, false, 0)))
    ensures Leads(s, es + [UnlockTx(t)] + [UnlockRx(t)] + [Resume(t)], At(Unlocked(r), t, Blocked(k)))
  {
    hide Leads, Enabled, Step, Drain;
    UnlockSteps(r, t, k);
    var r1 := At(r.(recv := Drain(r.recv)), t, Unlocking(k, true, false, 1));
    var r2 := At(r.(recv := Drain(r.recv), send := Drain(r.send)), t, Unlocking(k, true, false, 2));
    LeadsStep(s, es, At(r, t, Unlocking(k, true, false, 0)), UnlockTx(t));
    LeadsStep(s, es + [UnlockTx(t)], r1, UnlockRx(t));
    LeadsStep(s, es + [UnlockTx(t)] + [UnlockRx(t)], r2, Resume(t));
  }

  lemma BlockingLeads(s: State, t: Task, k: Kind, at: nat)
    requires WillBlock(s, t, k) && at <= |(if Receives(k) then s.recv else s.send).wait|
    ensures Leads(s, BlockingRun(t, k, at), At(Queued(s, t, k, at), t, Blocked(k)))
  {
    hide Leads, PlacingRun, PlaceOn;
    PlacingLeads(s, t, k, at);
    UnlockingLeads(s, PlacingRun(t, k, at), Queued(Locking(s, t), t, k, at), t, k);
    assert Unlocked(Queued(Locking(s, t), t, k, at)) == Queued(s, t, k, at) by { QueuedUnlocked(s, t, k, at); }
  }

  lemma QueuedUnlocked(s: State, t: Task, k: Kind, at: nat)
    requires WillBlock(s, t, k) && at <= |(if Receives(k) then s.recv else s.send).wait|
    ensures Unlocked(Queued(Locking(s, t), t, k, at)) == Queued(s, t, k, at)
  {
  }

  /** One of two tasks, both or neither waiting; task 0 looks on. */
  function Waiters(messages: int, length: int, k: Kind, wait: seq<Task>, woken: set<Task>, first: Pc): State {
    State(messages, length, true, if Receives(k) then Side(wait, woken, UNLOCKED) else Side([], {}, UNLOCKED),
          if Receives(k) then Side([], {}, UNLOCKED) else Side(wait, woken, UNLOCKED),
          map[0 := Idle, 1 := first, 2 := if 2 in wait then Blocked(k) else Idle], {}, {})
  }

  /** Two tasks block one behind the other. */
  lemma TwoBlock(messages: int, length: int, k: Kind)
    requires Blocks(Waiters(messages, length, k, [], {}, Idle), k)
    ensures Leads(Waiters(messages, length, k, [], {}, Idle), BlockingRun(1, k, 0) + BlockingRun(2, k, 1),
                  Waiters(messages, length, k, [1, 2], {}, Blocked(k)))
  {
    hide Leads, BlockingRun;
    var s, r, q := Waiters(messages, length, k, [], {}, Idle), Waiters(messages, length, k, [1], {}, Blocked(k)),
                   Waiters(messages, length, k, [1, 2], {}, Blocked(k));
    PlaceLast(Side([], {}, UNLOCKED), 1);
    PlaceLast(Side([1], {}, UNLOCKED), 2);
    assert s.pc[1 := Blocked(k)] == r.pc && r.pc[2 := Blocked(k)] == q.pc;
    hide PlaceOn;
    BlockingLeads(s, 1, k, 0);
    assert At(Queued(s, 1, k, 0), 1, Blocked(k)) == r;
    BlockingLeads(r, 2, k, 1);
    assert At(Queued(r, 2, k, 1), 2, Blocked(k)) == q;
    LeadsOn(s, BlockingRun(1, k, 0), r, BlockingRun(2, k, 1), q);
  }

  lemma PlaceLast(sd: Side, t: Task)
    ensures PlaceOn(sd, t, |sd.wait|) == sd.(wait := sd.wait + [t])
  {
    assert sd.wait[..|sd.wait|] + [t] + sd.wait[|sd.wait|..] == sd.wait + [t];
  }

  lemma StartsIdle(count: nat, length: nat)
    ensures Start(count, length, true, {0, 1, 2}) == Waiters(count, length, Send, [], {}, Idle)
    ensures Start(count, length, true, {0, 1, 2}) == Waiters(count, length, Recv, [], {}, Idle)
  {
    assert Start(count, length, true, {0, 1, 2}).pc == map[0 := Idle, 1 := Idle, 2 := Idle];
  }

  /** Two senders come to wait on a full queue of two. After a reset the one woken sends, and
      the other still waits beside a free slot with no wake-up under way. */
  lemma ResetStrandsASender()
    ensures Leads(Start(2, 2, true, {0, 1, 2}), BlockingRun(1, Send, 0) + BlockingRun(2, Send, 1),
                  Waiters(2, 2, Send, [1, 2], {}, Blocked(Send)))
    ensures Enabled(Waiters(2, 2, Send, [1, 2], {}, Blocked(Send)), Reset(0))
    ensures Leads(Step(Waiters(2, 2, Send, [1, 2], {}, Blocked(Send)), Reset(0)), [] + [Dispatch(1)] + [Attempt(1, false)],
                  Waiters(1, 2, Send, [2], {}, Idle))
  {
    StartsIdle(2, 2);
    TwoBlock(2, 2, Send);
    hide Leads, BlockingRun;
    var r := Waiters(0, 2, Send, [2], {1}, Blocked(Send));
    assert [1, 2][1..] == [2];
    assert Step(Waiters(2, 2, Send, [1, 2], {}, Blocked(Send)), Reset(0)) == r;
    StrandedSends();
  }

  lemma StrandedSends()
    ensures Leads(Waiters(0, 2, Send, [2], {1}, Blocked(Send)), [] + [Dispatch(1)] + [Attempt(1, false)],
                  Waiters(1, 2, Send, [2], {}, Idle))
  {
    hide Leads;
    var r, d, a := Waiters(0, 2, Send, [2], {1}, Blocked(Send)), Waiters(0, 2, Send, [2], {1}, Trying(Send)),
                   Waiters(1, 2, Send, [2], {}, Idle);
    NoSteps(r);
    assert r.pc[1 := Trying(Send)] == d.pc && d.pc[1 := Idle] == a.pc && {1} - {1} == {};
    assert Step(r, Dispatch(1)) == d;
    LeadsStep(r, [], r, Dispatch(1));
    assert Step(d, Attempt(1, false)) == a;
    LeadsStep(r, [] + [Dispatch(1)], d, Attempt(1, false));
  }

  /** Two receivers come to wait, and an interrupt send wakes the first. Deleting or suspending
      it before it tries again leaves the other waiting on an item with no wake-up under way. */
  lemma LeavingAfterAWakeUpStrandsAnother()
    ensures Leads(Start(0, 1, true, {0, 1, 2}), BlockingRun(1, Recv, 0) + BlockingRun(2, Recv, 1) + [IsrSend],
                  Waiters(1, 1, Recv, [2], {1}, Blocked(Recv)))
    ensures forall e :: e == Delete(1) || e == Suspend(1) ==>
              && Enabled(Waiters(1, 1, Recv, [2], {1}, Blocked(Recv)), e)
              && var r := Step(Waiters(1, 1, Recv, [2], {1}, Blocked(Recv)), e);
                 r.messages == 1 && r.recv == Side([2], {}, UNLOCKED) && r.locker == {}
  {
    StartsIdle(0, 1);
    TwoBlock(0, 1, Recv);
    hide Leads, BlockingRun, Without;
    var s := Waiters(0, 1, Recv, [1, 2], {}, Blocked(Recv));
    assert [1, 2][1..] == [2];
    assert Step(s, IsrSend) == Waiters(1, 1, Recv, [2], {1}, Blocked(Recv));
    LeadsStep(Start(0, 1, true, {0, 1, 2}), BlockingRun(1, Recv, 0) + BlockingRun(2, Recv, 1), s, IsrSend);
    WokenLeaves(Delete(1));
    WokenLeaves(Suspend(1));
  }

  lemma WokenLeaves(e: Event)
    requires e == Delete(1) || e == Suspend(1)
    ensures Enabled(Waiters(1, 1, Recv, [2], {1}, Blocked(Recv)), e)
    ensures var r := Step(Waiters(1, 1, Recv, [2], {1}, Blocked(Recv)), e);
            r.messages == 1 && r.recv == Side([2], {}, UNLOCKED) && r.locker == {}
  {
    WithoutAbsent([2], 1);
    assert {1} - {1} == {};
    assert LeaveSide(Side([2], {1}, UNLOCKED), 1) == Side([2], {}, UNLOCKED);
  }

  function IsrSends(n: nat): seq<Event> {
    if n == 0 then [] else IsrSends(n - 1) + [IsrSend]
  }

  /** What interrupts send to a locked queue is counted. */
  lemma {:induction false} IsrSendsLead(s: State, es: seq<Event>, r: State, n: nat)
    requires Leads(s, es, r) && 0 <= r.recv.lock && r.recv.lock + n <= 127 && r.messages + n <= r.length
    ensures Leads(s, es + IsrSends(n), r.(messages := r.messages + n, recv := r.recv.(lock := r.recv.lock + n)))
    decreases n
  {
    hide Leads;
    if n == 0 {
      assert es + [] == es;
    } else {
      IsrSendsLead(s, es, r, n - 1);
      LeadsStep(s, es + IsrSends(n - 1), r.(messages := r.messages + n - 1, recv := r.recv.(lock := r.recv.lock + n - 1)),
                IsrSend);
      assert es + IsrSends(n - 1) + [IsrSend] == es + IsrSends(n);
    }
  }

  /** A receiver on its event list with the queue still locked, and the count of what
      interrupts have sent meanwhile. */
  function ReceiverLocks(messages: int, lock: int): State {
    State(messages, 200, true, Side([1], {}, lock), Side([], {}, 0), map[1 := Unlocking(Recv, true, false, 0)], {1}, {})
  }

  /** A receiver comes to wait and, while it still has the queue locked, interrupts send 127
      times. The next send wraps the count to -128, the unlock takes nothing to be owed, and
      the receiver is left waiting on 128 items. */
  lemma LockCountWraps()
    ensures Leads(Start(0, 200, true, {1}), PlacingRun(1, Recv, 0) + IsrSends(127), ReceiverLocks(127, 127))
    ensures Step(ReceiverLocks(127, 127), IsrSend) == ReceiverLocks(128, -128)
    ensures Leads(ReceiverLocks(128, -128), [] + [UnlockTx(1)] + [UnlockRx(1)] + [Resume(1)],
                  State(128, 200, true, Side([1], {}, UNLOCKED), Side([], {}, UNLOCKED), map[1 := Blocked(Recv)], {}, {}))
  {
    ReceiverPlaces();
    hide Leads, PlacingRun, IsrSends;
    IsrSendsLead(Start(0, 200, true, {1}), PlacingRun(1, Recv, 0), ReceiverLocks(0, 0), 127);
    NoSteps(ReceiverLocks(128, -128));
    var r := ReceiverLocks(128, -128);
    assert At(r, 1, Unlocking(Recv, true, false, 0)) == r by { assert r.pc[1 := Unlocking(Recv, true, false, 0)] == r.pc; }
    UnlockingLeads(r, [], r, 1, Recv);
    assert r.pc[1 := Blocked(Recv)] == map[1 := Blocked(Recv)];
  }

  lemma ReceiverPlaces()
    ensures Leads(Start(0, 200, true, {1}), PlacingRun(1, Recv, 0), ReceiverLocks(0, 0))
  {
    hide Leads, PlacingRun;
    var s := Start(0, 200, true, {1});
    PlaceLast(Side([], {}, 0), 1);
    PlacingLeads(s, 1, Recv, 0);
    assert Locking(s, 1).recv == Side([], {}, 0);
    assert PlaceOn(Side([], {}, 0), 1, 0) == Side([1], {}, 0);
    hide PlaceOn;
    assert s.pc[1 := Unlocking(Recv, true, false, 0)] == map[1 := Unlocking(Recv, true, false, 0)];
  }

  // ----- The event lists and lock counts in place ------------------------------------------------------

  class EventLists {
    var xTasksWaitingToReceive: seq<Task>
    var xTasksWaitingToSend: seq<Task>
    var cTxLock: int
    var cRxLock: int
    var uxMessagesWaiting: int
    const length: int
    const storesItems: bool
    ghost var wokenReceivers: set<Task>
    ghost var wokenSenders: set<Task>

    ghost function Receivers(): Side
      reads this
    {
      Side(xTasksWaitingToReceive, wokenReceivers, cTxLock)
    }

    ghost function Senders(): Side
      reads this
    {
      Side(xTasksWaitingToSend, wokenSenders, cRxLock)
    }

    /** xTaskRemoveFromEventList on either list. */
    method WakeReceiver()
      requires xTasksWaitingToReceive != []
      modifies this`xTasksWaitingToReceive, this`wokenReceivers
      ensures Receivers() == Notify(old(Receivers()))
    {
      wokenReceivers := wokenReceivers + {xTasksWaitingToReceive[0]};
      xTasksWaitingToReceive := xTasksWaitingToReceive[1..];
    }

    method WakeSender()
      requires xTasksWaitingToSend != []
      modifies this`xTasksWaitingToSend, this`wokenSenders
      ensures Senders() == Notify(old(Senders()))
    {
      wokenSenders := wokenSenders + {xTasksWaitingToSend[0]};
      xTasksWaitingToSend := xTasksWaitingToSend[1..];
    }

    /** prvLockQueue */
    method LockQueue()
      modifies this`cTxLock, this`cRxLock
      ensures Receivers() == LockSide(old(Receivers())) && Senders() == LockSide(old(Senders()))
    {
      if cRxLock == UNLOCKED { cRxLock := 0; }
      if cTxLock == UNLOCKED { cTxLock := 0; }
    }

    /** prvUnlockQueue, whose two critical sections let interrupts in between. */
    method UnlockTxHalf()
      modifies this`xTasksWaitingToReceive, this`wokenReceivers, this`cTxLock
      ensures Receivers() == Drain(old(Receivers()))
    {
      var lock := cTxLock;
      while lock > 0
        invariant Drain(Receivers().(lock := lock)) == Drain(old(Receivers()))
        decreases lock
      {
        if xTasksWaitingToReceive != [] {
          WakeReceiver();
        } else {
          break;
        }
        lock := lock - 1;
      }
      cTxLock := UNLOCKED;
    }

    method UnlockRxHalf()
      modifies this`xTasksWaitingToSend, this`wokenSenders, this`cRxLock
      ensures Senders() == Drain(old(Senders()))
    {
      var lock := cRxLock;
      while lock > 0
        invariant Drain(Senders().(lock := lock)) == Drain(old(Senders()))
        decreases lock
      {
        if xTasksWaitingToSend != [] {
          WakeSender();
          lock := lock - 1;
        } else {
          break;
        }
      }
      cRxLock := UNLOCKED;
    }

    /** What xQueueGenericSendFromISR does besides the copy. */
    method SendFromIsr(overwrite: bool) returns (ok: bool)
      requires overwrite ==> length == 1
      modifies this
      ensures ok == (old(uxMessagesWaiting) < length || overwrite)
      ensures ok ==> Receivers() == FromIsr(old(Receivers()))
      ensures ok ==> uxMessagesWaiting == if overwrite && storesItems then 1 else old(uxMessagesWaiting) + 1
      ensures !ok ==> uxMessagesWaiting == old(uxMessagesWaiting) && Receivers() == old(Receivers())
      ensures Senders() == old(Senders())
    {
      ok := uxMessagesWaiting < length || overwrite;
      if ok {
        var lock := cTxLock;
        uxMessagesWaiting := if overwrite && storesItems then 1 else uxMessagesWaiting + 1;
        if lock == UNLOCKED {
          if xTasksWaitingToReceive != [] { WakeReceiver(); }
        } else {
          cTxLock := Int8(lock + 1);
        }
      }
    }

    /** What xQueueReceiveFromISR does besides the copy. */
    method ReceiveFromIsr() returns (ok: bool)
      modifies this
      ensures ok == (old(uxMessagesWaiting) > 0)
      ensures ok ==> uxMessagesWaiting == old(uxMessagesWaiting) - 1 && Senders() == FromIsr(old(Senders()))
      ensures !ok ==> uxMessagesWaiting == old(uxMessagesWaiting) && Senders() == old(Senders())
      ensures Receivers() == old(Receivers())
    {
      ok := uxMessagesWaiting > 0;
      if ok {
        var lock := cRxLock;
        uxMessagesWaiting := uxMessagesWaiting - 1;
        if lock == UNLOCKED {
          if xTasksWaitingToSend != [] { WakeSender(); }
        } else {
          cRxLock := Int8(lock + 1);
        }
      }
    }
  }
}
