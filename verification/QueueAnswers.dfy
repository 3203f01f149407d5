/** How the calls on a queue end (freertos/queue.c): what they return, when they may fail, and what
    becomes of the items, over every run of the protocol; and what a time-out, a suspension and an
    expired wait do to a task. */
module QueueAnswers {
  import opened Sequences
  import opened Tasks
  import opened QueueProtocol

  /** What an event of a task's own call returns to its caller, if it ends the call: an item or a
      semaphore put in, taken out or looked at, or errQUEUE_FULL or errQUEUE_EMPTY. */
  datatype Answer = GoesOn | PutIn | TakenOut | LookedAt | Failed

  function AnswerOf(s: State, e: Event): Answer
    requires Enabled(s, e)
  {
    match e
    case Attempt(t, giveUp) =>
      var k := s.pc[t].kind;
      if Blocks(s, k) then (if giveUp then Failed else GoesOn)
      else if k == Recv then TakenOut else if k == Peek then LookedAt else PutIn
    case Resume(t) => if s.pc[t].placed || !s.pc[t].expired || Receives(s.pc[t].kind) then GoesOn else Failed
    case LookAgain(t) => if s.messages == 0 then Failed else GoesOn
    case _ => GoesOn
  }

  /** The task whose own code the event is, if it is one. */
  predicate Own(e: Event, t: Task) {
    match e
    case Begin(u, _) => u == t
    case Attempt(u, _) => u == t
    case Lock(u) => u == t
    case Check(u, _) => u == t
    case Place(u, _) => u == t
    case UnlockTx(u) => u == t
    case UnlockRx(u) => u == t
    case Resume(u) => u == t
    case LookAgain(u) => u == t
    case Dispatch(u) => u == t
    case _ => false
  }

  /** A call ends exactly with an answer; no event of another task ends it. */
  lemma CallEndsIff(s: State, e: Event, t: Task)
    requires Enabled(s, e) && t in s.pc && s.pc[t] != Idle && e != Delete(t)
    ensures t in Step(s, e).pc
    ensures Step(s, e).pc[t] == Idle <==> Own(e, t) && AnswerOf(s, e) != GoesOn
  {
  }

  /** Only a receive or peek looks again when its time has expired. */
  ghost predicate LookersReceive(s: State) {
    forall t :: t in s.pc && s.pc[t].Expired? ==> Receives(s.pc[t].kind)
  }

  lemma {:induction false} RunLooks(s: State, es: seq<Event>)
    requires EnabledRun(s, es) && LookersReceive(s)
    ensures LookersReceive(Run(s, es))
    decreases |es|
  {
    if es != [] {
      StepLooks(s, es[0]);
      RunLooks(Step(s, es[0]), es[1..]);
    }
  }

  lemma StepLooks(s: State, e: Event)
    requires Enabled(s, e) && LookersReceive(s)
    ensures LookersReceive(Step(s, e))
  {
  }

  /** Over every run a receive or peek fails only on an empty queue, and a send fails on a full one,
      or when its time has expired, whether or not room has appeared meanwhile. */
  lemma FailureMeansNothingToDo(count: nat, length: nat, items: bool, tasks: set<Task>, es: seq<Event>, e: Event, t: Task)
    requires EnabledRun(Start(count, length, items, tasks), es)
    requires var s := Run(Start(count, length, items, tasks), es);
             Enabled(s, e) && Own(e, t) && AnswerOf(s, e) == Failed && t in s.pc && s.pc[t] != Idle
    ensures var s := Run(Start(count, length, items, tasks), es);
            && (Receives(s.pc[t].kind) ==> s.messages == 0)
            && (!Receives(s.pc[t].kind) ==> s.messages >= s.length || (s.pc[t].Unlocking? && s.pc[t].expired))
  {
    RunLooks(Start(count, length, items, tasks), es);
    hide EnabledRun, Run;
  }

  // ----- Items put in and taken out -------------------------------------------------------------

  /** The items or semaphore counts an event adds, those of interrupts included. */
  function Added(s: State, e: Event): nat
    requires Enabled(s, e)
  {
    if e.IsrSend? then (if s.messages < s.length then 1 else 0) else if AnswerOf(s, e) == PutIn then 1 else 0
  }

  function Removed(s: State, e: Event): nat
    requires Enabled(s, e)
  {
    if e.IsrReceive? then (if s.messages > 0 then 1 else 0) else if AnswerOf(s, e) == TakenOut then 1 else 0
  }

  ghost function AllAdded(s: State, es: seq<Event>): nat
    requires EnabledRun(s, es)
    decreases |es|
  {
    if es == [] then 0 else Added(s, es[0]) + AllAdded(Step(s, es[0]), es[1..])
  }

  ghost function AllRemoved(s: State, es: seq<Event>): nat
    requires EnabledRun(s, es)
    decreases |es|
  {
    if es == [] then 0 else Removed(s, es[0]) + AllRemoved(Step(s, es[0]), es[1..])
  }

  /** No task is in an overwriting send. */
  ghost predicate NoneOverwrites(s: State) {
    forall t :: t in s.pc && s.pc[t] != Idle ==> s.pc[t].kind != Overwrite
  }

  /** Neither an overwriting send nor a reset. */
  predicate Adds(e: Event) {
    !e.Reset? && !e.IsrOverwrite? && (e.Begin? ==> e.kind != Overwrite)
  }

  lemma StepBalances(s: State, e: Event)
    requires Enabled(s, e) && NoneOverwrites(s) && Adds(e)
    ensures Step(s, e).messages == s.messages + Added(s, e) - Removed(s, e)
    ensures NoneOverwrites(Step(s, e))
  {
  }

  lemma {:induction false} RunBalances(s: State, es: seq<Event>)
    requires EnabledRun(s, es) && NoneOverwrites(s) && forall i :: 0 <= i < |es| ==> Adds(es[i])
    ensures Run(s, es).messages == s.messages + AllAdded(s, es) - AllRemoved(s, es)
    decreases |es|
  {
    hide Enabled, Step, Added, Removed, NoneOverwrites;
    if es != [] {
      StepBalances(s, es[0]);
      RunBalances(Step(s, es[0]), es[1..]);
    }
  }

  /** Over every run without overwriting sends and resets, the queue holds what it held at first
      and every item that a send was told is in, less every item that a receive was given. */
  lemma ItemsAreConserved(count: nat, length: nat, items: bool, tasks: set<Task>, es: seq<Event>)
    requires EnabledRun(Start(count, length, items, tasks), es) && forall i :: 0 <= i < |es| ==> Adds(es[i])
    ensures var s := Start(count, length, items, tasks);
            Run(s, es).messages == count + AllAdded(s, es) - AllRemoved(s, es)
  {
    hide EnabledRun, Run;
    RunBalances(Start(count, length, items, tasks), es);
  }

  /** An overwriting send never fails: a queue of items then holds exactly one, while a semaphore
      counts up, past its length if need be. */
  lemma OverwriteLeavesOne(s: State, e: Event)
    requires Enabled(s, e) && (e.IsrOverwrite? || (e.Attempt? && s.pc[e.t].kind == Overwrite))
    ensures s.items ==> Step(s, e).messages == 1
    ensures !s.items ==> Step(s, e).messages == s.messages + 1
    ensures e.Attempt? ==> AnswerOf(s, e) == PutIn
  {
  }

  // ----- Time-outs ----------------------------------------------------------------------------------

  /** A task that times out is off its event list, had not been woken by anyone, and goes back to
      the top of its loop. */
  lemma TimeOutFrees(s: State, t: Task)
    requires Sound(s) && Enabled(s, TimeOut(t)) && (t in s.recv.wait || t in s.send.wait)
    ensures var r := Step(s, TimeOut(t));
            && t !in r.recv.wait && t !in r.send.wait && t !in r.recv.woken && t !in r.send.woken
            && Enabled(r, Dispatch(t)) && Step(r, Dispatch(t)) == At(r, t, Trying(s.pc[t].kind))
            && r.messages == s.messages && r.pc == s.pc
            && forall u :: u != t ==> (u in r.recv.wait <==> u in s.recv.wait) && (u in r.send.wait <==> u in s.send.wait)
  {
    assert TaskOk(s, t);
    WithoutMembers(s.recv.wait, t);
    WithoutMembers(s.send.wait, t);
  }

  /** The unlock after a look that does not end on an event list. */
  lemma UnlockWithoutPlacing(s: State, t: Task, k: Kind, expired: bool)
    ensures Leads(At(s, t, Unlocking(k, false, expired, 0)), [UnlockTx(t)] + [UnlockRx(t)] + [Resume(t)],
                  At(Unlocked(s), t, if !expired then Trying(k) else if Receives(k) then Expired(k) else Idle))
  {
    hide Leads, Drain;
    var r1, r2 := s.(recv := Drain(s.recv)), s.(recv := Drain(s.recv), send := Drain(s.send));
    var p0, p1, p2 := Unlocking(k, false, expired, 0), Unlocking(k, false, expired, 1), Unlocking(k, false, expired, 2);
    AtTwice(r1, t, p0, p1);
    AtTwice(r2, t, p1, p2);
    AtTwice(Unlocked(s), t, p2, if !expired then Trying(k) else if Receives(k) then Expired(k) else Idle);
    NoSteps(At(s, t, p0));
    LeadsStep(At(s, t, p0), [], At(s, t, p0), UnlockTx(t));
    assert [] + [UnlockTx(t)] == [UnlockTx(t)];
    LeadsStep(At(s, t, p0), [UnlockTx(t)], At(r1, t, p1), UnlockRx(t));
    LeadsStep(At(s, t, p0), [UnlockTx(t)] + [UnlockRx(t)], At(r2, t, p2), Resume(t));
  }

  /** A task in its locked region that finds its time expired never blocks: undisturbed it unlocks
      the queue, and then a send has failed, while a receive or peek looks once more, to fail when
      the queue is empty and to try again when it is not. */
  lemma ExpiredCallNeverBlocks(s: State, t: Task, k: Kind)
    requires Sound(s) && t in s.pc && s.pc[t] == Locked(k) && t !in s.suspended
    ensures Enabled(s, Check(t, true))
    ensures Leads(s, [Check(t, true)] + ([UnlockTx(t)] + [UnlockRx(t)] + [Resume(t)]),
                  At(Unlocked(s), t, if Receives(k) then Expired(k) else Idle))
    ensures Receives(k) ==>
              var r := At(Unlocked(s), t, Expired(k));
              && Enabled(r, LookAgain(t))
              && Step(r, LookAgain(t)) == At(Unlocked(s), t, if s.messages == 0 then Idle else Trying(k))
  {
    hide Leads, Drain, Sound;
    var r := At(s, t, Unlocking(k, false, true, 0));
    NoSteps(s);
    LeadsStep(s, [], s, Check(t, true));
    assert [] + [Check(t, true)] == [Check(t, true)];
    UnlockWithoutPlacing(s, t, k, true);
    LeadsOn(s, [Check(t, true)], r, [UnlockTx(t)] + [UnlockRx(t)] + [Resume(t)],
            At(Unlocked(s), t, if Receives(k) then Expired(k) else Idle));
    AtTwice(Unlocked(s), t, Expired(k), if s.messages == 0 then Idle else Trying(k));
  }

  // ----- Suspension ---------------------------------------------------------------------------------

  /** A suspended task is on neither event list and takes no step of its own, whatever else happens,
      until it is resumed; then it goes on where it was, with nothing to wait for. */
  lemma {:induction false} SuspendedTaskIsStill(s: State, t: Task, es: seq<Event>)
    requires Sound(s) && t in s.suspended && t in s.pc && EnabledRun(s, es)
    requires forall i :: 0 <= i < |es| ==> es[i] != ResumeTask(t) && es[i] != Delete(t)
    ensures (forall i :: 0 <= i < |es| ==> !Own(es[i], t))
    ensures var r := Run(s, es);
            && t in r.suspended && t in r.pc && r.pc[t] == s.pc[t]
            && t !in r.recv.wait && t !in r.send.wait && t !in r.recv.woken && t !in r.send.woken
    decreases |es|
  {
    hide Enabled, Step, Sound;
    SuspendedIsOff(s, t);
    if es != [] {
      StepKeepsSound(s, es[0]);
      StepKeepsSuspended(s, es[0], t);
      SuspendedTaskIsStill(Step(s, es[0]), t, es[1..]);
    }
  }

  lemma SuspendedIsOff(s: State, t: Task)
    requires Sound(s) && t in s.suspended && t in s.pc
    ensures t !in s.recv.wait && t !in s.send.wait && t !in s.recv.woken && t !in s.send.woken && t !in s.locker
    ensures !InRegion(s.pc[t])
  {
    assert TaskOk(s, t);
  }

  lemma StepKeepsSuspended(s: State, e: Event, t: Task)
    requires Sound(s) && t in s.suspended && t in s.pc && Enabled(s, e) && e != ResumeTask(t) && e != Delete(t)
    ensures t in Step(s, e).suspended && t in Step(s, e).pc && Step(s, e).pc[t] == s.pc[t] && !Own(e, t)
  {
    SuspendedIsOff(s, t);
    hide Sound;
  }

  /** Suspending puts the task aside; resuming a task that was blocked lets it try again. */
  lemma ResumedTaskTriesAgain(s: State, t: Task)
    requires Sound(s) && Enabled(s, Suspend(t)) && s.pc[t].Blocked?
    ensures var r := Step(s, Suspend(t));
            && t in r.suspended && Enabled(r, ResumeTask(t))
            && Enabled(Step(r, ResumeTask(t)), Dispatch(t)) && t !in Step(r, ResumeTask(t)).suspended
  {
    WithoutMembers(s.recv.wait, t);
    WithoutMembers(s.send.wait, t);
  }
}
