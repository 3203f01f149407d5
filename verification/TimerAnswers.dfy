/** What the timer commands bring about: a stopped timer is on no list and stays silent, a changed
    period files the timer afresh, and a service that has caught up has made every callback due. */
module TimerAnswers {
  import opened TickTime
  import opened Timers
  import opened TimerService

  // ----- No timer is listed twice -----------------------------------------------------------

  /** How often a timer is on the two lists. */
  function Listed(s: State, id: int): nat {
    |Filed(s.current, id)| + |Filed(s.overflow, id)|
  }

  /** At most once, and not while a command for it is being worked on. */
  ghost predicate ListedOnce(s: State, id: int) {
    Listed(s, id) <= 1 && (s.hand != Empty && s.hand.c.id == id ==> Listed(s, id) == 0)
  }

  lemma SwitchRoundListsOnce(s: State, id: int)
    requires ListedOnce(s, id) && s.current != [] && s.current[0].id in s.timers
    ensures ListedOnce(SwitchRound(s), id) && SwitchRound(s).hand == s.hand
  {
    var e, rest := s.current[0], s.current[1..];
    var p := s.timers[e.id].period;
    var again := Entry(e.id, (e.value + p) % WRAP, e.due + p);
    FiledHead(s.current, id);
    FiledInsert(rest, again, id);
    hide Filed, Insert, SwitchRound;
    SwitchRoundCases(s, Fire(s.(current := rest), e.id, e.due), again);
    if e.id == id { assert Filed(rest, id) == []; }
  }

  lemma {:induction false} SwitchListsListsOnce(s: State, id: int)
    requires Known(s) && ListedOnce(s, id)
    ensures ListedOnce(SwitchLists(s), id)
    decreases Room(s.current)
  {
    hide SwitchRound, Filed;
    if s.current == [] {
      NothingFiled(id);
    } else {
      SwitchRoundProgress(s);
      RoomIsNonNegative(s.current);
      SwitchRoundListsOnce(s, id);
      SwitchListsListsOnce(SwitchRound(s), id);
    }
  }

  lemma ExpireListsOnce(s: State, id: int)
    requires Enabled(s, Expire) && ListedOnce(s, id)
    ensures ListedOnce(ExpireHead(s), id)
  {
    var e := s.current[0];
    FiledHead(s.current, id);
    hide Filed, FileTimer;
    if e.id == id { assert Filed(s.current[1..], id) == [] && Filed(s.overflow, id) == []; }
    FileTimerFiles(s.(current := s.current[1..]), e.id, e.due, s.timers[e.id].period, id);
  }

  lemma ReceiveListsOnce(s: State, id: int)
    requires Enabled(s, Receive) && ListedOnce(s, id)
    ensures ListedOnce(ReceiveHead(s), id)
  {
    hide Filed, Remove;
    FiledRemove(s.current, s.commands[0].id, id);
    FiledRemove(s.overflow, s.commands[0].id, id);
  }

  lemma ObeyListsOnce(s: State, id: int)
    requires Enabled(s, Obey) && ListedOnce(s, id)
    ensures ListedOnce(ObeyHand(s), id)
  {
    hide Filed, FileTimer;
    var out := s.(hand := Empty);
    if s.hand.c.id == id { assert Filed(s.current, id) == [] && Filed(s.overflow, id) == []; }
    match s.hand.c
    case Start(other, at) => FileTimerFiles(out, other, at, s.timers[other].period, id);
    case Stop(_) =>
    case ChangePeriod(other, p) =>
      FileTimerFiles(out.(timers := s.timers[other := s.timers[other].(period := p)]), other, s.now, p, id);
  }

  lemma StepListsOnce(s: State, e: Event, id: int)
    requires Known(s) && Enabled(s, e) && ListedOnce(s, id)
    ensures ListedOnce(Step(s, e), id)
  {
    hide Filed, SwitchLists, ExpireHead, ReceiveHead, ObeyHand, Known;
    match e
    case Sample(at) =>
      KnownLater(s, at);
      if at % WRAP < s.now % WRAP {
        SwitchListsListsOnce(s.(now := at, hand := if s.hand.Received? then Sampled(s.hand.c) else s.hand), id);
      }
    case Expire => ExpireListsOnce(s, id);
    case Receive => ReceiveListsOnce(s, id);
    case Obey => ObeyListsOnce(s, id);
    case Post(_) =>
  }

  lemma {:induction false} RunListsOnce(s: State, es: seq<Event>, id: int)
    requires LegalRun(s, es) && ListedOnce(s, id)
    ensures ListedOnce(Run(s, es), id)
    decreases |es|
  {
    hide ListedOnce, Step;
    if es != [] {
      StepListsOnce(s, es[0], id);
      RunListsOnce(Step(s, es[0]), es[1..], id);
    }
  }

  /** Over every run a timer is on the two lists at most once, and on neither between the receipt
      of a command for it and the time that command is obeyed. */
  lemma NoTimerIsListedTwice(timers: map<int, Timer>, capacity: nat, es: seq<Event>, id: int)
    requires LegalRun(Fresh(timers, capacity), es)
    ensures ListedOnce(Run(Fresh(timers, capacity), es), id)
  {
    hide LegalRun, Run;
    NothingFiled(id);
    RunListsOnce(Fresh(timers, capacity), es, id);
  }

  // ----- What each command does -----------------------------------------------------------------

  /** Stopping leaves the timer on no list and calls nobody. */
  lemma StopUnlists(s: State, id: int)
    requires Enabled(s, Obey) && ListedOnce(s, id) && s.hand.c == Stop(id)
    ensures var r := ObeyHand(s);
            Listed(r, id) == 0 && r.hand == Empty && r.log == s.log && r.timers == s.timers && r.commands == s.commands
  {
    hide Filed;
  }

  /** Changing the period stores it, and files the timer once, for one new period from now. */
  lemma ChangePeriodRefiles(s: State, id: int, p: int)
    requires Inv(s) && Enabled(s, Obey) && ListedOnce(s, id) && s.hand.c == ChangePeriod(id, p)
    ensures var r := ObeyHand(s);
            && r.timers == s.timers[id := Timer(p, s.timers[id].autoReload)]
            && r.hand == Empty && r.log == s.log && r.commands == s.commands
            && Filed(r.current, id) + Filed(r.overflow, id) == [Expiry(s.now + p)]
  {
    hide Filed, FileTimer, EntriesOk;
    var out := s.(hand := Empty, timers := s.timers[id := s.timers[id].(period := p)]);
    assert Filed(s.current, id) == [] && Filed(s.overflow, id) == [];
    PeriodIsInv(s, id, p);
    FileTimerOk(out, id, s.now, p);
    FileTimerFiles(out, id, s.now, p, id);
  }

  lemma PeriodIsInv(s: State, id: int, p: int)
    requires Inv(s) && id in s.timers && 0 < p < WRAP
    ensures Inv(s.(hand := Empty, timers := s.timers[id := s.timers[id].(period := p)]))
  {
  }

  /** Starting files the timer once, for one period from the time of the command, when that is
      still ahead; when it is not the timer is called at once, and an auto-reload timer started
      again from that expiry. */
  lemma StartFilesOrCalls(s: State, id: int, time: int)
    requires Inv(s) && Enabled(s, Obey) && ListedOnce(s, id) && s.hand.c == Start(id, time)
    ensures var (r, due) := (ObeyHand(s), time + s.timers[id].period);
            && r.timers == s.timers && r.hand == Empty
            && (s.now < due ==>
                  r.log == s.log && r.commands == s.commands && Filed(r.current, id) + Filed(r.overflow, id) == [Expiry(due)])
            && (due <= s.now ==>
                  && r.log == s.log + [Firing(id, due, s.now)] && Listed(r, id) == 0
                  && r.commands == s.commands + if s.timers[id].autoReload && !Full(s) then [Start(id, due)] else [])
  {
    hide Filed, FileTimer, EntriesOk;
    var out := s.(hand := Empty);
    assert Filed(s.current, id) == [] && Filed(s.overflow, id) == [];
    FileTimerOk(out, id, time, s.timers[id].period);
    FileTimerFiles(out, id, time, s.timers[id].period, id);
  }

  // ----- A stopped timer stays silent --------------------------------------------------------------

  lemma {:induction false} SwitchListsSilent(s: State, id: int, t: Timer)
    requires Known(s) && id in s.timers && s.timers[id] == t && Owes(s, id, t.period, Nothing)
    ensures var r := SwitchLists(s); Serves(s, r, id, t, Nothing)
    decreases Room(s.current)
  {
    hide Filed, Asked, FiredOf, SwitchRound;
    if s.current == [] {
      NothingFiled(id);
    } else {
      SwitchRoundProgress(s);
      RoomIsNonNegative(s.current);
      SwitchRoundServes(s, id, t, Nothing);
      SwitchListsSilent(SwitchRound(s), id, t);
    }
  }

  lemma StepSilent(s: State, e: Event, id: int, t: Timer)
    requires Known(s) && Enabled(s, e) && id in s.timers && s.timers[id] == t && Owes(s, id, t.period, Nothing)
    requires e.Post? ==> e.c.id != id
    ensures Serves(s, Step(s, e), id, t, Nothing)
  {
    hide Filed, Asked, FiredOf, SwitchLists, ExpireHead, ReceiveHead, ObeyHand, Known;
    match e
    case Sample(at) =>
      var s1 := s.(now := at, hand := if s.hand.Received? then Sampled(s.hand.c) else s.hand);
      assert Ahead(s1) == Ahead(s);
      KnownLater(s, at);
      if at % WRAP < s.now % WRAP { SwitchListsSilent(s1, id, t); }
    case Expire => ExpireServes(s, id, t, Nothing);
    case Receive => ReceiveServes(s, id, t, Nothing);
    case Obey => ObeyServes(s, id, t, Nothing);
    case Post(c) => Sends(s, c, id, t.period);
  }

  lemma {:induction false} RunSilent(s: State, es: seq<Event>, id: int, t: Timer)
    requires LegalRun(s, es) && id in s.timers && s.timers[id] == t && Owes(s, id, t.period, Nothing)
    requires forall i :: 0 <= i < |es| && es[i].Post? ==> es[i].c.id != id
    ensures FiredOf(Run(s, es).log, id) == FiredOf(s.log, id)
    decreases |es|
  {
    hide Owes, Step, FiredOf;
    if es != [] {
      StepSilent(s, es[0], id, t);
      RunSilent(Step(s, es[0]), es[1..], id, t);
    }
  }

  /** A timer whose stop command is obeyed, with no other command for it in the queue, is not called
      again over any run in which none is sent. */
  lemma StoppedTimerIsSilent(s: State, id: int, es: seq<Event>)
    requires Enabled(s, Obey) && ListedOnce(s, id) && s.hand.c == Stop(id)
    requires forall c :: c in s.commands ==> c.id != id
    requires LegalRun(ObeyHand(s), es) && forall i :: 0 <= i < |es| && es[i].Post? ==> es[i].c.id != id
    ensures FiredOf(Run(ObeyHand(s), es).log, id) == FiredOf(s.log, id)
  {
    var t := s.timers[id];
    StopUnlists(s, id);
    NoneAsked(s.commands, id, t.period);
    hide Filed, FiredOf, LegalRun, Run, Asked;
    assert Owes(ObeyHand(s), id, t.period, Nothing);
    RunSilent(ObeyHand(s), es, id, t);
  }

  lemma {:induction false} NoneAsked(q: seq<Command>, id: int, period: int)
    requires forall c :: c in q ==> c.id != id
    ensures Asked(q, id, period) == []
    decreases |q|
  {
    if q != [] { NoneAsked(q[1..], id, period); }
  }

  // ----- A service that has caught up ---------------------------------------------------------------

  /** No command is left, and the head of the current list has not expired. */
  predicate CaughtUp(s: State) {
    s.hand == Empty && s.commands == [] && (s.current != [] ==> s.current[0].value > s.now % WRAP)
  }

  lemma {:induction false} FiledIsEntry(q: seq<Entry>, id: int, due: int)
    requires Expiry(due) in Filed(q, id)
    ensures exists i :: 0 <= i < |q| && q[i].due == due
    decreases |q|
  {
    if q[0].id == id && q[0].due == due {
    } else {
      FiledIsEntry(q[1..], id, due);
      var i :| 0 <= i < |q[1..]| && q[1..][i].due == due;
      assert q[i + 1].due == due;
    }
  }

  /** What such a service still owes lies ahead. */
  lemma OwedIsAhead(s: State, id: int, period: int, due: int)
    requires Inv(s) && CaughtUp(s) && Owes(s, id, period, At(due))
    ensures s.now < due
  {
    HeadIsFirst(s);
    if Filed(s.current, id) == [Expiry(due)] {
      FiledIsEntry(s.current, id, due);
    } else {
      FiledIsEntry(s.overflow, id, due);
    }
  }

  lemma {:induction false} FiredIsLogged(log: seq<Firing>, id: int, k: nat)
    requires k < |FiredOf(log, id)|
    ensures exists i :: 0 <= i < |log| && log[i].due == FiredOf(log, id)[k]
    decreases |log|
  {
    var rest := FiredOf(log[1..], id);
    if log[0].id == id && k == 0 {
    } else {
      var j := if log[0].id == id then k - 1 else k;
      FiredIsLogged(log[1..], id, j);
      var i :| 0 <= i < |log[1..]| && log[1..][i].due == rest[j];
      assert log[i + 1].due == FiredOf(log, id)[k];
    }
  }

  lemma StartedIsInv(timers: map<int, Timer>, capacity: nat, id: int, time: int)
    requires forall t :: t in timers ==> 0 < timers[t].period < WRAP
    ensures Inv(Started(timers, capacity, id, time))
  {
  }

  /** A one-shot timer started at a time and left alone has been called, once, in every state in
      which the service has caught up with a time at or past the expiry; and in none before it. */
  lemma OneShotIsCalledIff(timers: map<int, Timer>, capacity: nat, es: seq<Event>, id: int, time: nat)
    requires (forall t :: t in timers ==> 0 < timers[t].period < WRAP) && id in timers && !timers[id].autoReload && capacity > 0
    requires LegalRun(Started(timers, capacity, id, time), es)
    requires forall j :: 0 <= j < |es| && es[j].Post? ==> es[j].c.id != id
    requires CaughtUp(Run(Started(timers, capacity, id, time), es))
    ensures var s, due := Run(Started(timers, capacity, id, time), es), time + timers[id].period;
            FiredOf(s.log, id) == if due <= s.now then [due] else []
  {
    hide LegalRun, Run, Inv, Started, Owes, CaughtUp, FiredOf;
    StartedIsInv(timers, capacity, id, time);
    RunKeepsInv(Started(timers, capacity, id, time), es);
    OneShotFiresOnce(timers, capacity, es, id, time);
    OneShotIsPast(Run(Started(timers, capacity, id, time), es), id, timers[id].period, time + timers[id].period);
  }

  lemma OneShotIsPast(s: State, id: int, p: int, due: int)
    requires Inv(s) && CaughtUp(s)
    requires (FiredOf(s.log, id) == [] && Owes(s, id, p, At(due))) || FiredOf(s.log, id) == [due]
    ensures FiredOf(s.log, id) == if due <= s.now then [due] else []
  {
    hide Inv, Owes, CaughtUp, FiredOf;
    if FiredOf(s.log, id) == [] { OwedIsAhead(s, id, p, due); } else { FiredIsPast(s, id, 0); }
  }

  lemma FiredIsPast(s: State, id: int, k: nat)
    requires Inv(s) && k < |FiredOf(s.log, id)|
    ensures FiredOf(s.log, id)[k] <= s.now
  {
    FiredIsLogged(s.log, id, k);
  }

  /** An auto-reload timer started at a time and left alone, with room in the timer queue all along,
      has been called once for every whole period since then, in every state in which the service
      has caught up. */
  lemma PeriodicTimerIsCalledForEveryPeriod(timers: map<int, Timer>, capacity: nat, es: seq<Event>, id: int, time: nat)
    requires (forall t :: t in timers ==> 0 < timers[t].period < WRAP) && id in timers && timers[id].autoReload && capacity > 0
    requires LegalRun(Started(timers, capacity, id, time), es) && AlwaysRoom(Started(timers, capacity, id, time), es)
    requires forall j :: 0 <= j < |es| && es[j].Post? ==> es[j].c.id != id
    requires CaughtUp(Run(Started(timers, capacity, id, time), es))
    ensures var (s, p) := (Run(Started(timers, capacity, id, time), es), timers[id].period);
            var n := |FiredOf(s.log, id)|;
            s.now < time + (n + 1) * p && (n > 0 ==> time + n * p <= s.now)
  {
    var s0, p := Started(timers, capacity, id, time), timers[id].period;
    var s := Run(s0, es);
    var n := |FiredOf(s.log, id)|;
    StartedIsInv(timers, capacity, id, time);
    hide LegalRun, AlwaysRoom, Run, Inv, Started, Owes, CaughtUp;
    RunKeepsInv(s0, es);
    PeriodicTimerKeepsGoing(timers, capacity, es, id, time);
    OwedIsAhead(s, id, p, time + (n + 1) * p);
    if n > 0 {
      PeriodicTimerDoesNotDrift(timers, capacity, es, id, time, n - 1);
      FiredIsPast(s, id, n - 1);
    }
  }
}
