/** The timer service as a state machine (freertos/timers.c): sampling the time, switching the
    lists when the tick wraps, firing what has expired, and obeying commands, with auto-reload
    timers caught up by restart commands. Each entry also carries its expiry in unbounded time,
    which no decision reads: it is there to say that the decisions are right. */
module TimerService {
  import opened TickTime
  import opened Timers

  datatype Timer = Timer(period: int, autoReload: bool)

  /** A list item: its owner, the value it is sorted by, and the unbounded expiry it stands for. */
  datatype Entry = Entry(id: int, value: int, due: int)

  /** A message on the timer queue; a start carries the (unbounded) time it was issued at. */
  datatype Command = Start(id: int, time: int) | Stop(id: int) | ChangePeriod(id: int, period: int)

  /** One call of a timer's callback: the expiry it is for and the time it is made at. */
  datatype Firing = Firing(id: int, due: int, at: int)

  /** The command prvProcessReceivedCommands is working on: received, and with the time sampled
      since. */
  datatype Hand = Empty | Received(c: Command) | Sampled(c: Command)

  /** now is the (unbounded) time last sampled; the code keeps it modulo 2^32 in xLastTime.
      capacity is the length of the timer queue. */
  datatype State = State(now: int, current: seq<Entry>, overflow: seq<Entry>, timers: map<int, Timer>,
                         commands: seq<Command>, capacity: nat, hand: Hand, log: seq<Firing>)

  /** vListInsert */
  function Insert(q: seq<Entry>, e: Entry): seq<Entry> {
    if q == [] || q[0].value > e.value then [e] + q else [q[0]] + Insert(q[1..], e)
  }

  /** uxListRemove of a timer's item, if it is there. */
  function Remove(q: seq<Entry>, id: int): seq<Entry> {
    if q == [] then [] else if q[0].id == id then q[1..] else [q[0]] + Remove(q[1..], id)
  }

  function Unlist(s: State, id: int): State {
    s.(current := Remove(s.current, id), overflow := Remove(s.overflow, id))
  }

  /** prvInsertTimerInActiveList for a command issued at a time. */
  function FileTimer(s: State, id: int, time: int, period: int): (State, bool) {
    var next := (time + period) % WRAP;
    var e := Entry(id, next, time + period);
    match File(next, s.now % WRAP, time % WRAP, period)
    case Expired => (s, true)
    case ToCurrent => (s.(current := Insert(s.current, e)), false)
    case ToOverflow => (s.(overflow := Insert(s.overflow, e)), false)
  }

  function Fire(s: State, id: int, due: int): State {
    s.(log := s.log + [Firing(id, due, s.now)])
  }

  /** A send to the timer queue that does not wait: to a full queue it fails. */
  function Send(s: State, c: Command): State {
    if |s.commands| < s.capacity then s.(commands := s.commands + [c]) else s
  }

  // ----- prvSwitchTimerLists --------------------------------------------------------------------

  /** How far the entries are from the wrap, all together: what the loop uses up. */
  function Room(q: seq<Entry>): int {
    if q == [] then 0 else (WRAP - q[0].value) + Room(q[1..])
  }

  ghost predicate InRange(q: seq<Entry>) {
    forall i :: 0 <= i < |q| ==> 0 <= q[i].value < WRAP
  }

  ghost predicate Known(s: State) {
    && (forall t :: t in s.timers ==> 0 < s.timers[t].period < WRAP)
    && InRange(s.current) && (forall i :: 0 <= i < |s.current| ==> s.current[i].id in s.timers)
  }

  lemma {:induction false} InsertRoom(q: seq<Entry>, e: Entry)
    requires InRange(q) && 0 <= e.value < WRAP
    ensures Room(Insert(q, e)) == Room(q) + (WRAP - e.value) && InRange(Insert(q, e)) && Room(q) >= 0
    ensures forall x :: x in Insert(q, e) <==> x == e || x in q
    ensures |Insert(q, e)| == |q| + 1
    decreases |q|
  {
    if q == [] {
      assert [e][1..] == [];
    } else if q[0].value > e.value {
      assert ([e] + q)[1..] == q;
      RoomIsNonNegative(q);
    } else {
      InsertRoom(q[1..], e);
      assert Insert(q, e)[1..] == Insert(q[1..], e);
      assert forall x :: x in q <==> x == q[0] || x in q[1..];
    }
  }

  lemma {:induction false} RoomIsNonNegative(q: seq<Entry>)
    requires InRange(q)
    ensures Room(q) >= |q|
    decreases |q|
  {
    if q != [] { RoomIsNonNegative(q[1..]); }
  }

  /** One round: the head timer fires, and an auto-reload timer goes back into the list if its
      next expiry is before the wrap, or else has itself restarted by a command. */
  function SwitchRound(s: State): State
    requires s.current != [] && s.current[0].id in s.timers
  {
    var e := s.current[0];
    var t := s.timers[e.id];
    var out := Fire(s.(current := s.current[1..]), e.id, e.due);
    if !t.autoReload then out
    else
      var reload := (e.value + t.period) % WRAP;
      if reload > e.value then out.(current := Insert(out.current, Entry(e.id, reload, e.due + t.period)))
      else Send(out, Start(e.id, e.due))
  }

  /** Each round brings the list nearer to empty, for a reinserted timer expires later. */
  lemma SwitchRoundProgress(s: State)
    requires Known(s) && s.current != []
    ensures Known(SwitchRound(s)) && 0 <= Room(SwitchRound(s).current) < Room(s.current)
    ensures SwitchRound(s).timers == s.timers
  {
    var e := s.current[0];
    var rest := s.current[1..];
    var t := s.timers[e.id];
    var reload := (e.value + t.period) % WRAP;
    RoomIsNonNegative(rest);
    assert Room(s.current) == (WRAP - e.value) + Room(rest) && 0 <= e.value < WRAP;
    hide Room, Insert;
    if t.autoReload && reload > e.value {
      InsertRoom(rest, Entry(e.id, reload, e.due + t.period));
      KnownInsert(s.timers, rest, Entry(e.id, reload, e.due + t.period));
    }
  }

  lemma KnownInsert(timers: map<int, Timer>, q: seq<Entry>, e: Entry)
    requires InRange(q) && 0 <= e.value < WRAP && e.id in timers && forall i :: 0 <= i < |q| ==> q[i].id in timers
    ensures forall i :: 0 <= i < |Insert(q, e)| ==> Insert(q, e)[i].id in timers
  {
    InsertRoom(q, e);
    var r := Insert(q, e);
    forall i | 0 <= i < |r|
      ensures r[i].id in timers
    {
      assert r[i] in r;
      if r[i] != e {
        var j :| 0 <= j < |q| && q[j] == r[i];
      }
    }
  }

  /** prvSwitchTimerLists: rounds until the current list is empty, then the lists change places. */
  function SwitchLists(s: State): State
    requires Known(s)
    decreases Room(s.current)
  {
    if s.current == [] then s.(current := s.overflow, overflow := [])
    else
      SwitchRoundProgress(s);
      RoomIsNonNegative(s.current);
      SwitchLists(SwitchRound(s))
  }

  // ----- The steps of the service ------------------------------------------------------------------

  datatype Event = Sample(time: int) | Expire | Receive | Obey | Post(c: Command)

  predicate Enabled(s: State, e: Event) {
    match e
    case Sample(t) => s.now <= t < s.now + WRAP && !s.hand.Sampled?
    case Expire => s.hand == Empty && s.current != [] && s.current[0].id in s.timers && s.current[0].value <= s.now % WRAP
    case Receive => s.hand == Empty && s.commands != []
    case Obey =>
      && s.hand.Sampled? && s.hand.c.id in s.timers
      && (s.hand.c.Start? ==> 0 <= s.hand.c.time <= s.now < s.hand.c.time + WRAP)
      && (s.hand.c.ChangePeriod? ==> 0 < s.hand.c.period < WRAP)
    case Post(_) => true
  }

  /** prvSampleTimeNow, at an (unbounded) time. */
  function SampleTime(s: State, t: int): State
    requires Known(s)
  {
    var s1 := s.(now := t, hand := if s.hand.Received? then Sampled(s.hand.c) else s.hand);
    if t % WRAP < s.now % WRAP then SwitchLists(s1) else s1
  }

  /** prvProcessExpiredTimer */
  function ExpireHead(s: State): State
    requires s.current != [] && s.current[0].id in s.timers
  {
    var e, t := s.current[0], s.timers[s.current[0].id];
    var out := s.(current := s.current[1..]);
    if !t.autoReload then Fire(out, e.id, e.due)
    else
      var (filed, expired) := FileTimer(out, e.id, e.due, t.period);
      Fire(if expired then Send(filed, Start(e.id, e.due)) else filed, e.id, e.due)
  }

  /** One turn of the loop in prvProcessReceivedCommands: a command is received and its timer
      taken off the lists; the time is sampled, which may switch them; the command is obeyed. */
  function ReceiveHead(s: State): State
    requires s.commands != []
  {
    Unlist(s.(commands := s.commands[1..], hand := Received(s.commands[0])), s.commands[0].id)
  }

  function ObeyHand(s: State): State
    requires s.hand.Sampled? && s.hand.c.id in s.timers
  {
    var out := s.(hand := Empty);
    match s.hand.c
    case Start(id, time) =>
      var t := s.timers[id];
      var (filed, expired) := FileTimer(out, id, time, t.period);
      if !expired then filed
      else
        var fired := Fire(filed, id, time + t.period);
        if t.autoReload then Send(fired, Start(id, time + t.period)) else fired
    case Stop(_) => out
    case ChangePeriod(id, p) => FileTimer(out.(timers := s.timers[id := s.timers[id].(period := p)]), id, s.now, p).0
  }

  function Step(s: State, e: Event): State
    requires Known(s) && Enabled(s, e)
  {
    match e
    case Sample(t) => SampleTime(s, t)
    case Expire => ExpireHead(s)
    case Receive => ReceiveHead(s)
    case Obey => ObeyHand(s)
    case Post(c) => Send(s, c)
  }

  // ----- The invariant ---------------------------------------------------------------------------------

  /** The entries stand for expiries in one epoch and are sorted. */
  ghost predicate EntriesOk(q: seq<Entry>, timers: map<int, Timer>, epoch: int) {
    && (forall i :: 0 <= i < |q| ==>
          q[i].id in timers && 0 <= q[i].due && q[i].due / WRAP == epoch && q[i].due % WRAP == q[i].value)
    && (forall i, j :: 0 <= i < j < |q| ==> q[i].value <= q[j].value)
  }

  ghost predicate Punctual(log: seq<Firing>, now: int) {
    forall i :: 0 <= i < |log| ==> log[i].due <= log[i].at <= now
  }

  ghost predicate Settled(s: State, epoch: int) {
    && 0 <= s.now && (forall t :: t in s.timers ==> 0 < s.timers[t].period < WRAP)
    && EntriesOk(s.current, s.timers, epoch) && EntriesOk(s.overflow, s.timers, epoch + 1)
    && Punctual(s.log, s.now)
  }

  ghost predicate Inv(s: State) {
    Settled(s, s.now / WRAP)
  }

  lemma SettledIsKnown(s: State, epoch: int)
    requires Settled(s, epoch)
    ensures Known(s)
  {
    forall i | 0 <= i < |s.current|
      ensures 0 <= s.current[i].value < WRAP
    {
      assert s.current[i].due % WRAP == s.current[i].value;
    }
  }

  lemma {:induction false} InsertOk(q: seq<Entry>, e: Entry, timers: map<int, Timer>, epoch: int)
    requires EntriesOk(q, timers, epoch) && e.id in timers && 0 <= e.due && e.due / WRAP == epoch && e.due % WRAP == e.value
    ensures EntriesOk(Insert(q, e), timers, epoch)
    ensures Insert(q, e) != [] && (Insert(q, e)[0] == e || (q != [] && Insert(q, e)[0] == q[0]))
    decreases |q|
  {
    if q != [] && q[0].value <= e.value {
      InsertOk(q[1..], e, timers, epoch);
      var r := Insert(q[1..], e);
      assert Insert(q, e) == [q[0]] + r;
      assert forall i :: 0 <= i < |r| ==> q[0].value <= r[i].value by {
        assert q[0].value <= r[0].value;
      }
    }
  }

  lemma {:induction false} RemoveOk(q: seq<Entry>, id: int, timers: map<int, Timer>, epoch: int)
    requires EntriesOk(q, timers, epoch)
    ensures EntriesOk(Remove(q, id), timers, epoch)
    ensures Remove(q, id) != [] ==> q != [] && q[0].value <= Remove(q, id)[0].value
    decreases |q|
  {
    if q != [] && q[0].id != id {
      RemoveOk(q[1..], id, timers, epoch);
      var r := Remove(q[1..], id);
      assert Remove(q, id) == [q[0]] + r;
      assert forall i :: 0 <= i < |r| ==> q[0].value <= r[i].value by {
        if r != [] { assert q[0].value <= q[1..][0].value <= r[0].value; }
      }
    }
  }

  lemma EarlierEpoch(a: int, b: int)
    requires 0 <= a && 0 <= b && a / WRAP < b / WRAP
    ensures a < b
  {
  }

  /** A timer filed at a time is filed where its true expiry belongs, and reported expired
      exactly when that has passed. */
  lemma FileTimerOk(s: State, id: int, time: int, period: int)
    requires Inv(s) && id in s.timers && 0 < period < WRAP && 0 <= time <= s.now < time + WRAP
    ensures var (r, expired) := FileTimer(s, id, time, period);
            && Inv(r) && (expired <==> time + period <= s.now)
            && r.timers == s.timers && r.commands == s.commands && r.log == s.log && r.now == s.now
  {
    FilingIsExact(time, s.now, period);
    var e := Entry(id, (time + period) % WRAP, time + period);
    match File((time + period) % WRAP, s.now % WRAP, time % WRAP, period)
    case ToCurrent => InsertOk(s.current, e, s.timers, s.now / WRAP);
    case ToOverflow => InsertOk(s.overflow, e, s.timers, s.now / WRAP + 1);
    case Expired =>
  }

  lemma SwitchRoundCases(s: State, fired: State, again: Entry)
    requires s.current != [] && s.current[0].id in s.timers
    requires var e := s.current[0];
             fired == Fire(s.(current := s.current[1..]), e.id, e.due)
             && again == Entry(e.id, (e.value + s.timers[e.id].period) % WRAP, e.due + s.timers[e.id].period)
    ensures var (r, e) := (SwitchRound(s), s.current[0]);
            if !s.timers[e.id].autoReload then r == fired
            else if again.value > e.value then r == fired.(current := Insert(fired.current, again))
            else r == Send(fired, Start(e.id, e.due))
  {
    hide Insert;
  }

  lemma ReloadIsLaterIff(value: int, period: int)
    requires 0 <= value < WRAP && 0 < period < WRAP
    ensures (value + period) % WRAP > value <==> value + period < WRAP
    ensures value + period < WRAP ==> (value + period) % WRAP == value + period
  {
  }

  lemma SwitchRoundOk(s: State, epoch: int)
    requires Settled(s, epoch) && s.now / WRAP == epoch + 1 && s.current != []
    ensures Settled(SwitchRound(s), epoch) && SwitchRound(s).now == s.now && SwitchRound(s).overflow == s.overflow
    ensures SwitchRound(s).timers == s.timers
  {
    var e, rest := s.current[0], s.current[1..];
    var t := s.timers[e.id];
    var again := Entry(e.id, (e.value + t.period) % WRAP, e.due + t.period);
    SwitchHead(s, epoch);
    hide EntriesOk, Insert;
    SwitchRoundCases(s, Fire(s.(current := rest), e.id, e.due), again);
    if t.autoReload && again.value > e.value { InsertOk(rest, again, s.timers, epoch); }
  }

  /** Each timer still on the current list at a wrap has expired, and its next expiry, if it is
      before the wrap too, is in the same epoch. */
  lemma SwitchHead(s: State, epoch: int)
    requires Settled(s, epoch) && s.now / WRAP == epoch + 1 && s.current != []
    ensures var e := s.current[0];
            && e.id in s.timers && 0 < s.timers[e.id].period < WRAP && 0 <= e.due < s.now
            && EntriesOk(s.current[1..], s.timers, epoch)
            && ((e.value + s.timers[e.id].period) % WRAP > e.value ==>
                  && (e.due + s.timers[e.id].period) / WRAP == epoch
                  && (e.due + s.timers[e.id].period) % WRAP == (e.value + s.timers[e.id].period) % WRAP)
  {
    var e := s.current[0];
    var p := s.timers[e.id].period;
    assert e.value == e.due % WRAP && e.due / WRAP == epoch && 0 < p < WRAP;
    EarlierEpoch(e.due, s.now);
    ReloadIsLaterIff(e.value, p);
    Later(e.due, p);
  }

  lemma {:induction false} SwitchListsOk(s: State, epoch: int)
    requires Settled(s, epoch) && s.now / WRAP == epoch + 1
    ensures Known(s) && Inv(SwitchLists(s)) && SwitchLists(s).now == s.now
    ensures SwitchLists(s).overflow == [] && SwitchLists(s).current == s.overflow && SwitchLists(s).timers == s.timers
    decreases Room(s.current)
  {
    SettledIsKnown(s, epoch);
    if s.current != [] {
      SwitchRoundOk(s, epoch);
      SwitchRoundProgress(s);
      RoomIsNonNegative(s.current);
      SwitchListsOk(SwitchRound(s), epoch);
    }
  }

  lemma StepKeepsInv(s: State, e: Event)
    requires Inv(s) && Enabled(s, e)
    ensures Known(s) && Inv(Step(s, e))
  {
    SettledIsKnown(s, s.now / WRAP);
    match e
    case Sample(t) =>
      WrapIsNoticedIff(s.now, t);
      if t % WRAP < s.now % WRAP {
        SwitchListsOk(s.(now := t, hand := if s.hand.Received? then Sampled(s.hand.c) else s.hand), s.now / WRAP);
      }
    case Expire => ExpireOk(s);
    case Receive => ReceiveOk(s);
    case Obey => ObeyOk(s);
    case Post(_) =>
  }

  lemma SameEpoch(a: int, b: int)
    requires a / WRAP == b / WRAP
    ensures a <= b <==> a % WRAP <= b % WRAP
    ensures b < a + WRAP
  {
    assert a == a / WRAP * WRAP + a % WRAP && b == b / WRAP * WRAP + b % WRAP;
  }

  /** The head of the current list has expired exactly when its value has been reached, and the
      list without it is as it should be. */
  lemma HeadIsDueIff(s: State)
    requires Inv(s) && s.current != []
    ensures var e := s.current[0];
            && e.id in s.timers && 0 < s.timers[e.id].period < WRAP
            && 0 <= e.due && s.now < e.due + WRAP && (e.due <= s.now <==> e.value <= s.now % WRAP)
    ensures Inv(s.(current := s.current[1..]))
  {
    var e := s.current[0];
    assert e.due / WRAP == s.now / WRAP;
    SameEpoch(e.due, s.now);
  }

  lemma ExpireOk(s: State)
    requires Inv(s) && Enabled(s, Expire)
    ensures Inv(ExpireHead(s))
  {
    hide FileTimer, EntriesOk, Insert;
    var e := s.current[0];
    HeadIsDueIff(s);
    FileTimerOk(s.(current := s.current[1..]), e.id, e.due, s.timers[e.id].period);
  }

  lemma ReceiveOk(s: State)
    requires Inv(s) && s.commands != []
    ensures Inv(ReceiveHead(s))
  {
    hide EntriesOk, Remove;
    var c := s.commands[0];
    RemoveOk(s.current, c.id, s.timers, s.now / WRAP);
    RemoveOk(s.overflow, c.id, s.timers, s.now / WRAP + 1);
  }

  lemma ObeyOk(s: State)
    requires Inv(s) && Enabled(s, Obey)
    ensures Inv(ObeyHand(s))
  {
    hide EntriesOk, FileTimer, Insert, Remove;
    var out := s.(hand := Empty);
    match s.hand.c
    case Start(id, time) => ObeyStartOk(out, id, time);
    case Stop(_) =>
    case ChangePeriod(id, p) => ChangePeriodOk(out, id, p);
  }

  lemma ObeyStartOk(out: State, id: int, time: int)
    requires Inv(out) && id in out.timers && 0 <= time <= out.now < time + WRAP
    ensures var t := out.timers[id];
            var (filed, expired) := FileTimer(out, id, time, t.period);
            && Inv(filed) && (expired ==> Inv(Fire(filed, id, time + t.period)))
  {
    hide FileTimer, EntriesOk, Insert;
    FileTimerOk(out, id, time, out.timers[id].period);
  }

  lemma ChangePeriodOk(out: State, id: int, p: int)
    requires Inv(out) && id in out.timers && 0 < p < WRAP
    ensures Inv(FileTimer(out.(timers := out.timers[id := out.timers[id].(period := p)]), id, out.now, p).0)
  {
    hide FileTimer, Insert;
    FileTimerOk(out.(timers := out.timers[id := out.timers[id].(period := p)]), id, out.now, p);
  }

  // ----- Runs: nothing early, nothing missed -----------------------------------------------------------

  ghost predicate LegalRun(s: State, es: seq<Event>)
    decreases |es|
  {
    es == [] || (Known(s) && Enabled(s, es[0]) && LegalRun(Step(s, es[0]), es[1..]))
  }

  ghost function Run(s: State, es: seq<Event>): State
    requires LegalRun(s, es)
    decreases |es|
  {
    if es == [] then s else Run(Step(s, es[0]), es[1..])
  }

  lemma {:induction false} RunKeepsInv(s: State, es: seq<Event>)
    requires Inv(s) && LegalRun(s, es)
    ensures Inv(Run(s, es))
    decreases |es|
  {
    if es != [] {
      StepKeepsInv(s, es[0]);
      RunKeepsInv(Step(s, es[0]), es[1..]);
    }
  }

  /** The service with no timer active. */
  function Fresh(timers: map<int, Timer>, capacity: nat): State {
    State(0, [], [], timers, [], capacity, Empty, [])
  }

  /** No callback is ever made before its timer's true expiry, across any number of wraps. */
  lemma NeverEarly(timers: map<int, Timer>, capacity: nat, es: seq<Event>, i: nat)
    requires forall t :: t in timers ==> 0 < timers[t].period < WRAP
    requires LegalRun(Fresh(timers, capacity), es) && i < |Run(Fresh(timers, capacity), es).log|
    ensures Run(Fresh(timers, capacity), es).log[i].due <= Run(Fresh(timers, capacity), es).log[i].at
  {
    RunKeepsInv(Fresh(timers, capacity), es);
  }

  /** When the head of the current list has not expired, no filed timer has: once the service
      has no expired head left it owes no callback to any timer on its lists. */
  lemma NothingElseIsDue(timers: map<int, Timer>, capacity: nat, es: seq<Event>)
    requires forall t :: t in timers ==> 0 < timers[t].period < WRAP
    requires LegalRun(Fresh(timers, capacity), es)
    ensures var s := Run(Fresh(timers, capacity), es);
            (s.current != [] ==> s.current[0].value > s.now % WRAP) ==>
              && (forall i :: 0 <= i < |s.current| ==> s.now < s.current[i].due)
              && (forall i :: 0 <= i < |s.overflow| ==> s.now < s.overflow[i].due)
  {
    var s := Run(Fresh(timers, capacity), es);
    RunKeepsInv(Fresh(timers, capacity), es);
    if s.current != [] ==> s.current[0].value > s.now % WRAP { HeadIsFirst(s); }
  }

  lemma HeadIsFirst(s: State)
    requires Inv(s) && (s.current != [] ==> s.current[0].value > s.now % WRAP)
    ensures forall i :: 0 <= i < |s.current| ==> s.now < s.current[i].due
    ensures forall i :: 0 <= i < |s.overflow| ==> s.now < s.overflow[i].due
  {
    forall i | 0 <= i < |s.current|
      ensures s.now < s.current[i].due
    {
      assert s.current[0].value <= s.current[i].value;
      SameEpoch(s.current[i].due, s.now);
    }
    forall i | 0 <= i < |s.overflow|
      ensures s.now < s.overflow[i].due
    {
      EarlierEpoch(s.now, s.overflow[i].due);
    }
  }

  // ----- Runs: no drift -----------------------------------------------------------------------------------

  datatype Next = Expiry(due: int) | Other

  /** What is pending for a timer: its expiries on a list, and those its commands stand for. */
  function Filed(q: seq<Entry>, id: int): seq<Next> {
    if q == [] then []
    else
      var rest := Filed(q[1..], id);
      if q[0].id == id then [Expiry(q[0].due)] + rest else rest
  }

  function Asked(q: seq<Command>, id: int, period: int): seq<Next> {
    if q == [] then []
    else
      var rest := Asked(q[1..], id, period);
      if q[0].id != id then rest else [if q[0].Start? then Expiry(q[0].time + period) else Other] + rest
  }

  /** The expiries a timer's callback has been called for. */
  function FiredOf(log: seq<Firing>, id: int): seq<int> {
    if log == [] then []
    else
      var rest := FiredOf(log[1..], id);
      if log[0].id == id then [log[0].due] + rest else rest
  }

  /** The n-th expiry of a timer started at a time. */
  function Nth(time: int, period: int, n: nat): int {
    if n == 0 then time else Nth(time, period, n - 1) + period
  }

  lemma {:induction false} NthIs(time: int, period: int, n: nat)
    ensures Nth(time, period, n) == time + n * period
    decreases n
  {
    if n > 0 {
      NthIs(time, period, n - 1);
      assert n * period == (n - 1) * period + period;
    }
  }

  /** The command in hand and those in the queue. */
  function Ahead(s: State): seq<Command> {
    if s.hand == Empty then s.commands else [s.hand.c] + s.commands
  }

  /** What is owed to a timer: nothing, or one callback, for an expiry that is on one of the lists or
      that a command stands for. */
  datatype Owed = Nothing | At(due: int)

  predicate Owes(s: State, id: int, period: int, o: Owed) {
    var (a, b, c) := (Filed(s.current, id), Filed(s.overflow, id), Asked(Ahead(s), id, period));
    match o
    case Nothing => a == [] && b == [] && c == []
    case At(due) =>
      var x := Expiry(due);
      (a == [x] && b == [] && c == []) || (a == [] && b == [x] && c == []) || (a == [] && b == [] && c == [x])
  }

  /** The timer queue has no room. */
  predicate Full(s: State) {
    |s.commands| >= s.capacity
  }

  /** What a started timer is owed after its first n callbacks: a one-shot timer has one. */
  function NextOwed(t: Timer, time: int, n: nat): Owed {
    if t.autoReload || n == 0 then At(Nth(time, t.period, n + 1)) else Nothing
  }

  /** A timer started at a time has fired for its first expiries, one by one, and exactly the next
      one is owed; or nothing any more, once it is lost. */
  ghost predicate Story(s: State, id: int, time: int, t: Timer, lost: bool) {
    var fired := FiredOf(s.log, id);
    && id in s.timers && s.timers[id] == t
    && (forall i :: 0 <= i < |fired| ==> fired[i] == Nth(time, t.period, i + 1))
    && (!t.autoReload ==> |fired| <= 1)
    && Owes(s, id, t.period, if lost then Nothing else NextOwed(t, time, |fired|))
  }

  lemma {:induction false} FiledInsert(q: seq<Entry>, e: Entry, id: int)
    ensures e.id != id ==> Filed(Insert(q, e), id) == Filed(q, id)
    ensures e.id == id && Filed(q, id) == [] ==> Filed(Insert(q, e), id) == [Expiry(e.due)]
    decreases |q|
  {
    if q == [] {
      assert [e][1..] == [];
    } else if q[0].value > e.value {
      assert ([e] + q)[1..] == q;
    } else {
      FiledInsert(q[1..], e, id);
      assert Insert(q, e)[1..] == Insert(q[1..], e);
    }
  }

  lemma {:induction false} FiledRemove(q: seq<Entry>, gone: int, id: int)
    ensures gone != id ==> Filed(Remove(q, gone), id) == Filed(q, id)
    ensures gone == id && |Filed(q, id)| <= 1 ==> Filed(Remove(q, gone), id) == []
    decreases |q|
  {
    if q != [] && q[0].id != gone {
      FiledRemove(q[1..], gone, id);
      assert Remove(q, gone)[1..] == Remove(q[1..], gone);
    }
  }

  lemma {:induction false} AskedAppend(q: seq<Command>, c: Command, id: int, period: int)
    ensures Asked(q + [c], id, period) == Asked(q, id, period) + Asked([c], id, period)
    decreases |q|
  {
    if q == [] {
      assert q + [c] == [c];
    } else {
      AskedAppend(q[1..], c, id, period);
      assert (q + [c])[1..] == q[1..] + [c];
    }
  }

  lemma {:induction false} FiredAppend(log: seq<Firing>, f: Firing, id: int)
    ensures FiredOf(log + [f], id) == if f.id == id then FiredOf(log, id) + [f.due] else FiredOf(log, id)
    decreases |log|
  {
    if log == [] {
      assert log + [f] == [f] && [f][1..] == [];
    } else {
      FiredAppend(log[1..], f, id);
      assert (log + [f])[1..] == log[1..] + [f];
    }
  }

  /** Either the timer does not fire and the same is owed, or it fires for what was owed and is owed
      nothing if it is a one-shot timer, and otherwise the expiry one period later, unless the timer
      queue has no room for a restart. */
  ghost predicate Serves(s: State, r: State, id: int, t: Timer, o: Owed) {
    && id in r.timers && r.timers[id] == t
    && ((FiredOf(r.log, id) == FiredOf(s.log, id) && Owes(r, id, t.period, o))
        || (o.At? && FiredOf(r.log, id) == FiredOf(s.log, id) + [o.due]
            && (if t.autoReload then Owes(r, id, t.period, At(o.due + t.period)) || (Full(r) && Owes(r, id, t.period, Nothing))
                else Owes(r, id, t.period, Nothing))))
  }

  lemma ServesKeepsStory(s: State, r: State, id: int, time: int, t: Timer, lost: bool)
    requires Story(s, id, time, t, lost)
    requires Serves(s, r, id, t, if lost then Nothing else NextOwed(t, time, |FiredOf(s.log, id)|))
    ensures Story(r, id, time, t, lost) || (t.autoReload && Full(r) && Story(r, id, time, t, true))
  {
    hide Owes, FiredOf, Full;
    if FiredOf(r.log, id) != FiredOf(s.log, id) {
      assert |FiredOf(r.log, id)| == |FiredOf(s.log, id)| + 1;
    }
  }

  /** Where filing puts a timer, as the lists show it. */
  lemma FileTimerFiles(s: State, other: int, t: int, p: int, id: int)
    requires other == id ==> Filed(s.current, id) == [] && Filed(s.overflow, id) == []
    ensures var (r, expired) := FileTimer(s, other, t, p);
            && r.commands == s.commands && r.log == s.log && r.timers == s.timers && r.now == s.now
            && r.capacity == s.capacity && r.hand == s.hand
            && (other != id || expired ==>
                  Filed(r.current, id) == Filed(s.current, id) && Filed(r.overflow, id) == Filed(s.overflow, id))
            && (other == id && !expired ==>
                  || (Filed(r.current, id) == [Expiry(t + p)] && Filed(r.overflow, id) == [])
                  || (Filed(r.current, id) == [] && Filed(r.overflow, id) == [Expiry(t + p)]))
  {
    var e := Entry(other, (t + p) % WRAP, t + p);
    hide File, Insert, Filed;
    FiledInsert(s.current, e, id);
    FiledInsert(s.overflow, e, id);
  }

  lemma FiledHead(q: seq<Entry>, id: int)
    requires q != []
    ensures q[0].id == id ==> |Filed(q, id)| == 1 + |Filed(q[1..], id)| && Filed(q, id)[0] == Expiry(q[0].due)
    ensures q[0].id != id ==> Filed(q, id) == Filed(q[1..], id)
  {
  }

  lemma AskedHead(q: seq<Command>, id: int, period: int)
    requires q != []
    ensures q[0].id != id ==> Asked(q, id, period) == Asked(q[1..], id, period)
    ensures q[0].id == id ==>
              && |Asked(q, id, period)| == 1 + |Asked(q[1..], id, period)|
              && Asked(q, id, period)[0] == if q[0].Start? then Expiry(q[0].time + period) else Other
  {
  }

  /** A command sent is the last one asked, if there was room for it. */
  lemma Sends(s: State, c: Command, id: int, period: int)
    ensures c.id != id ==> Asked(Ahead(Send(s, c)), id, period) == Asked(Ahead(s), id, period)
    ensures c.id == id && c.Start? && Asked(Ahead(s), id, period) == [] ==>
              Asked(Ahead(Send(s, c)), id, period) == if |s.commands| < s.capacity then [Expiry(c.time + period)] else []
  {
    AskedAppend(Ahead(s), c, id, period);
    assert [c][1..] == [];
    assert Asked(Ahead(s), id, period) + [] == Asked(Ahead(s), id, period);
    if |s.commands| < s.capacity && s.hand != Empty {
      assert [s.hand.c] + (s.commands + [c]) == [s.hand.c] + s.commands + [c];
    }
  }

  lemma Fires(s: State, other: int, due: int, id: int)
    ensures FiredOf(Fire(s, other, due).log, id) == if other == id then FiredOf(s.log, id) + [due] else FiredOf(s.log, id)
  {
    FiredAppend(s.log, Firing(other, due, s.now), id);
  }

  lemma SwitchRoundServes(s: State, id: int, t: Timer, o: Owed)
    requires s.current != [] && s.current[0].id in s.timers && id in s.timers && s.timers[id] == t
    requires Owes(s, id, t.period, o)
    ensures Serves(s, SwitchRound(s), id, t, o)
  {
    var e, rest := s.current[0], s.current[1..];
    var p := s.timers[e.id].period;
    var fired := Fire(s.(current := rest), e.id, e.due);
    var again := Entry(e.id, (e.value + p) % WRAP, e.due + p);
    FiledHead(s.current, id);
    Fires(s.(current := rest), e.id, e.due, id);
    FiledInsert(rest, again, id);
    Sends(fired, Start(e.id, e.due), id, t.period);
    hide Filed, Asked, FiredOf, Insert, SwitchRound;
    SwitchRoundCases(s, fired, again);
    if e.id == id { assert o == At(e.due) && Filed(rest, id) == []; }
  }

  lemma {:induction false} SwitchListsGrow(s: State)
    requires Known(s)
    ensures Full(s) ==> Full(SwitchLists(s))
    decreases Room(s.current)
  {
    if s.current != [] {
      SwitchRoundProgress(s);
      RoomIsNonNegative(s.current);
      SwitchListsGrow(SwitchRound(s));
    }
  }

  lemma {:induction false} SwitchListsKeepStory(s: State, id: int, time: int, t: Timer, lost: bool)
    requires Known(s) && Story(s, id, time, t, lost)
    ensures var r := SwitchLists(s); Story(r, id, time, t, lost) || (t.autoReload && Full(r) && Story(r, id, time, t, true))
    decreases Room(s.current)
  {
    hide Filed, Asked, FiredOf, Serves, Full, SwitchRound;
    if s.current == [] {
      assert Filed([], id) == [] by { NothingFiled(id); }
    } else {
      SwitchRoundProgress(s);
      RoomIsNonNegative(s.current);
      SwitchRoundServes(s, id, t, if lost then Nothing else NextOwed(t, time, |FiredOf(s.log, id)|));
      ServesKeepsStory(s, SwitchRound(s), id, time, t, lost);
      SwitchListsGrow(SwitchRound(s));
      if Story(SwitchRound(s), id, time, t, lost) {
        SwitchListsKeepStory(SwitchRound(s), id, time, t, lost);
      } else {
        SwitchListsKeepStory(SwitchRound(s), id, time, t, true);
      }
    }
  }

  lemma NothingFiled(id: int)
    ensures Filed([], id) == []
  {
  }

  lemma ExpireServes(s: State, id: int, t: Timer, o: Owed)
    requires Enabled(s, Expire) && id in s.timers && s.timers[id] == t && Owes(s, id, t.period, o)
    ensures Serves(s, ExpireHead(s), id, t, o)
  {
    var e, out := s.current[0], s.(current := s.current[1..]);
    var p := s.timers[e.id].period;
    FiledHead(s.current, id);
    hide Filed, Asked, FiredOf, FileTimer;
    if !s.timers[e.id].autoReload {
      Fires(out, e.id, e.due, id);
    } else {
      FileTimerFiles(out, e.id, e.due, p, id);
      var (filed, expired) := FileTimer(out, e.id, e.due, p);
      Sends(filed, Start(e.id, e.due), id, t.period);
      Fires(if expired then Send(filed, Start(e.id, e.due)) else filed, e.id, e.due, id);
    }
  }

  /** Receiving a command takes its timer off the lists, where it was not if that command is what
      is owed to it. */
  lemma ReceiveServes(s: State, id: int, t: Timer, o: Owed)
    requires Enabled(s, Receive) && id in s.timers && s.timers[id] == t && Owes(s, id, t.period, o)
    ensures Serves(s, ReceiveHead(s), id, t, o)
  {
    var c := s.commands[0];
    AskedHead(s.commands, id, t.period);
    FiledRemove(s.current, c.id, id);
    FiledRemove(s.overflow, c.id, id);
    hide Filed, Asked, FiredOf, Remove;
    assert Ahead(ReceiveHead(s)) == Ahead(s);
  }

  lemma ObeyServes(s: State, id: int, t: Timer, o: Owed)
    requires Enabled(s, Obey) && id in s.timers && s.timers[id] == t && Owes(s, id, t.period, o)
    ensures Serves(s, ObeyHand(s), id, t, o)
  {
    AskedHead(Ahead(s), id, t.period);
    assert Ahead(s)[1..] == s.commands;
    hide Filed, Asked, FiredOf, Remove, FileTimer;
    if s.hand.c.id == id { ObeyOwn(s, id, t, o.due); } else { ObeyAnother(s, id, t, o); }
  }

  lemma ObeyOwn(s: State, id: int, t: Timer, due: int)
    requires Enabled(s, Obey) && id in s.timers && s.timers[id] == t
    requires s.hand.c.id == id && s.hand.c.Start? && s.hand.c.time + t.period == due
    requires Asked(s.commands, id, t.period) == [] && Filed(s.current, id) == [] && Filed(s.overflow, id) == []
    ensures Serves(s, ObeyHand(s), id, t, At(due))
  {
    hide Filed, Asked, FiredOf, FileTimer, Remove;
    var out := s.(hand := Empty);
    FileTimerFiles(out, id, s.hand.c.time, t.period, id);
    var (filed, expired) := FileTimer(out, id, s.hand.c.time, t.period);
    if expired {
      Fires(filed, id, due, id);
      Sends(Fire(filed, id, due), Start(id, due), id, t.period);
    }
  }

  lemma ObeyAnother(s: State, id: int, t: Timer, o: Owed)
    requires Enabled(s, Obey) && id in s.timers && s.timers[id] == t && s.hand.c.id != id
    requires Asked(Ahead(s), id, t.period) == Asked(s.commands, id, t.period)
    requires Owes(s, id, t.period, o)
    ensures Serves(s, ObeyHand(s), id, t, o)
  {
    hide Filed, Asked, FiredOf, FileTimer, Remove;
    var out := s.(hand := Empty);
    match s.hand.c
    case Start(other, at) =>
      var p := s.timers[other].period;
      FileTimerFiles(out, other, at, p, id);
      var (filed, expired) := FileTimer(out, other, at, p);
      Fires(filed, other, at + p, id);
      Sends(Fire(filed, other, at + p), Start(other, at + p), id, t.period);
    case Stop(_) =>
    case ChangePeriod(other, p) =>
      FileTimerFiles(out.(timers := s.timers[other := s.timers[other].(period := p)]), other, s.now, p, id);
  }

  lemma StepKeepsStory(s: State, e: Event, id: int, time: int, t: Timer, lost: bool)
    requires Known(s) && Enabled(s, e) && Story(s, id, time, t, lost) && (e.Post? ==> e.c.id != id)
    ensures var r := Step(s, e); Story(r, id, time, t, lost) || (t.autoReload && Full(r) && Story(r, id, time, t, true))
  {
    hide Filed, Asked, FiredOf, SwitchLists, ExpireHead, ReceiveHead, ObeyHand, Known, Full, Serves;
    var o := if lost then Nothing else NextOwed(t, time, |FiredOf(s.log, id)|);
    match e
    case Sample(at) => SampleKeepsStory(s, at, id, time, t, lost);
    case Expire =>
      ExpireServes(s, id, t, o);
      ServesKeepsStory(s, ExpireHead(s), id, time, t, lost);
    case Receive =>
      ReceiveServes(s, id, t, o);
      ServesKeepsStory(s, ReceiveHead(s), id, time, t, lost);
    case Obey =>
      ObeyServes(s, id, t, o);
      ServesKeepsStory(s, ObeyHand(s), id, time, t, lost);
    case Post(c) => Sends(s, c, id, t.period);
  }

  lemma SampleKeepsStory(s: State, at: int, id: int, time: int, t: Timer, lost: bool)
    requires Known(s) && Enabled(s, Sample(at)) && Story(s, id, time, t, lost)
    ensures var r := SampleTime(s, at); Story(r, id, time, t, lost) || (t.autoReload && Full(r) && Story(r, id, time, t, true))
  {
    hide Filed, Asked, FiredOf, SwitchLists, Known;
    var s1 := s.(now := at, hand := if s.hand.Received? then Sampled(s.hand.c) else s.hand);
    assert Ahead(s1) == Ahead(s);
    KnownLater(s, at);
    if at % WRAP < s.now % WRAP { SwitchListsKeepStory(s1, id, time, t, lost); }
  }

  lemma KnownLater(s: State, t: int)
    requires Known(s)
    ensures Known(s.(now := t, hand := if s.hand.Received? then Sampled(s.hand.c) else s.hand))
  {
  }

  /** After each step of the run the timer queue has room. */
  ghost predicate AlwaysRoom(s: State, es: seq<Event>)
    requires LegalRun(s, es)
    decreases |es|
  {
    es == [] || (!Full(Step(s, es[0])) && AlwaysRoom(Step(s, es[0]), es[1..]))
  }

  lemma {:induction false} RunKeepsStory(s: State, es: seq<Event>, id: int, time: int, t: Timer, lost: bool)
    requires LegalRun(s, es) && Story(s, id, time, t, lost)
    requires forall i :: 0 <= i < |es| && es[i].Post? ==> es[i].c.id != id
    ensures Story(Run(s, es), id, time, t, lost) || (t.autoReload && Story(Run(s, es), id, time, t, true))
    ensures AlwaysRoom(s, es) ==> Story(Run(s, es), id, time, t, lost)
    decreases |es|
  {
    hide Story, Step, Full;
    if es != [] {
      var next := Step(s, es[0]);
      StepKeepsStory(s, es[0], id, time, t, lost);
      if Story(next, id, time, t, lost) { RunKeepsStory(next, es[1..], id, time, t, lost); }
      if Story(next, id, time, t, true) { RunKeepsStory(next, es[1..], id, time, t, true); }
    }
  }

  /** The service with one start command in its queue. */
  function Started(timers: map<int, Timer>, capacity: nat, id: int, time: int): State {
    Send(Fresh(timers, capacity), Start(id, time))
  }

  lemma StartedStory(timers: map<int, Timer>, capacity: nat, id: int, time: int)
    requires id in timers
    ensures Story(Started(timers, capacity, id, time), id, time, timers[id], capacity == 0)
  {
    Sends(Fresh(timers, capacity), Start(id, time), id, timers[id].period);
    assert Nth(time, timers[id].period, 1) == Nth(time, timers[id].period, 0) + timers[id].period;
  }

  /** An auto-reload timer started at a time and left alone fires for that time plus one, two,
      three and so on periods, with none left out and none twice, however late the service
      gets round to it and however often the tick wraps; a restart command that fails on a full
      queue ends the series and does no more. */
  lemma PeriodicTimerDoesNotDrift(timers: map<int, Timer>, capacity: nat, es: seq<Event>, id: int, time: nat, i: nat)
    requires forall t :: t in timers ==> 0 < timers[t].period < WRAP
    requires id in timers
    requires LegalRun(Started(timers, capacity, id, time), es)
    requires forall j :: 0 <= j < |es| && es[j].Post? ==> es[j].c.id != id
    ensures var log := Run(Started(timers, capacity, id, time), es).log;
            i < |FiredOf(log, id)| ==> FiredOf(log, id)[i] == time + (i + 1) * timers[id].period
  {
    StartedStory(timers, capacity, id, time);
    hide LegalRun, Run, Owes, Started;
    RunKeepsStory(Started(timers, capacity, id, time), es, id, time, timers[id], capacity == 0);
    NthIs(time, timers[id].period, i + 1);
  }

  /** As long as the timer queue keeps room the series does not end: after n callbacks exactly the
      expiry of period n + 1 is owed, on one of the lists or as a restart command. */
  lemma PeriodicTimerKeepsGoing(timers: map<int, Timer>, capacity: nat, es: seq<Event>, id: int, time: nat)
    requires id in timers && timers[id].autoReload && capacity > 0
    requires LegalRun(Started(timers, capacity, id, time), es) && AlwaysRoom(Started(timers, capacity, id, time), es)
    requires forall j :: 0 <= j < |es| && es[j].Post? ==> es[j].c.id != id
    ensures var s, p := Run(Started(timers, capacity, id, time), es), timers[id].period;
            Owes(s, id, p, At(time + (|FiredOf(s.log, id)| + 1) * p))
  {
    StartedStory(timers, capacity, id, time);
    hide LegalRun, Run, Owes, Started, AlwaysRoom;
    RunKeepsStory(Started(timers, capacity, id, time), es, id, time, timers[id], false);
    NthIs(time, timers[id].period, |FiredOf(Run(Started(timers, capacity, id, time), es).log, id)| + 1);
  }

  lemma OneShotStory(s: State, id: int, time: int, t: Timer)
    requires Story(s, id, time, t, false) && !t.autoReload
    ensures || (FiredOf(s.log, id) == [] && Owes(s, id, t.period, At(time + t.period)))
            || (FiredOf(s.log, id) == [time + t.period] && Owes(s, id, t.period, Nothing))
  {
    hide Owes, FiredOf;
    NthIs(time, t.period, 1);
  }

  /** A one-shot timer started at a time and left alone is called exactly once, for that time plus
      its period: until then exactly that is owed, and nothing afterwards. */
  lemma OneShotFiresOnce(timers: map<int, Timer>, capacity: nat, es: seq<Event>, id: int, time: nat)
    requires id in timers && !timers[id].autoReload && capacity > 0
    requires LegalRun(Started(timers, capacity, id, time), es)
    requires forall j :: 0 <= j < |es| && es[j].Post? ==> es[j].c.id != id
    ensures var s, p := Run(Started(timers, capacity, id, time), es), timers[id].period;
            || (FiredOf(s.log, id) == [] && Owes(s, id, p, At(time + p)))
            || (FiredOf(s.log, id) == [time + p] && Owes(s, id, p, Nothing))
  {
    hide LegalRun, Run, Owes, Started, Story, FiredOf;
    StartedStory(timers, capacity, id, time);
    RunKeepsStory(Started(timers, capacity, id, time), es, id, time, timers[id], false);
    OneShotStory(Run(Started(timers, capacity, id, time), es), id, time, timers[id]);
  }

  // ----- The service in place ---------------------------------------------------------------------------

  class TimerTask {
    var timers: map<int, Timer>
    var pxCurrentTimerList: seq<Entry>
    var pxOverflowTimerList: seq<Entry>
    var xTimerQueue: seq<Command>
    const queueLength: nat
    /** xMessage, while it is being worked on. */
    var xMessage: Hand
    /** The callbacks made so far. */
    var calls: seq<Firing>
    /** xLastTime, and the unbounded time it stands for. */
    var xLastTime: int
    var time: int

    function S(): State
      reads this
    {
      State(time, pxCurrentTimerList, pxOverflowTimerList, timers, xTimerQueue, queueLength, xMessage, calls)
    }

    /** xTimerGenericCommand without waiting. */
    method GenericCommand(c: Command)
      modifies this`xTimerQueue
      ensures S() == Send(old(S()), c)
    {
      if |xTimerQueue| < queueLength { xTimerQueue := xTimerQueue + [c]; }
    }

    /** prvSwitchTimerLists */
    method SwitchTimerLists()
      requires Known(S())
      modifies this
      ensures S() == SwitchLists(old(S())) && xLastTime == old(xLastTime)
    {
      hide Insert;
      while |pxCurrentTimerList| > 0
        invariant Known(S()) && SwitchLists(S()) == SwitchLists(old(S())) && xLastTime == old(xLastTime)
        decreases Room(pxCurrentTimerList)
      {
        ghost var before := S();
        SwitchRoundProgress(before);
        RoomIsNonNegative(pxCurrentTimerList);
        var e := pxCurrentTimerList[0];
        pxCurrentTimerList := pxCurrentTimerList[1..];
        calls := calls + [Firing(e.id, e.due, time)];
        var t := timers[e.id];
        if t.autoReload {
          var reloadTime := (e.value + t.period) % WRAP;
          if reloadTime > e.value {
            pxCurrentTimerList := Insert(pxCurrentTimerList, Entry(e.id, reloadTime, e.due + t.period));
          } else {
            GenericCommand(Start(e.id, e.due));
          }
        }
        assert S() == SwitchRound(before);
      }
      assert pxCurrentTimerList == [];
      pxCurrentTimerList, pxOverflowTimerList := pxOverflowTimerList, pxCurrentTimerList;
    }

    /** prvSampleTimeNow, at an unbounded time of which the code reads the tick. */
    method SampleTimeNow(t: int) returns (now: int, switched: bool)
      requires Known(S()) && Enabled(S(), Sample(t)) && xLastTime == time % WRAP
      modifies this
      ensures S() == Step(old(S()), Sample(t)) && xLastTime == time % WRAP && now == t % WRAP
      ensures switched <==> t % WRAP < old(xLastTime)
    {
      now := t % WRAP;
      KnownLater(S(), t);
      time := t;
      if xMessage.Received? { xMessage := Sampled(xMessage.c); }
      SwitchListsTime(S());
      if now < xLastTime {
        SwitchTimerLists();
        switched := true;
      } else {
        switched := false;
      }
      xLastTime := now;
    }

    /** prvInsertTimerInActiveList: expiry is what the value stands for. */
    method InsertTimerInActiveList(id: int, next: int, timeNow: int, commandTime: int, expiry: int) returns (processNow: bool)
      requires id in timers && timeNow == time % WRAP
      requires commandTime == (expiry - timers[id].period) % WRAP && next == expiry % WRAP
      modifies this`pxCurrentTimerList, this`pxOverflowTimerList
      ensures (S(), processNow) == FileTimer(old(S()), id, expiry - timers[id].period, timers[id].period)
    {
      processNow := false;
      var item := Entry(id, next, expiry);
      if next <= timeNow {
        if (timeNow - commandTime) % WRAP >= timers[id].period {
          processNow := true;
        } else {
          pxOverflowTimerList := Insert(pxOverflowTimerList, item);
        }
      } else {
        if timeNow < commandTime && next >= commandTime {
          processNow := true;
        } else {
          pxCurrentTimerList := Insert(pxCurrentTimerList, item);
        }
      }
    }

    /** prvProcessExpiredTimer, for the head of the current list. */
    method ProcessExpiredTimer()
      requires Known(S()) && pxCurrentTimerList != []
      modifies this
      ensures S() == ExpireHead(old(S())) && xLastTime == old(xLastTime)
    {
      hide Insert, File;
      var e := pxCurrentTimerList[0];
      pxCurrentTimerList := pxCurrentTimerList[1..];
      if timers[e.id].autoReload {
        var period := timers[e.id].period;
        assert (e.due + period) - period == e.due;
        var late := InsertTimerInActiveList(e.id, (e.due + period) % WRAP, time % WRAP, e.due % WRAP, e.due + period);
        if late { GenericCommand(Start(e.id, e.due)); }
      }
      calls := calls + [Firing(e.id, e.due, time)];
    }

    /** The loop body of prvProcessReceivedCommands up to the sampling of the time. */
    method ReceiveCommand()
      requires xTimerQueue != []
      modifies this`xTimerQueue, this`xMessage, this`pxCurrentTimerList, this`pxOverflowTimerList
      ensures S() == ReceiveHead(old(S()))
    {
      var c := xTimerQueue[0];
      xTimerQueue := xTimerQueue[1..];
      xMessage := Received(c);
      pxCurrentTimerList := Remove(pxCurrentTimerList, c.id);
      pxOverflowTimerList := Remove(pxOverflowTimerList, c.id);
    }

    /** And the switch after it. */
    method ObeyCommand()
      requires Known(S()) && Enabled(S(), Obey)
      modifies this
      ensures S() == ObeyHand(old(S())) && xLastTime == old(xLastTime)
    {
      hide Insert, File;
      var c := xMessage.c;
      xMessage := Empty;
      match c
      case Start(id, at) =>
        var period := timers[id].period;
        assert (at + period) - period == at;
        var late := InsertTimerInActiveList(id, (at + period) % WRAP, time % WRAP, at % WRAP, at + period);
        if late {
          calls := calls + [Firing(id, at + period, time)];
          if timers[id].autoReload { GenericCommand(Start(id, at + period)); }
        }
      case Stop(_) =>
      case ChangePeriod(id, p) =>
        timers := timers[id := timers[id].(period := p)];
        assert (time + p) - p == time;
        var _ := InsertTimerInActiveList(id, (time + p) % WRAP, time % WRAP, time % WRAP, time + p);
    }
  }

  lemma {:induction false} SwitchListsTime(s: State)
    requires Known(s)
    ensures SwitchLists(s).now == s.now
    decreases Room(s.current)
  {
    if s.current != [] {
      SwitchRoundProgress(s);
      RoomIsNonNegative(s.current);
      SwitchListsTime(SwitchRound(s));
    }
  }
}
