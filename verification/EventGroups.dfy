/** freertos/event_groups.c: tasks wait for any or all of a set of bits; setting bits wakes
    everyone whose condition then holds, all with the same snapshot, and clears afterwards
    what the woken asked to have cleared. */
module EventGroups {
  import opened Tasks

  type Bits = bv32

  const CLEAR_ON_EXIT: Bits := 0x0100_0000
  const UNBLOCKED_BY_SET: Bits := 0x0200_0000
  const WAIT_FOR_ALL: Bits := 0x0400_0000
  const CONTROL: Bits := 0xff00_0000

  /** A task on xTasksWaitingForBits, with what its item value encodes. */
  datatype Waiter = Waiter(t: Task, mask: Bits, all: bool, clear: bool)

  datatype Group = Group(bits: Bits, waiters: seq<Waiter>)

  /** The value stored in the event list item of a waiting task. */
  function Encode(w: Waiter): Bits {
    w.mask | (if w.clear then CLEAR_ON_EXIT else 0) | (if w.all then WAIT_FOR_ALL else 0)
  }

  // ----- The bit operations and the laws used of them -------------------------------------------------

  function And(a: Bits, b: Bits): Bits { a & b }

  function Or(a: Bits, b: Bits): Bits { a | b }

  function Less(a: Bits, b: Bits): Bits { a & !b }

  lemma AllMonotone(bits: Bits, gone: Bits, mask: Bits)
    requires And(Less(bits, gone), mask) == mask
    ensures And(bits, mask) == mask
  {
  }

  lemma AnyMonotone(bits: Bits, gone: Bits, mask: Bits)
    requires And(Less(bits, gone), mask) != 0
    ensures And(bits, mask) != 0
  {
  }

  lemma OrDistributes(a: Bits, b: Bits, m: Bits)
    ensures And(Or(a, b), m) == Or(And(a, m), And(b, m))
  {
  }

  lemma OrAbsorbs(a: Bits, m: Bits)
    ensures Or(And(a, m), m) == m && Or(m, And(a, m)) == m
  {
  }

  lemma OrCovers(a: Bits, b: Bits, m: Bits)
    requires And(a, m) == m || And(b, m) == m
    ensures And(Or(a, b), m) == m
  {
    hide And, Or;
    OrDistributes(a, b, m);
    OrAbsorbs(a, m);
    OrAbsorbs(b, m);
  }

  lemma OrMisses(a: Bits, b: Bits, x: Bits)
    requires And(a, x) == 0 && And(b, x) == 0
    ensures And(Or(a, b), x) == 0
  {
  }

  lemma AndLaws(x: Bits)
    ensures And(0, x) == 0 && And(x, x) == x
  {
  }

  lemma LessLaws(s: Bits, c: Bits, m: Bits)
    ensures And(c, m) == m ==> And(Less(s, c), m) == 0
    ensures And(c, m) == 0 ==> And(Less(s, c), m) == And(s, m)
  {
  }

  lemma EncodeSplits(w: Waiter)
    requires And(w.mask, CONTROL) == 0
    ensures Less(Encode(w), CONTROL) == w.mask
    ensures And(And(Encode(w), CONTROL), WAIT_FOR_ALL) != 0 <==> w.all
    ensures And(And(Encode(w), CONTROL), CLEAR_ON_EXIT) != 0 <==> w.clear
  {
  }

  // ----- Wait conditions ---------------------------------------------------------------------------

  /** prvTestWaitCondition */
  predicate Met(bits: Bits, mask: Bits, all: bool) {
    if all then And(bits, mask) == mask else And(bits, mask) != 0
  }

  /** Taking bits away satisfies nobody. */
  lemma ClearingMeetsNothing(bits: Bits, gone: Bits, mask: Bits, all: bool)
    requires Met(Less(bits, gone), mask, all)
    ensures Met(bits, mask, all)
  {
    hide And, Less;
    if all { AllMonotone(bits, gone, mask); } else { AnyMonotone(bits, gone, mask); }
  }

  // ----- Setting bits ----------------------------------------------------------------------------------

  /** The waiters a bit value satisfies, those it does not, and what the former clear. */
  function Woken(q: seq<Waiter>, bits: Bits): seq<Waiter> {
    if q == [] then [] else (if Met(bits, q[0].mask, q[0].all) then [q[0]] else []) + Woken(q[1..], bits)
  }

  function Kept(q: seq<Waiter>, bits: Bits): seq<Waiter> {
    if q == [] then [] else (if Met(bits, q[0].mask, q[0].all) then [] else [q[0]]) + Kept(q[1..], bits)
  }

  /** The mask of a woken task that clears on exit, and of all such tasks. */
  function Cleared(w: Waiter, bits: Bits): Bits {
    if Met(bits, w.mask, w.all) && w.clear then w.mask else 0
  }

  function ClearMask(q: seq<Waiter>, bits: Bits): Bits {
    if q == [] then 0 else Or(Cleared(q[0], bits), ClearMask(q[1..], bits))
  }

  /** xEventGroupSetBits: the group after it. The tasks woken are Woken(g.waiters, s), each given
      the snapshot s, where s is the old bits and the new. */
  function SetBits(g: Group, b: Bits): Group {
    var s := Or(g.bits, b);
    Group(Less(s, ClearMask(g.waiters, s)), Kept(g.waiters, s))
  }

  lemma {:induction false} WokenIff(q: seq<Waiter>, bits: Bits, w: Waiter)
    ensures w in Woken(q, bits) <==> w in q && Met(bits, w.mask, w.all)
    ensures w in Kept(q, bits) <==> w in q && !Met(bits, w.mask, w.all)
    decreases |q|
  {
    hide Met;
    if q != [] { WokenIff(q[1..], bits, w); }
  }

  /** The mask cleared covers what every woken clearer asked for, and nothing else: any bit
      outside all their masks survives. */
  lemma {:induction false} ClearMaskCovers(q: seq<Waiter>, bits: Bits, w: Waiter)
    requires w in q && Met(bits, w.mask, w.all) && w.clear
    ensures And(ClearMask(q, bits), w.mask) == w.mask
    decreases |q|
  {
    hide And, Or, Met;
    AndLaws(w.mask);
    if w != q[0] { ClearMaskCovers(q[1..], bits, w); }
    OrCovers(Cleared(q[0], bits), ClearMask(q[1..], bits), w.mask);
  }

  lemma {:induction false} ClearMaskMisses(q: seq<Waiter>, bits: Bits, x: Bits)
    requires forall w :: w in q && Met(bits, w.mask, w.all) && w.clear ==> And(w.mask, x) == 0
    ensures And(ClearMask(q, bits), x) == 0
    decreases |q|
  {
    hide And, Or, Met;
    AndLaws(x);
    if q != [] {
      assert q[0] in q && forall w :: w in q[1..] ==> w in q;
      ClearMaskMisses(q[1..], bits, x);
      OrMisses(Cleared(q[0], bits), ClearMask(q[1..], bits), x);
    }
  }

  /** Setting bits wakes exactly the tasks whose condition holds with the new bits in, keeps the
      others, and leaves the old bits and the new less everything a woken task clears. */
  lemma SetBitsIsExact(g: Group, b: Bits, w: Waiter, x: Bits)
    requires w in g.waiters
    ensures var s := Or(g.bits, b);
            && (w in Woken(g.waiters, s) <==> Met(s, w.mask, w.all))
            && (w in SetBits(g, b).waiters <==> !Met(s, w.mask, w.all))
            && (Met(s, w.mask, w.all) && w.clear ==> And(SetBits(g, b).bits, w.mask) == 0)
            && ((forall v :: v in g.waiters && Met(s, v.mask, v.all) && v.clear ==> And(v.mask, x) == 0)
                ==> And(SetBits(g, b).bits, x) == And(s, x))
  {
    hide And, Or, Less, Met;
    var s := Or(g.bits, b);
    WokenIff(g.waiters, s, w);
    if Met(s, w.mask, w.all) && w.clear {
      ClearMaskCovers(g.waiters, s, w);
      LessLaws(s, ClearMask(g.waiters, s), w.mask);
    }
    if forall v :: v in g.waiters && Met(s, v.mask, v.all) && v.clear ==> And(v.mask, x) == 0 {
      ClearMaskMisses(g.waiters, s, x);
      LessLaws(s, ClearMask(g.waiters, s), x);
    }
  }

  // ----- The other operations -----------------------------------------------------------------------

  /** What a call returns at once, or that it blocks. */
  datatype Outcome = Returns(bits: Bits) | Blocks

  /** xEventGroupWaitBits */
  function WaitBits(g: Group, w: Waiter, willing: bool): (Group, Outcome) {
    if Met(g.bits, w.mask, w.all) then (if w.clear then g.(bits := Less(g.bits, w.mask)) else g, Returns(g.bits))
    else if willing then (g.(waiters := g.waiters + [w]), Blocks)
    else (g, Returns(g.bits))
  }

  /** xEventGroupSync: set bits, then wait for all of a mask that is cleared on release. */
  function Sync(g: Group, t: Task, set_: Bits, mask: Bits, willing: bool): (Group, Outcome) {
    var s, r := Or(g.bits, set_), SetBits(g, set_);
    if And(s, mask) == mask then (r.(bits := Less(r.bits, mask)), Returns(s))
    else if willing then (r.(waiters := r.waiters + [Waiter(t, mask, true, true)]), Blocks)
    else (r, Returns(r.bits))
  }

  /** xEventGroupClearBits, which returns the bits as they were. */
  function ClearBits(g: Group, b: Bits): (Group, Outcome) {
    (g.(bits := Less(g.bits, b)), Returns(g.bits))
  }

  function WithoutWaiter(q: seq<Waiter>, t: Task): seq<Waiter> {
    if q == [] then [] else if q[0].t == t then q[1..] else [q[0]] + WithoutWaiter(q[1..], t)
  }

  /** A task that timed out looks once more before it returns the current bits. */
  function FinishTimedOut(g: Group, w: Waiter): (Group, Outcome) {
    (if Met(g.bits, w.mask, w.all) && w.clear then g.(bits := Less(g.bits, w.mask)) else g,
     Returns(Less(g.bits, CONTROL)))
  }

  /** The end of xEventGroupWaitBits and xEventGroupSync in a task that blocked: its item has the
      value that it was woken with, or still the one that it stored. */
  function AfterWaiting(g: Group, w: Waiter, value: Bits): (Group, Outcome) {
    if And(value, UNBLOCKED_BY_SET) == 0 then FinishTimedOut(g, w) else (g, Returns(Less(value, CONTROL)))
  }

  // ----- What the operations return and leave behind --------------------------------------------------

  /** The bits of the mask are gone and all others are as before. */
  ghost predicate Takes(before: Bits, after: Bits, mask: Bits) {
    And(after, mask) == 0 && forall x :: And(mask, x) == 0 ==> And(after, x) == And(before, x)
  }

  lemma LessTakes(bits: Bits, mask: Bits)
    ensures Takes(bits, Less(bits, mask), mask)
  {
    hide And, Less;
    AndLaws(mask);
    LessLaws(bits, mask, mask);
    forall x | And(mask, x) == 0
      ensures And(Less(bits, mask), x) == And(bits, x)
    {
      LessLaws(bits, mask, x);
    }
  }

  /** A satisfied wait returns the bits that satisfied it, and takes exactly its own bits out when it
      clears on exit; one that is not changes no bit, and joins the list exactly when willing. */
  lemma WaitBitsIsExact(g: Group, w: Waiter, willing: bool)
    ensures var (r, o) := WaitBits(g, w, willing);
            if Met(g.bits, w.mask, w.all) then
              o == Returns(g.bits) && r.waiters == g.waiters
              && (if w.clear then Takes(g.bits, r.bits, w.mask) else r.bits == g.bits)
            else
              r.bits == g.bits
              && (if willing then o == Blocks && r.waiters == g.waiters + [w] else o == Returns(g.bits) && r.waiters == g.waiters)
  {
    hide And, Less, Met, Takes;
    LessTakes(g.bits, w.mask);
  }

  /** The same of a rendezvous that is complete: it returns the old bits with the caller's in, and
      the mask is clear. One that is not leaves the bits to those who were waiting for them. */
  lemma SyncIsExact(g: Group, t: Task, b: Bits, mask: Bits, willing: bool, x: Bits)
    ensures var s, r := Or(g.bits, b), Sync(g, t, b, mask, willing);
            && (And(s, mask) == mask ==>
                  r.1 == Returns(s) && And(r.0.bits, mask) == 0 && r.0.waiters == SetBits(g, b).waiters
                  && (And(mask, x) == 0 ==> And(r.0.bits, x) == And(SetBits(g, b).bits, x)))
            && (And(s, mask) != mask ==>
                  r.0.bits == SetBits(g, b).bits
                  && r.1 == (if willing then Blocks else Returns(r.0.bits))
                  && r.0.waiters == SetBits(g, b).waiters + if willing then [Waiter(t, mask, true, true)] else [])
  {
    hide And, Less, Or, SetBits;
    AndLaws(mask);
    LessLaws(SetBits(g, b).bits, mask, mask);
    LessLaws(SetBits(g, b).bits, mask, x);
  }

  lemma ClearBitsIsExact(g: Group, b: Bits)
    ensures var (r, o) := ClearBits(g, b); o == Returns(g.bits) && r.waiters == g.waiters && Takes(g.bits, r.bits, b)
  {
    hide And, Less, Takes;
    LessTakes(g.bits, b);
  }

  /** The bits the kernel keeps for itself are not set; StaysClear says that they never are. */
  predicate Plain(bits: Bits) {
    And(bits, CONTROL) == 0
  }

  lemma ControlLaws(s: Bits, w: Waiter)
    ensures Plain(s) ==> Less(Or(s, UNBLOCKED_BY_SET), CONTROL) == s && And(Or(s, UNBLOCKED_BY_SET), UNBLOCKED_BY_SET) != 0
    ensures Plain(s) ==> Less(s, CONTROL) == s
    ensures Plain(w.mask) ==> And(Encode(w), UNBLOCKED_BY_SET) == 0
  {
  }

  /** A task that was woken returns the snapshot that satisfied it and touches nothing. */
  lemma WokenReturnsTheSnapshot(g: Group, w: Waiter, s: Bits)
    requires Plain(s)
    ensures AfterWaiting(g, w, Or(s, UNBLOCKED_BY_SET)) == (g, Returns(s))
  {
    hide And, Or, Less, Plain;
    ControlLaws(s, w);
  }

  /** One that timed out returns the bits of that moment, and takes its own out if its condition
      has come to hold meanwhile and it clears on exit. */
  lemma TimedOutIsExact(g: Group, w: Waiter)
    requires Plain(g.bits) && Plain(w.mask)
    ensures var (r, o) := AfterWaiting(g, w, Encode(w));
            && o == Returns(g.bits) && r.waiters == g.waiters
            && (if Met(g.bits, w.mask, w.all) && w.clear then Takes(g.bits, r.bits, w.mask) else r.bits == g.bits)
  {
    hide And, Or, Less, Met, Takes, Encode, Plain;
    ControlLaws(g.bits, w);
    LessTakes(g.bits, w.mask);
  }

  // ----- Runs ---------------------------------------------------------------------------------------

  datatype Event =
    | Set(b: Bits)
    | Wait(w: Waiter, willing: bool)
    | Rendezvous(t: Task, b: Bits, mask: Bits, willing: bool)
    | Clear(b: Bits)
    | TimeOut(t: Task)
    | Finish(w: Waiter)

  function Step(g: Group, e: Event): Group {
    match e
    case Set(b) => SetBits(g, b)
    case Wait(w, willing) => WaitBits(g, w, willing).0
    case Rendezvous(t, b, mask, willing) => Sync(g, t, b, mask, willing).0
    case Clear(b) => ClearBits(g, b).0
    case TimeOut(t) => g.(waiters := WithoutWaiter(g.waiters, t))
    case Finish(w) => FinishTimedOut(g, w).0
  }

  /** Nobody waits for a condition that holds. */
  ghost predicate Quiet(g: Group) {
    forall w :: w in g.waiters ==> !Met(g.bits, w.mask, w.all)
  }

  lemma LessIsQuiet(bits: Bits, gone: Bits, q: seq<Waiter>)
    requires Quiet(Group(bits, q))
    ensures Quiet(Group(Less(bits, gone), q))
  {
    hide Met, Less;
    forall w | w in q
      ensures !Met(Less(bits, gone), w.mask, w.all)
    {
      if Met(Less(bits, gone), w.mask, w.all) { ClearingMeetsNothing(bits, gone, w.mask, w.all); }
    }
  }

  lemma SetBitsIsQuiet(g: Group, b: Bits)
    ensures Quiet(SetBits(g, b))
  {
    hide Met, Less, Or;
    var s := Or(g.bits, b);
    forall w | w in Kept(g.waiters, s)
      ensures !Met(s, w.mask, w.all)
    {
      WokenIff(g.waiters, s, w);
    }
    LessIsQuiet(s, ClearMask(g.waiters, s), Kept(g.waiters, s));
  }

  lemma SyncIsQuiet(g: Group, t: Task, b: Bits, mask: Bits, willing: bool)
    ensures Quiet(Sync(g, t, b, mask, willing).0)
  {
    hide Less, Or, And, SetBits;
    var s, r := Or(g.bits, b), SetBits(g, b);
    SetBitsIsQuiet(g, b);
    if And(s, mask) == mask {
      LessIsQuiet(r.bits, mask, r.waiters);
    } else if Met(r.bits, mask, true) {
      assert r.bits == Less(s, ClearMask(g.waiters, s)) by { SetBitsBits(g, b); }
      ClearingMeetsNothing(s, ClearMask(g.waiters, s), mask, true);
    }
  }

  lemma SetBitsBits(g: Group, b: Bits)
    ensures SetBits(g, b).bits == Less(Or(g.bits, b), ClearMask(g.waiters, Or(g.bits, b)))
  {
  }

  lemma {:induction false} WithoutWaiterThins(q: seq<Waiter>, t: Task)
    ensures forall w :: w in WithoutWaiter(q, t) ==> w in q
    decreases |q|
  {
    if q != [] { WithoutWaiterThins(q[1..], t); }
  }

  lemma StepKeepsQuiet(g: Group, e: Event)
    requires Quiet(g)
    ensures Quiet(Step(g, e))
  {
    hide Less, Or, And;
    match e
    case Set(b) => SetBitsIsQuiet(g, b);
    case Wait(w, _) => LessIsQuiet(g.bits, w.mask, g.waiters);
    case Rendezvous(t, b, mask, willing) => SyncIsQuiet(g, t, b, mask, willing);
    case Clear(b) => LessIsQuiet(g.bits, b, g.waiters);
    case TimeOut(t) => WithoutWaiterThins(g.waiters, t);
    case Finish(w) => LessIsQuiet(g.bits, w.mask, g.waiters);
  }

  function Run(g: Group, es: seq<Event>): Group
    decreases |es|
  {
    if es == [] then g else Run(Step(g, es[0]), es[1..])
  }

  /** In every reachable state no waiting task's condition holds on the current bits: no
      wake-up is owed to anyone. */
  lemma {:induction false} NoSatisfiedTaskWaits(g: Group, es: seq<Event>)
    requires Quiet(g)
    ensures Quiet(Run(g, es))
    decreases |es|
  {
    if es != [] {
      StepKeepsQuiet(g, es[0]);
      NoSatisfiedTaskWaits(Step(g, es[0]), es[1..]);
    }
  }

  /** A time-out takes exactly that task off the list, the others in their order, and touches no bit. */
  lemma {:induction false} TimeOutIsExact(g: Group, a: seq<Waiter>, w: Waiter, b: seq<Waiter>)
    requires g.waiters == a + [w] + b && forall v :: v in a ==> v.t != w.t
    ensures Step(g, TimeOut(w.t)) == g.(waiters := a + b)
    decreases |a|
  {
    if a == [] {
      assert g.waiters[1..] == b && a + b == b;
    } else {
      assert a[0] in a && forall v :: v in a[1..] ==> v in a;
      var rest := g.(waiters := g.waiters[1..]);
      assert rest.waiters == a[1..] + [w] + b;
      TimeOutIsExact(rest, a[1..], w, b);
      assert [a[0]] + (a[1..] + b) == a + b;
    }
  }

  // ----- A wait for all bits that clears them -------------------------------------------------------

  /** The event sets some bit of x. */
  predicate Raises(e: Event, x: Bits) {
    (e.Set? && And(e.b, x) != 0) || (e.Rendezvous? && And(e.b, x) != 0)
  }

  lemma LessMisses(a: Bits, c: Bits, x: Bits)
    requires And(a, x) == 0
    ensures And(Less(a, c), x) == 0
  {
  }

  lemma PartOfMask(bits: Bits, mask: Bits, x: Bits)
    requires And(bits, mask) == mask && And(mask, x) == x
    ensures And(bits, x) == x
  {
  }

  lemma StepRaises(g: Group, e: Event, x: Bits)
    requires And(g.bits, x) == 0 && !Raises(e, x)
    ensures And(Step(g, e).bits, x) == 0
  {
    hide And, Or, Less, Met;
    match e
    case Set(b) => SetRaises(g, b, x);
    case Rendezvous(t, b, mask, willing) =>
      SetRaises(g, b, x);
      LessMisses(SetBits(g, b).bits, mask, x);
    case Wait(w, _) => LessMisses(g.bits, w.mask, x);
    case Clear(b) => LessMisses(g.bits, b, x);
    case TimeOut(_) =>
    case Finish(w) => LessMisses(g.bits, w.mask, x);
  }

  lemma SetRaises(g: Group, b: Bits, x: Bits)
    requires And(g.bits, x) == 0 && And(b, x) == 0
    ensures And(SetBits(g, b).bits, x) == 0
  {
    hide And, Or, Less;
    OrMisses(g.bits, b, x);
    LessMisses(Or(g.bits, b), ClearMask(g.waiters, Or(g.bits, b)), x);
  }

  lemma {:induction false} StaysClear(g: Group, es: seq<Event>, x: Bits)
    requires And(g.bits, x) == 0 && forall e :: e in es ==> !Raises(e, x)
    ensures And(Run(g, es).bits, x) == 0
    decreases |es|
  {
    hide And, Raises, Step;
    if es != [] {
      assert es[0] in es && forall e :: e in es[1..] ==> e in es;
      StepRaises(g, es[0], x);
      StaysClear(Step(g, es[0]), es[1..], x);
    }
  }

  /** Once a wait for all of a mask has been satisfied and has cleared it, at once or by being woken,
      no such wait is satisfied over any run, nor by a further set, that leaves a part x of the mask
      unset: every bit must be set again. */
  lemma EveryBitMustBeSetAgain(g: Group, w: Waiter, es: seq<Event>, b: Bits, x: Bits)
    requires w.all && w.clear && And(w.mask, x) == x && x != 0
    requires (forall e :: e in es ==> !Raises(e, x)) && And(b, x) == 0
    ensures Met(g.bits, w.mask, true) ==>
              var s := Or(Run(WaitBits(g, w, true).0, es).bits, b); !Met(s, w.mask, true)
    ensures forall first :: w in g.waiters && w in Woken(g.waiters, Or(g.bits, first)) ==>
              var s := Or(Run(SetBits(g, first), es).bits, b); !Met(s, w.mask, true)
  {
    hide And, Or, Less, Met, Raises, WaitBits, SetBits, Takes, Run;
    if Met(g.bits, w.mask, true) {
      WaitBitsIsExact(g, w, true);
      NotAgain(WaitBits(g, w, true).0, w.mask, es, b, x) by { TakesClears(g.bits, WaitBits(g, w, true).0.bits, w.mask); }
    }
    forall first | w in g.waiters && w in Woken(g.waiters, Or(g.bits, first))
      ensures var s := Or(Run(SetBits(g, first), es).bits, b); !Met(s, w.mask, true)
    {
      SetBitsIsExact(g, first, w, x);
      NotAgain(SetBits(g, first), w.mask, es, b, x);
    }
  }

  lemma TakesClears(before: Bits, after: Bits, mask: Bits)
    requires Takes(before, after, mask)
    ensures And(after, mask) == 0
  {
  }

  lemma NotAgain(g: Group, mask: Bits, es: seq<Event>, b: Bits, x: Bits)
    requires And(g.bits, mask) == 0 && And(mask, x) == x && x != 0
    requires (forall e :: e in es ==> !Raises(e, x)) && And(b, x) == 0
    ensures !Met(Or(Run(g, es).bits, b), mask, true)
  {
    hide And, Or, Raises, Run;
    InClearMask(g.bits, mask, x);
    StaysClear(g, es, x);
    OrMisses(Run(g, es).bits, b, x);
    if And(Or(Run(g, es).bits, b), mask) == mask { PartOfMask(Or(Run(g, es).bits, b), mask, x); }
  }

  lemma InClearMask(bits: Bits, mask: Bits, x: Bits)
    requires And(bits, mask) == 0 && And(mask, x) == x
    ensures And(bits, x) == 0
  {
  }

  // ----- The rendezvous ----------------------------------------------------------------------------------

  datatype Arrival = Arrival(t: Task, b: Bits)

  /** The bits with those of the arrivals in. */
  function Gathered(bits: Bits, q: seq<Arrival>): Bits {
    if q == [] then bits else Or(Gathered(bits, q[..|q| - 1]), q[|q| - 1].b)
  }

  /** The tasks arrive one after another, each prepared to block. */
  function Arrive(g: Group, q: seq<Arrival>, mask: Bits): Group {
    if q == [] then g else Sync(Arrive(g, q[..|q| - 1], mask), q[|q| - 1].t, q[|q| - 1].b, mask, true).0
  }

  function Waiting(q: seq<Arrival>, mask: Bits): seq<Waiter> {
    seq(|q|, i requires 0 <= i < |q| => Waiter(q[i].t, mask, true, true))
  }

  /** The mask is complete with the last arrival and not before. */
  ghost predicate LastCompletes(bits: Bits, q: seq<Arrival>, mask: Bits) {
    && q != [] && And(Gathered(bits, q), mask) == mask
    && forall i :: 0 <= i < |q| ==> And(Gathered(bits, q[..i]), mask) != mask
  }

  lemma MetMonotone(a: Bits, b: Bits, mask: Bits, all: bool)
    requires Met(a, mask, all)
    ensures Met(Or(a, b), mask, all)
  {
    OrDistributes(a, b, mask);
    if all { OrCovers(a, b, mask); } else { OrNonZero(And(a, mask), And(b, mask)); }
  }

  lemma OrNonZero(a: Bits, b: Bits)
    requires a != 0
    ensures Or(a, b) != 0
  {
  }

  lemma {:induction false} GatheredGrows(bits: Bits, q: seq<Arrival>, i: nat, mask: Bits, all: bool)
    requires i <= |q| && Met(Gathered(bits, q[..i]), mask, all)
    ensures Met(Gathered(bits, q), mask, all)
    decreases |q|
  {
    hide Met, Or;
    if i == |q| {
      assert q[..i] == q;
    } else {
      assert q[..|q| - 1][..i] == q[..i];
      GatheredGrows(bits, q[..|q| - 1], i, mask, all);
      MetMonotone(Gathered(bits, q[..|q| - 1]), q[|q| - 1].b, mask, all);
    }
  }

  lemma {:induction false} NoneMet(q: seq<Waiter>, bits: Bits)
    requires forall w :: w in q ==> !Met(bits, w.mask, w.all)
    ensures Kept(q, bits) == q && ClearMask(q, bits) == 0 && Woken(q, bits) == []
    decreases |q|
  {
    hide Met, Or;
    if q != [] {
      assert q[0] in q && forall w :: w in q[1..] ==> w in q;
      NoneMet(q[1..], bits);
      assert Or(0, 0) == 0 by { OrZero(0); }
    }
  }

  lemma OrZero(a: Bits)
    ensures Or(0, a) == a && Or(a, 0) == a && Or(a, a) == a
  {
  }

  lemma LessZero(a: Bits, m: Bits)
    ensures Less(a, 0) == a && Less(Less(a, m), m) == Less(a, m)
  {
  }

  /** Before the last arrival everyone is still waiting and no bit has been cleared. */
  lemma {:induction false} EarlyArrivalsWait(g: Group, q: seq<Arrival>, mask: Bits)
    requires forall i :: 0 <= i <= |q| ==> And(Gathered(g.bits, q[..i]), mask) != mask
    requires forall w :: w in g.waiters ==> !Met(Gathered(g.bits, q), w.mask, w.all)
    ensures Arrive(g, q, mask) == Group(Gathered(g.bits, q), g.waiters + Waiting(q, mask))
    decreases |q|
  {
    hide Or, And, Less;
    if q == [] {
      assert g.waiters + Waiting(q, mask) == g.waiters;
    } else {
      var n := |q| - 1;
      var early, last := q[..n], q[n];
      assert forall i :: 0 <= i <= n ==> early[..i] == q[..i];
      forall w | w in g.waiters
        ensures !Met(Gathered(g.bits, early), w.mask, w.all)
      {
        if Met(Gathered(g.bits, early), w.mask, w.all) { GatheredGrows(g.bits, q, n, w.mask, w.all); }
      }
      EarlyArrivalsWait(g, early, mask);
      assert q[..|q|] == q;
      ArrivesEarly(Gathered(g.bits, early), g.waiters, early, last, mask);
      assert Waiting(q, mask) == Waiting(early, mask) + [Waiter(last.t, mask, true, true)];
      assert g.waiters + Waiting(early, mask) + [Waiter(last.t, mask, true, true)] == g.waiters + Waiting(q, mask);
    }
  }

  lemma ArrivesEarly(bits: Bits, others: seq<Waiter>, early: seq<Arrival>, last: Arrival, mask: Bits)
    requires And(Or(bits, last.b), mask) != mask
    requires forall w :: w in others ==> !Met(Or(bits, last.b), w.mask, w.all)
    ensures Sync(Group(bits, others + Waiting(early, mask)), last.t, last.b, mask, true).0
         == Group(Or(bits, last.b), others + Waiting(early, mask) + [Waiter(last.t, mask, true, true)])
  {
    hide Or, And, Less;
    NoneMet(others + Waiting(early, mask), Or(bits, last.b));
    LessZero(Or(bits, last.b), mask);
  }

  /** Everyone in a rendezvous is woken by the last arrival, and the mask is what they clear. */
  lemma {:induction false} PartnersMet(q: seq<Arrival>, mask: Bits, bits: Bits)
    requires And(bits, mask) == mask
    ensures Kept(Waiting(q, mask), bits) == [] && Woken(Waiting(q, mask), bits) == Waiting(q, mask)
    ensures ClearMask(Waiting(q, mask), bits) == if q == [] then 0 else mask
    decreases |q|
  {
    hide Or, And;
    OrZero(mask);
    if q != [] {
      var all := Waiting(q, mask);
      assert all[0] == Waiter(q[0].t, mask, true, true) && all[1..] == Waiting(q[1..], mask);
      PartnersMet(q[1..], mask, bits);
    }
  }

  lemma {:induction false} AllMet(others: seq<Waiter>, q: seq<Arrival>, mask: Bits, bits: Bits)
    requires And(bits, mask) == mask && forall w :: w in others ==> !Met(bits, w.mask, w.all)
    ensures Kept(others + Waiting(q, mask), bits) == others
    ensures Woken(others + Waiting(q, mask), bits) == Waiting(q, mask)
    ensures ClearMask(others + Waiting(q, mask), bits) == if q == [] then 0 else mask
    decreases |others|
  {
    hide Or, And, Met;
    OrZero(mask);
    OrZero(0);
    var all := others + Waiting(q, mask);
    if others != [] {
      assert others[0] in others && forall w :: w in others[1..] ==> w in others;
      assert all[0] == others[0] && all[1..] == others[1..] + Waiting(q, mask);
      AllMet(others[1..], q, mask, bits);
    } else {
      assert all == Waiting(q, mask);
      PartnersMet(q, mask, bits);
    }
  }

  /** The last arrival at a rendezvous releases every participant with the same snapshot, in the
      order they arrived, returns that snapshot itself, and leaves the mask cleared; tasks
      waiting for something else that still does not hold are not disturbed. */
  lemma RendezvousReleasesAll(g: Group, q: seq<Arrival>, mask: Bits)
    requires LastCompletes(g.bits, q, mask)
    requires forall w :: w in g.waiters ==> !Met(Gathered(g.bits, q), w.mask, w.all)
    ensures var before, s := Arrive(g, q[..|q| - 1], mask), Gathered(g.bits, q);
            var last := q[|q| - 1];
            && before.waiters == g.waiters + Waiting(q[..|q| - 1], mask)
            && Or(before.bits, last.b) == s && Woken(before.waiters, s) == Waiting(q[..|q| - 1], mask)
            && Sync(before, last.t, last.b, mask, true).1 == Returns(s)
            && Arrive(g, q, mask) == Group(Less(s, mask), g.waiters)
  {
    hide Or, And, Less;
    var n := |q| - 1;
    var early, last, s := q[..n], q[n], Gathered(g.bits, q);
    assert forall i :: 0 <= i <= n ==> early[..i] == q[..i];
    forall w | w in g.waiters
      ensures !Met(Gathered(g.bits, early), w.mask, w.all)
    {
      if Met(Gathered(g.bits, early), w.mask, w.all) { GatheredGrows(g.bits, q, n, w.mask, w.all); }
    }
    EarlyArrivalsWait(g, early, mask);
    AllMet(g.waiters, early, mask, s);
    LessZero(s, mask);
  }

  // ----- The event group in place ------------------------------------------------------------------------

  /** An event list item: its owner and its value. */
  datatype Item = Item(t: Task, value: Bits)

  function Decode(i: Item): Waiter {
    var control := And(i.value, CONTROL);
    Waiter(i.t, Less(i.value, CONTROL), And(control, WAIT_FOR_ALL) != 0, And(control, CLEAR_ON_EXIT) != 0)
  }

  function Decoded(q: seq<Item>): seq<Waiter> {
    seq(|q|, i requires 0 <= i < |q| => Decode(q[i]))
  }

  lemma DecodeEncode(w: Waiter)
    requires And(w.mask, CONTROL) == 0
    ensures Decode(Item(w.t, Encode(w))) == w
  {
    hide And, Less, Encode;
    EncodeSplits(w);
  }

  lemma {:induction false} WokenAppend(q: seq<Waiter>, w: Waiter, bits: Bits)
    ensures Kept(q + [w], bits) == Kept(q, bits) + if Met(bits, w.mask, w.all) then [] else [w]
    ensures Woken(q + [w], bits) == Woken(q, bits) + if Met(bits, w.mask, w.all) then [w] else []
    ensures ClearMask(q + [w], bits) == Or(ClearMask(q, bits), Cleared(w, bits))
    decreases |q|
  {
    hide Met, Or, Cleared;
    if q == [] {
      assert [w][1..] == [] && q + [w] == [w];
      OrZero(Cleared(w, bits));
    } else {
      WokenAppend(q[1..], w, bits);
      var all := q + [w];
      assert all[0] == q[0] && all[1..] == q[1..] + [w];
      assert Kept(all, bits) == (if Met(bits, q[0].mask, q[0].all) then [] else [q[0]]) + Kept(all[1..], bits);
      assert Woken(all, bits) == (if Met(bits, q[0].mask, q[0].all) then [q[0]] else []) + Woken(all[1..], bits);
      OrAssociates(Cleared(q[0], bits), ClearMask(q[1..], bits), Cleared(w, bits));
    }
  }

  lemma OrAssociates(a: Bits, b: Bits, c: Bits)
    ensures Or(a, Or(b, c)) == Or(Or(a, b), c)
  {
  }

  /** Part of the list has been scanned: the first j of the original items, of which the
      unsatisfied ones are now the first i. */
  ghost predicate Scanned(items: seq<Item>, j: nat, now: seq<Item>, i: nat, s: Bits, clear: Bits, unblocked: seq<Item>) {
    && j <= |items| && i <= |now| && now[i..] == items[j..]
    && Decoded(now[..i]) == Kept(Decoded(items[..j]), s)
    && clear == ClearMask(Decoded(items[..j]), s)
    && Unblocked(Woken(Decoded(items[..j]), s), s, unblocked)
  }

  /** What vTaskRemoveFromUnorderedEventList is given for each woken task. */
  ghost predicate Unblocked(q: seq<Waiter>, s: Bits, unblocked: seq<Item>) {
    |unblocked| == |q| && forall k :: 0 <= k < |q| ==> unblocked[k] == Item(q[k].t, Or(s, UNBLOCKED_BY_SET))
  }

  lemma ScanStart(items: seq<Item>, s: Bits)
    ensures Scanned(items, 0, items, 0, s, 0, [])
  {
    assert items[..0] == [] && Decoded([]) == [];
  }

  lemma ScanItem(items: seq<Item>, j: nat, now: seq<Item>, i: nat, s: Bits, clear: Bits, unblocked: seq<Item>)
    requires Scanned(items, j, now, i, s, clear, unblocked) && i < |now|
    ensures j < |items| && now[i] == items[j] && Decoded(items[..j + 1]) == Decoded(items[..j]) + [Decode(now[i])]
    ensures now[i + 1..] == items[j + 1..]
  {
    hide Kept, Woken, ClearMask, Decode;
    assert now[i] == now[i..][0] == items[j..][0];
    assert now[i..][1..] == items[j..][1..];
    assert items[..j + 1] == items[..j] + [items[j]];
  }

  lemma ScanKeeps(items: seq<Item>, j: nat, now: seq<Item>, i: nat, s: Bits, clear: Bits, unblocked: seq<Item>)
    requires Scanned(items, j, now, i, s, clear, unblocked) && i < |now|
    requires var w := Decode(now[i]); !Met(s, w.mask, w.all)
    ensures Scanned(items, j + 1, now, i + 1, s, clear, unblocked)
  {
    hide Kept, Woken, ClearMask, Decode, Or, Met, And, Less;
    ScanItem(items, j, now, i, s, clear, unblocked);
    WokenAppend(Decoded(items[..j]), Decode(now[i]), s);
    OrZero(clear);
    assert Decoded(now[..i + 1]) == Decoded(now[..i]) + [Decode(now[i])];
  }

  lemma ScanTakes(items: seq<Item>, j: nat, now: seq<Item>, i: nat, s: Bits, clear: Bits, unblocked: seq<Item>)
    requires Scanned(items, j, now, i, s, clear, unblocked) && i < |now|
    requires var w := Decode(now[i]); Met(s, w.mask, w.all)
    ensures Scanned(items, j + 1, now[..i] + now[i + 1..], i, s, Or(clear, Cleared(Decode(now[i]), s)),
                    unblocked + [Item(now[i].t, Or(s, UNBLOCKED_BY_SET))])
  {
    var w := Decode(now[i]);
    assert w.t == now[i].t;
    hide Kept, Woken, ClearMask, Decode, Or, Met, And, Less;
    ScanItem(items, j, now, i, s, clear, unblocked);
    WokenAppend(Decoded(items[..j]), w, s);
    var after := now[..i] + now[i + 1..];
    assert after[..i] == now[..i] && after[i..] == now[i + 1..];
  }

  lemma ScanEnds(items: seq<Item>, j: nat, now: seq<Item>, s: Bits, clear: Bits, unblocked: seq<Item>)
    requires Scanned(items, j, now, |now|, s, clear, unblocked)
    ensures Decoded(now) == Kept(Decoded(items), s) && clear == ClearMask(Decoded(items), s)
    ensures Unblocked(Woken(Decoded(items), s), s, unblocked)
  {
    hide Kept, Woken, ClearMask, Decode;
    assert items[j..] == [] && items[..j] == items && now[..|now|] == now;
  }

  lemma AndCommutes(a: Bits, b: Bits)
    ensures And(a, b) == And(b, a)
  {
  }

  class EventGroup {
    var uxEventBits: Bits
    var xTasksWaitingForBits: seq<Item>

    ghost function G(): Group
      reads this
    {
      Group(uxEventBits, Decoded(xTasksWaitingForBits))
    }

    /** xEventGroupSetBits: unblocked is what vTaskRemoveFromUnorderedEventList is given, task by
        task. */
    method SetEventBits(b: Bits) returns (bits: Bits, unblocked: seq<Item>)
      modifies this
      ensures G() == SetBits(old(G()), b) && bits == uxEventBits
      ensures Unblocked(Woken(old(G()).waiters, Or(old(uxEventBits), b)), Or(old(uxEventBits), b), unblocked)
    {
      hide Scanned, Unblocked, And, Or, Less, Kept, Woken, ClearMask;
      ghost var items, j := xTasksWaitingForBits, 0;
      var bitsToClear := 0;
      unblocked := [];
      uxEventBits := Or(uxEventBits, b);
      var i := 0;
      ScanStart(items, uxEventBits);
      while i < |xTasksWaitingForBits|
        invariant 0 <= i <= |xTasksWaitingForBits| && 0 <= j <= |items| && uxEventBits == Or(old(uxEventBits), b)
        invariant Scanned(items, j, xTasksWaitingForBits, i, uxEventBits, bitsToClear, unblocked)
        decreases |items| - j
      {
        ScanItem(items, j, xTasksWaitingForBits, i, uxEventBits, bitsToClear, unblocked);
        var item := xTasksWaitingForBits[i];
        var waitedFor := item.value;
        var matchFound := false;
        var control := And(waitedFor, CONTROL);
        waitedFor := Less(waitedFor, CONTROL);
        AndCommutes(waitedFor, uxEventBits);
        if And(control, WAIT_FOR_ALL) == 0 {
          if And(waitedFor, uxEventBits) != 0 { matchFound := true; }
        } else if And(waitedFor, uxEventBits) == waitedFor {
          matchFound := true;
        }
        if matchFound {
          ScanTakes(items, j, xTasksWaitingForBits, i, uxEventBits, bitsToClear, unblocked);
          OrZero(bitsToClear);
          if And(control, CLEAR_ON_EXIT) != 0 { bitsToClear := Or(bitsToClear, waitedFor); }
          unblocked := unblocked + [Item(item.t, Or(uxEventBits, UNBLOCKED_BY_SET))];
          xTasksWaitingForBits := xTasksWaitingForBits[..i] + xTasksWaitingForBits[i + 1..];
        } else {
          ScanKeeps(items, j, xTasksWaitingForBits, i, uxEventBits, bitsToClear, unblocked);
          i := i + 1;
        }
        j := j + 1;
      }
      ScanEnds(items, j, xTasksWaitingForBits, uxEventBits, bitsToClear, unblocked);
      uxEventBits := Less(uxEventBits, bitsToClear);
      bits := uxEventBits;
    }

    /** The scheduler-suspended part of xEventGroupWaitBits. */
    method WaitForBits(t: Task, mask: Bits, clear: bool, all: bool, willing: bool) returns (r: Outcome)
      requires And(mask, CONTROL) == 0
      modifies this
      ensures (G(), r) == WaitBits(old(G()), Waiter(t, mask, all, clear), willing)
      ensures Met(old(uxEventBits), mask, all) ==>
                && r == Returns(old(uxEventBits)) && xTasksWaitingForBits == old(xTasksWaitingForBits)
                && (if clear then Takes(old(uxEventBits), uxEventBits, mask) else uxEventBits == old(uxEventBits))
      ensures !Met(old(uxEventBits), mask, all) ==>
                && uxEventBits == old(uxEventBits) && r == (if willing then Blocks else Returns(uxEventBits))
                && |xTasksWaitingForBits| == |old(xTasksWaitingForBits)| + if willing then 1 else 0
    {
      var current := uxEventBits;
      hide And, Or, Less, Encode, Met, Takes;
      LessTakes(current, mask);
      if Met(current, mask, all) {
        r := Returns(current);
        if clear { uxEventBits := Less(uxEventBits, mask); }
      } else if !willing {
        r := Returns(current);
      } else {
        var w := Waiter(t, mask, all, clear);
        DecodeEncode(w);
        ghost var before := Decoded(xTasksWaitingForBits);
        xTasksWaitingForBits := xTasksWaitingForBits + [Item(t, Encode(w))];
        assert Decoded(xTasksWaitingForBits) == before + [w];
        r := Blocks;
      }
    }

    /** The scheduler-suspended part of xEventGroupSync. */
    method SyncBits(t: Task, b: Bits, mask: Bits, willing: bool) returns (r: Outcome)
      requires And(mask, CONTROL) == 0
      modifies this
      ensures (G(), r) == Sync(old(G()), t, b, mask, willing)
    {
      hide And, Or, Less, Encode, SetBits;
      var original := uxEventBits;
      var _, _ := SetEventBits(b);
      if And(Or(original, b), mask) == mask {
        r := Returns(Or(original, b));
        uxEventBits := Less(uxEventBits, mask);
      } else if willing {
        var w := Waiter(t, mask, true, true);
        DecodeEncode(w);
        ghost var before := Decoded(xTasksWaitingForBits);
        xTasksWaitingForBits := xTasksWaitingForBits + [Item(t, Encode(w))];
        assert Decoded(xTasksWaitingForBits) == before + [w];
        r := Blocks;
      } else {
        r := Returns(uxEventBits);
      }
    }

    /** xEventGroupClearBits */
    method ClearEventBits(b: Bits) returns (r: Outcome)
      modifies this`uxEventBits
      ensures (G(), r) == ClearBits(old(G()), b)
      ensures r == Returns(old(uxEventBits)) && Takes(old(uxEventBits), uxEventBits, b)
    {
      hide And, Less, Takes;
      LessTakes(uxEventBits, b);
      r := Returns(uxEventBits);
      uxEventBits := Less(uxEventBits, b);
    }

    /** The end of xEventGroupWaitBits, in a task that blocked, with the value of its item. */
    method FinishWait(w: Waiter, value: Bits) returns (r: Outcome)
      modifies this`uxEventBits
      ensures (G(), r) == AfterWaiting(old(G()), w, value)
    {
      hide And, Less, Met;
      var bits := value;
      if And(bits, UNBLOCKED_BY_SET) == 0 {
        bits := uxEventBits;
        if Met(bits, w.mask, w.all) {
          if w.clear { uxEventBits := Less(uxEventBits, w.mask); }
        }
      }
      r := Returns(Less(bits, CONTROL));
    }
  }
}
