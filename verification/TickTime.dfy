/** The 32-bit tick counter read as a view of unbounded time: the time-out check
    shared by every blocking call, and vTaskDelayUntil. Source: freertos/tasks.c. */
module TickTime {

  const WRAP: nat := 0x1_0000_0000
  const MAX_DELAY: nat := 0xFFFF_FFFF

  /** TickType_t: a 32-bit unsigned counter. */
  type Tick = t: nat | t < WRAP

  /** Unsigned 32-bit addition and subtraction. */
  function Add(a: Tick, b: Tick): Tick { (a + b) % WRAP }

  function Sub(a: Tick, b: Tick): Tick { (a - b) % WRAP }

  /** The pair (xTickCount, xNumOfOverflows). */
  datatype Clock = Clock(tick: Tick, overflows: nat)

  /** The clock reading after `time` tick interrupts, counted without wrapping. */
  function ClockAt(time: nat): Clock { Clock(time % WRAP, time / WRAP) }

  // ----- xTaskCheckForTimeOut ------------------------------------------------

  /** What one check answers: expired or not, and the ticks left to wait. */
  datatype Check = Check(expired: bool, entry: Clock, left: Tick)

  function CheckTimeOut(entry: Clock, wait: Tick, now: Clock): Check {
    if wait == MAX_DELAY then Check(false, entry, wait)
    else if now.overflows != entry.overflows && now.tick >= entry.tick then Check(true, entry, wait)
    else if Sub(now.tick, entry.tick) < wait then
      Check(false, now, wait - Sub(now.tick, entry.tick))
    else Check(true, entry, 0)
  }

  /** TimeOut_t, together with the caller's xTicksToWait variable. */
  class TimeOut {
    var entry: Clock
    var ticksToWait: Tick

    constructor (now: Clock, wait: Tick)
      ensures entry == now && ticksToWait == wait
    {
      entry := now;
      ticksToWait := wait;
    }

    method CheckForTimeOut(now: Clock) returns (expired: bool)
      modifies this
      ensures Check(expired, entry, ticksToWait) == CheckTimeOut(old(entry), old(ticksToWait), now)
    {
      var elapsed := Sub(now.tick, entry.tick);
      if ticksToWait == MAX_DELAY {
        expired := false;
      } else if now.overflows != entry.overflows && now.tick >= entry.tick {
        expired := true;
      } else if elapsed < ticksToWait {
        ticksToWait := ticksToWait - elapsed;
        entry := now;
        expired := false;
      } else {
        ticksToWait := 0;
        expired := true;
      }
    }
  }

  /** Splits a difference of unbounded times into whole wraps and a remainder. */
  lemma ElapsedModWrap(start: nat, now: nat)
    requires start <= now
    ensures Sub(now % WRAP, start % WRAP) == (now - start) % WRAP
    ensures now / WRAP == start / WRAP ==> now % WRAP >= start % WRAP && (now - start) % WRAP == now - start
    ensures now / WRAP == start / WRAP + 1 ==> (now - start < WRAP <==> now % WRAP < start % WRAP)
    ensures now / WRAP >= start / WRAP
  {
    var a, b := now / WRAP, start / WRAP;
    var c, d := now % WRAP, start % WRAP;
    assert now == a * WRAP + c && start == b * WRAP + d;
    assert now - start == (a - b) * WRAP + (c - d);
    if c >= d {
      assert (now - start) / WRAP == a - b && (now - start) % WRAP == c - d;
    } else {
      assert now - start == (a - b - 1) * WRAP + (c - d + WRAP);
      assert (now - start) % WRAP == c - d + WRAP;
      assert (c - d) % WRAP == c - d + WRAP;
    }
  }

  /** The check answers exactly as unbounded time does unless the tick has wrapped at
      least twice since entry, lies below the entry tick, and the remainder is short. */
  lemma TimeOutAgreesWithUnboundedTime(start: nat, wait: Tick, now: nat)
    requires start <= now && wait != MAX_DELAY
    ensures CheckTimeOut(ClockAt(start), wait, ClockAt(now)).expired == (now - start >= wait)
       <==> !(now / WRAP >= start / WRAP + 2 && now % WRAP < start % WRAP && (now - start) % WRAP < wait)
  {
    ElapsedModWrap(start, now);
    if now / WRAP >= start / WRAP + 2 && now % WRAP < start % WRAP {
      assert now - start >= WRAP by {
        assert now == (now / WRAP) * WRAP + now % WRAP && start == (start / WRAP) * WRAP + start % WRAP;
      }
    } else if now / WRAP >= start / WRAP + 1 && now % WRAP >= start % WRAP {
      assert now - start >= WRAP by {
        assert now == (now / WRAP) * WRAP + now % WRAP && start == (start / WRAP) * WRAP + start % WRAP;
      }
    }
  }

  /** The excluded family is real: two wraps less one tick are mistaken for no time at all. */
  lemma TwoWrapsAreMistaken()
    ensures !CheckTimeOut(ClockAt(5), WRAP - 2, ClockAt(2 * WRAP + 2)).expired
    ensures 2 * WRAP + 2 - 5 >= WRAP - 2
  {
    assert Sub(2, 5) == WRAP - 3;
  }

  /** A blocking call checks at times[0], times[1], ... until a check reports expiry; the
      result is the number of checks that did not, and the ticks still left. */
  function Retry(entry: Clock, wait: Tick, times: seq<nat>): (r: (nat, Tick))
    ensures r.0 <= |times|
    decreases |times|
  {
    if times == [] then (0, wait)
    else
      var c := CheckTimeOut(entry, wait, ClockAt(times[0]));
      if c.expired then (0, c.left)
      else
        var (n, left) := Retry(c.entry, c.left, times[1..]);
        (n + 1, left)
  }

  /** Consecutive checks, starting at `start`, see at most one wrap of the tick. */
  ghost predicate WithinOneWrap(start: nat, times: seq<nat>)
    decreases |times|
  {
    times != [] ==>
      && start <= times[0]
      && times[0] / WRAP <= start / WRAP + 1
      && WithinOneWrap(times[0], times[1..])
  }

  /** Through any number of retries the deadline is the original one: the first check that
      expires is the first made at or after start + wait. */
  lemma {:induction false} RetriesKeepTheDeadline(start: nat, wait: Tick, times: seq<nat>)
    requires wait != MAX_DELAY
    requires WithinOneWrap(start, times)
    ensures var (n, left) := Retry(ClockAt(start), wait, times);
            && (forall i :: 0 <= i < n ==> times[i] < start + wait)
            && (n < |times| ==> times[n] >= start + wait)
            && (n == |times| > 0 ==> times[n - 1] + left == start + wait)
    decreases |times|
  {
    if times != [] {
      TimeOutAgreesWithUnboundedTime(start, wait, times[0]);
      ElapsedModWrap(start, times[0]);
      var c := CheckTimeOut(ClockAt(start), wait, ClockAt(times[0]));
      if !c.expired {
        assert times[0] - start < wait;
        assert c.entry == ClockAt(times[0]) && times[0] + c.left == start + wait;
        RetriesKeepTheDeadline(times[0], c.left, times[1..]);
        var (n, left) := Retry(c.entry, c.left, times[1..]);
        assert forall i :: 0 <= i < n ==> times[1..][i] == times[i + 1];
      }
    }
  }

  /** portMAX_DELAY waits for ever, whatever the clock does. */
  lemma {:induction false} IndefiniteWaitNeverExpires(entry: Clock, times: seq<nat>)
    ensures Retry(entry, MAX_DELAY, times) == (|times|, MAX_DELAY)
    decreases |times|
  {
    if times != [] {
      IndefiniteWaitNeverExpires(entry, times[1..]);
    }
  }

  // ----- vTaskDelayUntil -----------------------------------------------------

  /** Whether the caller is put on the delayed list. */
  predicate ShouldDelay(previousWake: Tick, increment: Tick, now: Tick) {
    var wake := Add(previousWake, increment);
    if now < previousWake then wake < previousWake && wake > now
    else wake < previousWake || wake > now
  }

  /** The scheduler-suspended region; `blockTicks` is what is passed on to the delayed list. */
  method DelayUntil(previousWake: Tick, increment: Tick, now: Tick)
    returns (wake: Tick, shouldDelay: bool, blockTicks: Tick)
    requires increment > 0
    ensures wake == Add(previousWake, increment)
    ensures shouldDelay <==> ShouldDelay(previousWake, increment, now)
    ensures shouldDelay ==> blockTicks == Sub(wake, now) && 0 < blockTicks
  {
    shouldDelay := false;
    wake := Add(previousWake, increment);
    if now < previousWake {
      if wake < previousWake && wake > now { shouldDelay := true; }
    } else {
      if wake < previousWake || wake > now { shouldDelay := true; }
    }
    blockTicks := Sub(wake, now);
  }

  /** Whatever the wake variable and the clock, the decision is about the time since the previous
      wake modulo 2^32. */
  lemma ShouldDelayIsModular(previousWake: nat, increment: Tick, now: nat)
    requires 0 < increment
    ensures ShouldDelay(previousWake % WRAP, increment, now % WRAP) <==> increment > (now - previousWake) % WRAP
  {
    var p, n := previousWake % WRAP, now % WRAP;
    ModDifference(now, previousWake);
    assert Add(p, increment) == if p + increment >= WRAP then p + increment - WRAP else p + increment;
  }

  lemma ModDifference(a: nat, b: nat)
    ensures (a - b) % WRAP == if a % WRAP >= b % WRAP then a % WRAP - b % WRAP else a % WRAP - b % WRAP + WRAP
  {
    var d := a % WRAP - b % WRAP;
    assert a - b == (a / WRAP - b / WRAP) * WRAP + d;
    ModShift(d, a / WRAP - b / WRAP);
  }

  lemma {:induction false} ModShift(d: int, k: int)
    ensures (k * WRAP + d) % WRAP == d % WRAP
    decreases if k < 0 then -k else k
  {
    if k > 0 {
      assert k * WRAP + d == ((k - 1) * WRAP + d) + WRAP;
      ModShift(d, k - 1);
    } else if k < 0 {
      assert (k + 1) * WRAP + d == (k * WRAP + d) + WRAP;
      ModShift(d, k + 1);
    }
  }

  /** The calls that are not mistaken about unbounded time: less than a wrap late, or with a
      remainder that covers the increment; before the previous wake time, with one that does not. */
  predicate DecidesRightly(previousWake: nat, increment: Tick, now: nat) {
    if previousWake <= now then now - previousWake < WRAP || increment <= (now - previousWake) % WRAP
    else increment > (now - previousWake) % WRAP
  }

  /** The caller blocks exactly when its next wake time is still ahead, and then until that very
      time, but for two families of calls: a full wrap or more late with a short remainder, and
      before the previous wake time, as after an early return from suspension, with a remainder
      the increment does not exceed. */
  lemma DelayUntilAgreesWithUnboundedTime(previousWake: nat, increment: Tick, now: nat)
    requires 0 < increment
    ensures ShouldDelay(previousWake % WRAP, increment, now % WRAP) == (previousWake + increment > now)
       <==> DecidesRightly(previousWake, increment, now)
    ensures previousWake <= now < previousWake + increment ==>
              now + Sub(Add(previousWake % WRAP, increment), now % WRAP) == previousWake + increment
  {
    ShouldDelayIsModular(previousWake, increment, now);
    AddModWrap(previousWake, increment);
    if previousWake <= now < previousWake + increment {
      ElapsedModWrap(now, previousWake + increment);
    }
  }

  /** A call before the previous wake time, by up to a wrap, returns at once, unless that is within
      an increment of the whole wrap, and moves the wake variable an increment further ahead. */
  lemma EarlyCallDelaysIff(previousWake: nat, increment: Tick, now: nat)
    requires 0 < increment && now < previousWake <= now + WRAP
    ensures ShouldDelay(previousWake % WRAP, increment, now % WRAP) <==> previousWake + increment > now + WRAP
    ensures !ShouldDelay(previousWake % WRAP, increment, now % WRAP) ==>
              now < previousWake + increment && Add(previousWake % WRAP, increment) == (previousWake + increment) % WRAP
  {
    ShouldDelayIsModular(previousWake, increment, now);
    AddModWrap(previousWake, increment);
    EarlyRemainder(previousWake, now);
  }

  lemma EarlyRemainder(previousWake: nat, now: nat)
    requires now < previousWake <= now + WRAP
    ensures (now - previousWake) % WRAP == if previousWake == now + WRAP then 0 else now - previousWake + WRAP
  {
  }

  /** A task due at tick 100 is suspended, is resumed at tick 50 and calls again: it should sleep
      until 110 and does not sleep at all. */
  lemma EarlyCallIsNotDelayed()
    ensures !ShouldDelay(100, 10, 50) && 100 + 10 > 50
  {
  }

  /** One periodic task: call k happens at calls[k] with the wake variable left by call k-1. */
  function WakeVariable(first: Tick, increment: Tick, k: nat): Tick {
    if k == 0 then first else Add(WakeVariable(first, increment, k - 1), increment)
  }

  /** Zero drift: after k calls the wake variable is exactly k periods on, so call k made from then
      on blocks exactly when first + (k+1) * increment is ahead, and then until that instant. Any
      other call decides rightly in the cases of one call. */
  lemma PeriodicCallsDoNotDrift(first: nat, increment: Tick, k: nat, now: nat)
    requires 0 < increment
    ensures WakeVariable(first % WRAP, increment, k) == (first + k * increment) % WRAP
    ensures ShouldDelay(WakeVariable(first % WRAP, increment, k), increment, now % WRAP) == (first + (k + 1) * increment > now)
       <==> DecidesRightly(first + k * increment, increment, now)
    ensures first + k * increment <= now < first + (k + 1) * increment ==>
              now + Sub(WakeVariable(first % WRAP, increment, k + 1), now % WRAP) == first + (k + 1) * increment
  {
    WakeVariableIsExact(first, increment, k);
    WakeVariableIsExact(first, increment, k + 1);
    assert (k + 1) * increment == k * increment + increment;
    DelayUntilAgreesWithUnboundedTime(first + k * increment, increment, now);
    AddModWrap(first + k * increment, increment);
  }

  /** A task that has returned early does not sleep however often it calls, until the wake
      variable has come round to the clock again. */
  lemma EarlyCallsKeepReturning(first: nat, increment: Tick, k: nat, now: nat)
    requires 0 < increment && now < first && first + (k + 1) * increment <= now + WRAP
    ensures !ShouldDelay(WakeVariable(first % WRAP, increment, k), increment, now % WRAP)
  {
    WakeVariableIsExact(first, increment, k);
    assert (k + 1) * increment == k * increment + increment && k * increment >= 0;
    EarlyCallDelaysIff(first + k * increment, increment, now);
  }

  lemma {:induction false} WakeVariableIsExact(first: nat, increment: Tick, k: nat)
    ensures WakeVariable(first % WRAP, increment, k) == (first + k * increment) % WRAP
  {
    hide Add;
    if k > 0 {
      WakeVariableIsExact(first, increment, k - 1);
      OnePeriodMore(k, increment);
      AddModWrap(first + (k - 1) * increment, increment);
    }
  }

  lemma OnePeriodMore(k: nat, increment: nat)
    requires k > 0
    ensures 0 <= (k - 1) * increment && (k - 1) * increment + increment == k * increment
  {
  }

  lemma AddModWrap(a: nat, b: Tick)
    ensures Add(a % WRAP, b) == (a + b) % WRAP
  {
  }
}
