/** Filing a software timer by modular time (freertos/timers.c): the decisions taken on 32-bit
    expiry and command times, against unbounded time. */
module Timers {
  import opened TickTime

  // ----- Filing by modular time --------------------------------------------------------------

  datatype Filing = Expired | ToCurrent | ToOverflow

  /** The decision of prvInsertTimerInActiveList. */
  function File(next: int, now: int, command: int, period: int): Filing {
    if next <= now then (if (now - command) % WRAP >= period then Expired else ToOverflow)
    else if now < command && next >= command then Expired
    else ToCurrent
  }

  /** Splits a time after another, less than a wrap later, into epochs and ticks. */
  lemma Later(c: nat, d: nat)
    requires d < WRAP
    ensures var t := c + d;
            if c % WRAP + d < WRAP then t / WRAP == c / WRAP && t % WRAP == c % WRAP + d
            else t / WRAP == c / WRAP + 1 && t % WRAP == c % WRAP + d - WRAP
  {
    var e, r := c / WRAP, c % WRAP;
    assert c == e * WRAP + r;
    assert (e + 1) * WRAP == e * WRAP + WRAP;
  }

  /** With less than 2^32 ticks between a command and its processing, the timer is reported
      expired exactly when its period has elapsed, and is otherwise filed by the epoch of its
      true expiry: that of the present, or the next. */
  lemma FilingIsExact(c: nat, t: nat, p: nat)
    requires 0 < p < WRAP && c <= t < c + WRAP
    ensures var f := File((c + p) % WRAP, t % WRAP, c % WRAP, p);
            && (f == Expired <==> t - c >= p)
            && (f == ToCurrent ==> (c + p) / WRAP == t / WRAP)
            && (f == ToOverflow ==> (c + p) / WRAP == t / WRAP + 1)
  {
    Later(c, p);
    Later(c, t - c);
    var a, d := c % WRAP, t - c;
    assert 0 <= a < WRAP;
    if a + d < WRAP {
      assert (t % WRAP - a) % WRAP == d;
    } else {
      assert t % WRAP - a == d - WRAP;
      assert (d - WRAP) % WRAP == d;
    }
  }

  /** Whatever the delay, the report is about the elapsed time modulo 2^32; so it is right
      exactly when the period has not elapsed, or the remainder covers it too. */
  lemma FilingReportsModular(c: nat, t: nat, p: nat)
    requires 0 < p < WRAP && c <= t
    ensures File((c + p) % WRAP, t % WRAP, c % WRAP, p) == Expired <==> (t - c) % WRAP >= p
  {
    var d := (t - c) % WRAP;
    var u := c + d;
    assert t == u + (t - c) / WRAP * WRAP;
    SameTick(u, t, (t - c) / WRAP);
    FilingIsExact(c, u, p);
  }

  lemma SameTick(a: nat, b: nat, k: nat)
    requires b == a + k * WRAP
    ensures a % WRAP == b % WRAP
    decreases k
  {
    if k > 0 {
      assert b - WRAP == a + (k - 1) * WRAP;
      SameTick(a, b - WRAP, k - 1);
    }
  }

  lemma FilingIsExactIff(c: nat, t: nat, p: nat)
    requires 0 < p < WRAP && c <= t
    ensures (File((c + p) % WRAP, t % WRAP, c % WRAP, p) == Expired <==> t - c >= p)
       <==> t - c < p || (t - c) % WRAP >= p
  {
    FilingReportsModular(c, t, p);
    if t - c < p { assert (t - c) % WRAP == t - c; }
  }

  /** prvSampleTimeNow notices a wrap by the tick going down, which is right exactly when less
      than 2^32 ticks have passed since it last looked. */
  lemma WrapIsNoticedIff(last: nat, t: nat)
    requires last <= t
    ensures t / WRAP == last / WRAP + (if t % WRAP < last % WRAP then 1 else 0) <==> t - last < WRAP
  {
    ElapsedModWrap(last, t);
    var e, f := last / WRAP, t / WRAP;
    assert last == e * WRAP + last % WRAP && t == f * WRAP + t % WRAP;
    assert (e + 1) * WRAP == e * WRAP + WRAP;
    if f > e + 1 { assert f * WRAP >= (e + 2) * WRAP == e * WRAP + 2 * WRAP; }
  }
}
