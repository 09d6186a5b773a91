/** Restoring an outer alarm after a bounded inner operation
    (src/virtual_ups_exporter/__init__.py, _adjust_previous_timer). */
module Timer {
  import opened Arith

  /** An interval timer: time to the next tick, then the period (0 for one-shot). */
  datatype Timer = Timer(remaining: real, interval: real)

  datatype Adjusted = Adjusted(timer: Timer, expiredOneShot: bool)

  /** Python's % for a positive divisor. */
  function Modulo(x: real, d: real): real
    requires d > 0.0
  {
    x - (x / d).Floor as real * d
  }

  function AdjustPreviousTimer(previous: Timer, elapsed: real): Adjusted {
    if previous.remaining <= 0.0 then Adjusted(Timer(0.0, 0.0), false)
    else if previous.interval <= 0.0 then
      if elapsed < previous.remaining then Adjusted(Timer(previous.remaining - elapsed, 0.0), false)
      else Adjusted(Timer(0.0, 0.0), true)
    else if elapsed < previous.remaining then
      Adjusted(Timer(previous.remaining - elapsed, previous.interval), false)
    else
      var remainder := Modulo(elapsed - previous.remaining, previous.interval);
      var next := if remainder <= 0.0 then previous.interval else previous.interval - remainder;
      Adjusted(Timer(next, previous.interval), false)
  }

  /** When the original timer fires: its first tick, then once per period. */
  function Tick(t: Timer, m: int): real {
    t.remaining + m as real * t.interval
  }

  /** Tick m is the first one strictly after `elapsed`. */
  ghost predicate FirstTickAfter(t: Timer, elapsed: real, m: int) {
    && 0 <= m && Tick(t, m) > elapsed
    && forall k :: 0 <= k && Tick(t, k) > elapsed ==> m <= k
  }

  lemma ModuloRange(x: real, d: real)
    requires d > 0.0
    ensures 0.0 <= Modulo(x, d) < d
  {
    var q := x / d;
    assert q * d == x;
    FractionalPart(x, q, d, q.Floor as real);
  }

  lemma FractionalPart(x: real, q: real, d: real, f: real)
    requires d > 0.0 && q * d == x && f <= q < f + 1.0
    ensures 0.0 <= x - f * d
    ensures x - f * d < d
  {
    var u, v := f + 1.0 - q, q - f;
    assert u > 0.0 && u * d > 0.0;
    assert u * d == d - (x - f * d);
    assert v * d >= 0.0;
    assert v * d == x - f * d;
  }

  lemma TickShift(t: Timer, m: int, k: int)
    ensures Tick(t, m + k) == Tick(t, m) + k as real * t.interval
  {
    assert (m + k) as real * t.interval == m as real * t.interval + k as real * t.interval by {
      assert (m + k) as real == m as real + k as real;
    }
  }

  lemma TicksApart(t: Timer, m: int, k: int)
    requires t.interval > 0.0 && m < k
    ensures Tick(t, m) + t.interval <= Tick(t, k)
  {
    TickShift(t, m, k - m);
    MulMono(1.0, (k - m) as real, t.interval);
  }

  /** A tick after `elapsed` whose predecessor is not after it is the first. */
  lemma TickIsFirst(t: Timer, elapsed: real, m: int)
    requires t.interval > 0.0 && 0 <= m && Tick(t, m) > elapsed
    requires m > 0 ==> Tick(t, m) - t.interval <= elapsed
    ensures FirstTickAfter(t, elapsed, m)
  {
    forall k | 0 <= k && Tick(t, k) > elapsed ensures m <= k {
      if k < m {
        TicksApart(t, k, m);
      }
    }
  }

  /** A periodic timer resumes at its first original tick strictly after the
      elapsed time, with its period. */
  lemma PeriodicResumes(t: Timer, elapsed: real) returns (m: int)
    requires t.remaining > 0.0 && t.interval > 0.0 && elapsed >= 0.0
    ensures FirstTickAfter(t, elapsed, m)
    ensures AdjustPreviousTimer(t, elapsed) == Adjusted(Timer(Tick(t, m) - elapsed, t.interval), false)
  {
    if elapsed < t.remaining {
      m := 0;
    } else {
      var x := elapsed - t.remaining;
      ModuloRange(x, t.interval);
      Arith.Quotient(x, t.interval);
      var f := (x / t.interval).Floor;
      m := f + 1;
      TickShift(t, f, 1);
      assert Modulo(x, t.interval) == x - f as real * t.interval;
    }
    TickIsFirst(t, elapsed, m);
  }

  /** A one-shot fires when it would have fired, unless that is already past: then
      it is reported, once, and nothing is left.  A timer that was not running is
      left off. */
  lemma OneShotExactly(t: Timer, elapsed: real)
    requires elapsed >= 0.0 && t.interval <= 0.0
    ensures var after := AdjustPreviousTimer(t, elapsed);
            && after.timer.interval == 0.0
            && (after.expiredOneShot <==> 0.0 < t.remaining <= elapsed)
            && (t.remaining > elapsed ==> elapsed + after.timer.remaining == t.remaining)
            && (t.remaining <= elapsed ==> after.timer.remaining == 0.0)
  {}

  lemma FirstTickUnique(t: Timer, elapsed: real, m: int, n: int)
    requires FirstTickAfter(t, elapsed, m) && FirstTickAfter(t, elapsed, n)
    ensures m == n
  {
    assert m <= n && n <= m;
  }

  /** Ticks of the timer resumed at tick m, on the original time line. */
  lemma ResumedTicks(t: Timer, m: int, e: real, k: int)
    ensures Tick(Timer(Tick(t, m) - e, t.interval), k) == Tick(t, m + k) - e
  {
    TickShift(t, m, k);
  }

  lemma ResumeTwice(t: Timer, e1: real, e2: real, m: int, k: int)
    requires t.interval > 0.0 && e2 >= 0.0
    requires FirstTickAfter(t, e1, m) && FirstTickAfter(Timer(Tick(t, m) - e1, t.interval), e2, k)
    ensures FirstTickAfter(t, e1 + e2, m + k)
  {
    var mid := Timer(Tick(t, m) - e1, t.interval);
    ResumedTicks(t, m, e1, k);
    forall n | 0 <= n && Tick(t, n) > e1 + e2 ensures m + k <= n {
      assert m <= n;
      ResumedTicks(t, m, e1, n - m);
      assert k <= n - m;
    }
  }

  lemma PeriodicComposes(t: Timer, e1: real, e2: real)
    requires t.remaining > 0.0 && t.interval > 0.0 && e1 >= 0.0 && e2 >= 0.0
    ensures AdjustPreviousTimer(AdjustPreviousTimer(t, e1).timer, e2) == AdjustPreviousTimer(t, e1 + e2)
  {
    var m := PeriodicResumes(t, e1);
    var mid := Timer(Tick(t, m) - e1, t.interval);
    var k := PeriodicResumes(mid, e2);
    var n := PeriodicResumes(t, e1 + e2);
    ResumeTwice(t, e1, e2, m, k);
    FirstTickUnique(t, e1 + e2, m + k, n);
    ResumedTicks(t, m, e1, k);
  }

  /** Adjusting by e1 and then by e2 is adjusting by e1 + e2; the expiry of a
      one-shot is reported exactly once. */
  lemma AdjustComposes(t: Timer, e1: real, e2: real)
    requires e1 >= 0.0 && e2 >= 0.0
    ensures var first := AdjustPreviousTimer(t, e1);
            var second := AdjustPreviousTimer(first.timer, e2);
            var whole := AdjustPreviousTimer(t, e1 + e2);
            && second.timer == whole.timer
            && (whole.expiredOneShot <==> first.expiredOneShot || second.expiredOneShot)
            && !(first.expiredOneShot && second.expiredOneShot)
  {
    if t.remaining > 0.0 && t.interval > 0.0 {
      PeriodicComposes(t, e1, e2);
      var m := PeriodicResumes(t, e1);
      var n := PeriodicResumes(t, e1 + e2);
    }
  }
}
