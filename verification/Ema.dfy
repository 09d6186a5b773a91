/** Adaptive exponential moving average (src/ema_filter.py).  The base weight
    1 - exp(-poll/window) is a parameter strictly between 0 and 1. */
module Ema {
  import opened Types
  import opened Arith

  datatype EmaConfig = EmaConfig(alpha: real, sensitivity: real)

  predicate ValidConfig(c: EmaConfig) {
    0.0 < c.alpha < 1.0 && c.sensitivity > 0.0
  }

  function AdaptiveAlpha(c: EmaConfig, newValue: real, current: Option<real>): real
    requires ValidConfig(c)
  {
    if current.None? || Abs(current.value) < 0.000001 then 1.0
    else
      Weight(c, Abs(newValue - current.value) / Abs(current.value))
  }

  function Weight(c: EmaConfig, deviation: real): real
    requires ValidConfig(c)
  {
    var q := deviation / c.sensitivity;
    c.alpha + (1.0 - c.alpha) * (if q < 1.0 then q else 1.0)
  }

  function UpdateEma(c: EmaConfig, newValue: real, current: Option<real>): real
    requires ValidConfig(c)
  {
    if current.None? then newValue
    else
      var alpha := AdaptiveAlpha(c, newValue, current);
      alpha * newValue + (1.0 - alpha) * current.value
  }

  lemma AlphaInRange(c: EmaConfig, newValue: real, current: Option<real>)
    requires ValidConfig(c)
    ensures c.alpha <= AdaptiveAlpha(c, newValue, current) <= 1.0
  {
    if current.Some? && Abs(current.value) >= 0.000001 {
      DeviationNonNegative(newValue, current.value);
      WeightInRange(c, Abs(newValue - current.value) / Abs(current.value));
    }
  }

  lemma DeviationNonNegative(newValue: real, current: real)
    requires Abs(current) > 0.0
    ensures Abs(newValue - current) / Abs(current) >= 0.0
  {
    Quotient(Abs(newValue - current), Abs(current));
  }

  lemma WeightInRange(c: EmaConfig, deviation: real)
    requires ValidConfig(c) && deviation >= 0.0
    ensures c.alpha <= Weight(c, deviation) <= 1.0
  {
    Quotient(deviation, c.sensitivity);
    var q := deviation / c.sensitivity;
    var fraction := if q < 1.0 then q else 1.0;
    MulNonNeg(1.0 - c.alpha, fraction);
    MulMono(fraction, 1.0, 1.0 - c.alpha);
  }

  /** The average never leaves an interval that holds it and the new sample. */
  lemma UpdateStaysBetween(c: EmaConfig, newValue: real, current: Option<real>, lo: real, hi: real)
    requires ValidConfig(c)
    requires lo <= newValue <= hi && (current.Some? ==> lo <= current.value <= hi)
    ensures lo <= UpdateEma(c, newValue, current) <= hi
  {
    if current.Some? {
      AlphaInRange(c, newValue, current);
      var a := AdaptiveAlpha(c, newValue, current);
      Mix(a, newValue, current.value, lo, hi);
    }
  }

  /** A sample that deviates by at least the sensitivity is taken over at once;
      any other sample shrinks the error by at least the base weight. */
  lemma UpdateApproaches(c: EmaConfig, newValue: real, current: real)
    requires ValidConfig(c)
    ensures Abs(newValue - UpdateEma(c, newValue, Some(current))) <= (1.0 - c.alpha) * Abs(newValue - current)
    ensures Abs(newValue - current) >= c.sensitivity * Abs(current) ==>
              UpdateEma(c, newValue, Some(current)) == newValue
  {
    AlphaInRange(c, newValue, Some(current));
    var a := AdaptiveAlpha(c, newValue, Some(current));
    Shrink(a, c.alpha, newValue, current);
    if Abs(newValue - current) >= c.sensitivity * Abs(current) && Abs(current) >= 0.000001 {
      LargeDeviation(Abs(newValue - current), Abs(current), c.sensitivity);
      assert a == 1.0;
    }
  }

  /** Below the sensitivity the remaining error falls linearly from the base
      share to nothing as the deviation grows. */
  lemma UpdateExactly(c: EmaConfig, newValue: real, current: real)
    requires ValidConfig(c) && Abs(current) >= 0.000001
    requires Abs(newValue - current) < c.sensitivity * Abs(current)
    ensures (newValue - UpdateEma(c, newValue, Some(current))) * (c.sensitivity * Abs(current))
            == (1.0 - c.alpha) * (c.sensitivity * Abs(current) - Abs(newValue - current)) * (newValue - current)
  {
    var e, m, s := Abs(newValue - current), Abs(current), c.sensitivity;
    var q := e / m / s;
    assert q * (s * m) == e by { QuotientTwice(e, m, s); }
    assert q < 1.0 by { SmallQuotient(q, s * m, e); }
    var a := AdaptiveAlpha(c, newValue, Some(current));
    assert a == c.alpha + (1.0 - c.alpha) * q;
    ErrorLeft(a, c.alpha, q, newValue, current);
    ScaledError(1.0 - c.alpha, q, newValue - current, s * m, e);
  }

  lemma QuotientTwice(e: real, m: real, s: real)
    requires m > 0.0 && s > 0.0
    ensures s * m > 0.0 && e / m / s * (s * m) == e
  {
    var p := e / m;
    var q := p / s;
    assert p * m == e && q * s == p;
    assert q * (s * m) == q * s * m;
  }

  lemma SmallQuotient(q: real, d: real, e: real)
    requires d > 0.0 && q * d == e && e < d
    ensures q < 1.0
  {
    assert q >= 1.0 ==> q * d >= d;
  }

  lemma ErrorLeft(a: real, alpha: real, q: real, x: real, y: real)
    requires a == alpha + (1.0 - alpha) * q
    ensures x - (a * x + (1.0 - a) * y) == (1.0 - alpha) * (1.0 - q) * (x - y)
  {
    var b := 1.0 - a;
    Difference(a, b, x, y);
    assert b == (1.0 - alpha) * (1.0 - q);
  }

  lemma ScaledError(b: real, q: real, d: real, w: real, e: real)
    requires q * w == e
    ensures b * (1.0 - q) * d * w == b * (w - e) * d
  {
    assert (1.0 - q) * w == w - e;
    assert b * (1.0 - q) * d * w == b * ((1.0 - q) * w) * d;
  }

  lemma Difference(a: real, b: real, x: real, y: real)
    requires a + b == 1.0
    ensures x - (a * x + b * y) == b * (x - y)
  {
    var ax, bx, cy := a * x, b * x, b * y;
    assert ax + bx == (a + b) * x;
    assert (a + b) * x == x;
    assert b * (x - y) == bx - cy;
  }

  lemma Shrink(a: real, alpha: real, x: real, y: real)
    requires alpha <= a <= 1.0
    ensures Abs(x - (a * x + (1.0 - a) * y)) <= (1.0 - alpha) * Abs(x - y)
  {
    var e, b := x - y, 1.0 - a;
    Difference(a, b, x, y);
    AbsOfProduct(b, e);
    MulMono(b, 1.0 - alpha, Abs(e));
  }

  lemma AbsOfProduct(b: real, e: real)
    requires b >= 0.0
    ensures Abs(b * e) == b * Abs(e)
  {
  }

  lemma LargeDeviation(e: real, m: real, s: real)
    requires m > 0.0 && s > 0.0 && e >= s * m
    ensures e / m / s >= 1.0
  {
    QuotientMono(s * m, e, m);
    assert s * m / m == s;
    Quotient(e / m, s);
  }

  class MetricEma {
    const config: EmaConfig
    var emaValue: Option<real>

    constructor (config: EmaConfig)
      requires ValidConfig(config)
      ensures this.config == config && emaValue == None
    {
      this.config := config;
      emaValue := None;
    }

    method Update(newValue: real) returns (smoothed: real)
      requires ValidConfig(config)
      modifies this
      ensures emaValue == Some(smoothed)
      ensures smoothed == UpdateEma(config, newValue, old(emaValue))
    {
      smoothed := UpdateEma(config, newValue, emaValue);
      emaValue := Some(smoothed);
    }
  }
}
