/** The absolute value, and the few facts about products and quotients of reals that the proofs use. */
module Arith {

  function Abs(x: real): real { if x < 0.0 then -x else x }

  lemma MulMono(a: real, b: real, c: real)
    requires a <= b && 0.0 <= c
    ensures a * c <= b * c
  {
    assert (b - a) * c >= 0.0;
  }

  lemma MulNonNeg(a: real, b: real)
    requires 0.0 <= a && 0.0 <= b
    ensures 0.0 <= a * b
  {}

  lemma DivMul(n: real, d: real)
    requires d != 0.0
    ensures n / d * d == n
  {}

  lemma Quotient(n: real, d: real)
    requires d > 0.0
    ensures n / d * d == n
    ensures n >= 0.0 ==> n / d >= 0.0
    ensures n <= d ==> n / d <= 1.0
    ensures n >= d ==> n / d >= 1.0
  {
    var q := n / d;
    assert q * d == n;
    assert q < 0.0 ==> q * d < 0.0;
    assert q > 1.0 ==> q * d > d;
    assert q < 1.0 ==> q * d < d;
  }

  lemma QuotientMono(a: real, b: real, d: real)
    requires d > 0.0 && a <= b
    ensures a / d <= b / d
  {
    var p, q := a / d, b / d;
    assert p * d == a && q * d == b;
    assert p > q ==> p * d > q * d;
  }

  /** A weighted mean of two numbers lies in any interval holding both. */
  lemma Mix(a: real, x: real, y: real, lo: real, hi: real)
    requires 0.0 <= a <= 1.0 && lo <= x <= hi && lo <= y <= hi
    ensures lo <= a * x + (1.0 - a) * y <= hi
  {
    MulNonNeg(a, x - lo);
    MulNonNeg(a, hi - x);
    MulNonNeg(1.0 - a, y - lo);
    MulNonNeg(1.0 - a, hi - y);
    assert a * x + (1.0 - a) * y - lo == a * (x - lo) + (1.0 - a) * (y - lo);
    assert hi - (a * x + (1.0 - a) * y) == a * (hi - x) + (1.0 - a) * (hi - y);
  }
}
