/** The load-step scan is exact on a linear battery: it returns the true
    coefficient at the true transition, or nothing, at any polling cadence. */
module IrExact {
  import opened Types
  import opened Sorting
  import opened IrEstimator
  import opened Arith

  // ----- statistics of a two-level window ---------------------------------------

  function Rep(n: nat, x: real): seq<real> { seq(n, i => x) }

  /** a readings at level x followed by b readings at level y. */
  function Block(a: nat, b: nat, x: real, y: real): seq<real> { seq(a + b, i => if i < a then x else y) }

  lemma BlockIsConcat(a: nat, b: nat, x: real, y: real)
    ensures Block(a, b, x, y) == Rep(a, x) + Rep(b, y)
  {}

  lemma {:induction false} SumsOfConcat(s: seq<real>, t: seq<real>, mean: real)
    ensures Sum(s + t) == Sum(s) + Sum(t)
    ensures SquaredDeviations(s + t, mean) == SquaredDeviations(s, mean) + SquaredDeviations(t, mean)
  {
    if s == [] {
      assert s + t == t;
    } else {
      assert (s + t)[0] == s[0] && (s + t)[1..] == s[1..] + t;
      SumsOfConcat(s[1..], t, mean);
    }
  }

  lemma {:induction false} SumsOfRep(n: nat, x: real, mean: real)
    ensures Sum(Rep(n, x)) == n as real * x
    ensures SquaredDeviations(Rep(n, x), mean) == n as real * ((x - mean) * (x - mean))
  {
    if n > 0 {
      assert Rep(n, x)[1..] == Rep(n - 1, x) && Rep(n, x)[0] == x;
      SumsOfRep(n - 1, x, mean);
    }
  }

  lemma VarianceAlgebra(a: real, b: real, p: real, q: real, v: real)
    requires a + b > 0.0 && a * p + b * q == 0.0
    requires v * (a + b) == a * (p * p) + b * (q * q)
    ensures v * ((a + b) * (a + b)) == a * b * ((q - p) * (q - p))
  {
    var n := a + b;
    var pq := p * q;
    assert a * (p * p) == (a * p) * p == -(b * q) * p == -b * pq;
    assert b * (q * q) == (b * q) * q == -(a * p) * q == -a * pq;
    assert v * n == -pq * n;
    assert (v + pq) * n == 0.0;
    assert v == -pq;
    assert a * b * (q * q) == a * (b * (q * q)) == -(a * a) * pq;
    assert a * b * (p * p) == b * (a * (p * p)) == -(b * b) * pq;
    assert (q - p) * (q - p) == q * q - 2.0 * pq + p * p;
    assert a * b * ((q - p) * (q - p)) == a * b * (q * q) - 2.0 * (a * b) * pq + a * b * (p * p);
    assert n * n == a * a + 2.0 * (a * b) + b * b;
    assert v * (n * n) == -pq * (a * a + 2.0 * (a * b) + b * b);
  }

  lemma MeanAlgebra(a: real, b: real, x: real, y: real, mean: real)
    requires mean * (a + b) == a * x + b * y
    ensures a * (x - mean) + b * (y - mean) == 0.0
  {
    assert a * (x - mean) == a * x - a * mean;
    assert b * (y - mean) == b * y - b * mean;
    assert mean * (a + b) == a * mean + b * mean;
  }

  lemma MeanTimesCount(s: seq<real>)
    requires s != []
    ensures Mean(s) * |s| as real == Sum(s)
    ensures Variance(s) * |s| as real == SquaredDeviations(s, Mean(s))
  {
    DivMul(Sum(s), |s| as real);
    DivMul(SquaredDeviations(s, Mean(s)), |s| as real);
  }

  lemma BlockSums(a: nat, b: nat, x: real, y: real, mean: real)
    ensures Sum(Block(a, b, x, y)) == a as real * x + b as real * y
    ensures SquaredDeviations(Block(a, b, x, y), mean) ==
            a as real * ((x - mean) * (x - mean)) + b as real * ((y - mean) * (y - mean))
  {
    hide Sum, SquaredDeviations;
    BlockIsConcat(a, b, x, y);
    SumsOfConcat(Rep(a, x), Rep(b, y), mean);
    SumsOfRep(a, x, mean);
    SumsOfRep(b, y, mean);
  }

  lemma BlockVariance(a: nat, b: nat, x: real, y: real)
    requires a + b > 0
    ensures var n := (a + b) as real;
            Variance(Block(a, b, x, y)) * (n * n) == a as real * b as real * ((y - x) * (y - x))
  {
    hide Variance, Mean, Sum, SquaredDeviations;
    var s := Block(a, b, x, y);
    MeanTimesCount(s);
    BlockSums(a, b, x, y, Mean(s));
    BlockAlgebra(a as real, b as real, x, y, Mean(s), Variance(s));
  }

  lemma BlockAlgebra(a: real, b: real, x: real, y: real, mean: real, v: real)
    requires a + b > 0.0 && mean * (a + b) == a * x + b * y
    requires v * (a + b) == a * ((x - mean) * (x - mean)) + b * ((y - mean) * (y - mean))
    ensures v * ((a + b) * (a + b)) == a * b * ((y - x) * (y - x))
  {
    MeanAlgebra(a, b, x, y, mean);
    VarianceAlgebra(a, b, x - mean, y - mean, v);
    assert (y - mean) - (x - mean) == y - x;
  }

  lemma AscendingBlockMedian(a: nat, b: nat, x: real, y: real)
    requires a + b > 0 && x <= y
    ensures a > b ==> Median(Block(a, b, x, y)) == x
    ensures a < b ==> Median(Block(a, b, x, y)) == y
    ensures a == b ==> Median(Block(a, b, x, y)) == (x + y) / 2.0
  {
    SortOfSorted(Block(a, b, x, y), Identity);
  }

  lemma BlockMedian(a: nat, b: nat, x: real, y: real)
    requires a + b > 0
    ensures a > b ==> Median(Block(a, b, x, y)) == x
    ensures a < b ==> Median(Block(a, b, x, y)) == y
    ensures a == b ==> Median(Block(a, b, x, y)) == (x + y) / 2.0
  {
    if x <= y {
      AscendingBlockMedian(a, b, x, y);
    } else {
      AscendingBlockMedian(b, a, y, x);
      SwappedBlock(a, b, x, y);
      MedianOfPermutation(Block(a, b, x, y), Block(b, a, y, x));
    }
  }

  lemma SwappedBlock(a: nat, b: nat, x: real, y: real)
    ensures multiset(Block(a, b, x, y)) == multiset(Block(b, a, y, x))
  {
    BlockIsConcat(a, b, x, y);
    BlockIsConcat(b, a, y, x);
    assert multiset(Rep(a, x) + Rep(b, y)) == multiset(Rep(a, x)) + multiset(Rep(b, y));
    assert multiset(Rep(b, y) + Rep(a, x)) == multiset(Rep(b, y)) + multiset(Rep(a, x));
  }

  lemma LargeStep(d: real, m: real)
    requires m >= 0.0 && Abs(d) >= m
    ensures d * d >= m * m
  {
    var e := Abs(d);
    assert e * e == d * d;
    assert e * e >= e * m;
    assert e * m >= m * m;
  }

  /** A window of at most 21 readings that mixes two levels either has too large
      a variance or a median that hides the step. */
  lemma MixedWindowHidesStep(a: nat, b: nat, x: real, y: real, ref: real)
    requires 0 < a + b <= 21
    requires (ref == x && a > 0) || (ref == y && b > 0)
    requires Variance(Block(a, b, x, y)) <= MAX_PLATEAU_VARIANCE
    ensures Abs(Median(Block(a, b, x, y)) - ref) < MIN_LOAD_STEP
  {
    hide Variance, Median;
    BlockMedian(a, b, x, y);
    BlockVariance(a, b, x, y);

    if a > 0 && b > 0 {
      SpreadBound(a, b, Variance(Block(a, b, x, y)), y - x);
    }
  }

  lemma SpreadBound(a: nat, b: nat, v: real, d: real)
    requires a > 0 && b > 0 && a + b <= 21 && v <= 4.0
    requires v * ((a + b) as real * (a + b) as real) == a as real * b as real * (d * d)
    ensures a == b ==> Abs(d) < 30.0
    ensures a != b ==> Abs(d) < 15.0
  {
    var n := (a + b) as real;
    assert n * n >= 0.0;
    Bound(v, 4.0, n * n);
    if a == b && Abs(d) >= 30.0 {
      LargeStep(d, 30.0);
      EqualCounts(a, d * d);
      assert false;
    }
    if a != b && Abs(d) >= 15.0 {
      LargeStep(d, 15.0);
      UnequalCounts(a, b, d * d);
      assert false;
    }
  }

  lemma Bound(v: real, w: real, m: real)
    requires v <= w && m >= 0.0
    ensures v * m <= w * m
  {
    assert (w - v) * m >= 0.0;
  }

  lemma EqualCounts(a: nat, dd: real)
    requires a > 0 && dd >= 900.0
    ensures a as real * a as real * dd > 4.0 * ((a + a) as real * (a + a) as real)
  {
    var r := a as real;
    var rr := r * r;
    assert rr > 0.0;
    assert (a + a) as real == 2.0 * r;
    assert (2.0 * r) * (2.0 * r) == 4.0 * rr;
    Bound(900.0, dd, rr);
    assert rr * dd >= rr * 900.0;
  }

  lemma UnequalCounts(a: nat, b: nat, dd: real)
    requires a > 0 && b > 0 && a + b <= 21 && dd >= 225.0
    ensures a as real * b as real * dd > 4.0 * ((a + b) as real * (a + b) as real)
  {
    var ab, n := a * b, a + b;
    CountProduct(a, b);
    var ra, rb := a as real, b as real;
    assert ra * rb == ab as real && (ra + rb) * (ra + rb) == (n * n) as real;
    Bound(225.0, dd, ab as real);
  }

  lemma CountProduct(a: nat, b: nat)
    requires a > 0 && b > 0 && a + b <= 21
    ensures 225 * (a * b) > 4 * ((a + b) * (a + b))
  {
    assert (a - 1) * (b - 1) >= 0;
    assert (a - 1) * (b - 1) == a * b - a - b + 1;
    assert (a + b) * (a + b) <= 21 * (a + b);
  }

  // ----- windows ---------------------------------------------------------------

  lemma {:induction false} PostIsPrefix(points: seq<Point>, transition: int) returns (n: nat)
    ensures n <= |points| && PostWindow(points, transition) == points[..n]
    ensures points != [] ==> n > 0
    ensures forall i :: 0 <= i < n - 1 ==> points[i].at - transition < PLATEAU_DURATION_S
    ensures n < |points| ==> points[n - 1].at - transition >= PLATEAU_DURATION_S
  {
    if points == [] {
      n := 0;
    } else if points[0].at - transition >= PLATEAU_DURATION_S {
      n := 1;
    } else {
      var m := PostIsPrefix(points[1..], transition);
      n := m + 1;
      assert points[..n] == [points[0]] + points[1..][..m];
      forall i | 0 <= i < n - 1 ensures points[i].at - transition < PLATEAU_DURATION_S {
        if i > 0 { assert points[i] == points[1..][i - 1]; }
      }
    }
  }

  lemma SuffixGrows(points: seq<Point>, m: nat)
    requires points != [] && m < |points|
    ensures var front := points[..|points| - 1];
            && points[m..] == front[m..] + [points[|points| - 1]]
            && forall i :: 0 <= i < |front| ==> front[i] == points[i]
  {}

  lemma {:induction false} PreIsSuffix(points: seq<Point>, transition: int) returns (m: nat)
    ensures m <= |points| && PreWindow(points, transition) == points[m..]
    ensures points != [] ==> m < |points|
    ensures forall i :: m < i < |points| ==> transition - points[i].at < PLATEAU_DURATION_S
    ensures 0 < m ==> m < |points| && transition - points[m].at >= PLATEAU_DURATION_S
  {
    if points == [] {
      m := 0;
    } else if transition - points[|points| - 1].at >= PLATEAU_DURATION_S {
      m := |points| - 1;
      assert points[m..] == [points[m]];
    } else {
      var last := points[|points| - 1];
      var front := points[..|points| - 1];
      m := PreIsSuffix(front, transition);
      assert PreWindow(points, transition) == PreWindow(front, transition) + [last];
      hide PreWindow;
      SuffixGrows(points, m);
    }
  }

  lemma {:induction false} ContiguousOrder(points: seq<Point>, i: nat, j: nat)
    requires Contiguous(points) && i <= j < |points|
    ensures points[j].at - points[i].at >= j - i
    decreases j
  {
    if i < j {
      ContiguousOrder(points, i, j - 1);
      assert 0 < points[j].at - points[j - 1].at;
    }
  }

  lemma WindowCounts(all: seq<Point>, c: nat)
    requires 0 < c < |all| && Contiguous(all)
    requires forall i :: 0 < i < c ==> all[c].at - all[i].at < PLATEAU_DURATION_S
    requires forall i :: c <= i < |all| - 1 ==> all[i].at - all[c].at < PLATEAU_DURATION_S
    ensures c <= 20 && |all| - c <= 21
  {
    if c > 1 {
      ContiguousOrder(all, 1, c);
    }
    if |all| - c > 1 {
      ContiguousOrder(all, c, |all| - 2);
    }
  }

  /** event[m..n] holds the windows before and after the transition at index. */
  ghost predicate Windows(event: seq<Point>, index: nat, m: nat, n: nat) {
    && m < index < n <= |event|
    && (0 < m ==> event[index].at - event[m].at >= PLATEAU_DURATION_S)
    && (n < |event| ==> event[n - 1].at - event[index].at >= PLATEAU_DURATION_S)
    && (forall i :: m < i < index ==> event[index].at - event[i].at < PLATEAU_DURATION_S)
    && (forall i :: index <= i < n - 1 ==> event[i].at - event[index].at < PLATEAU_DURATION_S)
  }

  lemma WindowSlices(event: seq<Point>, index: nat) returns (m: nat, n: nat)
    requires 0 < index < |event|
    ensures Windows(event, index, m, n)
    ensures PreWindow(event[..index], event[index].at) == event[m..index]
    ensures PostWindow(event[index..], event[index].at) == event[index..n]
  {
    var transition := event[index].at;
    m := PreIsSuffix(event[..index], transition);
    var k := PostIsPrefix(event[index..], transition);
    n := index + k;
    assert event[..index][m..] == event[m..index];
    assert event[index..][..k] == event[index..n];
    forall i | index <= i < n - 1 ensures event[i].at - transition < PLATEAU_DURATION_S {
      assert event[i] == event[index..][i - index];
    }
    forall i | m < i < index ensures transition - event[i].at < PLATEAU_DURATION_S {
      assert event[i] == event[..index][i];
    }
    assert 0 < m ==> event[..index][m] == event[m];
    assert n < |event| ==> event[index..][k - 1] == event[n - 1];
  }

  /** Whole seconds and gaps of at most 15 s bound the number of readings. */
  lemma WindowSizes(event: seq<Point>, index: nat, m: nat, n: nat)
    requires Windows(event, index, m, n) && Contiguous(event[m..n])
    ensures index - m <= 20 && n - index <= 21
  {
    var all, c := event[m..n], index - m;
    assert all[c] == event[index];
    forall i | 0 < i < c ensures all[c].at - all[i].at < PLATEAU_DURATION_S {
      assert all[i] == event[m + i];
    }
    forall i | c <= i < |all| - 1 ensures all[i].at - all[c].at < PLATEAU_DURATION_S {
      assert all[i] == event[m + i];
    }
    WindowCounts(all, c);
  }

  // ----- least squares on an exact line ------------------------------------------

  ghost predicate OnLine(points: seq<Point>, transition: int, c: real, s: real) {
    forall i :: 0 <= i < |points| ==> points[i].voltage == c + s * Offset(points[i], transition)
  }

  lemma OnLineTail(points: seq<Point>, transition: int, c: real, s: real)
    requires points != [] && OnLine(points, transition, c, s)
    ensures OnLine(points[1..], transition, c, s)
  {
    var rest := points[1..];
    forall i | 0 <= i < |rest| ensures rest[i].voltage == c + s * Offset(rest[i], transition) {
      assert rest[i] == points[i + 1];
    }
  }

  lemma {:induction false} LineSum(points: seq<Point>, transition: int, c: real, s: real)
    requires OnLine(points, transition, c, s)
    ensures SumVoltages(points) == |points| as real * c + s * SumOffsets(points, transition)
  {
    if points != [] {
      var rest := points[1..];
      OnLineTail(points, transition, c, s);
      LineSum(rest, transition, c, s);
      AddPoint(|rest| as real, c, s, Offset(points[0], transition), SumOffsets(rest, transition));
      assert |points| as real == |rest| as real + 1.0;
    }
  }

  lemma {:induction false} LineCross(points: seq<Point>, transition: int, c: real, s: real, xMean: real)
    requires OnLine(points, transition, c, s)
    ensures CrossSpread(points, transition, xMean, c + s * xMean) == s * Spread(points, transition, xMean)
  {
    if points != [] {
      var rest := points[1..];
      OnLineTail(points, transition, c, s);
      LineCross(rest, transition, c, s, xMean);
      AddCross(c, s, Offset(points[0], transition), xMean, Spread(rest, transition, xMean));
    }
  }

  lemma AddPoint(n: real, c: real, s: real, x: real, sum: real)
    ensures c + s * x + (n * c + s * sum) == (n + 1.0) * c + s * (x + sum)
  {
    assert (n + 1.0) * c == n * c + c;
    assert s * (x + sum) == s * x + s * sum;
  }

  lemma AddCross(c: real, s: real, x: real, xMean: real, d: real)
    ensures var dx := x - xMean;
            dx * (c + s * x - (c + s * xMean)) + s * d == s * (dx * dx + d)
  {
    var dx := x - xMean;
    assert c + s * x - (c + s * xMean) == s * dx by { assert s * dx == s * x - s * xMean; }
    assert dx * (s * dx) == s * (dx * dx);
    assert s * (dx * dx + d) == s * (dx * dx) + s * d;
  }

  lemma SumOfSquares(x: real, rest: real)
    requires x * x + rest == 0.0 && rest >= 0.0
    ensures x == 0.0 && rest == 0.0
  {
    var p := SquareOf(x);
  }

  lemma SquareOf(x: real) returns (p: real)
    ensures p == x * x && p >= 0.0 && (x != 0.0 ==> p > 0.0)
  {
    p := x * x;
    if x > 0.0 {
      p := ProductOf(x, x);
    } else if x < 0.0 {
      p := ProductOf(-x, -x);
    }
  }

  lemma ProductOf(a: real, b: real) returns (p: real)
    requires a > 0.0 && b > 0.0
    ensures p == a * b && p > 0.0
  {
    p := a * b;
  }

  lemma {:induction false} SpreadZero(points: seq<Point>, transition: int, xMean: real)
    ensures Spread(points, transition, xMean) >= 0.0
    ensures points != [] && Spread(points, transition, xMean) == 0.0 ==>
              Offset(points[0], transition) == xMean && Offset(points[|points| - 1], transition) == xMean
  {
    if points != [] {
      var rest, dx := points[1..], Offset(points[0], transition) - xMean;
      SpreadZero(rest, transition, xMean);
      assert Spread(points, transition, xMean) == dx * dx + Spread(rest, transition, xMean);
      assert rest != [] ==> rest[|rest| - 1] == points[|points| - 1];
      if Spread(points, transition, xMean) == 0.0 {
        SumOfSquares(dx, Spread(rest, transition, xMean));
        assert Spread(rest, transition, xMean) == 0.0;
      }
    }
  }

  /** Least squares recovers a line it is given exactly. */
  lemma LineExact(points: seq<Point>, transition: int, c: real, s: real)
    requires points != [] && OnLine(points, transition, c, s)
    requires points[0].at != points[|points| - 1].at
    ensures LineAtTransition(points, transition) == Line(s, c)
  {
    hide SumOffsets, SumVoltages, Spread, CrossSpread;
    var n := |points| as real;
    var xMean := SumOffsets(points, transition) / n;
    var yMean := SumVoltages(points) / n;
    LineSum(points, transition, c, s);
    LineCross(points, transition, c, s, xMean);
    MeansOnLine(n, c, s, SumOffsets(points, transition), xMean, SumVoltages(points), yMean);
    SpreadZero(points, transition, xMean);
    var d := Spread(points, transition, xMean);
    assert d != 0.0;
    DivideBack(s * d, s, d);
    assert yMean - s * xMean == c;
  }

  lemma MeansOnLine(n: real, c: real, s: real, xSum: real, xMean: real, ySum: real, yMean: real)
    requires n > 0.0 && xMean == xSum / n && yMean == ySum / n && ySum == n * c + s * xSum
    ensures yMean == c + s * xMean
  {
    assert xMean * n == xSum;
    assert (c + s * xMean) * n == n * c + s * (xMean * n);
    DivideBack(ySum, c + s * xMean, n);
  }

  lemma DivideBack(total: real, q: real, n: real)
    requires n != 0.0 && total == q * n
    ensures total / n == q
  {}

  // ----- the scan --------------------------------------------------------------

  /** The event of a linear battery with one load step at index j. */
  ghost predicate LinearEvent(event: seq<Point>, j: nat, v0: real, s: real, k: real, l0: real, l1: real) {
    && 0 < j < |event|
    && (forall i :: 0 <= i < |event| ==> event[i].load == if i < j then l0 else l1)
    && (forall i :: 0 <= i < |event| ==>
          event[i].voltage == v0 + s * event[i].at as real - k * event[i].load)
  }

  lemma LoadsAreBlock(event: seq<Point>, j: nat, l0: real, l1: real, lo: nat, hi: nat)
    requires lo < hi <= |event| && forall i :: 0 <= i < |event| ==> event[i].load == if i < j then l0 else l1
    ensures var a := if j <= lo then 0 else if j < hi then j - lo else hi - lo;
            Loads(event[lo..hi]) == Block(a, hi - lo - a, l0, l1)
  {
    var a := if j <= lo then 0 else if j < hi then j - lo else hi - lo;
    var s, t := Loads(event[lo..hi]), Block(a, hi - lo - a, l0, l1);
    forall i | 0 <= i < |s| ensures s[i] == t[i] {
      assert s[i] == event[lo + i].load;
    }
  }

  /** A transition placed anywhere but at the step yields nothing. */
  lemma WrongTransitionFails(event: seq<Point>, j: nat, v0: real, s: real, k: real, l0: real, l1: real, index: nat)
    requires LinearEvent(event, j, v0, s, k, l0, l1) && 0 < index < |event| && index != j
    ensures StepAt(event, index) == None
  {
    hide PlateauIsValid, LoadMedian, LoadsUsable, PreWindow, PostWindow, LineAtTransition, StepFromLines;
    var m, n := WindowSlices(event, index);
    if PlateauIsValid(event[m..index], event[index..n], event[index].at) {
      MisplacedWindows(event, j, l0, l1, index, m, n);
    }
  }

  lemma MisplacedWindows(event: seq<Point>, j: nat, l0: real, l1: real, index: nat, m: nat, n: nat)
    requires Windows(event, index, m, n) && 0 < j < |event| && index != j
    requires forall i :: 0 <= i < |event| ==> event[i].load == if i < j then l0 else l1
    requires PlateauIsValid(event[m..index], event[index..n], event[index].at)
    ensures !LoadsUsable(LoadMedian(event[m..index]), LoadMedian(event[index..n]))
  {
    hide Variance, Median, Loads, Block;
    assert event[m..index] + event[index..n] == event[m..n];
    WindowSizes(event, index, m, n);
    PlateauVariances(event[m..index], event[index..n], event[index].at);
    hide PlateauIsValid, Windows;
    LoadsAreBlock(event, j, l0, l1, m, index);
    LoadsAreBlock(event, j, l0, l1, index, n);
    if index < j {
      BeforeStep(index - m, if j < n then j - index else n - index, n - index, l0, l1);
    } else {
      AfterStep(if j <= m then 0 else j - m, index - m, n - index, l0, l1);
    }
  }

  lemma PlateauVariances(pre: seq<Point>, post: seq<Point>, transition: int)
    requires PlateauIsValid(pre, post, transition)
    ensures pre != [] && post != [] && Loads(pre) != [] && Loads(post) != []
    ensures Variance(Loads(pre)) <= MAX_PLATEAU_VARIANCE && Variance(Loads(post)) <= MAX_PLATEAU_VARIANCE
  {}

  lemma BeforeStep(p: nat, a: nat, n: nat, l0: real, l1: real)
    requires 0 < p && 0 < a <= n <= 21
    requires Variance(Block(a, n - a, l0, l1)) <= MAX_PLATEAU_VARIANCE
    ensures Abs(Median(Block(a, n - a, l0, l1)) - Median(Block(p, 0, l0, l1))) < MIN_LOAD_STEP
  {
    BlockMedian(p, 0, l0, l1);
    MixedWindowHidesStep(a, n - a, l0, l1, l0);
  }

  lemma AfterStep(a: nat, p: nat, n: nat, l0: real, l1: real)
    requires a < p <= 20 && 0 < n
    requires Variance(Block(a, p - a, l0, l1)) <= MAX_PLATEAU_VARIANCE
    ensures Abs(Median(Block(0, n, l0, l1)) - Median(Block(a, p - a, l0, l1))) < MIN_LOAD_STEP
  {
    BlockMedian(0, n, l0, l1);
    MixedWindowHidesStep(a, p - a, l0, l1, l1);
  }

  /** Readings at most 15 s apart reach at least 20 s to both sides of the step. */
  ghost predicate Covered(event: seq<Point>, j: nat) {
    exists m: nat, n: nat :: CoveredBy(event, j, m, n)
  }

  ghost predicate CoveredBy(event: seq<Point>, j: nat, m: nat, n: nat) {
    m < j < n <= |event| && Contiguous(event[m..n])
    && event[j].at - event[m].at >= PLATEAU_DURATION_S
    && event[n - 1].at - event[j].at >= PLATEAU_DURATION_S
  }

  lemma SubrangeContiguous(event: seq<Point>, m: nat, n: nat, m': nat, n': nat)
    requires m <= m' <= n' <= n <= |event| && Contiguous(event[m..n])
    ensures Contiguous(event[m'..n'])
  {
    forall i | 0 < i < n' - m' ensures 0 < event[m'..n'][i].at - event[m'..n'][i - 1].at <= MAX_GAP_S {
      var e := event[m..n];
      assert 0 < e[i + m' - m].at - e[i + m' - m - 1].at <= MAX_GAP_S;
    }
  }

  lemma CoverageDecides(event: seq<Point>, j: nat, m: nat, n: nat)
    requires Windows(event, j, m, n)
    ensures CoveredBy(event, j, m, n) <==> Covered(event, j)
  {
    if Covered(event, j) {
      var p: nat, q: nat :| CoveredBy(event, j, p, q);
      assert p <= m;
      assert n <= q;
      SubrangeContiguous(event, p, q, m, n);
      assert p == m || 0 < m;
      assert n == q || n < |event|;
    }
  }

  /** What the true coefficient and step must satisfy to be observable. */
  ghost predicate Observable(event: seq<Point>, j: nat, s: real, k: real, l0: real, l1: real) {
    && Covered(event, j)
    && l1 - l0 >= MIN_LOAD_STEP && 0.0 < l0 && l1 <= 50.0
    && Abs(s) <= MAX_VOLTAGE_SLOPE
    && MIN_K <= k <= MAX_K && k * (l1 - l0) >= MIN_VOLTAGE_STEP
  }

  lemma ConstantWindow(n: nat, l: real, other: real)
    requires n > 0
    ensures Variance(Block(n, 0, l, other)) == 0.0 && Variance(Block(0, n, other, l)) == 0.0
  {
    BlockVariance(n, 0, l, other);
    BlockVariance(0, n, other, l);
    var r := n as real;
    assert r * r > 0.0;
  }

  lemma TrueTransitionWindows(event: seq<Point>, j: nat, l0: real, l1: real, m: nat, n: nat)
    requires m < j < n <= |event|
    requires forall i :: 0 <= i < |event| ==> event[i].load == if i < j then l0 else l1
    ensures LoadMedian(event[m..j]) == l0 && LoadMedian(event[j..n]) == l1
    ensures PlateauIsValid(event[m..j], event[j..n], event[j].at) <==> CoveredBy(event, j, m, n)
  {
    hide Variance, Median, Block;
    LoadsAreBlock(event, j, l0, l1, m, j);
    LoadsAreBlock(event, j, l0, l1, j, n);
    BlockMedian(j - m, 0, l0, l1);
    BlockMedian(0, n - j, l0, l1);
    ConstantWindow(j - m, l0, l1);
    ConstantWindow(n - j, l1, l0);
    assert event[m..j] + event[j..n] == event[m..n];
  }

  lemma TrueTransitionLines(event: seq<Point>, j: nat, v0: real, s: real, k: real, l0: real, l1: real, m: nat, n: nat)
    requires LinearEvent(event, j, v0, s, k, l0, l1) && CoveredBy(event, j, m, n)
    ensures var at := event[j].at;
            && LineAtTransition(event[m..j], at) == Line(s, v0 + s * at as real - k * l0)
            && LineAtTransition(event[j..n], at) == Line(s, v0 + s * at as real - k * l1)
  {
    hide LineAtTransition;
    var at := event[j].at;
    var c0, c1 := v0 + s * at as real - k * l0, v0 + s * at as real - k * l1;
    var all := event[m..n];
    assert all[j - m] == event[j] && all[j - m - 1] == event[j - 1];
    assert 0 < all[j - m].at - all[j - m - 1].at <= MAX_GAP_S;
    SliceOnLine(event, m, j, at, v0, s, k * l0);
    SliceOnLine(event, j, n, at, v0, s, k * l1);
    LineExact(event[m..j], at, c0, s);
    LineExact(event[j..n], at, c1, s);
  }

  lemma SliceOnLine(event: seq<Point>, lo: nat, hi: nat, at: int, v0: real, s: real, drop: real)
    requires lo <= hi <= |event|
    requires forall i :: lo <= i < hi ==> event[i].voltage == v0 + s * event[i].at as real - drop
    ensures OnLine(event[lo..hi], at, v0 + s * at as real - drop, s)
  {
    var points, c := event[lo..hi], v0 + s * at as real - drop;
    forall i | 0 <= i < |points| ensures points[i].voltage == c + s * Offset(points[i], at) {
      assert points[i] == event[lo + i];
      var x := points[i].at;
      assert (x - at) as real == x as real - at as real;
      assert s * (x as real - at as real) == s * x as real - s * at as real;
    }
  }

  lemma ExactStep(s: real, k: real, c: real, l0: real, l1: real, at: int)
    requires Abs(l1 - l0) >= MIN_LOAD_STEP
    ensures StepFromLines(Line(s, c - k * l0), Line(s, c - k * l1), l1 - l0, at) ==
            if Abs(s) <= MAX_VOLTAGE_SLOPE && l1 - l0 >= MIN_LOAD_STEP && MIN_K <= k <= MAX_K
               && k * (l1 - l0) >= MIN_VOLTAGE_STEP
            then Some(Candidate(k, at, VOLTAGE_QUANTUM_HALF_V / (l1 - l0))) else None
  {
    var d := l1 - l0;
    var dv := (c - k * l1) - (c - k * l0);
    assert dv == -(k * d);
    assert k * d / d == k;
    assert -dv / d == k;
    assert dv * d == -(k * d) * d == -(k * (d * d));
    assert d * d > 0.0;
    if MIN_K <= k {
      Positive(k, d * d);
      if d < 0.0 {
        Positive(k, -d);
      }
    }
  }

  lemma Positive(a: real, b: real)
    requires a > 0.0 && b > 0.0
    ensures a * b > 0.0
  {}

  lemma TrueTransition(event: seq<Point>, j: nat, v0: real, s: real, k: real, l0: real, l1: real)
    requires LinearEvent(event, j, v0, s, k, l0, l1)
    ensures StepAt(event, j) ==
            if Observable(event, j, s, k, l0, l1)
            then Some(Candidate(k, event[j].at, VOLTAGE_QUANTUM_HALF_V / (l1 - l0))) else None
  {
    hide Variance, Median, LineAtTransition, PreWindow, PostWindow, StepFromLines;
    var m, n := WindowSlices(event, j);
    CoverageDecides(event, j, m, n);
    TrueTransitionWindows(event, j, l0, l1, m, n);
    if CoveredBy(event, j, m, n) && LoadsUsable(l0, l1) {
      TrueTransitionLines(event, j, v0, s, k, l0, l1, m, n);
      ExactStep(s, k, v0 + s * event[j].at as real, l0, l1, event[j].at);
    }
  }

  lemma {:induction false} ScanFrom(
      event: seq<Point>, j: nat, v0: real, s: real, k: real, l0: real, l1: real, index: nat)
    requires LinearEvent(event, j, v0, s, k, l0, l1) && 0 < index
    ensures LoadStepFrom(event, index) == if index <= j then StepAt(event, j) else None
    decreases |event| - index
  {
    if index < |event| {
      ScanFrom(event, j, v0, s, k, l0, l1, index + 1);
      if index != j {
        WrongTransitionFails(event, j, v0, s, k, l0, l1, index);
      }
    }
  }

  /** On a linear battery with one load step the scan over all transitions
      returns exactly the true coefficient, at the true transition, when the step
      is observable, and nothing otherwise. */
  lemma ScanIsExact(event: seq<Point>, j: nat, v0: real, s: real, k: real, l0: real, l1: real)
    requires LinearEvent(event, j, v0, s, k, l0, l1)
    ensures LoadStep(event) ==
            if Observable(event, j, s, k, l0, l1)
            then Some(Candidate(k, event[j].at, VOLTAGE_QUANTUM_HALF_V / (l1 - l0))) else None
  {
    ScanFrom(event, j, v0, s, k, l0, l1, 1);
    TrueTransition(event, j, v0, s, k, l0, l1);
  }

  /** The same, from the rows of a closed natural blackout. */
  lemma ExtractionIsExact(
      rows: seq<Row>, eventAt: int, event: seq<Point>, j: nat, v0: real, s: real, k: real, l0: real, l1: real)
    requires NaturalEvent(rows) == Some(event) && LinearEvent(event, j, v0, s, k, l0, l1)
    ensures ExtractIr(rows, Some(eventAt)) ==
            if Observable(event, j, s, k, l0, l1)
            then Some(IrObservation(eventAt, k, event[j].at, VOLTAGE_QUANTUM_HALF_V / (l1 - l0), OBSERVATION_REASON))
            else None
  {
    ScanIsExact(event, j, v0, s, k, l0, l1);
  }

  // ----- every extracted observation is well formed --------------------------------

  lemma CandidateBounds(pre: Line, post: Line, deltaLoad: real, at: int)
    requires Abs(deltaLoad) >= MIN_LOAD_STEP && StepFromLines(pre, post, deltaLoad, at).Some?
    ensures var c := StepFromLines(pre, post, deltaLoad, at).value;
            MIN_K <= c.estimate <= MAX_K && 0.0 < c.uncertainty <= VOLTAGE_QUANTUM_HALF_V / MIN_LOAD_STEP
  {
    var d := Abs(deltaLoad);
    var u := VOLTAGE_QUANTUM_HALF_V / d;
    assert u * d == VOLTAGE_QUANTUM_HALF_V;
    assert u > 0.0;
    assert u * d >= u * MIN_LOAD_STEP;
  }

  lemma {:induction false} ScanBounds(event: seq<Point>, index: nat)
    requires 0 < index && LoadStepFrom(event, index).Some?
    ensures var c := LoadStepFrom(event, index).value;
            MIN_K <= c.estimate <= MAX_K && 0.0 < c.uncertainty <= VOLTAGE_QUANTUM_HALF_V / MIN_LOAD_STEP
    decreases |event| - index
  {
    if StepAt(event, index).Some? {
      var at := event[index].at;
      var pre, post := PreWindow(event[..index], at), PostWindow(event[index..], at);
      CandidateBounds(LineAtTransition(pre, at), LineAtTransition(post, at), LoadMedian(post) - LoadMedian(pre), at);
    } else {
      ScanBounds(event, index + 1);
    }
  }

  /** Whatever the rows, an extracted estimate is in the accepted range and its
      uncertainty is at most 0.05 V over the smallest accepted step. */
  lemma ExtractedObservationBounds(rows: seq<Row>, eventAt: Option<int>)
    requires ExtractIr(rows, eventAt).Some?
    ensures var o := ExtractIr(rows, eventAt).value;
            && MIN_K <= o.estimate <= MAX_K
            && 0.0 < o.uncertainty <= VOLTAGE_QUANTUM_HALF_V / MIN_LOAD_STEP < 0.0035
            && o.reason != "" && (eventAt.Some? ==> o.eventAt == eventAt.value)
  {
    ScanBounds(NaturalEvent(rows).value, 1);
  }

  // ----- context rows do not matter ------------------------------------------------

  lemma {:induction false} LeadingRowsSkipped(context: seq<Row>, rows: seq<Row>)
    requires forall i :: 0 <= i < |context| ==> !IsOb(context[i])
    ensures FirstOb(context + rows) == |context| + FirstOb(rows)
  {
    if context == [] {
      assert context + rows == rows;
    } else {
      assert (context + rows)[1..] == context[1..] + rows;
      LeadingRowsSkipped(context[1..], rows);
    }
  }

  /** Rows before the first OB row do not change what is extracted. */
  lemma ExtractionIgnoresContext(context: seq<Row>, rows: seq<Row>, eventAt: Option<int>)
    requires forall i :: 0 <= i < |context| ==> !IsOb(context[i])
    ensures ExtractIr(context + rows, eventAt) == ExtractIr(rows, eventAt)
  {
    LeadingRowsSkipped(context, rows);
    var n := FirstOb(rows);
    assert (context + rows)[|context| + n..] == rows[n..];
  }

  // ----- which rows form a natural event ---------------------------------------------

  /** How many rows do not report firmware LB. */
  function ClearRows(rows: seq<Row>): nat {
    if rows == [] then 0 else (if HasLb(rows[0]) then 0 else 1) + ClearRows(rows[1..])
  }

  /** Rows with firmware LB are left out; all others must be usable. */
  lemma {:induction false} ParsedExactly(rows: seq<Row>)
    ensures Parsed(rows).Some? <==> forall r :: r in rows ==> HasLb(r) || RawSample(r).Some?
    ensures Parsed(rows).Some? ==> |Parsed(rows).value| == ClearRows(rows)
    ensures Parsed(rows).Some? ==>
              forall p :: p in Parsed(rows).value <==> exists r :: r in rows && !HasLb(r) && RawSample(r) == Some(p)
  {
    if rows != [] {
      assert rows == [rows[0]] + rows[1..];
      ParsedExactly(rows[1..]);
    }
  }

  lemma {:induction false} ParsedOfSum(rows: seq<Row>, more: seq<Row>)
    ensures Parsed(rows + more) ==
            if Parsed(rows).None? || Parsed(more).None? then None else Some(Parsed(rows).value + Parsed(more).value)
  {
    hide RawSample;
    if rows == [] {
      assert rows + more == more;
      if Parsed(more).Some? {
        assert [] + Parsed(more).value == Parsed(more).value;
      }
    } else {
      ParsedOfSum(rows[1..], more);
      assert (rows + more)[0] == rows[0] && (rows + more)[1..] == rows[1..] + more;
      if !HasLb(rows[0]) && RawSample(rows[0]).Some? && Parsed(rows[1..]).Some? && Parsed(more).Some? {
        var p, ps, qs := RawSample(rows[0]).value, Parsed(rows[1..]).value, Parsed(more).value;
        assert [p] + ps + qs == [p] + (ps + qs);
      }
    }
  }

  /** One more row: it is skipped when firmware reports LB, spoils the event when its
      voltage is not within 8 to 15 V or its load not within 0 to 100 percent, and
      otherwise adds the last point. */
  lemma OneMoreParsed(rows: seq<Row>, r: Row)
    requires Parsed(rows).Some?
    ensures var usable := r.batteryV.Some? && 8.0 <= r.batteryV.value <= 15.0
                          && r.loadPct.Some? && 0.0 <= r.loadPct.value <= 100.0;
            && (LB in r.status ==> Parsed(rows + [r]) == Parsed(rows))
            && (LB !in r.status && !usable ==> Parsed(rows + [r]) == None)
            && (LB !in r.status && usable ==>
                  Parsed(rows + [r]) == Some(Parsed(rows).value + [Point(r.at, r.batteryV.value, r.loadPct.value)]))
  {
    ParsedOfSum(rows, [r]);
    assert [r][1..] == [];
    assert Parsed([]) == Some([]);
    assert Parsed(rows).value + [] == Parsed(rows).value;
    if RawSample(r).Some? {
      assert [RawSample(r).value] + [] == [RawSample(r).value];
    }
  }

  lemma {:induction false} LeadingRun(tail: seq<Row>, rest: seq<Row>)
    requires forall i :: 0 <= i < |tail| ==> IsOb(tail[i])
    requires rest == [] || !IsOb(rest[0])
    ensures ObRun(tail + rest) == |tail|
  {
    if tail == [] {
      assert tail + rest == rest;
    } else {
      LeadingRun(tail[1..], rest);
      assert (tail + rest)[1..] == tail[1..] + rest;
    }
  }

  /** A first run of on-battery rows is a natural event exactly when it is ended by
      an online row, no row of it is a calibration, every row without firmware LB
      is usable, and there are at least three of those. */
  lemma NaturalEventExactly(context: seq<Row>, tail: seq<Row>, rest: seq<Row>)
    requires forall i :: 0 <= i < |context| ==> !IsOb(context[i])
    requires tail != [] && forall i :: 0 <= i < |tail| ==> IsOb(tail[i])
    requires rest == [] || !IsOb(rest[0])
    ensures NaturalEvent(context + tail + rest).Some? <==>
              && rest != [] && OnlineRow(rest[0])
              && (forall i :: 0 <= i < |tail| ==> !IsCal(tail[i]))
              && (forall r :: r in tail ==> HasLb(r) || RawSample(r).Some?)
              && ClearRows(tail) >= 3
    ensures NaturalEvent(context + tail + rest).Some? ==> NaturalEvent(context + tail + rest) == Parsed(tail)
  {
    hide RawSample, Parsed, ClearRows, IsOb, IsCal, FirstOb, ObRun;
    EventRows(context, tail, rest);
    ParsedExactly(tail);
    var rows, run := context + tail + rest, tail + rest;
    assert NaturalEvent(rows) ==
           if rest == [] || !OnlineRow(run[|tail|]) || (exists i :: 0 <= i < |tail| && IsCal(run[i])) then None
           else match Parsed(run[..|tail|]) case None => None case Some(ps) => if |ps| >= 3 then Some(ps) else None;
    hide NaturalEvent;
  }

  /** The first run of on-battery rows, as the estimator finds it. */
  lemma EventRows(context: seq<Row>, tail: seq<Row>, rest: seq<Row>)
    requires forall i :: 0 <= i < |context| ==> !IsOb(context[i])
    requires tail != [] && forall i :: 0 <= i < |tail| ==> IsOb(tail[i])
    requires rest == [] || !IsOb(rest[0])
    ensures var rows := context + tail + rest;
            && FirstOb(rows) == |context| && rows[|context|..] == tail + rest
            && ObRun(rows[|context|..]) == |tail| && (tail + rest)[..|tail|] == tail
            && (forall i :: 0 <= i < |tail| ==> (tail + rest)[i] == tail[i])
            && (rest != [] ==> (tail + rest)[|tail|] == rest[0])
  {
    hide RawSample, Parsed;
    var rows := context + tail + rest;
    assert rows == context + (tail + rest);
    LeadingRowsSkipped(context, tail + rest);
    assert FirstOb(tail + rest) == 0 by { assert (tail + rest)[0] == tail[0]; }
    assert rows[|context|..] == tail + rest;
    LeadingRun(tail, rest);
  }
}
