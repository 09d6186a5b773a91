/** What the estimator computes on any event, quantised and noisy ones included: the
    two lines are those of least squares, the scatter of a window is that of its
    pairs, and the estimate is the coefficient under which both lines meet. */
module IrMeaning {
  import opened Types
  import opened Sorting
  import opened Arith
  import opened IrEstimator
  import opened IrExact

  // ----- least squares ----------------------------------------------------------

  function Residual(p: Point, transition: int, line: Line): real {
    p.voltage - line.intercept - line.slope * Offset(p, transition)
  }

  function SumResiduals(points: seq<Point>, transition: int, line: Line): real {
    if points == [] then 0.0 else Residual(points[0], transition, line) + SumResiduals(points[1..], transition, line)
  }

  /** The residuals weighted by the distance from `origin`. */
  function WeightedResiduals(points: seq<Point>, transition: int, line: Line, origin: real): real {
    if points == [] then 0.0
    else
      Residual(points[0], transition, line) * (Offset(points[0], transition) - origin)
      + WeightedResiduals(points[1..], transition, line, origin)
  }

  function SquaredError(points: seq<Point>, transition: int, line: Line): real {
    if points == [] then 0.0
    else
      var r := Residual(points[0], transition, line);
      r * r + SquaredError(points[1..], transition, line)
  }

  /** How far two lines are apart at the points. */
  function SquaredDistance(points: seq<Point>, transition: int, a: Line, b: Line): (d: real)
    ensures d >= 0.0
  {
    if points == [] then 0.0
    else
      var d := Apart(a, b, Offset(points[0], transition));
      d * d + SquaredDistance(points[1..], transition, a, b)
  }

  function Apart(a: Line, b: Line, x: real): real {
    a.intercept - b.intercept + (a.slope - b.slope) * x
  }

  lemma {:induction false} ResidualSum(points: seq<Point>, transition: int, line: Line)
    ensures SumResiduals(points, transition, line) ==
            SumVoltages(points) - |points| as real * line.intercept - line.slope * SumOffsets(points, transition)
  {
    if points != [] {
      ResidualSum(points[1..], transition, line);
      var x, rest := Offset(points[0], transition), SumOffsets(points[1..], transition);
      assert line.slope * (x + rest) == line.slope * x + line.slope * rest;
      assert |points| as real * line.intercept == line.intercept + |points[1..]| as real * line.intercept by {
        assert |points| as real == 1.0 + |points[1..]| as real;
      }
    }
  }

  lemma {:induction false} WeightsShift(points: seq<Point>, transition: int, line: Line, origin: real)
    ensures WeightedResiduals(points, transition, line, 0.0) ==
            WeightedResiduals(points, transition, line, origin) + origin * SumResiduals(points, transition, line)
  {
    hide WeightedResiduals, SumResiduals, Residual, Offset;
    if points == [] {
      EmptySums(transition, line, origin, 0.0);
      EmptySums(transition, line, 0.0, 0.0);
      assert origin * 0.0 == 0.0;
    } else {
      var rest := points[1..];
      WeightsShift(rest, transition, line, origin);
      WeightOfFirst(points, transition, line, 0.0);
      WeightOfFirst(points, transition, line, origin);
      ShiftOfOne(Residual(points[0], transition, line), Offset(points[0], transition), origin,
                 SumResiduals(rest, transition, line), SumResiduals(points, transition, line));
    }
  }

  lemma ShiftOfOne(r: real, x: real, origin: real, sum: real, sum': real)
    requires sum' == r + sum
    ensures r * (x - 0.0) + origin * sum == r * (x - origin) + origin * sum'
  {
    assert r * (x - origin) == r * x - origin * r;
    assert origin * sum' == origin * r + origin * sum;
  }

  lemma {:induction false} CentredResiduals(points: seq<Point>, transition: int, line: Line, xMean: real, yMean: real)
    requires line.intercept == yMean - line.slope * xMean
    ensures WeightedResiduals(points, transition, line, xMean) ==
            CrossSpread(points, transition, xMean, yMean) - line.slope * Spread(points, transition, xMean)
  {
    hide WeightedResiduals, CrossSpread, Spread, Residual, Offset;
    if points == [] {
      EmptySums(transition, line, xMean, yMean);
      assert line.slope * 0.0 == 0.0;
    } else {
      var rest := points[1..];
      CentredResiduals(rest, transition, line, xMean, yMean);
      SpreadOfFirst(points, transition, xMean, yMean);
      WeightOfFirst(points, transition, line, xMean);
      ResidualOfPoint(points[0], transition, line);
      CentredPoint(points[0].voltage, Offset(points[0], transition), line.slope, line.intercept, xMean, yMean,
                   Residual(points[0], transition, line), Spread(rest, transition, xMean),
                   CrossSpread(rest, transition, xMean, yMean), WeightedResiduals(rest, transition, line, xMean),
                   Spread(points, transition, xMean), CrossSpread(points, transition, xMean, yMean),
                   WeightedResiduals(points, transition, line, xMean));
    }
  }

  lemma EmptySums(transition: int, line: Line, xMean: real, yMean: real)
    ensures WeightedResiduals([], transition, line, xMean) == SumResiduals([], transition, line) == 0.0
    ensures SquaredError([], transition, line) == 0.0
    ensures CrossSpread([], transition, xMean, yMean) == Spread([], transition, xMean) == 0.0
  {}

  lemma EmptyDistance(transition: int, a: Line, b: Line)
    ensures SquaredDistance([], transition, a, b) == 0.0
  {}

  lemma ResidualOfPoint(p: Point, transition: int, line: Line)
    ensures Residual(p, transition, line) == p.voltage - line.intercept - line.slope * Offset(p, transition)
  {}

  lemma SpreadOfFirst(points: seq<Point>, transition: int, xMean: real, yMean: real)
    requires points != []
    ensures var x := Offset(points[0], transition);
            && Spread(points, transition, xMean) == (x - xMean) * (x - xMean) + Spread(points[1..], transition, xMean)
            && CrossSpread(points, transition, xMean, yMean) ==
               (x - xMean) * (points[0].voltage - yMean) + CrossSpread(points[1..], transition, xMean, yMean)
  {}

  lemma WeightOfFirst(points: seq<Point>, transition: int, line: Line, origin: real)
    requires points != []
    ensures var x, r := Offset(points[0], transition), Residual(points[0], transition, line);
            && SumResiduals(points, transition, line) == r + SumResiduals(points[1..], transition, line)
            && WeightedResiduals(points, transition, line, origin) ==
               r * (x - origin) + WeightedResiduals(points[1..], transition, line, origin)
            && SquaredError(points, transition, line) == r * r + SquaredError(points[1..], transition, line)
  {}

  lemma DistanceOfFirst(points: seq<Point>, transition: int, a: Line, b: Line)
    requires points != []
    ensures var d := Apart(a, b, Offset(points[0], transition));
            SquaredDistance(points, transition, a, b) == d * d + SquaredDistance(points[1..], transition, a, b)
  {
    hide Apart;
  }

  lemma CentredPoint(y: real, x: real, slope: real, intercept: real, xMean: real, yMean: real, r: real,
                     spread: real, cross: real, weighted: real, spread': real, cross': real, weighted': real)
    requires intercept == yMean - slope * xMean && r == y - intercept - slope * x && weighted == cross - slope * spread
    requires spread' == (x - xMean) * (x - xMean) + spread && cross' == (x - xMean) * (y - yMean) + cross
    requires weighted' == r * (x - xMean) + weighted
    ensures weighted' == cross' - slope * spread'
  {
    var d, e := x - xMean, y - yMean;
    assert r == e - slope * d;
    assert (e - slope * d) * d == d * e - slope * (d * d);
    assert slope * (d * d + spread) == slope * (d * d) + slope * spread;
  }

  lemma {:induction false} NoSpreadNoCross(points: seq<Point>, transition: int, xMean: real, yMean: real)
    requires Spread(points, transition, xMean) == 0.0
    ensures CrossSpread(points, transition, xMean, yMean) == 0.0
  {
    if points != [] {
      SpreadZero(points, transition, xMean);
      SpreadZero(points[1..], transition, xMean);
      var dx := Offset(points[0], transition) - xMean;
      assert dx == 0.0;
      NoSpreadNoCross(points[1..], transition, xMean, yMean);
    }
  }

  /** The residuals of the line sum to nothing, also weighted by time; with a single
      time the line is flat. */
  ghost predicate BestFit(points: seq<Point>, transition: int, line: Line) {
    && points != []
    && SumResiduals(points, transition, line) == 0.0
    && WeightedResiduals(points, transition, line, 0.0) == 0.0
    && ((forall i :: 0 <= i < |points| ==> points[i].at == points[0].at) ==> line.slope == 0.0)
  }

  lemma {:induction false} SingleTime(points: seq<Point>, transition: int, at: int)
    requires forall i :: 0 <= i < |points| ==> points[i].at == at
    ensures SumOffsets(points, transition) == |points| as real * (at - transition) as real
    ensures Spread(points, transition, (at - transition) as real) == 0.0
  {
    if points != [] {
      SingleTime(points[1..], transition, at);
      var x := (at - transition) as real;
      assert |points| as real * x == x + |points[1..]| as real * x by {
        assert |points| as real == 1.0 + |points[1..]| as real;
      }
    }
  }

  /** The line of the code satisfies the normal equations. */
  lemma LineIsBestFit(points: seq<Point>, transition: int)
    requires points != []
    ensures BestFit(points, transition, LineAtTransition(points, transition))
  {
    hide LineAtTransition, SumOffsets, SumVoltages, Spread, CrossSpread, SumResiduals, WeightedResiduals;
    var line, n := LineAtTransition(points, transition), |points| as real;
    var xSum, ySum := SumOffsets(points, transition), SumVoltages(points);
    var xMean, yMean := xSum / n, ySum / n;
    LineThroughMeans(points, transition);
    SlopeBalances(points, transition, xMean, yMean, line.slope);
    ResidualSum(points, transition, line);
    MeansBalance(n, xSum, ySum, xMean, yMean, line.slope, line.intercept);
    WeightsShift(points, transition, line, xMean);
    CentredResiduals(points, transition, line, xMean, yMean);
    assert xMean * 0.0 == 0.0;
    FlatForSingleTime(points, transition);
  }

  lemma LineThroughMeans(points: seq<Point>, transition: int)
    requires points != []
    ensures var line, n := LineAtTransition(points, transition), |points| as real;
            var xMean, yMean := SumOffsets(points, transition) / n, SumVoltages(points) / n;
            && line.intercept == yMean - line.slope * xMean
            && var d := Spread(points, transition, xMean);
               line.slope == if d == 0.0 then 0.0 else CrossSpread(points, transition, xMean, yMean) / d
  {
    hide SumOffsets, SumVoltages, Spread, CrossSpread;
  }

  lemma FlatForSingleTime(points: seq<Point>, transition: int)
    requires points != []
    ensures (forall i :: 0 <= i < |points| ==> points[i].at == points[0].at) ==>
              LineAtTransition(points, transition).slope == 0.0
  {
    hide LineAtTransition, SumOffsets, SumVoltages, Spread, CrossSpread;
    if forall i :: 0 <= i < |points| ==> points[i].at == points[0].at {
      var x := (points[0].at - transition) as real;
      SingleTime(points, transition, points[0].at);
      DivideBack(SumOffsets(points, transition), x, |points| as real);
      LineThroughMeans(points, transition);
    }
  }

  lemma SlopeBalances(points: seq<Point>, transition: int, xMean: real, yMean: real, slope: real)
    requires var d := Spread(points, transition, xMean);
             slope == if d == 0.0 then 0.0 else CrossSpread(points, transition, xMean, yMean) / d
    ensures slope * Spread(points, transition, xMean) == CrossSpread(points, transition, xMean, yMean)
  {
    hide Spread, CrossSpread;
    var d := Spread(points, transition, xMean);
    if d == 0.0 {
      NoSpreadNoCross(points, transition, xMean, yMean);
    } else {
      DivMul(CrossSpread(points, transition, xMean, yMean), d);
    }
  }

  lemma MeansBalance(n: real, xSum: real, ySum: real, xMean: real, yMean: real, slope: real, intercept: real)
    requires n > 0.0 && xMean == xSum / n && yMean == ySum / n && intercept == yMean - slope * xMean
    ensures ySum - n * intercept - slope * xSum == 0.0
  {
    assert xMean * n == xSum && yMean * n == ySum;
    assert n * (yMean - slope * xMean) == yMean * n - slope * (xMean * n);
  }

  lemma {:induction false} ErrorOfOther(points: seq<Point>, transition: int, best: Line, other: Line)
    ensures SquaredError(points, transition, other) ==
            SquaredError(points, transition, best) + SquaredDistance(points, transition, other, best)
            - 2.0 * ((other.intercept - best.intercept) * SumResiduals(points, transition, best)
                     + (other.slope - best.slope) * WeightedResiduals(points, transition, best, 0.0))
  {
    hide SquaredError, SquaredDistance, SumResiduals, WeightedResiduals, Residual, Offset;
    if points == [] {
      EmptySums(transition, best, 0.0, 0.0);
      EmptySums(transition, other, 0.0, 0.0);
      EmptyDistance(transition, other, best);
      assert (other.intercept - best.intercept) * 0.0 + (other.slope - best.slope) * 0.0 == 0.0;
    } else {
      var rest := points[1..];
      ErrorOfOther(rest, transition, best, other);
      var x, r, d := Offset(points[0], transition), Residual(points[0], transition, best),
                     Apart(other, best, Offset(points[0], transition));
      ResidualOfOther(points[0], transition, best, other);
      WeightOfFirst(points, transition, best, 0.0);
      WeightOfFirst(points, transition, other, 0.0);
      DistanceOfFirst(points, transition, other, best);
      ErrorOfPoint(r, x, other.intercept - best.intercept, other.slope - best.slope, d,
                   SquaredError(rest, transition, best), SquaredDistance(rest, transition, other, best),
                   SumResiduals(rest, transition, best), WeightedResiduals(rest, transition, best, 0.0),
                   SquaredError(rest, transition, other),
                   SumResiduals(points, transition, best), WeightedResiduals(points, transition, best, 0.0));
    }
  }

  lemma ResidualOfOther(p: Point, transition: int, best: Line, other: Line)
    ensures Residual(p, transition, other) == Residual(p, transition, best) - Apart(other, best, Offset(p, transition))
  {
    var x := Offset(p, transition);
    assert (other.slope - best.slope) * x == other.slope * x - best.slope * x;
  }

  lemma ErrorOfPoint(r: real, x: real, i: real, s: real, d: real, e: real, q: real, sum: real, weighted: real,
                     more: real, sum': real, weighted': real)
    requires d == i + s * x && more == e + q - 2.0 * (i * sum + s * weighted)
    requires sum' == r + sum && weighted' == r * (x - 0.0) + weighted
    ensures (r - d) * (r - d) + more == r * r + e + (d * d + q) - 2.0 * (i * sum' + s * weighted')
  {
    assert (r - d) * (r - d) == r * r + d * d - 2.0 * (r * d);
    assert r * d == i * r + s * (r * x);
    assert i * sum' == i * r + i * sum;
    assert s * weighted' == s * (r * x) + s * weighted;
  }

  /** No line has a smaller squared error than the one the code computes, and one
      with the same error takes the same values at the points. */
  lemma LeastSquares(points: seq<Point>, transition: int, other: Line)
    requires points != []
    ensures var best := LineAtTransition(points, transition);
            && SquaredError(points, transition, other) ==
               SquaredError(points, transition, best) + SquaredDistance(points, transition, other, best)
            && SquaredError(points, transition, best) <= SquaredError(points, transition, other)
  {
    hide LineAtTransition, SquaredError, SquaredDistance, SumResiduals, WeightedResiduals;
    var best := LineAtTransition(points, transition);
    LineIsBestFit(points, transition);
    ErrorOfOther(points, transition, best, other);
  }

  // ----- scatter of the loads -------------------------------------------------------

  /** Squared differences of every element of `s` to every element of `t`. */
  function PairSquares(s: seq<real>, t: seq<real>): real {
    if t == [] then 0.0 else SquaredDeviations(s, t[0]) + PairSquares(s, t[1..])
  }

  lemma {:induction false} DeviationsFrom(s: seq<real>, mean: real, c: real)
    ensures SquaredDeviations(s, c) ==
            SquaredDeviations(s, mean) + 2.0 * (mean - c) * (Sum(s) - |s| as real * mean)
            + |s| as real * ((mean - c) * (mean - c))
  {
    if s != [] {
      DeviationsFrom(s[1..], mean, c);
      DeviationOfOne(s[0], mean, c, Sum(s[1..]), |s[1..]| as real);
      assert |s| as real == 1.0 + |s[1..]| as real;
    }
  }

  lemma DeviationOfOne(x: real, mean: real, c: real, sum: real, n: real)
    ensures (x - c) * (x - c) + 2.0 * (mean - c) * (sum - n * mean) + n * ((mean - c) * (mean - c)) ==
            (x - mean) * (x - mean) + 2.0 * (mean - c) * (x + sum - (1.0 + n) * mean)
            + (1.0 + n) * ((mean - c) * (mean - c))
  {
    var d, e := mean - c, x - mean;
    assert x - c == e + d;
    assert (e + d) * (e + d) == e * e + 2.0 * d * e + d * d;
    assert x + sum - (1.0 + n) * mean == e + (sum - n * mean);
    assert 2.0 * d * (e + (sum - n * mean)) == 2.0 * d * e + 2.0 * d * (sum - n * mean);
    assert (1.0 + n) * (d * d) == d * d + n * (d * d);
  }

  lemma {:induction false} PairsFromMean(s: seq<real>, t: seq<real>, mean: real)
    requires Sum(s) == |s| as real * mean
    ensures PairSquares(s, t) == |t| as real * SquaredDeviations(s, mean) + |s| as real * SquaredDeviations(t, mean)
  {
    hide SquaredDeviations, PairSquares, Sum;
    if t == [] {
      NoPairs(s, mean);
    } else {
      var rest := t[1..];
      PairsFromMean(s, rest, mean);
      DeviationsFrom(s, mean, t[0]);
      assert 2.0 * (mean - t[0]) * 0.0 == 0.0;
      var n, m, own, others := |s| as real, |rest| as real, SquaredDeviations(s, mean), SquaredDeviations(rest, mean);
      assert |t| as real == 1.0 + m;
      PairsOfFirst(s, t, mean);
      PairOfOne(n, own, m, t[0], mean, others, PairSquares(s, rest), PairSquares(s, t), SquaredDeviations(s, t[0]),
                SquaredDeviations(t, mean), |t| as real);
    }
  }

  lemma NoPairs(s: seq<real>, mean: real)
    ensures PairSquares(s, []) == 0.0 == |s| as real * SquaredDeviations([], mean)
    ensures 0.0 * SquaredDeviations(s, mean) == 0.0
  {}

  lemma PairsOfFirst(s: seq<real>, t: seq<real>, mean: real)
    requires t != []
    ensures PairSquares(s, t) == SquaredDeviations(s, t[0]) + PairSquares(s, t[1..])
    ensures SquaredDeviations(t, mean) == (t[0] - mean) * (t[0] - mean) + SquaredDeviations(t[1..], mean)
  {}

  lemma PairOfOne(n: real, own: real, m: real, x: real, mean: real, others: real, pairs: real, pairs': real,
                  first: real, others': real, m': real)
    requires m' == 1.0 + m && pairs == m * own + n * others && pairs' == first + pairs
    requires first == own + n * ((mean - x) * (mean - x)) && others' == (x - mean) * (x - mean) + others
    ensures pairs' == m' * own + n * others'
  {
    assert (mean - x) * (mean - x) == (x - mean) * (x - mean);
    assert n * others' == n * ((x - mean) * (x - mean)) + n * others;
    assert m' * own == own + m * own;
  }

  /** The variance of n numbers is the mean of the squared differences of all their
      n * n pairs, halved. */
  lemma VarianceOfPairs(s: seq<real>)
    requires s != []
    ensures PairSquares(s, s) == 2.0 * (|s| as real * |s| as real) * Variance(s)
  {
    hide SquaredDeviations, Sum, PairSquares;
    var n, mean := |s| as real, Mean(s);
    DivMul(Sum(s), n);
    assert mean * n == Sum(s);
    PairsFromMean(s, s, mean);
    var all, v := SquaredDeviations(s, mean), Variance(s);
    DivMul(all, n);
    assert v * n == all;
    assert n * all + n * all == 2.0 * (n * n) * v by {
      assert n * all == n * (v * n) == (n * n) * v;
    }
  }

  // ----- the step ------------------------------------------------------------------------

  /** The loads of a window stay within two percent, as a standard deviation. */
  ghost predicate Steady(points: seq<Point>) {
    points != [] && PairSquares(Loads(points), Loads(points)) <= 8.0 * (|points| as real * |points| as real)
  }

  lemma SteadyExactly(points: seq<Point>)
    requires points != []
    ensures Steady(points) <==> Variance(Loads(points)) <= MAX_PLATEAU_VARIANCE
  {
    hide PairSquares, Variance;
    VarianceOfPairs(Loads(points));
    var n, v := |points| as real, Variance(Loads(points));
    var nn := n * n;
    assert nn > 0.0;
    ScaledBound(nn, v);
  }

  lemma ScaledBound(nn: real, v: real)
    requires nn > 0.0
    ensures 2.0 * nn * v <= 8.0 * nn <==> v <= 4.0
  {
    if v <= 4.0 {
      MulMono(v, 4.0, nn);
    } else {
      assert (v - 4.0) * nn > 0.0;
    }
  }

  /** Both windows around the transition are closed, twenty seconds long, steady and
      without gaps. */
  ghost predicate Plateaus(event: seq<Point>, index: nat, m: nat, n: nat)
    requires m < index < n <= |event|
  {
    && Contiguous(event[m..n])
    && event[index].at - event[m].at >= 20 && event[n - 1].at - event[index].at >= 20
    && Steady(event[m..index]) && Steady(event[index..n])
  }

  /** The load rises by at least 15 percent between loads of at most 50, neither
      line moves by more than 2 mV a second, and at the transition the voltage falls
      by at least 0.2 V, which is between 5 and 40 mV per percent. */
  ghost predicate Stepped(preLoad: real, postLoad: real, pre: Line, post: Line) {
    var rise, drop := postLoad - preLoad, pre.intercept - post.intercept;
    && 0.0 < preLoad <= 50.0 && 0.0 < postLoad <= 50.0 && rise >= 15.0
    && -0.002 <= pre.slope <= 0.002 && -0.002 <= post.slope <= 0.002
    && drop >= 0.2 && 0.005 * rise <= drop <= 0.040 * rise
  }

  lemma LinesExactly(preLoad: real, postLoad: real, pre: Line, post: Line, at: int)
    ensures var found := if LoadsUsable(preLoad, postLoad) then StepFromLines(pre, post, postLoad - preLoad, at)
            else None;
            && (found.Some? <==> Stepped(preLoad, postLoad, pre, post))
            && (found.Some? ==>
                  && found.value.evidenceAt == at
                  && pre.intercept + found.value.estimate * preLoad == post.intercept + found.value.estimate * postLoad
                  && found.value.uncertainty * (postLoad - preLoad) == 0.05)
  {
    var rise, drop := postLoad - preLoad, pre.intercept - post.intercept;
    if LoadsUsable(preLoad, postLoad) {
      var k := drop / rise;
      DivMul(drop, rise);
      assert k * rise == drop;
      SignOfStep(-drop, rise);
      if rise > 0.0 {
        QuotientRange(k, rise);
        DivMul(VOLTAGE_QUANTUM_HALF_V, rise);
        assert k * preLoad + k * rise == k * postLoad;
      }
    }
  }

  lemma SignOfStep(a: real, b: real)
    ensures a < 0.0 && b > 0.0 ==> a * b < 0.0
    ensures a <= 0.0 && b <= 0.0 ==> a * b >= 0.0
  {}

  lemma QuotientRange(k: real, rise: real)
    requires rise > 0.0
    ensures MIN_K <= k <= MAX_K <==> 0.005 * rise <= k * rise <= 0.040 * rise
  {
    if 0.005 <= k { MulMono(0.005, k, rise); } else { assert (0.005 - k) * rise > 0.0; }
    if k <= 0.040 { MulMono(k, 0.040, rise); } else { assert (k - 0.040) * rise > 0.0; }
  }

  lemma PlateausExactly(event: seq<Point>, index: nat, m: nat, n: nat)
    requires Windows(event, index, m, n)
    ensures PlateauIsValid(event[m..index], event[index..n], event[index].at) <==> Plateaus(event, index, m, n)
  {
    hide Steady, Variance, Contiguous;
    assert event[m..index] + event[index..n] == event[m..n];
    SteadyExactly(event[m..index]);
    SteadyExactly(event[index..n]);
  }

  /** The candidate of a transition in any event: there is one exactly when both
      windows are plateaus and load and voltage step between their least-squares
      lines; and its estimate is the coefficient under which, with the sag of the
      median loads taken out, both lines meet at the transition. */
  lemma StepExactly(event: seq<Point>, index: nat) returns (m: nat, n: nat, pre: Line, post: Line)
    requires 0 < index < |event|
    ensures Windows(event, index, m, n)
    ensures BestFit(event[m..index], event[index].at, pre) && BestFit(event[index..n], event[index].at, post)
    ensures var at, preLoad, postLoad := event[index].at, Median(Loads(event[m..index])),
            Median(Loads(event[index..n]));
            var found := StepAt(event, index);
            && (found.Some? <==> Plateaus(event, index, m, n) && Stepped(preLoad, postLoad, pre, post))
            && (found.Some? ==>
                  && found.value.evidenceAt == at
                  && pre.intercept + found.value.estimate * preLoad == post.intercept + found.value.estimate * postLoad
                  && found.value.uncertainty * (postLoad - preLoad) == 0.05)
  {
    hide Variance, Contiguous, BestFit, Median, LineAtTransition, PreWindow, PostWindow, Plateaus, PlateauIsValid,
         Stepped, StepFromLines, LoadsUsable;
    m, n := WindowSlices(event, index);
    var at := event[index].at;
    pre, post := LineAtTransition(event[m..index], at), LineAtTransition(event[index..n], at);
    LineIsBestFit(event[m..index], at);
    LineIsBestFit(event[index..n], at);
    PlateausExactly(event, index, m, n);
    LinesExactly(Median(Loads(event[m..index])), Median(Loads(event[index..n])), pre, post, at);
  }

  lemma {:induction false} FirstFrom(event: seq<Point>, index: nat)
    requires 0 < index
    ensures LoadStepFrom(event, index).Some? <==> exists i :: index <= i < |event| && StepAt(event, i).Some?
    ensures LoadStepFrom(event, index).Some? ==>
              exists i :: index <= i < |event| && StepAt(event, i) == LoadStepFrom(event, index)
                          && forall j :: index <= j < i ==> StepAt(event, j).None?
    decreases |event| - index
  {
    hide StepAt;
    if index < |event| && StepAt(event, index).None? {
      FirstFrom(event, index + 1);
    }
  }

  /** The scan returns the candidate of the first transition that has one. */
  lemma ScanFindsFirst(event: seq<Point>)
    ensures LoadStep(event).Some? <==> exists i :: 1 <= i < |event| && StepAt(event, i).Some?
    ensures LoadStep(event).Some? ==>
              exists i :: 1 <= i < |event| && StepAt(event, i) == LoadStep(event)
                          && forall j :: 1 <= j < i ==> StepAt(event, j).None?
  {
    hide StepAt;
    FirstFrom(event, 1);
  }
}
