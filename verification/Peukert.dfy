/** Remaining runtime (src/battery_math/peukert.py).  The real power is a
    parameter of which only positivity is used. */
module Peukert {

  datatype PeukertParameters = PeukertParameters(
    capacityAh: real,
    peukertExponent: real,
    nominalVoltage: real,
    nominalPowerWatts: real,
    power: (real, real) -> real)

  ghost predicate ValidParameters(p: PeukertParameters) {
    && p.capacityAh > 0.0 && p.nominalVoltage > 0.0 && p.nominalPowerWatts > 0.0
    && forall base: real, exponent: real :: base > 0.0 ==> p.power(base, exponent) > 0.0
  }

  function PeukertRuntimeHours(loadPercent: real, p: PeukertParameters): real
    requires ValidParameters(p)
  {
    if loadPercent <= 0.0 then 24.0
    else
      var ratedA := p.capacityAh / 20.0;
      var actualA := loadPercent / 100.0 * p.nominalPowerWatts / p.nominalVoltage;
      ActualCurrentPositive(loadPercent, p);
      p.capacityAh / ratedA * p.power(ratedA / actualA, p.peukertExponent)
  }

  lemma ActualCurrentPositive(loadPercent: real, p: PeukertParameters)
    requires ValidParameters(p) && loadPercent > 0.0
    ensures loadPercent / 100.0 * p.nominalPowerWatts / p.nominalVoltage > 0.0
  {
    assert loadPercent / 100.0 * p.nominalPowerWatts > 0.0;
  }

  /** A rated battery always has some runtime at any load. */
  lemma RuntimeHoursPositive(loadPercent: real, p: PeukertParameters)
    requires ValidParameters(p)
    ensures PeukertRuntimeHours(loadPercent, p) > 0.0
  {
    if loadPercent > 0.0 {
      ActualCurrentPositive(loadPercent, p);
      var actualA := loadPercent / 100.0 * p.nominalPowerWatts / p.nominalVoltage;
      var ratedA := p.capacityAh / 20.0;
      assert p.capacityAh / ratedA == 20.0;
      assert ratedA / actualA > 0.0;
    }
  }

  function RuntimeMinutes(soc: real, loadPercent: real, p: PeukertParameters): real
    requires ValidParameters(p)
  {
    if soc <= 0.0 then 0.0
    else if loadPercent <= 0.0 then 24.0 * 60.0
    else
      var minutes := PeukertRuntimeHours(loadPercent, p) * soc * 60.0;
      if minutes < 0.0 then 0.0 else minutes
  }

  /** At a fixed load more charge never means less runtime. */
  lemma RuntimeMonotone(soc: real, soc': real, loadPercent: real, p: PeukertParameters)
    requires ValidParameters(p) && soc <= soc'
    ensures 0.0 <= RuntimeMinutes(soc, loadPercent, p) <= RuntimeMinutes(soc', loadPercent, p)
  {
    RuntimeHoursPositive(loadPercent, p);
    var h := PeukertRuntimeHours(loadPercent, p);
    assert h * soc <= h * soc';
  }

  /** Runtime is zero exactly when the battery is empty, a day of full charge
      without load, and otherwise that of a full battery times the charge left. */
  lemma RuntimeExactly(soc: real, loadPercent: real, p: PeukertParameters)
    requires ValidParameters(p)
    ensures RuntimeMinutes(soc, loadPercent, p) == 0.0 <==> soc <= 0.0
    ensures soc > 0.0 && loadPercent <= 0.0 ==> RuntimeMinutes(soc, loadPercent, p) == 1440.0
    ensures soc > 0.0 && loadPercent > 0.0 ==>
              && RuntimeMinutes(soc, loadPercent, p) == soc * RuntimeMinutes(1.0, loadPercent, p)
              && RuntimeMinutes(1.0, loadPercent, p) == 60.0 * PeukertRuntimeHours(loadPercent, p)
  {
    RuntimeHoursPositive(loadPercent, p);
    if soc > 0.0 && loadPercent > 0.0 {
      PositiveProduct(PeukertRuntimeHours(loadPercent, p), soc);
    }
  }

  lemma PositiveProduct(h: real, soc: real)
    requires h > 0.0 && soc > 0.0
    ensures h * soc * 60.0 > 0.0 && h * soc * 60.0 == soc * (h * 1.0 * 60.0)
  {}

  // ----- the law ----------------------------------------------------------------

  /** Rated over actual current. */
  function CurrentRatio(loadPercent: real, p: PeukertParameters): real
    requires ValidParameters(p) && loadPercent > 0.0
  {
    ActualCurrentPositive(loadPercent, p);
    p.capacityAh / 20.0 / (loadPercent / 100.0 * p.nominalPowerWatts / p.nominalVoltage)
  }

  /** The load whose current is the 20-hour one. */
  function RatedLoad(p: PeukertParameters): real
    requires ValidParameters(p)
  {
    p.capacityAh * 5.0 * p.nominalVoltage / p.nominalPowerWatts
  }

  lemma HoursOfRatio(loadPercent: real, p: PeukertParameters)
    requires ValidParameters(p) && loadPercent > 0.0
    ensures PeukertRuntimeHours(loadPercent, p) == 20.0 * p.power(CurrentRatio(loadPercent, p), p.peukertExponent)
  {
    assert p.capacityAh / (p.capacityAh / 20.0) == 20.0;
  }

  /** The ratio is the rated load over the load. */
  lemma RatioOfLoads(loadPercent: real, p: PeukertParameters)
    requires ValidParameters(p) && loadPercent > 0.0
    ensures RatedLoad(p) > 0.0 && CurrentRatio(loadPercent, p) > 0.0
    ensures CurrentRatio(loadPercent, p) * loadPercent == RatedLoad(p)
  {
    ActualCurrentPositive(loadPercent, p);
    var c, w, v := p.capacityAh, p.nominalPowerWatts, p.nominalVoltage;
    var a := loadPercent / 100.0 * w / v;
    var q, rated := CurrentRatio(loadPercent, p), RatedLoad(p);
    assert q * a == c / 20.0;
    assert a * v == loadPercent / 100.0 * w;
    assert rated * w == c * 5.0 * v;
    PositiveQuotients(q, a, c / 20.0, rated, w, c * 5.0 * v);
    RatioAlgebra(q, a, loadPercent, w, v, c, rated);
  }

  lemma PositiveQuotients(q: real, a: real, c: real, r: real, w: real, n: real)
    requires a > 0.0 && c > 0.0 && q * a == c && w > 0.0 && n > 0.0 && r * w == n
    ensures q > 0.0 && r > 0.0
  {}

  lemma RatioAlgebra(q: real, a: real, l: real, w: real, v: real, c: real, rated: real)
    requires w > 0.0 && q * a == c / 20.0 && a * v == l / 100.0 * w && rated * w == c * 5.0 * v
    ensures q * l == rated
  {
    assert q * l * w == q * (l * w) && l * w == 100.0 * (a * v);
    assert q * (100.0 * (a * v)) == 100.0 * (q * a) * v;
    assert (q * l) * w == rated * w;
    Cancelled(q * l, rated, w);
  }

  lemma Cancelled(x: real, y: real, w: real)
    requires w > 0.0 && x * w == y * w
    ensures x == y
  {
    assert (x - y) * w == 0.0;
  }

  ghost predicate Increasing(p: PeukertParameters) {
    forall a: real, b: real :: 0.0 < a <= b ==> p.power(a, p.peukertExponent) <= p.power(b, p.peukertExponent)
  }

  ghost predicate Multiplicative(p: PeukertParameters) {
    && p.power(1.0, p.peukertExponent) == 1.0
    && forall a: real, b: real :: a > 0.0 && b > 0.0 ==>
         p.power(a * b, p.peukertExponent) == p.power(a, p.peukertExponent) * p.power(b, p.peukertExponent)
  }

  /** With an increasing power more load never means more runtime. */
  lemma MoreLoadLessRuntime(soc: real, load: real, load': real, p: PeukertParameters)
    requires ValidParameters(p) && Increasing(p) && 0.0 < load <= load'
    ensures PeukertRuntimeHours(load', p) <= PeukertRuntimeHours(load, p)
    ensures RuntimeMinutes(soc, load', p) <= RuntimeMinutes(soc, load, p)
  {
    HoursOfRatio(load, p);
    HoursOfRatio(load', p);
    RatioOfLoads(load, p);
    RatioOfLoads(load', p);
    RatioFalls(CurrentRatio(load, p), load, CurrentRatio(load', p), load');
    RuntimeHoursPositive(load', p);
    var h, h' := PeukertRuntimeHours(load, p), PeukertRuntimeHours(load', p);
    if soc > 0.0 {
      assert h' * soc <= h * soc;
    }
  }

  lemma RatioFalls(q: real, load: real, q': real, load': real)
    requires 0.0 < load <= load' && q > 0.0 && q' > 0.0 && q * load == q' * load'
    ensures q' <= q
  {
    assert q' > q ==> q' * load' > q * load' && q * load' >= q * load;
  }

  /** A load r times larger has an r times smaller ratio. */
  lemma RatioScales(load: real, r: real, p: PeukertParameters)
    requires ValidParameters(p) && load > 0.0 && r > 0.0
    ensures load * r > 0.0 && CurrentRatio(load * r, p) > 0.0
    ensures CurrentRatio(load, p) == CurrentRatio(load * r, p) * r
  {
    hide CurrentRatio, RatedLoad;
    assert load * r > 0.0;
    RatioOfLoads(load, p);
    RatioOfLoads(load * r, p);
    var q := CurrentRatio(load * r, p);
    assert q * (load * r) == (q * r) * load;
    Cancelled(CurrentRatio(load, p), q * r, load);
  }

  lemma RatioAtRatedLoad(p: PeukertParameters)
    requires ValidParameters(p)
    ensures RatedLoad(p) > 0.0 && CurrentRatio(RatedLoad(p), p) == 1.0
  {
    hide CurrentRatio, RatedLoad;
    RatioOfLoads(1.0, p);
    RatioOfLoads(RatedLoad(p), p);
    Cancelled(CurrentRatio(RatedLoad(p), p), 1.0, RatedLoad(p));
  }

  lemma PowerOfProduct(p: PeukertParameters, a: real, b: real)
    requires Multiplicative(p) && a > 0.0 && b > 0.0
    ensures p.power(1.0, p.peukertExponent) == 1.0
    ensures p.power(a * b, p.peukertExponent) == p.power(a, p.peukertExponent) * p.power(b, p.peukertExponent)
  {}

  /** Peukert's law: a full battery lasts twenty hours at the rated load, one charged
      to soc that part of it, and at a load r times larger the power of r times less. */
  lemma PeukertsLaw(soc: real, load: real, r: real, p: PeukertParameters)
    requires ValidParameters(p) && Multiplicative(p) && soc > 0.0 && load > 0.0 && r > 0.0
    ensures RatedLoad(p) > 0.0 && PeukertRuntimeHours(RatedLoad(p), p) == 20.0
    ensures RuntimeMinutes(soc, RatedLoad(p), p) == soc * 1200.0
    ensures PeukertRuntimeHours(load, p) == p.power(r, p.peukertExponent) * PeukertRuntimeHours(load * r, p)
  {
    hide CurrentRatio, RatedLoad, PeukertRuntimeHours, RuntimeMinutes, Multiplicative;
    RatioAtRatedLoad(p);
    HoursOfRatio(RatedLoad(p), p);
    RuntimeExactly(soc, RatedLoad(p), p);
    RatioScales(load, r, p);
    HoursOfRatio(load, p);
    HoursOfRatio(load * r, p);
    var q, n := CurrentRatio(load * r, p), p.peukertExponent;
    PowerOfProduct(p, q, r);
    var x, y := p.power(q, n), p.power(r, n);
    assert p.power(q * r, n) == x * y;
    assert CurrentRatio(load, p) == q * r;
    assert p.power(CurrentRatio(load, p), n) == p.power(q * r, n);
    Reordered(x, y);
  }

  lemma Reordered(x: real, y: real)
    ensures 20.0 * (x * y) == y * (20.0 * x)
  {}
}
