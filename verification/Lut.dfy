/** Voltage to state-of-charge lookup (src/battery_math/lut.py). */
module Lut {
  import opened Types
  import opened Arith

  datatype LutPoint = LutPoint(voltageV: real, soc: real)

  const SOC_FALLBACK := 0.5
  const EXACT_MATCH_TOLERANCE_V := 0.01

  function ClampSoc(soc: real): real {
    if soc < 0.0 then 0.0 else if soc > 1.0 then 1.0 else soc
  }

  function BoundarySoc(v: real, lut: seq<LutPoint>): Option<real>
    requires lut != []
  {
    if v > lut[0].voltageV then Some(1.0)
    else if v < lut[|lut| - 1].voltageV then Some(0.0)
    else None
  }

  predicate InBand(v: real, p: LutPoint) {
    Abs(p.voltageV - v) < EXACT_MATCH_TOLERANCE_V
  }

  /** SoC of the first point whose exact-match band contains v. */
  function ExactMatchSoc(v: real, lut: seq<LutPoint>): Option<real> {
    if lut == [] then None
    else if InBand(v, lut[0]) then Some(lut[0].soc)
    else ExactMatchSoc(v, lut[1..])
  }

  function Interpolate(v: real, upper: LutPoint, lower: LutPoint): real {
    var span := lower.voltageV - upper.voltageV;
    if span == 0.0 then upper.soc
    else ClampSoc(upper.soc + (v - upper.voltageV) / span * (lower.soc - upper.soc))
  }

  function InterpolatedSoc(v: real, lut: seq<LutPoint>): Option<real> {
    if |lut| < 2 then None
    else if lut[0].voltageV >= v >= lut[1].voltageV then Some(Interpolate(v, lut[0], lut[1]))
    else InterpolatedSoc(v, lut[1..])
  }

  /** The rule that decides, before the fallback: boundary, exact band, segment. */
  function SocRule(v: real, lut: seq<LutPoint>): Option<real>
    requires lut != []
  {
    if BoundarySoc(v, lut).Some? then BoundarySoc(v, lut)
    else if ExactMatchSoc(v, lut).Some? then ExactMatchSoc(v, lut)
    else InterpolatedSoc(v, lut)
  }

  function SocFromVoltage(v: real, lut: seq<LutPoint>): real {
    if lut == [] then SOC_FALLBACK
    else match SocRule(v, lut) case Some(soc) => soc case None => SOC_FALLBACK
  }

  /** Strictly descending voltages, SoC never rising and inside [0, 1]. */
  ghost predicate ValidLut(lut: seq<LutPoint>) {
    && lut != []
    && (forall i, j :: 0 <= i < j < |lut| ==> lut[i].voltageV > lut[j].voltageV)
    && (forall i, j :: 0 <= i <= j < |lut| ==> lut[i].soc >= lut[j].soc)
    && (forall i :: 0 <= i < |lut| ==> 0.0 <= lut[i].soc <= 1.0)
  }

  lemma {:induction false} FirstBand(v: real, lut: seq<LutPoint>) returns (b: nat)
    ensures b <= |lut|
    ensures forall i :: 0 <= i < b ==> !InBand(v, lut[i])
    ensures b < |lut| ==> InBand(v, lut[b]) && ExactMatchSoc(v, lut) == Some(lut[b].soc)
    ensures b == |lut| ==> ExactMatchSoc(v, lut) == None
  {
    if lut == [] || InBand(v, lut[0]) {
      b := 0;
    } else {
      var c := FirstBand(v, lut[1..]);
      b := c + 1;
    }
  }

  lemma {:induction false} FirstSegment(v: real, lut: seq<LutPoint>) returns (u: nat)
    requires |lut| >= 2 && lut[0].voltageV >= v >= lut[|lut| - 1].voltageV
    ensures u + 1 < |lut| && lut[u].voltageV >= v >= lut[u + 1].voltageV
    ensures InterpolatedSoc(v, lut) == Some(Interpolate(v, lut[u], lut[u + 1]))
  {
    if v >= lut[1].voltageV {
      u := 0;
    } else {
      var w := FirstSegment(v, lut[1..]);
      u := w + 1;
    }
  }

  /** On one segment the value stays between the end points and follows v. */
  lemma SegmentOrder(v: real, w: real, upper: LutPoint, lower: LutPoint)
    requires upper.voltageV >= w >= v >= lower.voltageV && upper.voltageV > lower.voltageV
    requires 1.0 >= upper.soc >= lower.soc >= 0.0
    ensures lower.soc <= Interpolate(v, upper, lower) <= Interpolate(w, upper, lower) <= upper.soc
  {
    var f, g := Drop(v, upper, lower), Drop(w, upper, lower);
    DropRange(v, w, upper, lower);
    Flip(v, upper, lower);
    Flip(w, upper, lower);
  }

  /** How far the interpolation falls below the upper point. */
  function Drop(v: real, upper: LutPoint, lower: LutPoint): real
    requires upper.voltageV > lower.voltageV
  {
    (upper.voltageV - v) / (upper.voltageV - lower.voltageV) * (upper.soc - lower.soc)
  }

  lemma DropRange(v: real, w: real, upper: LutPoint, lower: LutPoint)
    requires upper.voltageV >= w >= v >= lower.voltageV && upper.voltageV > lower.voltageV
    requires upper.soc >= lower.soc
    ensures 0.0 <= Drop(w, upper, lower) <= Drop(v, upper, lower) <= upper.soc - lower.soc
  {
    var d, c := upper.voltageV - lower.voltageV, upper.soc - lower.soc;
    Quotient(upper.voltageV - v, d);
    Quotient(upper.voltageV - w, d);
    QuotientMono(upper.voltageV - w, upper.voltageV - v, d);
    var p, q := (upper.voltageV - w) / d, (upper.voltageV - v) / d;
    assert 0.0 <= p <= q <= 1.0;
    MulNonNeg(p, c);
    MulMono(p, q, c);
    MulMono(q, 1.0, c);
    assert Drop(v, upper, lower) == q * c && Drop(w, upper, lower) == p * c;
  }

  lemma Flip(v: real, upper: LutPoint, lower: LutPoint)
    requires upper.voltageV > lower.voltageV
    ensures (v - upper.voltageV) / (lower.voltageV - upper.voltageV) * (lower.soc - upper.soc)
            == -Drop(v, upper, lower)
    ensures Interpolate(v, upper, lower) == ClampSoc(upper.soc - Drop(v, upper, lower))
  {
    var n, d := upper.voltageV - v, upper.voltageV - lower.voltageV;
    var q := n / d;
    assert q * d == n;
    assert v - upper.voltageV == -n && lower.voltageV - upper.voltageV == -d;
    assert (-n) / (-d) == q;
  }

  /** Where a voltage inside the table falls: a point (hi == lo) or a segment. */
  lemma Locate(v: real, lut: seq<LutPoint>) returns (hi: nat, lo: nat)
    requires ValidLut(lut) && BoundarySoc(v, lut) == None
    ensures hi <= lo < |lut| && lo <= hi + 1
    ensures SocRule(v, lut).Some?
    ensures hi == lo ==> InBand(v, lut[hi]) && SocRule(v, lut).value == lut[hi].soc
    ensures hi < lo ==> lut[hi].voltageV >= v >= lut[lo].voltageV
                        && SocRule(v, lut).value == Interpolate(v, lut[hi], lut[lo])
                        && lut[lo].soc <= SocRule(v, lut).value <= lut[hi].soc
    ensures forall i :: 0 <= i < |lut| && (i < hi || hi < lo) ==> !InBand(v, lut[i])
  {
    assert InBand(v, lut[0]) || |lut| > 1;
    var b := FirstBand(v, lut);
    if b < |lut| {
      hi, lo := b, b;
    } else {
      var u := FirstSegment(v, lut);
      SegmentOrder(v, v, lut[u], lut[u + 1]);
      hi, lo := u, u + 1;
    }
  }

  /** For a valid table the 0.5 fallback is never used and SoC is in [0, 1]. */
  lemma SocInRange(v: real, lut: seq<LutPoint>)
    requires ValidLut(lut)
    ensures SocRule(v, lut).Some? && SocFromVoltage(v, lut) == SocRule(v, lut).value
    ensures 0.0 <= SocFromVoltage(v, lut) <= 1.0
  {
    if BoundarySoc(v, lut) == None {
      var hi, lo := Locate(v, lut);
    }
  }

  /** A lower voltage never yields a higher state of charge, across the
      boundaries, the exact bands (even overlapping ones) and the segments. */
  lemma SocMonotone(v: real, w: real, lut: seq<LutPoint>)
    requires ValidLut(lut) && v <= w
    ensures SocFromVoltage(v, lut) <= SocFromVoltage(w, lut)
  {
    SocInRange(v, lut);
    SocInRange(w, lut);
    if BoundarySoc(v, lut) == None && BoundarySoc(w, lut) == None {
      var vHi, vLo := Locate(v, lut);
      var wHi, wLo := Locate(w, lut);
      assert wLo <= vHi || (lut[vHi].voltageV > lut[wLo].voltageV && !InBand(w, lut[vHi]));
      if vHi < vLo && wHi < wLo {
        if vHi == wHi {
          SegmentOrder(v, w, lut[vHi], lut[vLo]);
        } else {
          assert wLo <= vHi;
        }
      } else {
        assert wLo <= vHi;
      }
    }
  }

  lemma CrossMultiplied(v: real, upper: LutPoint, lower: LutPoint)
    requires upper.voltageV >= v >= lower.voltageV && upper.voltageV > lower.voltageV
    requires 1.0 >= upper.soc >= lower.soc >= 0.0
    ensures (Interpolate(v, upper, lower) - lower.soc) * (upper.voltageV - lower.voltageV)
            == (v - lower.voltageV) * (upper.soc - lower.soc)
  {
    var d, c, n := upper.voltageV - lower.voltageV, upper.soc - lower.soc, upper.voltageV - v;
    DropRange(v, v, upper, lower);
    Flip(v, upper, lower);
    var q := n / d;
    Quotient(n, d);
    assert Interpolate(v, upper, lower) - lower.soc == c - q * c;
    Scaled(c, q, d, n);
  }

  lemma Scaled(c: real, q: real, d: real, n: real)
    requires q * d == n
    ensures (c - q * c) * d == (d - n) * c
  {
    assert q * c * d == n * c;
  }

  /** The whole table rule: 1 above the table and 0 below it; inside, the SoC of
      the highest point within 10 mV, and otherwise the straight line between the
      two neighbouring points. */
  lemma SocExactly(v: real, lut: seq<LutPoint>) returns (hi: nat, lo: nat)
    requires ValidLut(lut)
    ensures hi <= lo < |lut| && lo <= hi + 1
    ensures v > lut[0].voltageV ==> SocFromVoltage(v, lut) == 1.0
    ensures v < lut[|lut| - 1].voltageV ==> SocFromVoltage(v, lut) == 0.0
    ensures lut[0].voltageV >= v >= lut[|lut| - 1].voltageV && hi == lo ==>
              InBand(v, lut[hi]) && (forall i :: 0 <= i < hi ==> !InBand(v, lut[i]))
                  && SocFromVoltage(v, lut) == lut[hi].soc
    ensures lut[0].voltageV >= v >= lut[|lut| - 1].voltageV && hi < lo ==>
              && (forall i :: 0 <= i < |lut| ==> !InBand(v, lut[i]))
              && lut[hi].voltageV > v > lut[lo].voltageV
              && (SocFromVoltage(v, lut) - lut[lo].soc) * (lut[hi].voltageV - lut[lo].voltageV)
                 == (v - lut[lo].voltageV) * (lut[hi].soc - lut[lo].soc)
  {
    hi, lo := 0, 0;
    SocInRange(v, lut);
    if BoundarySoc(v, lut) == None {
      hi, lo := Locate(v, lut);
      if hi < lo {
        assert !InBand(v, lut[hi]) && !InBand(v, lut[lo]);
        CrossMultiplied(v, lut[hi], lut[lo]);
      }
    }
  }
}
