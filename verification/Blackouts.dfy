/** One realistic blackout, second by second, and what the daemon does with it.
    The runs of Counterexamples are put together from it. */
module Blackouts {
  import opened Types
  import opened Sorting
  import opened IrEstimator
  import opened IrExact
  import opened Cohort
  import opened History
  import opened Feedback

  // ----- the blackout ------------------------------------------------------------------

  /** On battery at second t. */
  function OnBattery(t: int, voltage: real, load: real): Observation {
    Observation(0, t * MICROS, {OB}, Some(voltage), Some(load), None, None, None, None)
  }

  /** Back on mains and charging at second t. */
  function Charging(t: int): Observation {
    Observation(0, t * MICROS, {OL, CHRG}, Some(13.0), Some(45.0), None, Some(90.0), None, None)
  }

  /** Forty seconds on battery; after twenty the load rises from 5 to 45 percent
      and the voltage falls by a quarter volt. */
  function Discharge(e: int): seq<Observation> {
    [OnBattery(e, 12.5, 5.0), OnBattery(e + 10, 12.5, 5.0), OnBattery(e + 20, 12.25, 45.0),
     OnBattery(e + 30, 12.25, 45.0), OnBattery(e + 40, 12.25, 45.0)]
  }

  function Restored(e: int): Observation { Charging(e + 45) }

  /** The rows of the closed episode. */
  function BlackoutRows(e: int): seq<Row> {
    Samples(Discharge(e)) + [Sample(Restored(e))]
  }

  /** What the estimator makes of it. */
  function Seen(e: int): IrObservation {
    IrObservation(e, 0.00625, e + 20, VOLTAGE_QUANTUM_HALF_V / 40.0, OBSERVATION_REASON)
  }

  function Points(e: int): seq<Point> {
    [Point(e, 12.5, 5.0), Point(e + 10, 12.5, 5.0), Point(e + 20, 12.25, 45.0),
     Point(e + 30, 12.25, 45.0), Point(e + 40, 12.25, 45.0)]
  }

  lemma SecondOf(t: int)
    ensures t * MICROS / MICROS == t
  {}

  lemma DischargeRows(e: int)
    ensures var rows := Samples(Discharge(e));
            && |rows| == 5
            && (forall i :: 0 <= i < 5 ==> rows[i].status == {OB} && RawSample(rows[i]) == Some(Points(e)[i]))
            && (forall i :: 0 <= i < 5 ==> ActiveRow(rows[i]) && !OnlineRow(rows[i]) && rows[i].at == Points(e)[i].at)
    ensures var row := Sample(Restored(e));
            row.status == {OL, CHRG} && row.at == e + 45 && OnlineRow(row) && !ActiveRow(row)
  {
    SecondOf(e);
    SecondOf(e + 10);
    SecondOf(e + 20);
    SecondOf(e + 30);
    SecondOf(e + 40);
    SecondOf(e + 45);
  }

  lemma ParsedOne(row: Row, p: Point, rest: seq<Row>, ps: seq<Point>)
    requires !HasLb(row) && RawSample(row) == Some(p) && Parsed(rest) == Some(ps)
    ensures Parsed([row] + rest) == Some([p] + ps)
  {
    assert ([row] + rest)[1..] == rest;
  }

  lemma {:induction false} ParsedAll(rows: seq<Row>, ps: seq<Point>)
    requires |rows| == |ps| && forall i :: 0 <= i < |rows| ==> !HasLb(rows[i]) && RawSample(rows[i]) == Some(ps[i])
    ensures Parsed(rows) == Some(ps)
  {
    if rows != [] {
      ParsedAll(rows[1..], ps[1..]);
      ParsedOne(rows[0], ps[0], rows[1..], ps[1..]);
      assert [rows[0]] + rows[1..] == rows && [ps[0]] + ps[1..] == ps;
    }
  }

  lemma BlackoutIsEvent(e: int)
    ensures NaturalEvent(BlackoutRows(e)) == Some(Points(e))
  {
    hide RawSample, NaturalEvent, Parsed;
    var tail, rest := Samples(Discharge(e)), [Sample(Restored(e))];
    DischargeRows(e);
    ParsedAll(tail, Points(e));
    ParsedExactly(tail);
    NaturalEventExactly([], tail, rest);
    assert [] + tail + rest == BlackoutRows(e);
    forall r | r in tail ensures HasLb(r) || RawSample(r).Some? {
      var i :| 0 <= i < 5 && tail[i] == r;
      assert RawSample(tail[i]) == Some(Points(e)[i]);
    }
    assert |Points(e)| == ClearRows(tail);
  }

  lemma SeenFrom(rows: seq<Row>, e: int, event: seq<Point>, l0: real, l1: real)
    requires NaturalEvent(rows) == Some(event) && LinearEvent(event, 2, 12.53125, 0.0, 0.00625, l0, l1)
    requires Observable(event, 2, 0.0, 0.00625, l0, l1) && event[2].at == e + 20 && l1 - l0 == 40.0
    ensures ExtractIr(rows, Some(e)) == Some(Seen(e))
  {
    hide NaturalEvent, ExtractIr, LinearEvent, Observable;
    ExtractionIsExact(rows, e, event, 2, 12.53125, 0.0, 0.00625, l0, l1);
    var o := ExtractIr(rows, Some(e)).value;
    assert o.uncertainty == VOLTAGE_QUANTUM_HALF_V / 40.0 && o.reason == OBSERVATION_REASON;
    assert o == Seen(e);
  }

  /** The estimator accepts the blackout and finds 0.00625 V per percent. */
  lemma BlackoutIsSeen(e: int)
    ensures ExtractIr(BlackoutRows(e), Some(e)) == Some(Seen(e))
    ensures EventStart(BlackoutRows(e)) == Some(e)
  {
    hide BlackoutRows, NaturalEvent, ExtractIr, EventStart, Points, LinearEvent, Observable;
    BlackoutIsEvent(e);
    PointsAreLinear(e);
    SeenFrom(BlackoutRows(e), e, Points(e), 5.0, 45.0);
    BlackoutStarts(e);
  }

  lemma PointsAreLinear(e: int)
    ensures LinearEvent(Points(e), 2, 12.53125, 0.0, 0.00625, 5.0, 45.0)
    ensures Observable(Points(e), 2, 0.0, 0.00625, 5.0, 45.0) && Points(e)[2].at == e + 20
  {
    var event := Points(e);
    assert event[0..5] == event;
    assert CoveredBy(event, 2, 0, 5);
  }

  lemma BlackoutStarts(e: int)
    ensures EventStart(BlackoutRows(e)) == Some(e)
  {
    DischargeRows(e);
    assert BlackoutRows(e)[0] == Samples(Discharge(e))[0];
  }

  // ----- cohorts of such observations ----------------------------------------------------

  function SeenAll(times: seq<int>): (os: seq<IrObservation>)
    ensures |os| == |times|
  {
    seq(|times|, i requires 0 <= i < |times| => Seen(times[i]))
  }

  ghost predicate Increasing(times: seq<int>) {
    forall i, j :: 0 <= i < j < |times| ==> times[i] < times[j]
  }

  lemma {:induction false} AllAcceptable(os: seq<IrObservation>)
    requires forall o :: o in os ==> Acceptable(o)
    ensures Filtered(os) == os
  {
    if os != [] {
      AllAcceptable(os[..|os| - 1]);
      assert os == os[..|os| - 1] + [os[|os| - 1]];
    }
  }

  lemma SeenMedian(times: seq<int>)
    requires times != []
    ensures Median(Estimates(SeenAll(times))) == 0.00625
  {
    hide Median;
    var es := Estimates(SeenAll(times));
    forall i | 0 <= i < |es| ensures es[i] == 0.00625 {
      assert es[i] == EstimateOf(SeenAll(times)[i]);
    }
    MedianBetween(es, 0.00625, 0.00625);
  }

  /** Three or more of them lower k by 0.002 as long as it stays above them. */
  lemma SeenProposal(times: seq<int>, k: real)
    requires Increasing(times) && MIN_K <= k <= MAX_K
    ensures var p := Propose(SeenAll(times), None, k);
            && (p.Some? <==> |times| >= 3 && k >= 0.00725)
            && (|times| >= 3 && k >= 0.00825 ==> p.value.toValue == k - MAX_STEP)
  {
    hide Propose, Median, Unique, Estimates, SeenAll, Evidence, MinOf, MaxOf;
    var os := SeenAll(times);
    SeenUnique(times);
    ProposalExactly(os, None, k);
    if |times| >= 3 {
      SeenMedian(times);
      if k >= 0.00725 {
        ProposalBounds(os, None, k);
      }
    }
  }

  lemma SeenUnique(times: seq<int>)
    requires Increasing(times)
    ensures Unique(SeenAll(times)) == SeenAll(times)
    ensures forall o :: o in SeenAll(times) ==>
              o.uncertainty <= MAX_OBSERVATION_UNCERTAINTY_K && o.estimate == 0.00625
  {
    var os := SeenAll(times);
    assert DistinctKeys(os);
    AllAcceptable(os);
    UniqueOfDistinct(os);
  }

  ghost predicate AllUpTo(times: seq<int>, u: int) {
    forall i :: 0 <= i < |times| ==> times[i] <= u
  }

  ghost predicate AllAfter(times: seq<int>, u: int) {
    forall i :: 0 <= i < |times| ==> times[i] > u
  }

  lemma SeenLast(times: seq<int>)
    requires times != []
    ensures var n := |times| - 1;
            && SeenAll(times)[..n] == SeenAll(times[..n]) && SeenAll(times)[n] == Seen(times[n])
            && SeenAll(times) == SeenAll(times[..n]) + [Seen(times[n])]
  {}

  lemma {:induction false} NoneNewer(times: seq<int>, u: int)
    requires AllUpTo(times, u)
    ensures NewerThan(SeenAll(times), Some(u)) == []
  {
    if times != [] {
      SeenLast(times);
      NoneNewer(times[..|times| - 1], u);
    }
  }

  /** Of events in order of time, those after the last update are pending. */
  lemma {:induction false} PendingSuffix(older: seq<int>, young: seq<int>, last: Option<int>)
    requires Increasing(older + young)
    requires match last case None => older == [] case Some(u) => AllUpTo(older, u) && AllAfter(young, u)
    ensures NewerThan(SeenAll(older + young), last) == SeenAll(young)
  {
    var times := older + young;
    if young == [] {
      assert times == older;
      if last.Some? {
        NoneNewer(older, last.value);
      }
    } else {
      hide NewerThan, SeenAll, AllUpTo, AllAfter, Increasing;
      var n := |young| - 1;
      assert times[..|times| - 1] == older + young[..n];
      SuffixShrinks(older, young, last);
      PendingSuffix(older, young[..n], last);
      OneMorePending(older, young, last);
    }
  }

  lemma SuffixShrinks(older: seq<int>, young: seq<int>, last: Option<int>)
    requires Increasing(older + young) && young != []
    requires match last case None => older == [] case Some(u) => AllUpTo(older, u) && AllAfter(young, u)
    ensures Increasing(older + young[..|young| - 1]) && (last.Some? ==> AllAfter(young[..|young| - 1], last.value))
  {
    var n := |young| - 1;
    assert (older + young)[..|older| + n] == older + young[..n];
  }

  /** The newest event is pending and is none of the earlier ones. */
  lemma OneMorePending(older: seq<int>, young: seq<int>, last: Option<int>)
    requires Increasing(older + young) && young != []
    requires match last case None => older == [] case Some(u) => AllUpTo(older, u) && AllAfter(young, u)
    requires var n := |young| - 1; NewerThan(SeenAll(older + young[..n]), last) == SeenAll(young[..n])
    ensures NewerThan(SeenAll(older + young), last) == SeenAll(young)
  {
    var times, n := older + young, |young| - 1;
    assert times[..|times| - 1] == older + young[..n];
    SeenLast(times);
    SeenLast(young);
    forall i | 0 <= i < n ensures SeenAll(young[..n])[i].eventAt != young[n] {
      assert times[|older| + i] < times[|older| + n];
    }
  }
}
