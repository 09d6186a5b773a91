/** Extraction of one IR observation from a closed natural blackout
    (src/domain/model_feedback.py). */
module IrEstimator {
  import opened Types
  import opened Sorting
  import opened Arith

  const MIN_K := 0.005
  const MAX_K := 0.040
  const MIN_VOLTAGE_STEP := 0.20
  const MIN_LOAD_STEP := 15.0
  const PLATEAU_DURATION_S := 20
  const MAX_GAP_S := 15
  const MAX_PLATEAU_VARIANCE := 4.0
  const MAX_VOLTAGE_SLOPE := 0.002
  const VOLTAGE_QUANTUM_HALF_V := 0.05
  const OBSERVATION_REASON := "natural blackout load step"

  /** One parsed sample of the event: whole second, battery voltage, load. */
  datatype Point = Point(at: int, voltage: real, load: real)

  datatype Candidate = Candidate(estimate: real, evidenceAt: int, uncertainty: real)

  datatype IrObservation = IrObservation(
    eventAt: int, estimate: real, evidenceAt: int, uncertainty: real, reason: string)

  /** Some observation is of this event. */
  predicate HasEvent(os: seq<IrObservation>, eventAt: int) {
    exists i :: 0 <= i < |os| && os[i].eventAt == eventAt
  }

  // ----- the natural event -----------------------------------------------------

  predicate IsOb(r: Row) { OB in r.status }
  predicate IsCal(r: Row) { CAL in r.status }
  predicate HasLb(r: Row) { LB in r.status }

  function RawSample(r: Row): Option<Point> {
    if r.batteryV.None? || r.loadPct.None? then None
    else if 8.0 <= r.batteryV.value <= 15.0 && 0.0 <= r.loadPct.value <= 100.0
    then Some(Point(r.at, r.batteryV.value, r.loadPct.value))
    else None
  }

  /** Index of the first OB row, or the length. */
  function FirstOb(rows: seq<Row>): nat
    ensures FirstOb(rows) <= |rows|
  {
    if rows == [] then 0 else if IsOb(rows[0]) then 0 else 1 + FirstOb(rows[1..])
  }

  /** Length of the leading run of OB rows. */
  function ObRun(rows: seq<Row>): nat
    ensures ObRun(rows) <= |rows|
  {
    if rows == [] || !IsOb(rows[0]) then 0 else 1 + ObRun(rows[1..])
  }

  /** The samples of all rows without firmware LB; None when one is unusable. */
  function Parsed(rows: seq<Row>): Option<seq<Point>> {
    if rows == [] then Some([])
    else if HasLb(rows[0]) then Parsed(rows[1..])
    else
      match RawSample(rows[0])
      case None => None
      case Some(p) =>
        match Parsed(rows[1..])
        case None => None
        case Some(ps) => Some([p] + ps)
  }

  function NaturalEvent(rows: seq<Row>): Option<seq<Point>> {
    var start := FirstOb(rows);
    var tail := rows[start..];
    var n := ObRun(tail);
    if n == |tail| || !OnlineRow(tail[n]) then None
    else if exists i :: 0 <= i < n && IsCal(tail[i]) then None
    else match Parsed(tail[..n])
      case None => None
      case Some(ps) => if |ps| >= 3 then Some(ps) else None
  }

  // ----- plateaus --------------------------------------------------------------

  /** The last samples before the transition, back to the first one at least 20 s
      before it. */
  function PreWindow(points: seq<Point>, transition: int): seq<Point> {
    if points == [] then []
    else
      var last := points[|points| - 1];
      if transition - last.at >= PLATEAU_DURATION_S then [last]
      else PreWindow(points[..|points| - 1], transition) + [last]
  }

  /** The first samples from the transition on, up to the first one at least 20 s
      after it. */
  function PostWindow(points: seq<Point>, transition: int): seq<Point> {
    if points == [] then []
    else if points[0].at - transition >= PLATEAU_DURATION_S then [points[0]]
    else [points[0]] + PostWindow(points[1..], transition)
  }

  predicate Contiguous(points: seq<Point>) {
    forall i :: 0 < i < |points| ==> 0 < points[i].at - points[i - 1].at <= MAX_GAP_S
  }

  function Loads(points: seq<Point>): seq<real> {
    seq(|points|, i requires 0 <= i < |points| => points[i].load)
  }

  function Sum(s: seq<real>): real {
    if s == [] then 0.0 else s[0] + Sum(s[1..])
  }

  function SquaredDeviations(s: seq<real>, mean: real): real {
    if s == [] then 0.0 else (s[0] - mean) * (s[0] - mean) + SquaredDeviations(s[1..], mean)
  }

  function Mean(s: seq<real>): real
    requires s != []
  {
    Sum(s) / |s| as real
  }

  function Variance(s: seq<real>): real
    requires s != []
  {
    SquaredDeviations(s, Mean(s)) / |s| as real
  }

  /** _plateau_is_valid; a deviation of at most 2 is a variance of at most 4. */
  predicate PlateauIsValid(pre: seq<Point>, post: seq<Point>, transition: int) {
    && pre != [] && post != [] && Contiguous(pre + post)
    && transition - pre[0].at >= PLATEAU_DURATION_S
    && post[|post| - 1].at - transition >= PLATEAU_DURATION_S
    && Variance(Loads(pre)) <= MAX_PLATEAU_VARIANCE
    && Variance(Loads(post)) <= MAX_PLATEAU_VARIANCE
  }

  // ----- least squares ---------------------------------------------------------

  function Offset(p: Point, transition: int): real { (p.at - transition) as real }

  function SumOffsets(points: seq<Point>, transition: int): real {
    if points == [] then 0.0 else Offset(points[0], transition) + SumOffsets(points[1..], transition)
  }

  function SumVoltages(points: seq<Point>): real {
    if points == [] then 0.0 else points[0].voltage + SumVoltages(points[1..])
  }

  function Spread(points: seq<Point>, transition: int, xMean: real): real {
    if points == [] then 0.0
    else
      var dx := Offset(points[0], transition) - xMean;
      dx * dx + Spread(points[1..], transition, xMean)
  }

  function CrossSpread(points: seq<Point>, transition: int, xMean: real, yMean: real): real {
    if points == [] then 0.0
    else
      var dx := Offset(points[0], transition) - xMean;
      dx * (points[0].voltage - yMean) + CrossSpread(points[1..], transition, xMean, yMean)
  }

  datatype Line = Line(slope: real, intercept: real)

  /** Least-squares line, with its value at the transition. */
  function LineAtTransition(points: seq<Point>, transition: int): Line
    requires points != []
  {
    var n := |points| as real;
    var xMean := SumOffsets(points, transition) / n;
    var yMean := SumVoltages(points) / n;
    var d := Spread(points, transition, xMean);
    var slope := if d == 0.0 then 0.0 else CrossSpread(points, transition, xMean, yMean) / d;
    Line(slope, yMean - slope * xMean)
  }

  // ----- the scan --------------------------------------------------------------

  function StepFromLines(pre: Line, post: Line, deltaLoad: real, transition: int): Option<Candidate> {
    if Abs(pre.slope) > MAX_VOLTAGE_SLOPE || Abs(post.slope) > MAX_VOLTAGE_SLOPE then None
    else
      var deltaVoltage := post.intercept - pre.intercept;
      if deltaVoltage * deltaLoad >= 0.0 || deltaVoltage > -MIN_VOLTAGE_STEP || deltaLoad == 0.0 then None
      else
        var estimate := -deltaVoltage / deltaLoad;
        if MIN_K <= estimate <= MAX_K
        then Some(Candidate(estimate, transition, VOLTAGE_QUANTUM_HALF_V / Abs(deltaLoad)))
        else None
  }

  predicate LoadsUsable(preLoad: real, postLoad: real) {
    Abs(postLoad - preLoad) >= MIN_LOAD_STEP && 0.0 < preLoad <= 50.0 && 0.0 < postLoad <= 50.0
  }

  function StepFromWindows(pre: seq<Point>, post: seq<Point>, transition: int): Option<Candidate> {
    if !PlateauIsValid(pre, post, transition) then None
    else
      var preLoad, postLoad := LoadMedian(pre), LoadMedian(post);
      if !LoadsUsable(preLoad, postLoad) then None
      else StepFromLines(LineAtTransition(pre, transition), LineAtTransition(post, transition),
                         postLoad - preLoad, transition)
  }

  /** The candidate a given transition yields, if any. */
  function StepAt(event: seq<Point>, index: nat): Option<Candidate>
    requires 0 < index < |event|
  {
    var transition := event[index].at;
    StepFromWindows(PreWindow(event[..index], transition), PostWindow(event[index..], transition), transition)
  }

  function LoadMedian(points: seq<Point>): real
    requires points != []
  {
    Median(Loads(points))
  }

  function LoadStepFrom(event: seq<Point>, index: nat): Option<Candidate>
    requires 0 < index
    decreases |event| - index
  {
    if index >= |event| then None
    else if StepAt(event, index).Some? then StepAt(event, index)
    else LoadStepFrom(event, index + 1)
  }

  /** The candidate of the first transition that passes every guard. */
  function LoadStep(event: seq<Point>): Option<Candidate> {
    LoadStepFrom(event, 1)
  }

  function ExtractIr(rows: seq<Row>, eventAt: Option<int>): Option<IrObservation> {
    match NaturalEvent(rows)
    case None => None
    case Some(event) =>
      match LoadStep(event)
      case None => None
      case Some(c) =>
        Some(IrObservation(if eventAt.Some? then eventAt.value else event[0].at,
                           c.estimate, c.evidenceAt, c.uncertainty, OBSERVATION_REASON))
  }

  // ----- the loops of the source ------------------------------------------------

  method FindPreWindow(points: seq<Point>, transition: int) returns (window: seq<Point>)
    ensures window == PreWindow(points, transition)
  {
    window := [];
    var n := |points|;
    assert points[..n] == points;
    while n > 0
      invariant n <= |points|
      invariant PreWindow(points, transition) == PreWindow(points[..n], transition) + window
    {
      n := n - 1;
      assert points[..n + 1][..n] == points[..n];
      window := [points[n]] + window;
      if transition - points[n].at >= PLATEAU_DURATION_S {
        return;
      }
    }
  }

  method FindPostWindow(points: seq<Point>, transition: int) returns (window: seq<Point>)
    ensures window == PostWindow(points, transition)
  {
    window := [];
    for i := 0 to |points|
      invariant PostWindow(points, transition) == window + PostWindow(points[i..], transition)
    {
      assert points[i..][1..] == points[i + 1..];
      window := window + [points[i]];
      if points[i].at - transition >= PLATEAU_DURATION_S {
        return;
      }
    }
  }

  method ParseEvent(rows: seq<Row>) returns (points: Option<seq<Point>>)
    ensures points == Parsed(rows)
  {
    var parsed: seq<Point> := [];
    assert forall ps: seq<Point> :: parsed + ps == ps;
    for i := 0 to |rows|
      invariant Parsed(rows) ==
                match Parsed(rows[i..]) case None => None case Some(ps) => Some(parsed + ps)
    {
      assert rows[i..][1..] == rows[i + 1..];
      if !HasLb(rows[i]) {
        match RawSample(rows[i]) {
          case None => return None;
          case Some(p) =>
            assert forall ps: seq<Point> :: parsed + ([p] + ps) == parsed + [p] + ps;
            parsed := parsed + [p];
        }
      }
    }
    assert parsed + [] == parsed;
    points := Some(parsed);
  }

  method FindEventRows(rows: seq<Row>) returns (tail: seq<Row>, end: nat)
    ensures tail == rows[FirstOb(rows)..] && end == ObRun(tail)
  {
    var start := 0;
    while start < |rows| && !IsOb(rows[start])
      invariant start <= |rows| && FirstOb(rows) == start + FirstOb(rows[start..])
    {
      start := start + 1;
    }
    tail := rows[start..];
    end := 0;
    while end < |tail| && IsOb(tail[end])
      invariant end <= |tail| && ObRun(tail) == end + ObRun(tail[end..])
    {
      end := end + 1;
    }
  }

  method FindNaturalEvent(rows: seq<Row>) returns (event: Option<seq<Point>>)
    ensures event == NaturalEvent(rows)
  {
    var tail, end := FindEventRows(rows);
    if end == |tail| || !OnlineRow(tail[end]) {
      return None;
    }
    for i := 0 to end
      invariant forall m :: 0 <= m < i ==> !IsCal(tail[m])
    {
      if IsCal(tail[i]) {
        return None;
      }
    }
    var points := ParseEvent(tail[..end]);
    event := if points.Some? && |points.value| >= 3 then points else None;
  }

  method FindLoadStep(event: seq<Point>) returns (found: Option<Candidate>)
    ensures found == LoadStep(event)
  {
    var index := 1;
    while index < |event|
      invariant 0 < index
      invariant LoadStep(event) == LoadStepFrom(event, index)
    {
      var transition := event[index].at;
      var pre := FindPreWindow(event[..index], transition);
      var post := FindPostWindow(event[index..], transition);
      found := StepFromWindows(pre, post, transition);
      if found.Some? {
        return;
      }
      index := index + 1;
    }
    found := None;
  }

  method ExtractIrObservation(rows: seq<Row>, eventAt: Option<int>) returns (o: Option<IrObservation>)
    ensures o == ExtractIr(rows, eventAt)
  {
    var event := FindNaturalEvent(rows);
    if event.None? {
      return None;
    }
    var step := FindLoadStep(event.value);
    if step.None? {
      return None;
    }
    var c := step.value;
    o := Some(IrObservation(if eventAt.Some? then eventAt.value else event.value[0].at,
                            c.estimate, c.evidenceAt, c.uncertainty, OBSERVATION_REASON));
  }
}
