/** One safety calculation from one frozen model snapshot
    (src/application/safety.py and src/domain/safety_policy.py). */
module Safety {
  import opened Types
  import opened Lut
  import opened Peukert
  import opened Arith

  const SAFETY_LB_FLOOR_MINUTES := 2.0

  /** The three values the virtual `ups.status` can take. */
  datatype VirtualStatus = StatusOnline | StatusDischarging | StatusLowBattery

  datatype LbSource = ModeledThreshold | HardFloor

  /** `source` is present exactly while virtual LB is latched. */
  datatype SafetyLatch = SafetyLatch(virtualLb: bool, source: Option<LbSource>)

  const UNLATCHED := SafetyLatch(false, None)

  datatype Snapshot = Snapshot(
    irK: real,
    irReferenceLoadPercent: real,
    lut: seq<LutPoint>,
    peukert: PeukertParameters)

  ghost predicate ValidSnapshot(s: Snapshot) {
    ValidLut(s.lut) && ValidParameters(s.peukert)
  }

  datatype UnlatchedDecision = UnlatchedDecision(status: VirtualStatus, modeledLb: bool, hardFloorLb: bool)

  datatype SafetyDecision = SafetyDecision(
    status: VirtualStatus, modeledLb: bool, hardFloorLb: bool, nextLatch: SafetyLatch)

  function ConservativeKind(kind: BlackoutKind): BlackoutKind {
    if kind == Unknown then BlackoutReal else kind
  }

  function DecideUnlatched(kind: BlackoutKind, runtime: Option<real>, shutdownMinutes: int): UnlatchedDecision {
    if kind == Online then UnlatchedDecision(StatusOnline, false, false)
    else
      var effectiveKind := ConservativeKind(kind);
      var effective := if runtime.None? then 0.0 else runtime.value;
      var hardFloor := effective < SAFETY_LB_FLOOR_MINUTES;
      var modeled := effectiveKind == BlackoutReal && effective < shutdownMinutes as real;
      UnlatchedDecision(if hardFloor || modeled then StatusLowBattery else StatusDischarging, modeled, hardFloor)
  }

  function Decide(
      kind: BlackoutKind, runtime: Option<real>, shutdownMinutes: int, previous: SafetyLatch): SafetyDecision
  {
    if kind == Online then SafetyDecision(StatusOnline, false, false, UNLATCHED)
    else if previous.virtualLb then
      SafetyDecision(StatusLowBattery, previous.source == Some(ModeledThreshold), previous.source == Some(HardFloor),
          previous)
    else
      var current := DecideUnlatched(kind, runtime, shutdownMinutes);
      if current.hardFloorLb || current.modeledLb then
        var source := if current.hardFloorLb then HardFloor else ModeledThreshold;
        SafetyDecision(StatusLowBattery, current.modeledLb, current.hardFloorLb, SafetyLatch(true, Some(source)))
      else
        SafetyDecision(current.status, current.modeledLb, current.hardFloorLb, UNLATCHED)
  }

  datatype Calculation = Calculation(soc: real, runtimeMinutes: real, decision: SafetyDecision)

  function NormalizedVoltage(v: real, load: real, s: Snapshot): real {
    v + s.irK * (load - s.irReferenceLoadPercent)
  }

  function CalculateSafety(v: real, load: real, kind: BlackoutKind, shutdownMinutes: int,
                           previous: SafetyLatch, s: Snapshot): Calculation
    requires ValidSnapshot(s)
  {
    var soc := SocFromVoltage(NormalizedVoltage(v, load, s), s.lut);
    var remaining := RuntimeMinutes(soc, load, s.peukert);
    Calculation(soc, remaining, Decide(kind, Some(remaining), shutdownMinutes, previous))
  }

  /** `s'` is `s` with a learned coefficient that is not larger. */
  ghost predicate LowerCoefficient(s: Snapshot, s': Snapshot) {
    s' == s.(irK := s'.irK) && s'.irK <= s.irK && s.irReferenceLoadPercent == 0.0
  }

  /** A lower coefficient only lowers SoC and runtime, and publishes LB at
      least as often, also through the latch. */
  lemma LowerCoefficientIsConservative(
      v: real, load: real, kind: BlackoutKind, shutdownMinutes: int,
      latch: SafetyLatch, latch': SafetyLatch, s: Snapshot, s': Snapshot)
    requires ValidSnapshot(s) && ValidSnapshot(s') && LowerCoefficient(s, s') && load >= 0.0
    requires latch.virtualLb ==> latch'.virtualLb
    ensures var c, c' := CalculateSafety(v, load, kind, shutdownMinutes, latch, s),
                         CalculateSafety(v, load, kind, shutdownMinutes, latch', s');
            && c'.soc <= c.soc && c'.runtimeMinutes <= c.runtimeMinutes
            && (c.decision.status == StatusLowBattery ==> c'.decision.status == StatusLowBattery)
            && (c.decision.nextLatch.virtualLb ==> c'.decision.nextLatch.virtualLb)
  {
    MulMono(s'.irK, s.irK, load);
    SocMonotone(NormalizedVoltage(v, load, s'), NormalizedVoltage(v, load, s), s.lut);
    var soc := SocFromVoltage(NormalizedVoltage(v, load, s), s.lut);
    var soc' := SocFromVoltage(NormalizedVoltage(v, load, s'), s.lut);
    RuntimeMonotone(soc', soc, load, s.peukert);
  }

  // ----- what a reading means -----------------------------------------------------

  /** At the reference load the table is read at the measured voltage itself: 1
      above it and 0 below, the SoC of the highest point within 10 mV, and
      otherwise the straight line between the neighbouring points. */
  lemma AtReferenceLoad(v: real, kind: BlackoutKind, shutdownMinutes: int, latch: SafetyLatch, s: Snapshot)
    returns (hi: nat, lo: nat)
    requires ValidSnapshot(s)
    ensures hi <= lo < |s.lut| && lo <= hi + 1
    ensures var soc := CalculateSafety(v, s.irReferenceLoadPercent, kind, shutdownMinutes, latch, s).soc;
            && (v > s.lut[0].voltageV ==> soc == 1.0)
            && (v < s.lut[|s.lut| - 1].voltageV ==> soc == 0.0)
            && (s.lut[0].voltageV >= v >= s.lut[|s.lut| - 1].voltageV ==>
                  if hi == lo then
                    InBand(v, s.lut[hi]) && (forall i :: 0 <= i < hi ==> !InBand(v, s.lut[i])) && soc == s.lut[hi].soc
                  else
                    && s.lut[hi].voltageV > v > s.lut[lo].voltageV
                    && (soc - s.lut[lo].soc) * (s.lut[hi].voltageV - s.lut[lo].voltageV)
                       == (v - s.lut[lo].voltageV) * (s.lut[hi].soc - s.lut[lo].soc))
  {
    hide SocFromVoltage, InBand;
    hi, lo := SocExactly(v, s.lut);
  }

  /** A voltage higher by k times some load reads like that much more load. */
  lemma SagIsCompensated(v: real, load: real, more: real, kind: BlackoutKind, shutdownMinutes: int,
                         latch: SafetyLatch, s: Snapshot)
    requires ValidSnapshot(s)
    ensures CalculateSafety(v + s.irK * more, load, kind, shutdownMinutes, latch, s).soc
            == CalculateSafety(v, load + more, kind, shutdownMinutes, latch, s).soc
  {
    hide SocFromVoltage;
    assert NormalizedVoltage(v + s.irK * more, load, s) == NormalizedVoltage(v, load + more, s) by {
      assert s.irK * (load + more - s.irReferenceLoadPercent)
          == s.irK * (load - s.irReferenceLoadPercent) + s.irK * more;
    }
  }

  /** At one load a higher voltage never means less SoC or runtime, nor LB where
      the lower one has none. */
  lemma HigherVoltage(v: real, v': real, load: real, kind: BlackoutKind, shutdownMinutes: int,
                      latch: SafetyLatch, latch': SafetyLatch, s: Snapshot)
    requires ValidSnapshot(s) && v <= v' && (latch'.virtualLb ==> latch.virtualLb)
    ensures var c, c' := CalculateSafety(v, load, kind, shutdownMinutes, latch, s),
                         CalculateSafety(v', load, kind, shutdownMinutes, latch', s);
            && c.soc <= c'.soc && c.runtimeMinutes <= c'.runtimeMinutes
            && (c'.decision.status == StatusLowBattery ==> c.decision.status == StatusLowBattery)
            && (c'.decision.nextLatch.virtualLb ==> c.decision.nextLatch.virtualLb)
  {
    SocMonotone(NormalizedVoltage(v, load, s), NormalizedVoltage(v', load, s), s.lut);
    RuntimeMonotone(SocFromVoltage(NormalizedVoltage(v, load, s), s.lut),
                    SocFromVoltage(NormalizedVoltage(v', load, s), s.lut), load, s.peukert);
  }

  /** What a decision means: LB is published exactly when the event is not
      online and it was latched, below the floor, or a real blackout below the
      threshold; LB is published exactly when the next latch is set; and a new latch
      names the floor before the threshold as its source. */
  lemma DecisionMeaning(kind: BlackoutKind, runtime: real, shutdownMinutes: int, previous: SafetyLatch)
    ensures var d := Decide(kind, Some(runtime), shutdownMinutes, previous);
            && (d.status == StatusLowBattery <==>
                 kind != Online && (previous.virtualLb || runtime < 2.0
                   || (kind != BlackoutTest && runtime < shutdownMinutes as real)))
            && (d.status == StatusLowBattery <==> d.nextLatch.virtualLb)
            && (d.status == StatusOnline <==> kind == Online)
            && (kind != Online && previous.virtualLb ==> d.nextLatch == previous)
            && (kind != Online && !previous.virtualLb ==>
                  && (d.hardFloorLb <==> runtime < 2.0)
                  && (d.modeledLb <==> kind != BlackoutTest && runtime < shutdownMinutes as real)
                  && d.nextLatch.source == (if d.hardFloorLb then Some(HardFloor)
                                            else if d.modeledLb then Some(ModeledThreshold) else None))
            && (kind == Online ==> !d.hardFloorLb && !d.modeledLb && d.nextLatch == UNLATCHED)
  {}
}
