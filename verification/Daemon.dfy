/** The one-second safety loop (src/monitor.py, poll_once and what it calls
    before and after the telemetry write). */
module Daemon {
  import opened Types
  import opened Ema
  import opened Safety

  const ATTRIBUTION_WINDOW_S := 12.0
  const COOLDOWN_MICROS := 14 * 86_400 * MICROS
  const DAY_MICROS := 86_400 * MICROS

  datatype Config = Config(ema: EmaConfig, emaWindowSec: nat, shutdownMinutes: int)

  /** Everything one poll reads from outside: the NUT reply (or none), the two
      monotonic clock readings, the current model snapshot, whether the virtual
      UPS file could be written, the telemetry on disk after this poll (None
      when it cannot be read) and whether the self-test command succeeds. */
  datatype Poll =
    | ReadFailed
    | Reading(
        observation: Observation,
        classifiedAt: real,
        snapshot: Snapshot,
        publishOk: bool,
        telemetry: Option<seq<Row>>,
        commandOk: bool,
        commandedAt: real)

  datatype DaemonState = DaemonState(
    running: bool,
    voltageEma: Option<real>,
    loadEma: Option<real>,
    latch: SafetyLatch,
    episodeKind: Option<BlackoutKind>,
    pendingSelfTestUntil: Option<real>,
    firstValidNs: Option<int>,
    lastCheckDate: Option<int>)

  const INITIAL_STATE := DaemonState(true, None, None, UNLATCHED, None, None, None, None)

  /** What one poll published. */
  datatype Publication = Publication(status: VirtualStatus, runtimeMinutes: real, kind: BlackoutKind)

  datatype PollResult = PollResult(
    physicalKind: Option<BlackoutKind>,
    publication: Option<Publication>,
    startedEpisode: Option<BlackoutKind>,
    selfTestCommandedAt: Option<real>)

  const NO_RESULT := PollResult(None, None, None, None)

  ghost predicate ValidPoll(p: Poll) { p.Reading? ==> ValidSnapshot(p.snapshot) }

  ghost predicate ValidRunConfig(c: Config) { ValidConfig(c.ema) }

  /** _validate_observation. */
  predicate ValidObservation(o: Observation) {
    && o.batteryV.Some? && o.batteryV.value > 0.0
    && o.loadPct.Some? && 0.0 <= o.loadPct.value <= 100.0
  }

  // ----- classification -------------------------------------------------------

  function AttributedKind(s: DaemonState, now: real): BlackoutKind {
    if s.pendingSelfTestUntil.Some? && now <= s.pendingSelfTestUntil.value then BlackoutTest else BlackoutReal
  }

  /** State after _classify_physical_observation. */
  function AfterClassification(s: DaemonState, status: Status, now: real): DaemonState {
    if ActiveStatus(status) then
      if s.episodeKind.None?
      then s.(episodeKind := Some(AttributedKind(s, now)), pendingSelfTestUntil := None)
      else s
    else
      s.(episodeKind := if OnlineStatus(status) then None else s.episodeKind,
         pendingSelfTestUntil :=
           if s.pendingSelfTestUntil.Some? && now > s.pendingSelfTestUntil.value
           then None else s.pendingSelfTestUntil)
  }

  function PhysicalKind(s: DaemonState, status: Status, now: real): BlackoutKind {
    Classify(status, AfterClassification(s, status, now).episodeKind)
  }

  function StartedEpisode(s: DaemonState, status: Status, now: real): Option<BlackoutKind> {
    if ActiveStatus(status) && s.episodeKind.None? then Some(AttributedKind(s, now)) else None
  }

  // ----- quick self-test ------------------------------------------------------

  /** _has_recent_quick_test_or_blackout. */
  predicate HasRecentBatteryRow(telemetry: seq<Row>, nowMicros: int) {
    exists i :: 0 <= i < |telemetry| && ActiveRow(telemetry[i])
                && telemetry[i].at * MICROS >= nowMicros - COOLDOWN_MICROS
  }

  predicate HorizonElapsed(c: Config, s: DaemonState, o: Observation) {
    s.firstValidNs.Some? && o.monotonicNs - s.firstValidNs.value >= c.emaWindowSec * 1_000_000_000
  }

  predicate CheckDue(c: Config, s: DaemonState, o: Observation) {
    HorizonElapsed(c, s, o) && s.lastCheckDate != Some(o.micros / DAY_MICROS)
  }

  predicate CommandSent(c: Config, s: DaemonState, p: Poll, kind: BlackoutKind)
    requires p.Reading?
  {
    && CheckDue(c, s, p.observation)
    && kind == Online && p.observation.batteryPct == Some(100.0)
    && p.telemetry.Some? && !HasRecentBatteryRow(p.telemetry.value, p.observation.micros)
  }

  /** State after _maybe_run_quick_self_test. */
  function SelfTested(c: Config, s: DaemonState, p: Poll, kind: BlackoutKind): DaemonState
    requires p.Reading?
  {
    if !CheckDue(c, s, p.observation) then s
    else
      var checked := s.(lastCheckDate := Some(p.observation.micros / DAY_MICROS));
      if CommandSent(c, s, p, kind) && p.commandOk
      then checked.(pendingSelfTestUntil := Some(p.commandedAt + ATTRIBUTION_WINDOW_S))
      else checked
  }

  // ----- one poll -------------------------------------------------------------

  function Sampled(c: Config, s: DaemonState, o: Observation): DaemonState
    requires ValidRunConfig(c) && ValidObservation(o)
  {
    s.(firstValidNs := if s.firstValidNs.None? then Some(o.monotonicNs) else s.firstValidNs,
       voltageEma := Some(UpdateEma(c.ema, o.batteryV.value, s.voltageEma)),
       loadEma := Some(UpdateEma(c.ema, o.loadPct.value, s.loadEma)))
  }

  function PollCalculation(c: Config, s: DaemonState, p: Poll, kind: BlackoutKind): Calculation
    requires p.Reading? && ValidPoll(p) && s.voltageEma.Some? && s.loadEma.Some?
  {
    CalculateSafety(s.voltageEma.value, s.loadEma.value, ConservativeKind(kind), c.shutdownMinutes, s.latch, p.snapshot)
  }

  /** One poll up to the publication: everything before the telemetry write. */
  function Published(c: Config, s: DaemonState, p: Poll): (DaemonState, PollResult)
    requires ValidRunConfig(c) && ValidPoll(p)
  {
    if !s.running || p.ReadFailed? then (s, NO_RESULT)
    else
      var o := p.observation;
      var kind := PhysicalKind(s, o.status, p.classifiedAt);
      var started := StartedEpisode(s, o.status, p.classifiedAt);
      var classified := AfterClassification(s, o.status, p.classifiedAt);
      if !ValidObservation(o) then (classified, PollResult(Some(kind), None, started, None))
      else
        var sampled := Sampled(c, classified, o);
        var calculation := PollCalculation(c, sampled, p, kind);
        if !p.publishOk then (sampled.(running := false), PollResult(Some(kind), None, started, None))
        else
          (sampled.(latch := calculation.decision.nextLatch),
           PollResult(Some(kind), Some(Publication(calculation.decision.status, calculation.runtimeMinutes,
               ConservativeKind(kind))),
                      started, None))
  }

  /** A whole poll: after a publication comes the self-test check, the only part
      that looks at the telemetry. */
  function PollOnce(c: Config, s: DaemonState, p: Poll): (DaemonState, PollResult)
    requires ValidRunConfig(c) && ValidPoll(p)
  {
    var (published, result) := Published(c, s, p);
    if result.publication.None? then (published, result)
    else
      var kind := result.physicalKind.value;
      var sent := CommandSent(c, published, p, kind) && p.commandOk;
      (SelfTested(c, published, p, kind), result.(selfTestCommandedAt := if sent then Some(p.commandedAt) else None))
  }

  /** What each poll of a run did. */
  function Run(c: Config, s: DaemonState, polls: seq<Poll>): (r: seq<PollResult>)
    requires ValidRunConfig(c) && forall p :: p in polls ==> ValidPoll(p)
    ensures |r| == |polls|
    decreases |polls|
  {
    if polls == [] then []
    else
      var (next, result) := PollOnce(c, s, polls[0]);
      [result] + Run(c, next, polls[1..])
  }

  /** The state after a run. */
  function FinalState(c: Config, s: DaemonState, polls: seq<Poll>): DaemonState
    requires ValidRunConfig(c) && forall p :: p in polls ==> ValidPoll(p)
    decreases |polls|
  {
    if polls == [] then s else FinalState(c, PollOnce(c, s, polls[0]).0, polls[1..])
  }

  // ----- the daemon object ----------------------------------------------------

  class MonitorDaemon {
    const config: Config
    var running: bool
    const voltageEma: MetricEma
    const loadEma: MetricEma
    var latch: SafetyLatch
    var episodeKind: Option<BlackoutKind>
    var pendingSelfTestUntil: Option<real>
    var firstValidNs: Option<int>
    var lastCheckDate: Option<int>

    ghost predicate Valid()
      reads this
    {
      && ValidRunConfig(config) && voltageEma.config == config.ema && loadEma.config == config.ema
      && voltageEma != loadEma
    }

    ghost function State(): DaemonState
      reads this, voltageEma, loadEma
    {
      DaemonState(running, voltageEma.emaValue, loadEma.emaValue, latch, episodeKind,
                  pendingSelfTestUntil, firstValidNs, lastCheckDate)
    }

    constructor (config: Config)
      requires ValidRunConfig(config)
      ensures Valid() && fresh(voltageEma) && fresh(loadEma) && State() == INITIAL_STATE
    {
      this.config := config;
      running, latch, episodeKind := true, UNLATCHED, None;
      pendingSelfTestUntil, firstValidNs, lastCheckDate := None, None, None;
      voltageEma := new MetricEma(config.ema);
      loadEma := new MetricEma(config.ema);
    }

    method ClassifyPhysicalObservation(status: Status, now: real) returns (kind: BlackoutKind)
      requires Valid()
      modifies this
      ensures Valid()
      ensures State() == AfterClassification(old(State()), status, now)
      ensures kind == PhysicalKind(old(State()), status, now)
    {
      if ActiveStatus(status) {
        if episodeKind.None? {
          if pendingSelfTestUntil.Some? && now <= pendingSelfTestUntil.value {
            episodeKind := Some(BlackoutTest);
            pendingSelfTestUntil := None;
          } else {
            pendingSelfTestUntil := None;
            episodeKind := Some(BlackoutReal);
          }
        }
        return Classify(status, episodeKind);
      }
      if OnlineStatus(status) {
        episodeKind := None;
      }
      if pendingSelfTestUntil.Some? && now > pendingSelfTestUntil.value {
        pendingSelfTestUntil := None;
      }
      kind := Classify(status, None);
    }

    method HasRecentQuickTestOrBlackout(telemetry: seq<Row>, nowMicros: int) returns (recent: bool)
      ensures recent == HasRecentBatteryRow(telemetry, nowMicros)
    {
      var cutoff := nowMicros - COOLDOWN_MICROS;
      for i := 0 to |telemetry|
        invariant forall j :: 0 <= j < i ==> !(ActiveRow(telemetry[j]) && telemetry[j].at * MICROS >= cutoff)
      {
        if ActiveRow(telemetry[i]) && telemetry[i].at * MICROS >= cutoff {
          return true;
        }
      }
      return false;
    }

    method MaybeRunQuickSelfTest(p: Poll, kind: BlackoutKind) returns (commandedAt: Option<real>)
      requires Valid() && p.Reading?
      modifies this
      ensures Valid()
      ensures State() == SelfTested(config, old(State()), p, kind)
      ensures commandedAt ==
              if CommandSent(config, old(State()), p, kind) && p.commandOk then Some(p.commandedAt) else None
    {
      commandedAt := None;
      var o := p.observation;
      if !(firstValidNs.Some? && o.monotonicNs - firstValidNs.value >= config.emaWindowSec * 1_000_000_000) {
        return;
      }
      var checkDate := o.micros / DAY_MICROS;
      if lastCheckDate == Some(checkDate) {
        return;
      }
      lastCheckDate := Some(checkDate);
      if kind != Online || o.batteryPct != Some(100.0) || p.telemetry.None? {
        return;
      }
      var recent := HasRecentQuickTestOrBlackout(p.telemetry.value, o.micros);
      if !recent && p.commandOk {
        pendingSelfTestUntil := Some(p.commandedAt + ATTRIBUTION_WINDOW_S);
        commandedAt := Some(p.commandedAt);
      }
    }

    /** poll_once up to the publication. */
    method PublishSafety(p: Poll) returns (result: PollResult)
      requires Valid() && ValidPoll(p)
      modifies this, voltageEma, loadEma
      ensures Valid()
      ensures (State(), result) == Published(config, old(State()), p)
    {
      if !running || p.ReadFailed? {
        return NO_RESULT;
      }
      var o := p.observation;
      var started := if ActiveStatus(o.status) && episodeKind.None? then
          Some(if pendingSelfTestUntil.Some? && p.classifiedAt <= pendingSelfTestUntil.value
               then BlackoutTest else BlackoutReal) else None;
      var kind := ClassifyPhysicalObservation(o.status, p.classifiedAt);
      if !ValidObservation(o) {
        return PollResult(Some(kind), None, started, None);
      }
      if firstValidNs.None? {
        firstValidNs := Some(o.monotonicNs);
      }
      var voltage := voltageEma.Update(o.batteryV.value);
      var load := loadEma.Update(o.loadPct.value);
      var calculation := CalculateSafety(voltage, load, ConservativeKind(kind), config.shutdownMinutes, latch,
          p.snapshot);
      if !p.publishOk {
        running := false;
        return PollResult(Some(kind), None, started, None);
      }
      var publication := Publication(calculation.decision.status, calculation.runtimeMinutes, ConservativeKind(kind));
      latch := calculation.decision.nextLatch;
      result := PollResult(Some(kind), Some(publication), started, None);
    }

    /** The whole of poll_once, with the telemetry after this poll given. */
    method Poll(p: Poll) returns (result: PollResult)
      requires Valid() && ValidPoll(p)
      modifies this, voltageEma, loadEma
      ensures Valid()
      ensures (State(), result) == PollOnce(config, old(State()), p)
    {
      result := PublishSafety(p);
      if result.publication.Some? {
        var commandedAt := MaybeRunQuickSelfTest(p, result.physicalKind.value);
        result := result.(selfTestCommandedAt := commandedAt);
      }
    }
  }
}
