/** Properties of whole runs, and of pairs of runs, of the safety loop. */
module DaemonRuns {
  import opened Types
  import opened Ema
  import opened Lut
  import opened Peukert
  import opened Safety
  import opened Daemon

  ghost predicate ValidPolls(polls: seq<Poll>) { forall p :: p in polls ==> ValidPoll(p) }

  // ----- a lower coefficient is conservative over a whole run -------------------

  /** The same poll, except that the model snapshot may hold a lower coefficient. */
  ghost predicate SamePollLowerK(p: Poll, p': Poll) {
    if p.ReadFailed? then p'.ReadFailed?
    else p'.Reading? && p' == p.(snapshot := p'.snapshot) && LowerCoefficient(p.snapshot, p'.snapshot)
  }

  /** The same outcome, except for no more runtime and LB wherever r has it. */
  ghost predicate AtLeastAsCautious(r: PollResult, r': PollResult) {
    && r'.publication.Some? == r.publication.Some?
    && r' == r.(publication := r'.publication)
    && (r.publication.Some? ==>
         var a, b := r.publication.value, r'.publication.value;
         && b.kind == a.kind && b.runtimeMinutes <= a.runtimeMinutes
         && (a.status == StatusLowBattery ==> b.status == StatusLowBattery)
         && (a.status == StatusOnline <==> b.status == StatusOnline))
  }

  ghost predicate DominatedState(s: DaemonState, s': DaemonState) {
    && s' == s.(latch := s'.latch)
    && (s.latch.virtualLb ==> s'.latch.virtualLb)
    && (s.loadEma.Some? ==> 0.0 <= s.loadEma.value <= 100.0)
  }

  lemma SelfTestIgnoresLatch(c: Config, s: DaemonState, latch: SafetyLatch, p: Poll, p': Poll, kind: BlackoutKind)
    requires p.Reading? && p'.Reading? && p' == p.(snapshot := p'.snapshot)
    ensures CommandSent(c, s.(latch := latch), p', kind) == CommandSent(c, s, p, kind)
    ensures SelfTested(c, s.(latch := latch), p', kind) == SelfTested(c, s, p, kind).(latch := latch)
  {}

  lemma CalculationDomination(c: Config, s: DaemonState, s': DaemonState, p: Poll, p': Poll, kind: BlackoutKind)
    requires ValidPoll(p) && ValidPoll(p') && p.Reading?
    requires SamePollLowerK(p, p') && DominatedState(s, s') && s.voltageEma.Some? && s.loadEma.Some?
    ensures var a, b := PollCalculation(c, s, p, kind), PollCalculation(c, s', p', kind);
            && b.runtimeMinutes <= a.runtimeMinutes
            && (a.decision.status == StatusLowBattery ==> b.decision.status == StatusLowBattery)
            && (a.decision.status == StatusOnline <==> b.decision.status == StatusOnline)
            && (a.decision.nextLatch.virtualLb ==> b.decision.nextLatch.virtualLb)
  {
    LowerCoefficientIsConservative(s.voltageEma.value, s.loadEma.value, ConservativeKind(kind), c.shutdownMinutes,
                                   s.latch, s'.latch, p.snapshot, p'.snapshot);
    var a, b := PollCalculation(c, s, p, kind), PollCalculation(c, s', p', kind);
    DecisionMeaning(ConservativeKind(kind), a.runtimeMinutes, c.shutdownMinutes, s.latch);
    DecisionMeaning(ConservativeKind(kind), b.runtimeMinutes, c.shutdownMinutes, s'.latch);
  }

  lemma SampledDominated(c: Config, s: DaemonState, s': DaemonState, o: Observation, now: real)
    requires ValidRunConfig(c) && ValidObservation(o) && DominatedState(s, s')
    ensures DominatedState(Sampled(c, AfterClassification(s, o.status, now), o),
                           Sampled(c, AfterClassification(s', o.status, now), o))
  {
    UpdateStaysBetween(c.ema, o.loadPct.value, s.loadEma, 0.0, 100.0);
  }

  lemma PollDomination(c: Config, s: DaemonState, s': DaemonState, p: Poll, p': Poll)
    requires ValidRunConfig(c) && ValidPoll(p) && ValidPoll(p')
    requires SamePollLowerK(p, p') && DominatedState(s, s')
    ensures DominatedState(PollOnce(c, s, p).0, PollOnce(c, s', p').0)
    ensures AtLeastAsCautious(PollOnce(c, s, p).1, PollOnce(c, s', p').1)
  {
    if s.running && p.Reading? && ValidObservation(p.observation) {
      var o := p.observation;
      var kind := PhysicalKind(s, o.status, p.classifiedAt);
      var sampled := Sampled(c, AfterClassification(s, o.status, p.classifiedAt), o);
      var sampled' := Sampled(c, AfterClassification(s', o.status, p.classifiedAt), o);
      SampledDominated(c, s, s', o, p.classifiedAt);
      CalculationDomination(c, sampled, sampled', p, p', kind);
      var latch := PollCalculation(c, sampled, p, kind).decision.nextLatch;
      var latch' := PollCalculation(c, sampled', p', kind).decision.nextLatch;
      var latched := sampled.(latch := latch);
      assert sampled'.(latch := latch') == latched.(latch := latch');
      SelfTestIgnoresLatch(c, latched, latch', p, p', kind);
    }
  }

  /** Two runs over the same observations, the second with coefficients that
      are never larger: at every poll the second is at least as cautious. */
  lemma {:induction false} LowerCoefficientRun(
      c: Config, s: DaemonState, s': DaemonState, polls: seq<Poll>, polls': seq<Poll>)
    requires ValidRunConfig(c) && ValidPolls(polls) && ValidPolls(polls')
    requires |polls| == |polls'| && forall i :: 0 <= i < |polls| ==> SamePollLowerK(polls[i], polls'[i])
    requires DominatedState(s, s')
    ensures forall i :: 0 <= i < |polls| ==> AtLeastAsCautious(Run(c, s, polls)[i], Run(c, s', polls')[i])
    decreases |polls|
  {
    if polls != [] {
      PollDomination(c, s, s', polls[0], polls'[0]);
      LowerCoefficientRun(c, PollOnce(c, s, polls[0]).0, PollOnce(c, s', polls'[0]).0, polls[1..], polls'[1..]);
    }
  }

  // ----- what is published --------------------------------------------------------

  /** A running daemon publishes exactly when a usable reply came and the file could
      be written; the kind is ONLINE exactly for OL without OB and CAL, and exactly
      then ONLINE is published. */
  lemma PublishesExactly(c: Config, s: DaemonState, p: Poll)
    requires ValidRunConfig(c) && ValidPoll(p) && s.running
    ensures var r := PollOnce(c, s, p).1;
            && (r.publication.Some? <==>
                  && p.Reading? && p.publishOk
                  && p.observation.batteryV.Some? && p.observation.batteryV.value > 0.0
                  && p.observation.loadPct.Some? && 0.0 <= p.observation.loadPct.value <= 100.0)
            && (r.physicalKind.Some? <==> p.Reading?)
            && (p.Reading? ==>
                  var status := p.observation.status;
                  && (r.physicalKind == Some(Online) <==> OL in status && OB !in status && CAL !in status)
                  && (r.physicalKind == Some(Unknown) <==> OL !in status && OB !in status && CAL !in status)
                  && (r.publication.Some? ==>
                        && (PublishedOnline(r) <==> r.physicalKind == Some(Online))
                        && r.publication.value.kind ==
                           (if r.physicalKind == Some(Unknown) then BlackoutReal else r.physicalKind.value)))
    ensures PollOnce(c, s, p).0.running <==> PollOnce(c, s, p).1.publication.Some? || p.ReadFailed?
                                             || !ValidObservation(p.observation)
  {
    if p.Reading? && ValidObservation(p.observation) {
      var o := p.observation;
      var kind := PhysicalKind(s, o.status, p.classifiedAt);
      var sampled := Sampled(c, AfterClassification(s, o.status, p.classifiedAt), o);
      DecisionMeaning(ConservativeKind(kind), PollCalculation(c, sampled, p, kind).runtimeMinutes, c.shutdownMinutes,
          s.latch);
    }
  }

  /** Usable readings all have this load and a voltage between these two. */
  ghost predicate ReadingsWithin(polls: seq<Poll>, lo: real, hi: real, load: real, s: Snapshot) {
    forall i :: 0 <= i < |polls| && polls[i].Reading? ==>
      && polls[i].snapshot == s
      && (ValidObservation(polls[i].observation) ==>
            lo <= polls[i].observation.batteryV.value <= hi && polls[i].observation.loadPct.value == load)
  }

  /** The voltage without the sag of a load above the reference. */
  function Compensated(v: real, load: real, s: Snapshot): real {
    v + s.irK * (load - s.irReferenceLoadPercent)
  }

  /** The runtime the tables give for a voltage and a load. */
  function RuntimeAt(v: real, load: real, s: Snapshot): real
    requires ValidSnapshot(s)
  {
    RuntimeMinutes(SocFromVoltage(Compensated(v, load, s), s.lut), load, s.peukert)
  }

  ghost predicate AveragesWithin(s: DaemonState, lo: real, hi: real, load: real) {
    && (s.voltageEma.Some? ==> lo <= s.voltageEma.value <= hi)
    && (s.loadEma.Some? ==> s.loadEma.value == load)
  }

  lemma RuntimeOfCalculation(v: real, load: real, kind: BlackoutKind, shutdownMinutes: int, latch: SafetyLatch,
        s: Snapshot)
    requires ValidSnapshot(s)
    ensures CalculateSafety(v, load, kind, shutdownMinutes, latch, s).runtimeMinutes == RuntimeAt(v, load, s)
  {
    assert NormalizedVoltage(v, load, s) == Compensated(v, load, s);
    hide Decide;
  }

  /** Averages move only for a usable reading, and the runtime published is that of
      the averages. */
  lemma AveragesOfPoll(c: Config, s: DaemonState, p: Poll)
    requires ValidRunConfig(c) && ValidPoll(p)
    ensures var (next, r) := PollOnce(c, s, p);
            if s.running && p.Reading? && ValidObservation(p.observation) then
              var v, l := UpdateEma(c.ema, p.observation.batteryV.value, s.voltageEma),
                          UpdateEma(c.ema, p.observation.loadPct.value, s.loadEma);
              && next.voltageEma == Some(v) && next.loadEma == Some(l)
              && (r.publication.Some? ==> r.publication.value.runtimeMinutes == RuntimeAt(v, l, p.snapshot))
            else
              next.voltageEma == s.voltageEma && next.loadEma == s.loadEma && r.publication.None?
  {
    hide UpdateEma, CommandSent, CheckDue, Decide, CalculateSafety;
    if s.running && p.Reading? && ValidObservation(p.observation) {
      var sampled := Sampled(c, AfterClassification(s, p.observation.status, p.classifiedAt), p.observation);
      RuntimeOfCalculation(sampled.voltageEma.value, sampled.loadEma.value,
                           ConservativeKind(PhysicalKind(s, p.observation.status, p.classifiedAt)),
                           c.shutdownMinutes, s.latch, p.snapshot);
    }
  }

  lemma PollWithin(c: Config, s: DaemonState, p: Poll, lo: real, hi: real, load: real, m: Snapshot)
    requires ValidRunConfig(c) && ValidPoll(p) && ValidSnapshot(m)
    requires AveragesWithin(s, lo, hi, load) && ReadingsWithin([p], lo, hi, load, m)
    ensures AveragesWithin(PollOnce(c, s, p).0, lo, hi, load)
    ensures PollOnce(c, s, p).1.publication.Some? ==>
              RuntimeAt(lo, load, m) <= PollOnce(c, s, p).1.publication.value.runtimeMinutes <= RuntimeAt(hi, load, m)
  {
    hide PollOnce, RuntimeAt, UpdateEma, ValidSnapshot;
    assert [p][0] == p;
    AveragesOfPoll(c, s, p);
    if s.running && p.Reading? && ValidObservation(p.observation) {
      var o := p.observation;
      UpdateStaysBetween(c.ema, o.batteryV.value, s.voltageEma, lo, hi);
      UpdateStaysBetween(c.ema, o.loadPct.value, s.loadEma, load, load);
      RuntimeRises(lo, UpdateEma(c.ema, o.batteryV.value, s.voltageEma), load, m);
      RuntimeRises(UpdateEma(c.ema, o.batteryV.value, s.voltageEma), hi, load, m);
    }
  }

  lemma RuntimeRises(v: real, v': real, load: real, s: Snapshot)
    requires ValidSnapshot(s) && v <= v'
    ensures RuntimeAt(v, load, s) <= RuntimeAt(v', load, s)
  {
    var n, n' := Compensated(v, load, s), Compensated(v', load, s);
    assert n <= n';
    hide SocFromVoltage, RuntimeMinutes, Compensated;
    SocMonotone(n, n', s.lut);
    RuntimeMonotone(SocFromVoltage(n, s.lut), SocFromVoltage(n', s.lut), load, s.peukert);
  }

  /** Over every run at one load, whatever polls fail in between: each published
      runtime lies between those of the lowest and the highest voltage read.  So
      equal readings publish exactly what their voltage and load give. */
  lemma {:induction false} RuntimeOfReadings(
      c: Config, s: DaemonState, polls: seq<Poll>, lo: real, hi: real, load: real, m: Snapshot, j: nat)
    requires ValidRunConfig(c) && ValidPolls(polls) && ValidSnapshot(m) && j < |polls|
    requires AveragesWithin(s, lo, hi, load) && ReadingsWithin(polls, lo, hi, load, m)
    requires Run(c, s, polls)[j].publication.Some?
    ensures RuntimeAt(lo, load, m) <= Run(c, s, polls)[j].publication.value.runtimeMinutes <= RuntimeAt(hi, load, m)
    decreases |polls|
  {
    hide PollOnce, RuntimeAt, AveragesWithin, ValidSnapshot;
    assert ReadingsWithin([polls[0]], lo, hi, load, m);
    PollWithin(c, s, polls[0], lo, hi, load, m);
    if j > 0 {
      assert forall i :: 0 <= i < |polls[1..]| ==> polls[1..][i] == polls[i + 1];
      RuntimeOfReadings(c, PollOnce(c, s, polls[0]).0, polls[1..], lo, hi, load, m, j - 1);
    }
  }

  /** From a fresh start, with every usable reading the same. */
  lemma EqualReadings(c: Config, polls: seq<Poll>, v: real, load: real, m: Snapshot, j: nat)
    requires ValidRunConfig(c) && ValidPolls(polls) && ValidSnapshot(m) && j < |polls|
    requires ReadingsWithin(polls, v, v, load, m) && Run(c, INITIAL_STATE, polls)[j].publication.Some?
    ensures Run(c, INITIAL_STATE, polls)[j].publication.value.runtimeMinutes == RuntimeAt(v, load, m)
  {
    RuntimeOfReadings(c, INITIAL_STATE, polls, v, v, load, m, j);
  }

  // ----- the LB latch ----------------------------------------------------------

  ghost predicate PublishedLb(r: PollResult) {
    r.publication.Some? && r.publication.value.status == StatusLowBattery
  }

  ghost predicate PublishedOnline(r: PollResult) {
    r.publication.Some? && r.publication.value.status == StatusOnline
  }

  /** The published runtime alone calls for LB. */
  ghost predicate CallsForLb(c: Config, r: PollResult) {
    && r.publication.Some? && r.publication.value.kind != Online
    && (r.publication.value.runtimeMinutes < SAFETY_LB_FLOOR_MINUTES
        || (r.publication.value.kind == BlackoutReal
            && r.publication.value.runtimeMinutes < c.shutdownMinutes as real))
  }

  ghost predicate NoOnlineIn(r: seq<PollResult>, from: int, to: int) {
    forall m :: from <= m <= to && 0 <= m < |r| ==> !PublishedOnline(r[m])
  }

  /** Some poll in r[..j] calls for LB and no ONLINE was published since. */
  ghost predicate CalledSinceOnline(c: Config, r: seq<PollResult>, j: int)
    requires 0 <= j < |r|
  {
    exists i :: 0 <= i <= j && CallsForLb(c, r[i]) && NoOnlineIn(r, i, j)
  }

  lemma OnePollLatch(c: Config, s: DaemonState, p: Poll)
    requires ValidRunConfig(c) && ValidPoll(p)
    ensures var (next, r) := PollOnce(c, s, p);
            && (PublishedLb(r) <==>
                 r.publication.Some? && !PublishedOnline(r) && (s.latch.virtualLb || CallsForLb(c, r)))
            && (next.latch.virtualLb <==> !PublishedOnline(r) && (s.latch.virtualLb || CallsForLb(c, r)))
            && (CallsForLb(c, r) ==> !PublishedOnline(r))
  {
    if s.running && p.Reading? && ValidObservation(p.observation) {
      var o := p.observation;
      var kind := PhysicalKind(s, o.status, p.classifiedAt);
      var sampled := Sampled(c, AfterClassification(s, o.status, p.classifiedAt), o);
      DecisionMeaning(ConservativeKind(kind), PollCalculation(c, sampled, p, kind).runtimeMinutes,
                      c.shutdownMinutes, s.latch);
    }
  }

  lemma {:induction false} LatchOverRun(c: Config, s: DaemonState, polls: seq<Poll>, j: nat)
    requires ValidRunConfig(c) && ValidPolls(polls) && j < |polls|
    ensures var r := Run(c, s, polls);
            PublishedLb(r[j]) <==>
              r[j].publication.Some? && ((s.latch.virtualLb && NoOnlineIn(r, 0, j)) || CalledSinceOnline(c, r, j))
    decreases |polls|
  {
    var r := Run(c, s, polls);
    var (next, first) := PollOnce(c, s, polls[0]);
    var t := Run(c, next, polls[1..]);
    assert r == [first] + t;
    OnePollLatch(c, s, polls[0]);
    if j == 0 {
      assert CallsForLb(c, r[0]) ==> NoOnlineIn(r, 0, 0);
    } else {
      LatchOverRun(c, next, polls[1..], j - 1);
      assert forall m :: 0 <= m <= j - 1 ==> t[m] == r[m + 1];
      assert NoOnlineIn(r, 0, j) <==> !PublishedOnline(first) && NoOnlineIn(t, 0, j - 1) by {
        if NoOnlineIn(r, 0, j) {
          forall m | 0 <= m <= j - 1 ensures !PublishedOnline(t[m]) { assert !PublishedOnline(r[m + 1]); }
          assert !PublishedOnline(r[0]);
        }
      }
      ShiftCalled(c, first, t, j - 1);
    }
  }

  lemma ShiftCalled(c: Config, first: PollResult, t: seq<PollResult>, j: nat)
    requires j < |t|
    ensures CalledSinceOnline(c, [first] + t, j + 1) <==>
              CalledSinceOnline(c, t, j) || (CallsForLb(c, first) && NoOnlineIn([first] + t, 0, j + 1))
  {
    var r := [first] + t;
    if CalledSinceOnline(c, r, j + 1) {
      var i :| 0 <= i <= j + 1 && CallsForLb(c, r[i]) && NoOnlineIn(r, i, j + 1);
      if i > 0 {
        ShiftNoOnline(first, t, i - 1, j);
        assert CallsForLb(c, t[i - 1]);
      }
    }
    if CalledSinceOnline(c, t, j) {
      var i :| 0 <= i <= j && CallsForLb(c, t[i]) && NoOnlineIn(t, i, j);
      ShiftNoOnline(first, t, i, j);
      assert CallsForLb(c, r[i + 1]);
    }
    if CallsForLb(c, first) && NoOnlineIn(r, 0, j + 1) {
      assert CallsForLb(c, r[0]);
    }
  }

  lemma ShiftNoOnline(first: PollResult, t: seq<PollResult>, from: nat, to: int)
    ensures NoOnlineIn([first] + t, from + 1, to + 1) <==> NoOnlineIn(t, from, to)
  {
    var r := [first] + t;
    assert forall m :: 0 <= m < |t| ==> t[m] == r[m + 1];
    if NoOnlineIn(r, from + 1, to + 1) {
      forall m | from <= m <= to && 0 <= m < |t| ensures !PublishedOnline(t[m]) {
        assert !PublishedOnline(r[m + 1]);
      }
    }
    if NoOnlineIn(t, from, to) {
      forall m | from + 1 <= m <= to + 1 && 0 <= m < |r| ensures !PublishedOnline(r[m]) {
        assert r[m] == t[m - 1];
      }
    }
  }

  /** From a fresh start a publication is LB exactly when some publication up to
      it called for LB and no ONLINE was published in between, whatever polls
      failed or were invalid meanwhile. */
  lemma LbExactlySinceCall(c: Config, polls: seq<Poll>, j: nat)
    requires ValidRunConfig(c) && ValidPolls(polls) && j < |polls|
    ensures var r := Run(c, INITIAL_STATE, polls);
            PublishedLb(r[j]) <==> r[j].publication.Some? && CalledSinceOnline(c, r, j)
  {
    LatchOverRun(c, INITIAL_STATE, polls, j);
  }

  /** Once LB is published, every publication is LB until ONLINE is published. */
  lemma LbStaysUntilOnline(c: Config, polls: seq<Poll>, i: nat, j: nat)
    requires ValidRunConfig(c) && ValidPolls(polls) && i <= j < |polls|
    requires var r := Run(c, INITIAL_STATE, polls);
             PublishedLb(r[i]) && NoOnlineIn(r, i, j) && r[j].publication.Some?
    ensures PublishedLb(Run(c, INITIAL_STATE, polls)[j])
  {
    var r := Run(c, INITIAL_STATE, polls);
    LbExactlySinceCall(c, polls, i);
    LbExactlySinceCall(c, polls, j);
    var m :| 0 <= m <= i && CallsForLb(c, r[m]) && NoOnlineIn(r, m, i);
    assert NoOnlineIn(r, m, j);
  }

  // ----- firmware LB does not matter -------------------------------------------

  function WithoutLb(status: Status): Status { status - {LB} }

  ghost predicate SameButLb(o: Observation, o': Observation) {
    o' == o.(status := o'.status) && WithoutLb(o.status) == WithoutLb(o'.status)
  }

  ghost predicate SameRowsButLb(a: seq<Row>, b: seq<Row>) {
    |a| == |b| && forall i :: 0 <= i < |a| ==>
      b[i] == a[i].(status := b[i].status) && WithoutLb(a[i].status) == WithoutLb(b[i].status)
  }

  ghost predicate SamePollButLb(p: Poll, p': Poll) {
    if p.ReadFailed? then p'.ReadFailed?
    else
      && p'.Reading? && p' == p.(observation := p'.observation, telemetry := p'.telemetry)
      && SameButLb(p.observation, p'.observation)
      && p.telemetry.Some? == p'.telemetry.Some?
      && (p.telemetry.Some? ==> SameRowsButLb(p.telemetry.value, p'.telemetry.value))
  }

  lemma FlagsButLb(a: Status, b: Status)
    requires WithoutLb(a) == WithoutLb(b)
    ensures ActiveStatus(a) == ActiveStatus(b) && OnlineStatus(a) == OnlineStatus(b)
  {
    assert forall f :: f != LB ==> (f in a <==> f in WithoutLb(a)) && (f in b <==> f in WithoutLb(b));
  }

  lemma PollIgnoresFirmwareLb(c: Config, s: DaemonState, p: Poll, p': Poll)
    requires ValidRunConfig(c) && ValidPoll(p) && ValidPoll(p') && SamePollButLb(p, p')
    ensures PollOnce(c, s, p) == PollOnce(c, s, p')
  {
    if p.Reading? {
      FlagsButLb(p.observation.status, p'.observation.status);
      if p.telemetry.Some? {
        var a, b := p.telemetry.value, p'.telemetry.value;
        forall i | 0 <= i < |a| ensures ActiveRow(a[i]) == ActiveRow(b[i]) && a[i].at == b[i].at {
          FlagsButLb(a[i].status, b[i].status);
        }
        var now := p.observation.micros;
        assert HasRecentBatteryRow(a, now) == HasRecentBatteryRow(b, now);
      }
    }
  }

  /** Runs whose readings and files differ only in the firmware LB flag are
      identical: kinds, statuses, runtimes, episodes and self-test commands. */
  lemma {:induction false} FirmwareLbRun(c: Config, s: DaemonState, polls: seq<Poll>, polls': seq<Poll>)
    requires ValidRunConfig(c) && ValidPolls(polls) && ValidPolls(polls')
    requires |polls| == |polls'| && forall i :: 0 <= i < |polls| ==> SamePollButLb(polls[i], polls'[i])
    ensures Run(c, s, polls) == Run(c, s, polls') && FinalState(c, s, polls) == FinalState(c, s, polls')
    decreases |polls|
  {
    if polls != [] {
      PollIgnoresFirmwareLb(c, s, polls[0], polls'[0]);
      FirmwareLbRun(c, PollOnce(c, s, polls[0]).0, polls[1..], polls'[1..]);
    }
  }
}
