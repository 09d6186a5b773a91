/** The whole daemon: safety loop, telemetry writer and learning loop together
    (src/monitor.py, poll_once), and what learning may do to safety. */
module System {
  import opened Types
  import opened Storage
  import opened Safety
  import opened History
  import opened Segments
  import opened Feedback
  import opened FeedbackRuns
  import opened Daemon
  import opened DaemonRuns
  import opened Writer
  import opened WriterPending
  import opened WriterEpisodes
  import opened Station
  import Reconciliation

  /** What happens to the daemon: a poll without reply, a poll with one, or a
      restart on the same files with given fates of the next writes. */
  datatype Event =
    | Silence
    | Heard(heard: Observation, classifiedAt: real, publishOk: bool, commandOk: bool, commandedAt: real)
    | Restarted(modelOutcomes: seq<ReplaceOutcome>, fileOutcomes: seq<bool>, historyOutcomes: seq<bool>)

  datatype SystemState = SystemState(daemon: DaemonState, station: StationState)

  function KindHeard(d: DaemonState, e: Event): BlackoutKind
    requires e.Heard?
  {
    PhysicalKind(d, e.heard.status, e.classifiedAt)
  }

  /** Telemetry and feedback follow only a successful publication. */
  predicate Publishes(d: DaemonState, e: Event) {
    e.Heard? && d.running && ValidObservation(e.heard) && e.publishOk
  }

  function PollInput(e: Event, snapshot: Snapshot, telemetry: seq<Row>): Poll
    requires !e.Restarted?
  {
    if e.Silence? then ReadFailed
    else Reading(e.heard, e.classifiedAt, snapshot, e.publishOk, Some(telemetry), e.commandOk, e.commandedAt)
  }

  function StationAfter(s: SystemState, e: Event): StationState {
    if Publishes(s.daemon, e) then PollStation(s.station, e.heard, KindHeard(s.daemon, e)) else s.station
  }

  /** One event of the daemon that learns: the snapshot holds the coefficient the
      model has before the poll. */
  function Happens(c: Config, base: Snapshot, s: SystemState, e: Event): (SystemState, PollResult)
    requires ValidRunConfig(c) && ValidSnapshot(base)
  {
    match e
    case Restarted(m, f, h) => (SystemState(INITIAL_STATE, RestartStation(s.station, m, f, h)), NO_RESULT)
    case _ =>
      var station := StationAfter(s, e);
      var poll := PollInput(e, base.(irK := s.station.model.memory.irK), station.writer.file.rows);
      var (daemon, result) := PollOnce(c, s.daemon, poll);
      (SystemState(daemon, station), result)
  }

  function RunSystem(c: Config, base: Snapshot, s: SystemState, events: seq<Event>): (r: seq<PollResult>)
    requires ValidRunConfig(c) && ValidSnapshot(base)
    ensures |r| == |events|
    decreases |events|
  {
    if events == [] then []
    else
      var (next, result) := Happens(c, base, s, events[0]);
      [result] + RunSystem(c, base, next, events[1..])
  }

  // ----- the same daemon without learning --------------------------------------------

  /** Feedback is never run; the coefficient stays that of the snapshot. */
  datatype FrozenState = FrozenState(daemon: DaemonState, writer: WriterState)

  function WriterAfter(s: FrozenState, e: Event): WriterState {
    if Publishes(s.daemon, e) then WriteAndTake(s.writer, e.heard, KindHeard(s.daemon, e)).0 else s.writer
  }

  function HappensFrozen(c: Config, snapshot: Snapshot, s: FrozenState, e: Event): (FrozenState, PollResult)
    requires ValidRunConfig(c) && ValidSnapshot(snapshot)
  {
    match e
    case Restarted(_, f, h) => (FrozenState(INITIAL_STATE, Rebuild(s.writer, f, h)), NO_RESULT)
    case _ =>
      var writer := WriterAfter(s, e);
      var (daemon, result) := PollOnce(c, s.daemon, PollInput(e, snapshot, writer.file.rows));
      (FrozenState(daemon, writer), result)
  }

  function RunFrozen(c: Config, snapshot: Snapshot, s: FrozenState, events: seq<Event>): (r: seq<PollResult>)
    requires ValidRunConfig(c) && ValidSnapshot(snapshot)
    ensures |r| == |events|
    decreases |events|
  {
    if events == [] then []
    else
      var (next, result) := HappensFrozen(c, snapshot, s, events[0]);
      [result] + RunFrozen(c, snapshot, next, events[1..])
  }

  // ----- telemetry does not depend on learning ---------------------------------------------

  lemma CourseOfClose(s: WriterState, t: WriterState, o: Observation)
    requires SameCourse(s, t) && s.active
    ensures SameCourse(WriteAndTake(s, o, Online).0, WriteAndTake(t, o, Online).0)
  {
    hide Sample, Remember, AddEpisode, BelowFull, Deadline;
    CloseFields(s, o);
    CloseFields(t, o);
    hide WriteAndTake;
    var closed := s.(file := s.file.Append(Sample(o)), active := false, recharging := BelowFull(o),
                     postFullUntil := Deadline(o, s.window), records := []);
    var closed' := t.(file := t.file.Append(Sample(o)), active := false, recharging := BelowFull(o),
                      postFullUntil := Deadline(o, t.window), records := []);
    RememberCourse(closed, closed', o, false);
  }

  /** What closing does to everything but the history and the provenance. */
  lemma CloseFields(s: WriterState, o: Observation)
    requires s.active && s.completed.None?
    ensures var after := WriteAndTake(s, o, Online).0;
            var closed := Remember(s.(file := s.file.Append(Sample(o)), active := false, recharging := BelowFull(o),
                                      postFullUntil := Deadline(o, s.window), records := []), o, false);
            after == (if NextOk(s.file.outcomes) then closed else s.(file := s.file.Append(Sample(o))))
                       .(history := after.history, completed := None, kind := after.kind)
  {
    hide Sample, Remembered, AddEpisode, BelowFull, Deadline;
  }

  lemma CourseOfPoll(s: WriterState, t: WriterState, o: Observation, kind: BlackoutKind)
    requires SameCourse(s, t) && Classified(o.status, kind)
    ensures SameCourse(WriteAndTake(s, o, kind).0, WriteAndTake(t, o, kind).0)
  {
    hide SameCourse, ContinueEpisode, StartEpisode, WriteOnline;
    if ActiveStatus(o.status) {
      CourseOfActive(s, t, o, kind);
    } else if kind == Online {
      if s.active {
        CourseOfClose(s, t, o);
      } else {
        CourseOfQuiet(s, t, o);
      }
    } else {
      NothingOpen(s, t);
    }
  }

  lemma NothingOpen(s: WriterState, t: WriterState)
    requires SameCourse(s, t)
    ensures s.completed == t.completed == None && SameCourse(s.(completed := None), t.(completed := None))
  {}

  lemma CourseOfRebuild(s: WriterState, t: WriterState, f: seq<bool>, h: seq<bool>)
    requires SameCourse(s, t)
    ensures SameCourse(Rebuild(s, f, h), Rebuild(t, f, h))
  {
    hide Reconcile, Restore;
    var file := s.file.(outcomes := f);
    var a, b := s.history.(outcomes := h), t.history.(outcomes := h);
    WriterPending.RestoreKeepsFile(Blank(file, a, s.window));
    Reconciliation.RestoreIgnoresHistory(file, a, b, s.window);
  }

  // ----- learning is conservative --------------------------------------------------------------

  /** The learning daemon next to the frozen one. */
  ghost predicate Below(s: FrozenState, t: SystemState, k: real) {
    && SameCourse(s.writer, t.station.writer)
    && DominatedState(s.daemon, t.daemon)
    && t.station.model.memory.irK <= k && AtMostOneAhead(t.station.model)
  }

  lemma KindIsClassified(d: DaemonState, e: Event)
    requires e.Heard?
    ensures Classified(e.heard.status, KindHeard(d, e))
  {}

  lemma StationKeepsCourse(s: FrozenState, t: SystemState, e: Event, k: real)
    requires Below(s, t, k) && !e.Restarted?
    ensures SameCourse(WriterAfter(s, e), StationAfter(t, e).writer)
    ensures StationAfter(t, e).model.memory.irK <= k && AtMostOneAhead(StationAfter(t, e).model)
  {
    hide SameCourse, WriteAndTake, RunFeedback, EventStart, EpisodesOfPoll;
    if Publishes(t.daemon, e) {
      var kind := KindHeard(s.daemon, e);
      KindIsClassified(s.daemon, e);
      assert kind == KindHeard(t.daemon, e);
      CourseOfPoll(s.writer, t.station.writer, e.heard, kind);
      StepNeverRaises(t.station, Observe(e.heard, kind));
      HistoryOffCourse(WriterAfter(s, e), WriteAndTake(t.station.writer, e.heard, kind).0,
          StationAfter(t, e).writer.history);
    }
  }

  lemma HistoryOffCourse(s: WriterState, t: WriterState, history: Log<HistoryRow>)
    requires SameCourse(s, t)
    ensures SameCourse(s, t.(history := history))
  {}

  lemma HappensBelow(c: Config, base: Snapshot, s: FrozenState, t: SystemState, e: Event)
    requires ValidRunConfig(c) && ValidSnapshot(base) && base.irReferenceLoadPercent == 0.0
    requires Below(s, t, base.irK)
    ensures Below(HappensFrozen(c, base, s, e).0, Happens(c, base, t, e).0, base.irK)
    ensures AtLeastAsCautious(HappensFrozen(c, base, s, e).1, Happens(c, base, t, e).1)
  {
    hide PollOnce, PollStation, WriteAndTake, Rebuild, Recover, ValidSnapshot;
    match e {
      case Restarted(m, f, h) =>
        CourseOfRebuild(s.writer, t.station.writer, f, h);
        StepNeverRaises(t.station, StartAgain(m, f, h));
        HistoryOffCourse(Rebuild(s.writer, f, h), Rebuild(t.station.writer, f, h),
            RestartStation(t.station, m, f, h).writer.history);
      case _ =>
        StationKeepsCourse(s, t, e, base.irK);
        var writer, station := WriterAfter(s, e), StationAfter(t, e);
        var snapshot := base.(irK := t.station.model.memory.irK);
        ValidWithAnyCoefficient(base, t.station.model.memory.irK);
        PollDomination(c, s.daemon, t.daemon, PollInput(e, base, writer.file.rows),
            PollInput(e, snapshot, station.writer.file.rows));
    }
  }

  lemma ValidWithAnyCoefficient(base: Snapshot, k: real)
    requires ValidSnapshot(base)
    ensures ValidSnapshot(base.(irK := k))
  {}

  /** Over every run of the whole daemon, with silent polls, failing writes of any
      kind, learned updates and restarts: at every event the learning daemon
      publishes no more runtime than the one whose coefficient never changed, and
      LB wherever that one does. */
  lemma {:induction false} LearningIsConservative(c: Config, base: Snapshot, s: FrozenState, t: SystemState,
        events: seq<Event>)
    requires ValidRunConfig(c) && ValidSnapshot(base) && base.irReferenceLoadPercent == 0.0
    requires Below(s, t, base.irK)
    ensures forall i :: 0 <= i < |events| ==>
              AtLeastAsCautious(RunFrozen(c, base, s, events)[i], RunSystem(c, base, t, events)[i])
    decreases |events|
  {
    hide Below, AtLeastAsCautious, Happens, HappensFrozen, ValidSnapshot;
    if events != [] {
      HappensBelow(c, base, s, t, events[0]);
      LearningIsConservative(c, base, HappensFrozen(c, base, s, events[0]).0, Happens(c, base, t, events[0]).0,
          events[1..]);
    }
  }

  /** Both daemons started on the same files are so related. */
  lemma StartedBelow(base: Snapshot, station: StationState)
    requires station.writer.completed.None? && station.model.memory.irK <= base.irK && AtMostOneAhead(station.model)
    ensures Below(FrozenState(INITIAL_STATE, station.writer), SystemState(INITIAL_STATE, station), base.irK)
  {}

  /** What is published does not depend on the file. */
  lemma PublishedIgnoresRows(c: Config, s: DaemonState, e: Event, snapshot: Snapshot, rows: seq<Row>)
    requires ValidRunConfig(c) && ValidSnapshot(snapshot) && !e.Restarted?
    ensures var published := Published(c, s, PollInput(e, snapshot, []));
            && Published(c, s, PollInput(e, snapshot, rows)) == published
            && (published.1.publication.Some? <==> Publishes(s, e))
            && (Publishes(s, e) ==> published.1.physicalKind == Some(KindHeard(s, e)))
  {}

  // ----- the daemon object -------------------------------------------------------------------------

  /** MonitorDaemon with its collaborators. */
  class Monitor {
    const base: Snapshot
    const safety: MonitorDaemon
    const writer: TelemetryJsonlWriter
    const feedback: FeedbackMonitor
    ghost var applied: seq<AppliedUpdate>
    ghost var newest: int
    ghost var clock: int

    ghost predicate Valid()
      reads this, safety
    {
      && ValidSnapshot(base) && safety.Valid()
      && writer.history == feedback.history
      && writer.file as object != writer.history.file as object
    }

    ghost function StationNow(): StationState
      reads this, writer, writer.file, writer.history, writer.history.file
      reads feedback, feedback.owner, feedback.owner.file
    {
      StationState(writer.State(), feedback.owner.State(), feedback.feedbackReplayed, applied, newest, clock)
    }

    ghost function State(): SystemState
      reads this, writer, writer.file, writer.history, writer.history.file
      reads feedback, feedback.owner, feedback.owner.file
      reads safety, safety.voltageEma, safety.loadEma
    {
      SystemState(safety.State(), StationNow())
    }

    constructor (base: Snapshot, safety: MonitorDaemon, writer: TelemetryJsonlWriter, feedback: FeedbackMonitor)
      requires ValidSnapshot(base) && safety.Valid()
      requires writer.history == feedback.history && writer.file as object != writer.history.file as object
      ensures Valid() && this.base == base && this.safety == safety && this.writer == writer
              && this.feedback == feedback
    {
      this.base, this.safety, this.writer, this.feedback := base, safety, writer, feedback;
      applied, newest, clock := [], 0, 0;
    }

    /** _write_telemetry and _run_model_feedback. */
    method RecordAndLearn(o: Observation, kind: BlackoutKind)
      requires Valid()
      modifies this, writer, writer.file, writer.history.file, feedback, feedback.owner, feedback.owner.file
      ensures Valid() && StationNow() == PollStation(old(StationNow()), o, kind)
    {
      hide RunFeedback, EventStart, ClosedEpisodes, Write;
      var completed := WriteTelemetry(o, kind);
      hide WriteAndTake;
      ghost var learned;
      var ok;
      ok, learned := feedback.RunModelFeedback(completed, writer.file.rows);
      applied := applied + learned;
      clock := o.micros;
      if completed.Some? && EventStart(completed.value).Some? {
        newest := EventStart(completed.value).value;
      }
    }

    /** _write_telemetry. */
    method WriteTelemetry(o: Observation, kind: BlackoutKind) returns (completed: Option<seq<Row>>)
      requires Valid()
      modifies writer, writer.file, writer.history.file
      ensures Valid()
      ensures (writer.State(), completed) == WriteAndTake(old(writer.State()), o, kind)
    {
      hide Write;
      completed := None;
      var result := writer.WriteSample(o, kind);
      if result != Raised {
        completed := writer.TakeCompletedEpisode();
      }
    }

    method PollOnce(e: Event) returns (result: PollResult)
      requires Valid() && !e.Restarted?
      modifies this, safety, safety.voltageEma, safety.loadEma
      modifies writer, writer.file, writer.history.file, feedback, feedback.owner, feedback.owner.file
      ensures Valid()
      ensures (State(), result) == Happens(safety.config, base, old(State()), e)
    {
      hide Published, PollStation, SelfTested, CommandSent;
      var snapshot := base.(irK := feedback.owner.state.irK);
      PublishedIgnoresRows(safety.config, safety.State(), e, snapshot, StationAfter(State(), e).writer.file.rows);
      var poll := PollInput(e, snapshot, []);
      result := safety.PublishSafety(poll);
      if result.publication.Some? {
        var kind := result.physicalKind.value;
        RecordAndLearn(e.heard, kind);
        var checked := PollInput(e, snapshot, writer.file.rows);
        var commandedAt := safety.MaybeRunQuickSelfTest(checked, kind);
        result := result.(selfTestCommandedAt := commandedAt);
      }
    }
  }
}
