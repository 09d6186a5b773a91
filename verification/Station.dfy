/** The writer and the learning loop together, poll by poll (src/monitor.py,
    poll_once after publication): each poll writes telemetry, may close an
    episode, and runs feedback over it or over everything closed on disk. */
module Station {
  import opened Types
  import opened Sorting
  import opened Storage
  import opened History
  import opened ModelStore
  import opened Segments
  import opened Feedback
  import opened FeedbackRuns
  import opened FeedbackQuiet
  import opened Summaries
  import opened Writer
  import opened WriterPending
  import opened WriterEpisodes
  import opened Reconciliation

  /** `applied`, `newest` (the key of the youngest closed event) and `clock` (the
      time of the last observation) only record what happened. */
  datatype StationState = StationState(
    writer: WriterState,
    model: OwnedModel,
    replayed: bool,
    applied: seq<AppliedUpdate>,
    newest: int,
    clock: int)

  function LearnerOf(st: StationState): Learner { Learner(st.model, st.writer.history) }

  /** Write, take the completed episode, run feedback. */
  function PollStation(st: StationState, o: Observation, kind: BlackoutKind): StationState {
    var (written, handed) := WriteAndTake(st.writer, o, kind);
    var pass := RunFeedback(Learner(st.model, written.history), EpisodesOfPoll(st.replayed, written.file.rows, handed));
    StationState(written.(history := pass.learner.history), pass.learner.model, st.replayed || pass.completed,
            st.applied + pass.applied,
            if handed.Some? && EventStart(handed.value).Some? then EventStart(handed.value).value else st.newest,
            o.micros)
  }

  /** The daemon is started again on the same files: the writer is rebuilt, the
      receipt recovered, and the closed episodes are due for a replay. */
  function RestartStation(st: StationState, modelOutcomes: seq<ReplaceOutcome>, fileOutcomes: seq<bool>,
                          historyOutcomes: seq<bool>): StationState
  {
    var rebuilt := Rebuild(st.writer, fileOutcomes, historyOutcomes);
    var pass := Recover(Learner(Reloaded(st.model, modelOutcomes), rebuilt.history));
    st.(writer := rebuilt.(history := pass.learner.history), model := pass.learner.model, replayed := false)
  }

  datatype StationStep =
    | Observe(observation: Observation, kind: BlackoutKind)
    | StartAgain(modelOutcomes: seq<ReplaceOutcome>, fileOutcomes: seq<bool>, historyOutcomes: seq<bool>)

  function After(st: StationState, step: StationStep): StationState {
    match step
    case Observe(o, kind) => PollStation(st, o, kind)
    case StartAgain(m, f, h) => RestartStation(st, m, f, h)
  }

  function AfterAll(st: StationState, steps: seq<StationStep>): StationState
    decreases |steps|
  {
    if steps == [] then st else AfterAll(After(st, steps[0]), steps[1..])
  }

  // ----- the model only goes down ----------------------------------------------------------

  /** Whatever happens, no step of any run ever raises the coefficient. */
  lemma StepNeverRaises(st: StationState, step: StationStep)
    requires AtMostOneAhead(st.model)
    ensures AtMostOneAhead(After(st, step).model)
    ensures After(st, step).model.memory.irK <= st.model.memory.irK
  {
    hide ApplyFeedback, WriteAndTake, Rebuild, EventStart, EventKinds, ClosedEpisodes, AddUpdate;
    match step {
      case Observe(o, kind) =>
        var (written, handed) := WriteAndTake(st.writer, o, kind);
        StepFalls(Learner(st.model, written.history), Feedback(EpisodesOfPoll(st.replayed, written.file.rows, handed)));
      case StartAgain(_, _, _) =>
    }
  }

  // ----- every event with feedback has a summary --------------------------------------------

  ghost predicate KeyedStation(st: StationState) {
    && InSync(st.writer) && Keyed(LearnerOf(st))
    && AllSummarised(st.writer.history.rows, ClosedEpisodes(st.writer.file.rows))
  }

  /** Any write may fail except the summary of an episode whose terminal row was
      written. */
  ghost predicate Unlost(st: StationState, step: StationStep) {
    match step
    case Observe(o, kind) => Classified(o.status, kind) && !LosesEpisode(st.writer, o, kind)
    case StartAgain(_, _, _) => Unmixed(st.writer.file.rows)
  }

  ghost predicate AllUnlost(st: StationState, steps: seq<StationStep>)
    decreases |steps|
  {
    steps == [] || (Unlost(st, steps[0]) && AllUnlost(After(st, steps[0]), steps[1..]))
  }

  /** A write that loses no episode changes the history only by the summary of
      the episode it hands out. */
  lemma HistoryOfWrite(w: WriterState, o: Observation, kind: BlackoutKind)
    requires InSync(w) && Classified(o.status, kind) && !LosesEpisode(w, o, kind)
    ensures var (written, handed) := WriteAndTake(w, o, kind);
            && (handed.None? ==> written.history == w.history)
            && (handed.Some? ==>
                  && w.active && kind == Online && handed.value == w.records + [Sample(o)]
                  && written.history == AddEpisode(w.history, w.records + [Sample(o)], w.kind).0
                  && AddEpisode(w.history, w.records + [Sample(o)], w.kind).1 != AppendFailed)
  {
    hide Sample, SummarizeEpisode, OpenTail, Stripped, Remembered, NotBefore, Sort, Flush, ContextRows, Quiescent,
         ActiveOrOnline, HasEpisode;
    FlushTwins(w, w, Sort(w.silent, TimeOf));
    assert w.completed.None?;
  }

  /** The learner between the write and the feedback of a poll. */
  lemma WriteKeepsKeyed(st: StationState, o: Observation, kind: BlackoutKind)
    requires KeyedStation(st) && Unlost(st, Observe(o, kind))
    ensures var (written, handed) := WriteAndTake(st.writer, o, kind);
            && InSync(written) && Keyed(Learner(st.model, written.history))
            && AllSummarised(written.history.rows, ClosedEpisodes(written.file.rows))
            && AllSummarised(written.history.rows, EpisodesOfPoll(st.replayed, written.file.rows, handed))
  {
    hide InSync, Stripped, ClosedEpisodes, EventStart, AddEpisode, HasEpisode, LosesEpisode, Keyed, WriteAndTake;
    PollStreams(st.writer, o, kind);
    HistoryOfWrite(st.writer, o, kind);
    var (written, handed) := WriteAndTake(st.writer, o, kind);
    if handed.Some? {
      var records := handed.value;
      AddEpisodeKeepsKeyed(LearnerOf(st), records, st.writer.kind);
      SummarisedLater(st.writer.history.rows, written.history.rows, ClosedEpisodes(st.writer.file.rows));
      OpenRecords(st.writer, o);
      SummaryInPlace(st.writer.history, records, st.writer.kind);
      EvidenceOfStripped(records);
    }
  }

  lemma OpenRecords(w: WriterState, o: Observation)
    requires InSync(w) && w.active
    ensures Stripped(w.records + [Sample(o)]) != []
  {
    hide FirstActive, Sample;
    StrippedGrows(w.records, Sample(o));
  }

  lemma SummaryInPlace(history: Log<HistoryRow>, records: seq<Row>, kind: BlackoutKind)
    requires Stripped(records) != [] && AddEpisode(history, records, kind).1 != AppendFailed
    ensures Summarised(AddEpisode(history, records, kind).0.rows, Stripped(records))
  {
    hide HasEpisode, SummarizeEpisode;
    AddedSummary(history, records, kind);
    StrippedStarts(records);
  }

  lemma StrippedStarts(records: seq<Row>)
    requires Stripped(records) != []
    ensures EventStart(Stripped(records)) == Some(Stripped(records)[0].at)
  {}

  lemma RebuiltLearner(st: StationState, m: seq<ReplaceOutcome>, f: seq<bool>, h: seq<bool>)
    requires KeyedStation(st) && Unmixed(st.writer.file.rows)
    ensures var rebuilt := Rebuild(st.writer, f, h);
            && InSync(rebuilt) && rebuilt.file.rows == st.writer.file.rows
            && Keyed(Learner(Reloaded(st.model, m), rebuilt.history))
            && Extends(st.writer.history.rows, rebuilt.history.rows)
  {
    hide Restore, AddEpisode, EpisodeAtOrAfter, EventKinds, ReconciledSlice, LatestClosed, HasEpisode, HasObserved,
         HasUpdate, InSync;
    RebuildSyncs(st.writer, f, h);
    var l := Learner(Reloaded(st.model, m), st.writer.history.(outcomes := h));
    assert Keyed(l);
    var rows := st.writer.file.rows;
    if LatestClosed(rows).Some? {
      LatestBounds(rows);
      AddEpisodeKeepsKeyed(l, ReconciledSlice(rows, LatestClosed(rows).value.0, LatestClosed(rows).value.1),
          BlackoutReal);
    }
  }

  lemma StepKeepsKeyed(st: StationState, step: StationStep)
    requires KeyedStation(st) && Unlost(st, step)
    ensures KeyedStation(After(st, step))
  {
    hide InSync, ClosedEpisodes, Keyed, HasEpisode, Summarised, WriteAndTake, Rebuild, RunFeedback, Recover,
         EventStart, LosesEpisode;
    match step {
      case Observe(o, kind) =>
        WriteKeepsKeyed(st, o, kind);
        var (written, handed) := WriteAndTake(st.writer, o, kind);
        var episodes := EpisodesOfPoll(st.replayed, written.file.rows, handed);
        FeedbackKeepsKeyed(Learner(st.model, written.history), episodes);
        var after := After(st, step);
        SummarisedLater(written.history.rows, after.writer.history.rows, ClosedEpisodes(written.file.rows));
        SyncIgnoresHistory(written, after.writer.history);
      case StartAgain(m, f, h) =>
        RebuiltLearner(st, m, f, h);
        var rebuilt := Rebuild(st.writer, f, h);
        RecoverKeepsKeyed(Learner(Reloaded(st.model, m), rebuilt.history));
        var after := After(st, step);
        SummarisedLater(st.writer.history.rows, rebuilt.history.rows, ClosedEpisodes(st.writer.file.rows));
        SummarisedLater(rebuilt.history.rows, after.writer.history.rows, ClosedEpisodes(st.writer.file.rows));
        SyncIgnoresHistory(rebuilt, after.writer.history);
    }
  }

  // ----- the audit trail over polls and restarts --------------------------------------------------

  /** With feedback rows only where there are summaries, no summary lands late. */
  lemma KeyedLandsInOrder(l: Learner, records: seq<Row>, kind: BlackoutKind)
    requires Keyed(l)
    ensures LandsInOrder(l, Summary(records, kind))
  {
    hide HasEpisode, HasObserved, HasUpdate, SummarizeEpisode;
  }

  lemma AddEpisodeKeepsOutbox(l: Learner, k0: real, records: seq<Row>, kind: BlackoutKind)
    requires Outbox(l, k0) && Keyed(l)
    ensures Outbox(l.(history := AddEpisode(l.history, records, kind).0), k0)
  {
    hide Outbox, Keyed, AddEpisode, LandsInOrder;
    KeyedLandsInOrder(l, records, kind);
    StepKeepsOutbox(l, k0, Summary(records, kind));
  }

  lemma PollKeepsOutbox(st: StationState, k0: real, o: Observation, kind: BlackoutKind)
    requires Outbox(LearnerOf(st), k0) && KeyedStation(st) && Unlost(st, Observe(o, kind))
    ensures Outbox(LearnerOf(PollStation(st, o, kind)), k0)
  {
    hide Outbox, Keyed, AddEpisode, InSync, WriteAndTake, RunFeedback, AllSummarised, EventStart, LosesEpisode;
    HistoryOfWrite(st.writer, o, kind);
    var (written, handed) := WriteAndTake(st.writer, o, kind);
    if handed.Some? {
      AddEpisodeKeepsOutbox(LearnerOf(st), k0, handed.value, st.writer.kind);
    }
    StepKeepsOutbox(Learner(st.model, written.history), k0,
        Feedback(EpisodesOfPoll(st.replayed, written.file.rows, handed)));
  }

  lemma OutboxAfterOutcomes(l: Learner, k0: real, h: seq<bool>)
    requires Outbox(l, k0)
    ensures Outbox(l.(history := l.history.(outcomes := h)), k0)
  {}

  lemma RestartKeepsOutbox(st: StationState, k0: real, m: seq<ReplaceOutcome>, f: seq<bool>, h: seq<bool>)
    requires Outbox(LearnerOf(st), k0) && KeyedStation(st)
    ensures Outbox(LearnerOf(RestartStation(st, m, f, h)), k0)
  {
    hide Outbox, AddEpisode, InSync, Restore, EpisodeAtOrAfter, EventKinds, ReconciledSlice, LatestClosed,
         AllSummarised, Recover, HasEpisode, HasObserved, HasUpdate;
    ReloadKeepsOutbox(LearnerOf(st), k0, m);
    OutboxAfterOutcomes(Learner(Reloaded(st.model, m), st.writer.history), k0, h);
    var l := Learner(Reloaded(st.model, m), st.writer.history.(outcomes := h));
    assert Keyed(l);
    var rows := st.writer.file.rows;
    if LatestClosed(rows).Some? {
      LatestBounds(rows);
      AddEpisodeKeepsOutbox(l, k0, ReconciledSlice(rows, LatestClosed(rows).value.0, LatestClosed(rows).value.1),
          BlackoutReal);
    }
    RecoverKeepsOutbox(Learner(Reloaded(st.model, m), Rebuild(st.writer, f, h).history), k0);
  }

  /** Over every run of polls and restarts in which no summary is lost, whatever
      other writes fail: the update rows are a chain of bounded steps from k0 and
      lack at most the receipt in memory or the one in the file. */
  lemma {:induction false} OutboxOverPolls(st: StationState, k0: real, steps: seq<StationStep>)
    requires Outbox(LearnerOf(st), k0) && KeyedStation(st) && AllUnlost(st, steps)
    ensures Outbox(LearnerOf(AfterAll(st, steps)), k0) && KeyedStation(AfterAll(st, steps))
    decreases |steps|
  {
    hide Outbox, KeyedStation, PollStation, RestartStation;
    if steps != [] {
      hide Unlost;
      StepKeepsKeyed(st, steps[0]);
      match steps[0] {
        case Observe(o, kind) => PollKeepsOutbox(st, k0, o, kind);
        case StartAgain(m, f, h) => RestartKeepsOutbox(st, k0, m, f, h);
      }
      OutboxOverPolls(After(st, steps[0]), k0, steps[1..]);
    }
  }

  // ----- an uninterrupted run is a chronicle ----------------------------------------------------

  function ChronicleOf(st: StationState): Chronicle {
    Chronicle(LearnerOf(st), ClosedEpisodes(st.writer.file.rows), st.newest, st.applied)
  }

  /** The event that is open now is younger than every closed one. */
  ghost predicate OpenIsYoungest(st: StationState) {
    OpenTail(st.writer.file.rows) != [] ==> OpenTail(st.writer.file.rows)[0].at > st.newest
  }

  ghost predicate Healthy(st: StationState) {
    && KeyedStation(st) && st.writer.file.outcomes == []
    && Quiet(ChronicleOf(st)) && OpenIsYoungest(st)
    && OneMode(st.writer) && Chronological(st.writer, st.clock)
  }

  /** Writes go through, observations come in order of time, and a new episode is
      younger than the closed ones; a restart may come at any time. */
  ghost predicate Undisturbed(st: StationState, step: StationStep) {
    match step
    case Observe(o, kind) =>
      && Classified(o.status, kind) && o.micros >= st.clock
      && (!st.writer.active && ActiveStatus(o.status) ==> Sample(o).at > st.newest)
    case StartAgain(m, f, h) =>
      m == [] && f == h == [] && Unmixed(st.writer.file.rows)
  }

  ghost predicate AllUndisturbed(st: StationState, steps: seq<StationStep>)
    decreases |steps|
  {
    steps == [] || (Undisturbed(st, steps[0]) && AllUndisturbed(After(st, steps[0]), steps[1..]))
  }

  /** The moment a closing poll stands for. */
  function MomentOf(st: StationState, o: Observation): Moment {
    var records := st.writer.records + [Sample(o)];
    Close(records[..FirstActive(records)], Stripped(records), st.writer.kind, !st.replayed)
  }

  /** What a write without failures does to history and open tail. */
  lemma WriteWithoutFailure(w: WriterState, o: Observation, kind: BlackoutKind)
    requires InSync(w) && Classified(o.status, kind) && w.file.outcomes == [] && w.history.outcomes == []
    ensures var (written, handed) := WriteAndTake(w, o, kind);
            && written.file.outcomes == []
            && !LosesEpisode(w, o, kind)
            && (handed.None? ==> written.history == w.history)
            && (handed.Some? ==>
                  && w.active && kind == Online && handed.value == w.records + [Sample(o)]
                  && written.history == AddEpisode(w.history, w.records + [Sample(o)], w.kind).0
                  && written.history.outcomes == [])
  {
    hide Sample, SummarizeEpisode, OpenTail, Stripped, Remembered, NotBefore, Sort, Flush, ContextRows, Quiescent,
         ActiveOrOnline, HasEpisode;
    FlushWithoutFailure(w, Sort(w.silent, TimeOf));
    assert w.completed.None?;
  }

  /** The first row of the open event. */
  lemma OpenKeyAfter(w: WriterState, o: Observation, kind: BlackoutKind)
    requires InSync(w) && Classified(o.status, kind)
    ensures var written := WriteAndTake(w, o, kind).0;
            && InSync(written)
            && (OpenTail(written.file.rows) != [] ==>
                  if w.active then OpenTail(w.file.rows) != []
                      && OpenTail(written.file.rows)[0] == OpenTail(w.file.rows)[0]
                  else ActiveStatus(o.status) && OpenTail(written.file.rows)[0] == Sample(o))
  {
    hide Sample, AddEpisode, OpenTail, FirstActive, Remembered, NotBefore, Sort, Flush, ContextRows, ClosedEpisodes,
         LosesEpisode;
    PollStreams(w, o, kind);
    var written := WriteAndTake(w, o, kind).0;
    if w.active && ActiveStatus(o.status) {
      StrippedGrows(w.records, Sample(o));
    } else if ActiveStatus(o.status) && written.active {
      ContextIsQuiet(w.recent, w.silent);
      FlushTwins(w, w, Sort(w.silent, TimeOf));
      assert ActiveRow(Sample(o)) by { SampleStatus(o); }
      StrippedOfContext(ContextRows(w.recent, w.silent), [Sample(o)]);
    }
  }

  lemma SampleStatus(o: Observation)
    ensures Sample(o).status == o.status
  {}

  lemma SyncIgnoresHistory(w: WriterState, history: Log<HistoryRow>)
    requires InSync(w)
    ensures InSync(w.(history := history))
  {}

  /** A poll that closes nothing leaves the chronicle as it is, replay or not. */
  lemma NothingClosed(st: StationState, o: Observation, kind: BlackoutKind)
    requires Healthy(st) && Undisturbed(st, Observe(o, kind)) && WriteAndTake(st.writer, o, kind).1.None?
    ensures ChronicleOf(PollStation(st, o, kind)) == ChronicleOf(st)
  {
    hide Sample, WriteAndTake, RunFeedback, EventKinds, ProposalFor, EventStart, Settled, LastUpdate, Separated,
         KeysUpTo, StartsUpTo, ClosedEpisodes, InSync, LosesEpisode;
    var c := ChronicleOf(st);
    PollStreams(st.writer, o, kind);
    WriteWithoutFailure(st.writer, o, kind);
    ReplayIsNoOp(c.learner, c.closed);
    ReplayIsNoOp(c.learner, []);
    assert st.applied + [] == st.applied;
  }

  lemma ClosingMoment(st: StationState, o: Observation)
    requires InSync(st.writer) && st.writer.active && OpenIsYoungest(st) && Classified(o.status, Online)
    ensures var m := MomentOf(st, o);
            && InOrder(ChronicleOf(st), m)
            && m.context + m.episode == st.writer.records + [Sample(o)]
            && EventStart(m.context + m.episode) == EventStart(m.episode)
  {
    hide OpenTail, FirstActive, Sample;
    var records := st.writer.records + [Sample(o)];
    StrippedGrows(st.writer.records, Sample(o));
    EvidenceOfStripped(records);
    var n := FirstActive(records);
    assert records == records[..n] + records[n..];
    assert Stripped(records)[0] == OpenTail(st.writer.file.rows)[0];
    StartOfActive(Stripped(records));
  }

  lemma StartOfActive(rows: seq<Row>)
    requires rows != [] && ActiveRow(rows[0])
    ensures EventStart(rows) == Some(rows[0].at)
  {}

  /** A poll that closes an episode is the chronicle's moment for it. */
  lemma OneClosed(st: StationState, o: Observation, kind: BlackoutKind)
    requires Healthy(st) && Undisturbed(st, Observe(o, kind)) && WriteAndTake(st.writer, o, kind).1.Some?
    ensures InOrder(ChronicleOf(st), MomentOf(st, o))
    ensures ChronicleOf(PollStation(st, o, kind)) == Advance(ChronicleOf(st), MomentOf(st, o))
  {
    hide Sample, WriteAndTake, RunFeedback, EventKinds, EventStart, Quiet, ClosedEpisodes, InSync, LosesEpisode,
         AddEpisode, Stripped, FirstActive, OpenTail, InOrder;
    assert st.writer.history.outcomes == [] by { QuietOutcomes(st); }
    PollStreams(st.writer, o, kind);
    WriteWithoutFailure(st.writer, o, kind);
    ClosingMoment(st, o);
    assert InOrder(ChronicleOf(st), MomentOf(st, o));
    KeyExists(st, o);
  }

  lemma KeyExists(st: StationState, o: Observation)
    requires InOrder(ChronicleOf(st), MomentOf(st, o))
    ensures EventStart(MomentOf(st, o).episode).Some?
  {}

  lemma QuietOutcomes(st: StationState)
    requires Quiet(ChronicleOf(st))
    ensures st.writer.history.outcomes == [] && Clean(st.model) && Settled(LearnerOf(st))
  {}

  lemma ClosedIsQuiet(w: WriterState, o: Observation)
    requires InSync(w) && w.active && Classified(o.status, Online) && WriteAndTake(w, o, Online).1.Some?
    ensures OpenTail(WriteAndTake(w, o, Online).0.file.rows) == []
  {
    hide AddEpisode, OpenTail, ClosedEpisodes, Stripped, Sample, Remembered, NotBefore, LosesEpisode;
    PollStreams(w, o, Online);
  }

  lemma PollKeepsHealthy(st: StationState, o: Observation, kind: BlackoutKind)
    requires Healthy(st) && Undisturbed(st, Observe(o, kind))
    ensures var next := After(st, Observe(o, kind));
            && InSync(next.writer) && next.writer.file.outcomes == []
            && Quiet(ChronicleOf(next)) && OpenIsYoungest(next)
  {
    hide Sample, WriteAndTake, RunFeedback, EventKinds, EventStart, Quiet, ClosedEpisodes, InSync, AddEpisode,
         Stripped, FirstActive, OpenTail, InOrder, Advance, OneMode, Chronological, AllSummarised;
    var (written, handed) := WriteAndTake(st.writer, o, kind);
    QuietOutcomes(st);
    WriteWithoutFailure(st.writer, o, kind);
    OpenKeyAfter(st.writer, o, kind);
    var next := After(st, Observe(o, kind));
    SyncIgnoresHistory(written, next.writer.history);
    if handed.None? {
      NothingClosed(st, o, kind);
    } else {
      OneClosed(st, o, kind);
      AdvanceKeepsQuiet(ChronicleOf(st), MomentOf(st, o));
      ClosedIsQuiet(st.writer, o);
    }
  }

  lemma RestartKeepsHealthy(st: StationState)
    requires Healthy(st) && Unmixed(st.writer.file.rows)
    ensures var next := After(st, StartAgain([], [], []));
            && InSync(next.writer) && next.writer.file.outcomes == []
            && Quiet(ChronicleOf(next)) && OpenIsYoungest(next)
  {
    QuietOutcomes(st);
    FileInSync(st.writer);
    hide EventKinds, EventStart, Quiet, ClosedEpisodes, InSync, OpenTail, Restore, Reconcile, Unmixed, OneMode,
         AllSummarised, HasEpisode, Settled;
    var rows := st.writer.file.rows;
    RebuildSyncs(st.writer, [], []);
    WriterPending.RestoreKeepsFile(Blank(st.writer.file.(outcomes := []), st.writer.history.(outcomes := []),
        st.writer.window));
    assert st.writer.history.(outcomes := []) == st.writer.history && Reloaded(st.model, []) == st.model;
    ReconcileKeepsQuiet(ChronicleOf(st), rows);
    var rebuilt := Rebuild(st.writer, [], []);
    SettledAfter(ChronicleOf(st).(learner := Learner(st.model, rebuilt.history)));
    SettledRecovers(Learner(st.model, rebuilt.history));
    SyncIgnoresHistory(rebuilt, rebuilt.history);
  }

  lemma FileInSync(w: WriterState)
    requires InSync(w)
    ensures ActiveOrOnline(w.file.rows)
  {}

  lemma SettledAfter(c: Chronicle)
    requires Quiet(c)
    ensures Settled(c.learner)
  {}

  /** Order and mode of the writer do not depend on its history. */
  lemma OrderIgnoresHistory(w: WriterState, history: Log<HistoryRow>, now: int)
    requires OneMode(w) && Chronological(w, now)
    ensures OneMode(w.(history := history)) && Chronological(w.(history := history), now)
  {}

  lemma StepKeepsWriterOrder(st: StationState, step: StationStep)
    requires OneMode(st.writer) && Chronological(st.writer, st.clock)
    requires step.Observe? ==> step.observation.micros >= st.clock
    ensures OneMode(After(st, step).writer) && Chronological(After(st, step).writer, After(st, step).clock)
  {
    hide OneMode, Chronological, WriteAndTake, Rebuild, RunFeedback, Recover, EventStart, EpisodesOfPoll;
    var moved := if step.Observe? then Poll(step.observation, step.kind)
        else Rebuilt(step.fileOutcomes, step.historyOutcomes);
    NextKeepsMode(st.writer, moved);
    NextKeepsOrder(st.writer, moved, st.clock);
    OrderIgnoresHistory(Next(st.writer, moved), After(st, step).writer.history, After(st, step).clock);
  }

  lemma StepKeepsHealthy(st: StationState, step: StationStep)
    requires Healthy(st) && Undisturbed(st, step)
    ensures Healthy(After(st, step))
  {
    QuietOutcomes(st);
    match step {
      case Observe(o, kind) =>
        PollKeepsHealthy(st, o, kind);
        WriteWithoutFailure(st.writer, o, kind);
      case StartAgain(_, _, _) => RestartKeepsHealthy(st);
    }
    hide InSync, Quiet, OpenIsYoungest, After, OneMode, Chronological, Keyed, AllSummarised, LosesEpisode, Unmixed;
    StepKeepsKeyed(st, step);
    StepKeepsWriterOrder(st, step);
  }

  lemma {:induction false} RunStaysHealthy(st: StationState, steps: seq<StationStep>)
    requires Healthy(st) && AllUndisturbed(st, steps)
    ensures Healthy(AfterAll(st, steps))
    decreases |steps|
  {
    hide After, Healthy, Undisturbed;
    if steps != [] {
      StepKeepsHealthy(st, steps[0]);
      RunStaysHealthy(After(st, steps[0]), steps[1..]);
    }
  }

  /** Over every undisturbed run of polls and restarts, the evidence of an update
      is younger than all evidence of the updates before it, and feedback over all
      closed episodes on disk would change nothing. */
  lemma EvidenceOnceOverPolls(st: StationState, steps: seq<StationStep>)
    requires Healthy(st) && AllUndisturbed(st, steps)
    ensures var after := AfterAll(st, steps);
            && RunFeedback(LearnerOf(after), ClosedEpisodes(after.writer.file.rows)) == Pass(LearnerOf(after), true, [])
            && forall i, j, o, o' ::
                 0 <= i < j < |after.applied| && o in after.applied[i].cohort && o' in after.applied[j].cohort ==>
                   o.eventAt < o'.eventAt
  {
    hide AfterAll, AllUndisturbed, InSync, EventKinds, LastUpdate, ClosedEpisodes, RunFeedback, ProposalFor;
    RunStaysHealthy(st, steps);
    var after := AfterAll(st, steps);
    ReplayIsNoOp(LearnerOf(after), ClosedEpisodes(after.writer.file.rows));
    assert Separated(after.applied);
    forall i, j, o, o' | 0 <= i < j < |after.applied| && o in after.applied[i].cohort && o' in after.applied[j].cohort
      ensures o.eventAt < o'.eventAt
    {
      assert CohortUpTo(after.applied[i]) && CohortAfter(after.applied[j], after.applied[i].receipt.eventAt);
    }
  }

  /** A daemon with empty files and no feedback yet is healthy. */
  lemma FreshStationHealthy(k0: real, window: Option<int>, newest: int, clock: int)
    ensures Healthy(StationState(Construct(Log([], []), Log([], []), window).0, Loaded(Model(k0, None), []), false, [],
            newest, clock))
  {
    FreshIsQuiet(k0, newest);
    RestoreSyncs(Blank(Log([], []), Log([], []), window));
  }
}
