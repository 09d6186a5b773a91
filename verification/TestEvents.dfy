/** An episode recorded as a self-test never teaches the model anything, whatever
    fails, crashes, is replayed or reconciled afterwards. */
module TestEvents {
  import opened Types
  import opened Sorting
  import opened Storage
  import opened IrEstimator
  import opened IrExact
  import opened History
  import opened ModelStore
  import opened Segments
  import opened Feedback
  import opened FeedbackRuns
  import opened Writer
  import opened WriterPending
  import opened WriterEpisodes
  import opened Station

  /** Event e is a self-test for the history, and nothing was learned from it. */
  ghost predicate RecordedTest(l: Learner, e: int) {
    && HasEpisode(l.history.rows, e) && !HasObserved(l.history.rows, e) && !HasUpdate(l.history.rows, e)
    && e in EventKinds(l.history.rows) && EventKinds(l.history.rows)[e] == SelfTestKindRow
    && !SameEvent(l.model.memory, e) && !SameEvent(l.model.file.content, e)
  }

  lemma RowOfOther(l: Learner, row: HistoryRow, e: int)
    requires RecordedTest(l, e) && KeyOf(row) != e
    ensures RecordedTest(l.(history := l.history.Append(row)), e)
  {
    hide EventKinds, HasEpisode, HasObserved, HasUpdate;
    AppendedRow(l.history.rows, row);
  }

  lemma RecoverKeepsTest(l: Learner, e: int)
    requires RecordedTest(l, e)
    ensures RecordedTest(Recover(l).learner, e) && Recover(l).learner.model == l.model
  {
    hide RecordedTest;
    if l.model.memory.lastFeedback.Some? {
      var receipt := l.model.memory.lastFeedback.value;
      assert receipt.eventAt != e by { ReceiptOfOther(l, e); }
      RowOfOther(l, Update(receipt), e);
    }
  }

  lemma ReceiptOfOther(l: Learner, e: int)
    requires RecordedTest(l, e) && l.model.memory.lastFeedback.Some?
    ensures l.model.memory.lastFeedback.value.eventAt != e
  {}

  lemma SummaryKeepsTest(l: Learner, records: seq<Row>, kind: BlackoutKind, e: int)
    requires RecordedTest(l, e)
    ensures RecordedTest(l.(history := AddEpisode(l.history, records, kind).0), e)
  {
    hide SummarizeEpisode;
    var summary := SummarizeEpisode(records, kind);
    if summary.Some? && summary.value.Episode? && !HasEpisode(l.history.rows, summary.value.at) {
      RowOfOther(l, summary.value, e);
    }
    hide RecordedTest;
    SummaryIsEpisode(records, kind);
  }

  lemma SummaryIsEpisode(records: seq<Row>, kind: BlackoutKind)
    ensures SummarizeEpisode(records, kind).Some? ==> SummarizeEpisode(records, kind).value.Episode?
  {}

  lemma ProposeKeepsTest(l: Learner, kinds: map<int, RowKind>, eventAt: int, e: int)
    requires RecordedTest(l, e) && eventAt != e && e in kinds && kinds[e] == SelfTestKindRow
    ensures var t := ProposeAndApply(l, kinds, eventAt);
            RecordedTest(t.pass.learner, e) && e in t.kinds && t.kinds[e] == SelfTestKindRow
  {
    hide ProposalFor, Recover, EventKinds, HasEpisode, HasObserved, HasUpdate;
    if ProposalFor(l).Some? {
      var p := ProposalFor(l).value;
      var model := ApplyFeedbackTo(l.model, Some(p.toValue), Some(EventReceipt(eventAt, p.evidenceAt, p.reason))).0;
      assert RecordedTest(l.(model := model), e);
      RecoverKeepsTest(l.(model := model), e);
    }
  }

  lemma TurnKeepsTest(l: Learner, kinds: map<int, RowKind>, episode: seq<Row>, e: int)
    requires RecordedTest(l, e) && e in kinds && kinds[e] == SelfTestKindRow
    ensures var t := OneEpisode(l, kinds, episode);
            RecordedTest(t.pass.learner, e) && e in t.kinds && t.kinds[e] == SelfTestKindRow
  {
    hide RecordedTest, ProposeAndApply, EventStart, ExtractIr, HasObserved;
    var at := EventStart(episode);
    if at.Some? && at.value != e {
      ProposeKeepsTest(l, kinds, at.value, e);
      if ExtractIr(episode, at).Some? {
        var o := ExtractIr(episode, at).value;
        ExtractedObservationBounds(episode, at);
        RowOfOther(l, Observed(o), e);
        ProposeKeepsTest(l.(history := AddObservation(l.history, o).0), kinds[at.value := ObservedKind], at.value, e);
      }
    }
  }

  lemma {:induction false} PassKeepsTest(l: Learner, kinds: map<int, RowKind>, episodes: seq<seq<Row>>, e: int)
    requires RecordedTest(l, e) && e in kinds && kinds[e] == SelfTestKindRow
    ensures RecordedTest(ApplyFeedback(l, kinds, episodes).learner, e)
    decreases |episodes|
  {
    hide OneEpisode, RecordedTest;
    if episodes != [] {
      TurnKeepsTest(l, kinds, episodes[0], e);
      var t := OneEpisode(l, kinds, episodes[0]);
      PassKeepsTest(t.pass.learner, t.kinds, episodes[1..], e);
    }
  }

  lemma FeedbackKeepsTest(l: Learner, episodes: seq<seq<Row>>, e: int)
    requires RecordedTest(l, e)
    ensures RecordedTest(RunFeedback(l, episodes).learner, e)
  {
    hide ApplyFeedback, EventKinds;
    RecoverKeepsTest(l, e);
    PassKeepsTest(Recover(l).learner, EventKinds(Recover(l).learner.history.rows), episodes, e);
  }

  // ----- over a run of the station --------------------------------------------------

  /** A write touches the history only to summarise the episode it closes. */
  lemma OnlySummaries(w: WriterState, o: Observation, kind: BlackoutKind)
    ensures var written := WriteAndTake(w, o, kind).0;
            || written.history == w.history
            || written.history == AddEpisode(w.history, w.records + [Sample(o)], w.kind).0
  {
    hide Sample, AddEpisode, Remembered, NotBefore, Sort, Flush, ContextRows, Accounted;
    SortIsSorting(w.silent, TimeOf);
    var n := FlushWritesPrefix(w, Sort(w.silent, TimeOf));
  }

  lemma StepKeepsTest(st: StationState, step: StationStep, e: int)
    requires RecordedTest(LearnerOf(st), e)
    ensures RecordedTest(LearnerOf(After(st, step)), e)
  {
    hide WriteAndTake, RunFeedback, Recover, EventStart, EpisodesOfPoll, LatestClosed, Restore, ReconciledSlice;
    match step {
      case Observe(o, kind) =>
        var (written, handed) := WriteAndTake(st.writer, o, kind);
        OnlySummaries(st.writer, o, kind);
        SummaryKeepsTest(LearnerOf(st), st.writer.records + [Sample(o)], st.writer.kind, e);
        hide RecordedTest;
        FeedbackKeepsTest(Learner(st.model, written.history), EpisodesOfPoll(st.replayed, written.file.rows, handed),
            e);
      case StartAgain(m, f, h) =>
        var l := Learner(Reloaded(st.model, m), st.writer.history.(outcomes := h));
        assert RecordedTest(l, e);
        hide RecordedTest;
        ReconcileKeepsTest(st.writer.file.rows, l, e);
        RecoverKeepsTest(l.(history := Reconcile(st.writer.file.rows, l.history).0), e);
    }
  }

  lemma ReconcileKeepsTest(rows: seq<Row>, l: Learner, e: int)
    requires RecordedTest(l, e)
    ensures RecordedTest(l.(history := Reconcile(rows, l.history).0), e)
  {
    hide RecordedTest, AddEpisode, EventKinds, EpisodeAtOrAfter, ReconciledSlice;
    if LatestClosed(rows).Some? {
      SummaryKeepsTest(l, ReconciledSlice(rows, LatestClosed(rows).value.0, LatestClosed(rows).value.1), BlackoutReal,
          e);
    }
  }

  lemma {:induction false} RunKeepsTest(st: StationState, steps: seq<StationStep>, e: int)
    requires RecordedTest(LearnerOf(st), e)
    ensures RecordedTest(LearnerOf(AfterAll(st, steps)), e)
    decreases |steps|
  {
    hide RecordedTest, After;
    if steps != [] {
      StepKeepsTest(st, steps[0], e);
      RunKeepsTest(After(st, steps[0]), steps[1..], e);
    }
  }

  /** The poll that closes a self-test: its summary says so, and the feedback of the
      same poll leaves the event alone. */
  lemma TestIsRecorded(st: StationState, o: Observation, e: int)
    requires InSync(st.writer) && st.writer.active && st.writer.kind == BlackoutTest && Classified(o.status, Online)
    requires NextOk(st.writer.file.outcomes) && NextOk(st.writer.history.outcomes)
    requires Stripped(st.writer.records)[0].at == e
    requires !HasEpisode(st.writer.history.rows, e) && !HasObserved(st.writer.history.rows, e)
             && !HasUpdate(st.writer.history.rows, e)
    requires !SameEvent(st.model.memory, e) && !SameEvent(st.model.file.content, e)
    ensures RecordedTest(LearnerOf(PollStation(st, o, Online)), e)
  {
    hide RunFeedback, EventStart, EpisodesOfPoll, OpenTail, ClosedEpisodes, Stripped, SummarizeEpisode, EventKinds,
         HasEpisode, HasObserved, HasUpdate, Remembered, Quiescent, ActiveOrOnline;
    var w := st.writer;
    StrippedGrows(w.records, Sample(o));
    SummaryKey(w.records + [Sample(o)], BlackoutTest);
    var summary := SummarizeEpisode(w.records + [Sample(o)], BlackoutTest).value;
    AppendedRow(w.history.rows, summary);
    var (written, handed) := WriteAndTake(w, o, Online);
    assert written.history == w.history.Append(summary);
    TestSummary(w.records + [Sample(o)]);
    hide WriteAndTake;
    FeedbackKeepsTest(Learner(st.model, written.history), EpisodesOfPoll(st.replayed, written.file.rows, handed), e);
  }

  lemma TestSummary(records: seq<Row>)
    ensures var summary := SummarizeEpisode(records, BlackoutTest);
            summary.Some? ==>
              summary.value.Episode? && summary.value.selfTest && KindOf(summary.value) == SelfTestKindRow
  {}

  /** A self-test that is closed and summarised yields no observation and no update
      in any run after it, whatever fails and however often the daemon restarts. */
  lemma TestsTeachNothing(st: StationState, o: Observation, e: int, steps: seq<StationStep>)
    requires InSync(st.writer) && st.writer.active && st.writer.kind == BlackoutTest && Classified(o.status, Online)
    requires NextOk(st.writer.file.outcomes) && NextOk(st.writer.history.outcomes)
    requires Stripped(st.writer.records)[0].at == e
    requires !HasEpisode(st.writer.history.rows, e) && !HasObserved(st.writer.history.rows, e)
             && !HasUpdate(st.writer.history.rows, e)
    requires !SameEvent(st.model.memory, e) && !SameEvent(st.model.file.content, e)
    ensures var rows := AfterAll(PollStation(st, o, Online), steps).writer.history.rows;
            !HasObserved(rows, e) && !HasUpdate(rows, e)
  {
    hide PollStation, AfterAll, HasObserved, HasUpdate;
    TestIsRecorded(st, o, e);
    RunKeepsTest(PollStation(st, o, Online), steps, e);
  }
}
