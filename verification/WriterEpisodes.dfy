/** The episodes the writer hands out while it streams are the episodes a batch
    reader finds in the file it leaves, and a restart in the middle of an episode
    does not change them. */
module WriterEpisodes {
  import opened Types
  import opened Sorting
  import opened Storage
  import opened IrEstimator
  import opened History
  import opened Segments
  import opened Feedback
  import opened FeedbackQuiet
  import FeedbackRuns
  import IrExact
  import opened Writer
  import opened WriterPending

  /** An episode without its leading context: from its first active row on. */
  function Stripped(records: seq<Row>): seq<Row> {
    records[FirstActive(records)..]
  }

  function StrippedAll(episodes: seq<seq<Row>>): seq<seq<Row>> {
    seq(|episodes|, i requires 0 <= i < |episodes| => Stripped(episodes[i]))
  }

  ghost predicate Quiescent(os: seq<Observation>) {
    forall i :: 0 <= i < |os| ==> OnlineStatus(os[i].status) && !ActiveStatus(os[i].status)
  }

  /** The writer's memory agrees with the file: an episode is open exactly when the
      file has an open tail, and the rows held for it are that tail after some
      online context. */
  ghost predicate InSync(s: WriterState) {
    && s.completed.None?
    && Quiescent(s.recent) && Quiescent(s.silent)
    && ActiveOrOnline(s.file.rows)
    && OpenTail(s.file.rows) == (if s.active then Stripped(s.records) else [])
    && (s.active ==> Stripped(s.records) != [])
  }

  // ----- rows and segments --------------------------------------------------------------

  lemma SegmentsAppend(rows: seq<Row>, row: Row)
    ensures OpenTail(rows + [row]) ==
            if ActiveRow(row) then OpenTail(rows) + [row] else if OnlineRow(row) then [] else OpenTail(rows)
    ensures ClosedEpisodes(rows + [row]) ==
            if !ActiveRow(row) && OnlineRow(row) && OpenTail(rows) != []
            then ClosedEpisodes(rows) + [OpenTail(rows) + [row]] else ClosedEpisodes(rows)
  {
    var more := rows + [row];
    assert more[..|more| - 1] == rows && more[|rows|] == row;
  }

  lemma {:induction false} QuietRowsChangeNothing(rows: seq<Row>, more: seq<Row>)
    requires OpenTail(rows) == [] && forall i :: 0 <= i < |more| ==> !ActiveRow(more[i])
    ensures OpenTail(rows + more) == [] && ClosedEpisodes(rows + more) == ClosedEpisodes(rows)
  {
    hide OpenTail, ClosedEpisodes;
    if more == [] {
      assert rows + more == rows;
    } else {
      var n := |more| - 1;
      QuietRowsChangeNothing(rows, more[..n]);
      SegmentsAppend(rows + more[..n], more[n]);
      assert rows + more[..n] + [more[n]] == rows + more;
    }
  }

  lemma {:induction false} StrippedOfContext(context: seq<Row>, rows: seq<Row>)
    requires forall i :: 0 <= i < |context| ==> !ActiveRow(context[i])
    requires rows != [] && ActiveRow(rows[0])
    ensures Stripped(context + rows) == rows
  {
    StartIgnoresContext(context, rows);
  }

  lemma StrippedGrows(records: seq<Row>, row: Row)
    requires Stripped(records) != []
    ensures Stripped(records + [row]) == Stripped(records) + [row]
  {
    var n := FirstActive(records);
    var context, rest := records[..n], records[n..];
    assert records == context + rest;
    assert records + [row] == context + (rest + [row]);
    StrippedOfContext(context, rest + [row]);
  }

  // ----- what the writer remembers stays quiet ----------------------------------------------

  lemma {:induction false} NotBeforeQuiescent(os: seq<Observation>, cutoff: int)
    requires Quiescent(os)
    ensures Quiescent(NotBefore(os, cutoff))
  {
    if os != [] {
      NotBeforeQuiescent(os[..|os| - 1], cutoff);
    }
  }

  lemma RememberQuiescent(s: WriterState, o: Observation, pending: bool)
    requires Quiescent(s.recent) && Quiescent(s.silent) && OnlineStatus(o.status) && !ActiveStatus(o.status)
    ensures Quiescent(Remember(s, o, pending).recent) && Quiescent(Remember(s, o, pending).silent)
    ensures var t := Remember(s, o, pending); t == s.(recent := t.recent, silent := t.silent)
  {
    if pending && s.window.Some? {
      NotBeforeQuiescent(s.silent + [o], o.micros - s.window.value);
    }
  }

  lemma {:induction false} PutQuiescent(dict: seq<Observation>, o: Observation)
    requires Quiescent(dict) && OnlineStatus(o.status) && !ActiveStatus(o.status)
    ensures Quiescent(Put(dict, o))
  {
    if dict != [] && dict[0].micros != o.micros {
      PutQuiescent(dict[1..], o);
    }
  }

  lemma {:induction false} PutAllQuiescent(dict: seq<Observation>, os: seq<Observation>)
    requires Quiescent(dict) && Quiescent(os)
    ensures Quiescent(PutAll(dict, os))
  {
    if os != [] {
      var n := |os| - 1;
      assert Quiescent(os[..n]);
      PutAllQuiescent(dict, os[..n]);
      PutQuiescent(PutAll(dict, os[..n]), os[n]);
    }
  }

  lemma SortedQuiescent(os: seq<Observation>)
    requires Quiescent(os)
    ensures Quiescent(Sort(os, TimeOf))
  {
    var sorted := Sort(os, TimeOf);
    SortIsSorting(os, TimeOf);
    forall i | 0 <= i < |os| ensures OnlineStatus(sorted[i].status) && !ActiveStatus(sorted[i].status) {
      assert sorted[i] in multiset(sorted);
      assert sorted[i] in os;
    }
  }

  lemma ContextIsQuiet(recent: seq<Observation>, silent: seq<Observation>)
    requires Quiescent(recent) && Quiescent(silent)
    ensures forall i :: 0 <= i < |ContextRows(recent, silent)| ==> !ActiveRow(ContextRows(recent, silent)[i])
  {
    PutAllQuiescent([], recent);
    PutAllQuiescent(PutAll([], recent), silent);
    SortedQuiescent(PutAll(PutAll([], recent), silent));
  }

  // ----- one poll -------------------------------------------------------------------------------

  /** The terminal row is on disk but the summary of the episode is not. */
  predicate LosesEpisode(s: WriterState, o: Observation, kind: BlackoutKind) {
    && kind == Online && s.active && NextOk(s.file.outcomes)
    && AddEpisode(s.history, s.records + [Sample(o)], s.kind).1 == AppendFailed
  }

  /** What one poll adds to the closed episodes of the file and what it hands out. */
  ghost predicate StreamedAsFiled(s: WriterState, o: Observation, kind: BlackoutKind) {
    var (next, handed) := WriteAndTake(s, o, kind);
    var before, after := ClosedEpisodes(s.file.rows), ClosedEpisodes(next.file.rows);
    && InSync(next)
    && (handed.Some? ==> !LosesEpisode(s, o, kind) && after == before + [Stripped(handed.value)])
    && (handed.None? && !LosesEpisode(s, o, kind) ==> after == before)
    && (LosesEpisode(s, o, kind) ==> after == before + [Stripped(s.records + [Sample(o)])])
  }

  lemma ContinueStreams(s: WriterState, o: Observation, kind: BlackoutKind)
    requires InSync(s) && s.active && ActiveStatus(o.status) && Classified(o.status, kind)
    ensures StreamedAsFiled(s, o, kind)
  {
    hide OpenTail, ClosedEpisodes, FirstActive, AddEpisode;
    SegmentsAppend(s.file.rows, Sample(o));
    StrippedGrows(s.records, Sample(o));
  }

  /** Flushing pending rows, all or some of them, leaves the episodes alone. */
  lemma FlushStreams(s: WriterState)
    requires InSync(s) && !s.active
    ensures var flushed := Flush(s, Sort(s.silent, TimeOf)).0;
            && flushed == s.(file := flushed.file, silent := flushed.silent)
            && InSync(flushed) && ClosedEpisodes(flushed.file.rows) == ClosedEpisodes(s.file.rows)
  {
    hide OpenTail, ClosedEpisodes, FirstActive, Sort, Sample, Samples, Flush, Accounted, SortedBy;
    var pending := Sort(s.silent, TimeOf);
    SortIsSorting(s.silent, TimeOf);
    SortedQuiescent(s.silent);
    var n := FlushWritesPrefix(s, pending);
    var flushed := Flush(s, pending).0;
    SamplesQuiet(pending[..n]);
    QuietRowsChangeNothing(s.file.rows, Samples(pending[..n]));
    FewerQuiescent(s.silent, flushed.silent);
  }

  lemma FewerQuiescent(os: seq<Observation>, fewer: seq<Observation>)
    requires Quiescent(os) && multiset(fewer) <= multiset(os)
    ensures Quiescent(fewer)
  {
    forall i | 0 <= i < |fewer| ensures fewer[i] in os {
      assert fewer[i] in multiset(fewer);
    }
  }

  lemma SamplesQuiet(os: seq<Observation>)
    requires Quiescent(os)
    ensures |Samples(os)| == |os|
    ensures forall i :: 0 <= i < |os| ==> !ActiveRow(Samples(os)[i]) && OnlineRow(Samples(os)[i])
  {}

  lemma StartStreams(s: WriterState, o: Observation, kind: BlackoutKind)
    requires InSync(s) && !s.active && ActiveStatus(o.status) && Classified(o.status, kind)
    ensures StreamedAsFiled(s, o, kind)
  {
    hide OpenTail, ClosedEpisodes, FirstActive, AddEpisode, Sort, Samples, Flush, ContextRows;
    FlushStreams(s);
    var flushed := Flush(s, Sort(s.silent, TimeOf)).0;
    SegmentsAppend(flushed.file.rows, Sample(o));
    ContextIsQuiet(s.recent, s.silent);
    StrippedOfContext(ContextRows(s.recent, s.silent), [Sample(o)]);
  }

  lemma CloseStreams(s: WriterState, o: Observation)
    requires InSync(s) && s.active && Classified(o.status, Online)
    ensures StreamedAsFiled(s, o, Online)
  {
    hide OpenTail, ClosedEpisodes, FirstActive, AddEpisode, Remember;
    SegmentsAppend(s.file.rows, Sample(o));
    StrippedGrows(s.records, Sample(o));
    RememberQuiescent(s.(file := s.file.Append(Sample(o)), active := false, recharging := BelowFull(o),
                         postFullUntil := Deadline(o, s.window), records := []), o, false);
  }

  /** Rows of quiet online time written after an episode leave the episodes alone. */
  lemma QuietStreams(s: WriterState, o: Observation)
    requires InSync(s) && !s.active && Classified(o.status, Online)
    ensures StreamedAsFiled(s, o, Online)
  {
    hide OpenTail, ClosedEpisodes, FirstActive, AddEpisode, Remember;
    SegmentsAppend(s.file.rows, Sample(o));
    var appended := s.(file := s.file.Append(Sample(o)));
    RememberQuiescent(appended, o, false);
    RememberQuiescent(appended.(recharging := true, postFullUntil := None), o, false);
    RememberQuiescent(s.(postFullUntil := None), o, true);
  }

  /** One poll, whatever fails in it: the episode handed out is the one the file
      gained, unless the summary was lost after the terminal row was written. */
  lemma PollStreams(s: WriterState, o: Observation, kind: BlackoutKind)
    requires InSync(s) && Classified(o.status, kind)
    ensures StreamedAsFiled(s, o, kind)
  {
    if ActiveStatus(o.status) {
      if s.active { ContinueStreams(s, o, kind); } else { StartStreams(s, o, kind); }
    } else if OnlineStatus(o.status) {
      if s.active { CloseStreams(s, o); } else { QuietStreams(s, o); }
    }
  }

  // ----- restarts ------------------------------------------------------------------------------------

  /** No status carries OL together with OB or CAL. */
  ghost predicate Unmixed(rows: seq<Row>) {
    forall i :: 0 <= i < |rows| ==> !(OnlineRow(rows[i]) && ActiveRow(rows[i]))
  }

  lemma {:induction false} RecentAfterQuiescent(recent: seq<Observation>, rows: seq<Row>)
    requires Quiescent(recent) && Unmixed(rows)
    ensures Quiescent(RecentAfter(recent, rows))
    decreases |rows|
  {
    if rows != [] {
      var next := if OnlineRow(rows[0]) then Remembered(recent, ObservationFromRow(rows[0])) else [];
      assert Quiescent(next);
      RecentAfterQuiescent(next, rows[1..]);
    }
  }

  lemma OnlineContext(rows: seq<Row>, from: nat, start: nat)
    requires Unmixed(rows) && from <= start <= |rows|
    requires forall i :: from <= i < start ==> OnlineRow(rows[i])
    ensures rows[from..] == rows[from..start] + rows[start..] && Unmixed(rows[from..start])
    ensures forall i :: 0 <= i < start - from ==> !ActiveRow(rows[from..start][i])
  {}

  lemma RestoredRecords(rows: seq<Row>)
    requires ActiveOrOnline(rows) && Unmixed(rows) && rows != [] && ActiveRow(rows[|rows| - 1])
    ensures var start := RunStart(rows, |rows|);
            var from := RestoredContextStart(rows, start, start);
            && Stripped(rows[from..]) == OpenTail(rows) != []
            && Unmixed(rows[from..start])
  {
    hide RunStart, RestoredContextStart, Stripped, OpenTail;
    var start := RunStart(rows, |rows|);
    var from := RestoredContextStart(rows, start, start);
    assert start < |rows| && ActiveRow(rows[start]);
    OpenTailIsRun(rows);
    OnlineContext(rows, from, start);
    hide Unmixed, ActiveOrOnline;
    StrippedOfContext(rows[from..start], rows[start..]);
  }

  lemma RestoredRecentQuiescent(rows: seq<Row>)
    requires Unmixed(rows)
    ensures Quiescent(RestoredRecent(rows))
  {
    hide RecentAfter;
    RecentAfterQuiescent([], if |rows| > RECENT_LIMIT then rows[|rows| - RECENT_LIMIT..] else rows);
  }

  /** A rebuilt writer agrees with the file it was rebuilt from. */
  lemma RestoreSyncs(s: WriterState)
    requires s.completed.None? && s.recent == [] && s.silent == [] && !s.active
    requires ActiveOrOnline(s.file.rows) && Unmixed(s.file.rows)
    ensures InSync(Restore(s))
  {
    hide RestoredRecent, ChargeStart, RunStart, RestoredContextStart, FirstActive;
    var rows := s.file.rows;
    RestoredRecentQuiescent(rows);
    if rows != [] && ActiveRow(rows[|rows| - 1]) {
      hide OpenTail, Stripped;
      RestoredRecords(rows);
      var start := RunStart(rows, |rows|);
      RestoredRecentQuiescent(rows[RestoredContextStart(rows, start, start)..start]);
    }
  }

  // ----- streaming equals batch ---------------------------------------------------------------------------

  /** A writer with what it handed out so far and how many episodes it lost. */
  datatype Recording = Recording(writer: WriterState, handed: seq<seq<Row>>, lost: nat)

  function Record(r: Recording, step: WriterStep): Recording {
    match step
    case Poll(o, kind) =>
      var (next, handed) := WriteAndTake(r.writer, o, kind);
      Recording(next, if handed.Some? then r.handed + [handed.value] else r.handed,
                if LosesEpisode(r.writer, o, kind) then r.lost + 1 else r.lost)
    case Rebuilt(f, h) => r.(writer := Rebuild(r.writer, f, h))
  }

  function RecordAll(r: Recording, steps: seq<WriterStep>): Recording
    decreases |steps|
  {
    if steps == [] then r else RecordAll(Record(r, steps[0]), steps[1..])
  }

  ghost predicate Admissible(s: WriterState, step: WriterStep) {
    match step
    case Poll(o, kind) => Classified(o.status, kind)
    case Rebuilt(_, _) => Unmixed(s.file.rows)
  }

  ghost predicate AllAdmissible(r: Recording, steps: seq<WriterStep>)
    decreases |steps|
  {
    steps == [] || (Admissible(r.writer, steps[0]) && AllAdmissible(Record(r, steps[0]), steps[1..]))
  }

  /** Handed out and lost episodes together are the closed ones beyond `base`, and
      with none lost they are the same episodes in the same order. */
  ghost predicate Complete(r: Recording, base: seq<seq<Row>>) {
    var closed := ClosedEpisodes(r.writer.file.rows);
    && InSync(r.writer)
    && |closed| == |base| + |r.handed| + r.lost
    && (r.lost == 0 ==> closed == base + StrippedAll(r.handed))
  }

  lemma RecordKeepsComplete(r: Recording, step: WriterStep, base: seq<seq<Row>>)
    requires Complete(r, base) && Admissible(r.writer, step)
    ensures Complete(Record(r, step), base)
  {
    hide ClosedEpisodes, InSync, Stripped, WriteAndTake, LosesEpisode, Restore, Reconcile;
    match step {
      case Poll(o, kind) =>
        PollStreams(r.writer, o, kind);
        var handed := WriteAndTake(r.writer, o, kind).1;
        if handed.Some? {
          assert StrippedAll(r.handed + [handed.value]) == StrippedAll(r.handed) + [Stripped(handed.value)];
        }
      case Rebuilt(f, h) => RebuildSyncs(r.writer, f, h);
    }
  }

  lemma RebuildSyncs(s: WriterState, f: seq<bool>, h: seq<bool>)
    requires InSync(s) && Unmixed(s.file.rows)
    ensures InSync(Rebuild(s, f, h)) && Rebuild(s, f, h).file.rows == s.file.rows
  {
    hide OpenTail, Stripped, Restore, Reconcile;
    var blank := Blank(s.file.(outcomes := f), s.history.(outcomes := h), s.window);
    RestoreSyncs(blank);
    RestoreKeepsFile(blank);
  }

  lemma {:induction false} RecordAllKeepsComplete(r: Recording, steps: seq<WriterStep>, base: seq<seq<Row>>)
    requires Complete(r, base) && AllAdmissible(r, steps)
    ensures Complete(RecordAll(r, steps), base)
    decreases |steps|
  {
    hide Record, Complete, Admissible;
    if steps != [] {
      RecordKeepsComplete(r, steps[0], base);
      RecordAllKeepsComplete(Record(r, steps[0]), steps[1..], base);
    }
  }

  /** Over every run of polls, failing telemetry appends, unknown statuses and
      restarts: the episodes handed out, without their context, are exactly those
      the batch segmentation finds beyond the ones it found at the start, if and
      only if no summary was lost after its terminal row was written. */
  lemma StreamingEqualsBatch(s: WriterState, steps: seq<WriterStep>)
    requires InSync(s) && AllAdmissible(Recording(s, [], 0), steps)
    ensures var after := RecordAll(Recording(s, [], 0), steps);
            && InSync(after.writer)
            && (ClosedEpisodes(after.writer.file.rows) == ClosedEpisodes(s.file.rows) + StrippedAll(after.handed)
                <==> after.lost == 0)
            && |ClosedEpisodes(after.writer.file.rows)| == |ClosedEpisodes(s.file.rows)| + |after.handed| + after.lost
  {
    hide RecordAll, AllAdmissible, ClosedEpisodes, InSync;
    var base := ClosedEpisodes(s.file.rows);
    assert StrippedAll([]) == [] && base + [] == base;
    RecordAllKeepsComplete(Recording(s, [], 0), steps, base);
    var after := RecordAll(Recording(s, [], 0), steps);
    assert |base + StrippedAll(after.handed)| == |base| + |after.handed|;
  }

  // ----- restart transparency ---------------------------------------------------------------------------------

  ghost predicate SameEpisodeKeys(a: seq<HistoryRow>, b: seq<HistoryRow>) {
    forall e :: HasEpisode(a, e) <==> HasEpisode(b, e)
  }

  /** Two writers of the same file that may remember different context and a
      different provenance of the open episode. */
  ghost predicate Twins(s: WriterState, t: WriterState) {
    && InSync(s) && InSync(t)
    && s.file == t.file && s.silent == t.silent && s.window == t.window
    && s.active == t.active && s.recharging == t.recharging && s.postFullUntil == t.postFullUntil
    && s.history.outcomes == t.history.outcomes && SameEpisodeKeys(s.history.rows, t.history.rows)
  }

  /** The same event for learning, whatever context it comes with. */
  ghost predicate SameEvidence(a: Option<seq<Row>>, b: Option<seq<Row>>) {
    && (a.Some? <==> b.Some?)
    && (a.Some? ==>
          && Stripped(a.value) == Stripped(b.value) && EventStart(a.value) == EventStart(b.value)
          && forall e :: ExtractIr(a.value, e) == ExtractIr(b.value, e))
  }

  lemma StrippedDecides(a: seq<Row>, b: seq<Row>)
    requires Stripped(a) == Stripped(b)
    ensures SameEvidence(Some(a), Some(b))
  {
    hide ExtractIr;
    EvidenceOfStripped(a);
    EvidenceOfStripped(b);
    forall e ensures ExtractIr(a, e) == ExtractIr(b, e) {
      ContextOf(a, e);
      ContextOf(b, e);
    }
  }

  lemma EvidenceOfStripped(records: seq<Row>)
    ensures EventStart(records) == EventStart(Stripped(records))
  {
    var n := FirstActive(records);
    assert records == records[..n] + records[n..];
    StartIgnoresContext(records[..n], records[n..]);
  }

  lemma ContextOf(records: seq<Row>, e: Option<int>)
    ensures ExtractIr(records, e) == ExtractIr(Stripped(records), e)
  {
    hide ExtractIr;
    var n := FirstActive(records);
    assert records == records[..n] + records[n..];
    IrExact.ExtractionIgnoresContext(records[..n], records[n..], e);
  }

  lemma SummaryKey(records: seq<Row>, kind: BlackoutKind)
    requires Stripped(records) != []
    ensures var summary := SummarizeEpisode(records, kind);
            && summary.Some? && summary.value.Episode? && summary.value.at == Stripped(records)[0].at
            && (summary.value.selfTest <==> kind == BlackoutTest)
  {}

  lemma {:induction false} FlushTwins(s: WriterState, t: WriterState, sorted: seq<Observation>)
    requires s.file == t.file && s.silent == t.silent
    ensures var (s', ok), (t', ok') := Flush(s, sorted), Flush(t, sorted);
            && ok == ok' && s'.file == t'.file && s'.silent == t'.silent
            && s' == s.(file := s'.file, silent := s'.silent)
            && t' == t.(file := t'.file, silent := t'.silent)
    decreases |sorted|
  {
    hide Sample, RemoveFirst;
    if sorted != [] && NextOk(s.file.outcomes) {
      FlushTwins(s.(file := s.file.Append(Sample(sorted[0])), silent := RemoveFirst(s.silent, sorted[0])),
                 t.(file := t.file.Append(Sample(sorted[0])), silent := RemoveFirst(t.silent, sorted[0])), sorted[1..]);
    }
  }

  lemma TwinSummaries(s: WriterState, t: WriterState, o: Observation)
    requires Twins(s, t) && s.active
    ensures var (h, result) := AddEpisode(s.history, s.records + [Sample(o)], s.kind);
            var (h', result') := AddEpisode(t.history, t.records + [Sample(o)], t.kind);
            && result == result' && h.outcomes == h'.outcomes && SameEpisodeKeys(h.rows, h'.rows)
    ensures Stripped(s.records + [Sample(o)]) == Stripped(t.records + [Sample(o)])
  {
    var records, records' := s.records + [Sample(o)], t.records + [Sample(o)];
    StrippedGrows(s.records, Sample(o));
    StrippedGrows(t.records, Sample(o));
    hide InSync, Stripped;
    AddedSummary(s.history, records, s.kind);
    AddedSummary(t.history, records', t.kind);
  }

  /** A summary is keyed by the first row of the stripped episode and appended
      unless that key is present. */
  lemma AddedSummary(history: Log<HistoryRow>, records: seq<Row>, kind: BlackoutKind)
    requires Stripped(records) != []
    ensures var (after, result) := AddEpisode(history, records, kind);
            var at, present := Stripped(records)[0].at, HasEpisode(history.rows, Stripped(records)[0].at);
            && (result == AlreadyThere <==> present)
            && (result == AppendFailed <==> !present && !NextOk(history.outcomes))
            && after.outcomes == (if present then history.outcomes else Later(history.outcomes))
            && forall e :: HasEpisode(after.rows, e) <==> HasEpisode(history.rows, e) || (result == Added && e == at)
  {
    hide HasEpisode, SummarizeEpisode, Stripped;
    SummaryKey(records, kind);
    FeedbackRuns.AppendedRow(history.rows, SummarizeEpisode(records, kind).value);
  }

  lemma NoneIsSameEvidence()
    ensures SameEvidence(None, None)
  {}

  lemma TwinsClose(s: WriterState, t: WriterState, o: Observation)
    requires Twins(s, t) && s.active && Classified(o.status, Online)
    ensures Twins(WriteAndTake(s, o, Online).0, WriteAndTake(t, o, Online).0)
    ensures SameEvidence(WriteAndTake(s, o, Online).1, WriteAndTake(t, o, Online).1)
  {
    hide OpenTail, Stripped, ClosedEpisodes, SameEpisodeKeys, SameEvidence, Sample, AddEpisode, Remembered, Quiescent,
         ActiveOrOnline;
    PollStreams(s, o, Online);
    PollStreams(t, o, Online);
    TwinSummaries(s, t, o);
    StrippedDecides(s.records + [Sample(o)], t.records + [Sample(o)]);
    NoneIsSameEvidence();
  }

  /** What decides the next rows of the file. */
  predicate SameCourse(s: WriterState, t: WriterState) {
    && s.file == t.file && s.silent == t.silent && s.window == t.window
    && s.active == t.active && s.recharging == t.recharging && s.postFullUntil == t.postFullUntil
    && s.completed.None? && t.completed.None?
  }

  lemma CourseOfActive(s: WriterState, t: WriterState, o: Observation, kind: BlackoutKind)
    requires SameCourse(s, t) && ActiveStatus(o.status) && Classified(o.status, kind)
    ensures var (s', handed), (t', handed') := WriteAndTake(s, o, kind), WriteAndTake(t, o, kind);
            && SameCourse(s', t') && s'.history == s.history && t'.history == t.history && handed == handed' == None
  {
    hide Sample, Flush, Sort, ContextRows;
    FlushTwins(s, t, Sort(s.silent, TimeOf));
  }

  lemma RememberCourse(s: WriterState, t: WriterState, o: Observation, pending: bool)
    requires SameCourse(s, t)
    ensures SameCourse(Remember(s, o, pending), Remember(t, o, pending))
    ensures Remember(s, o, pending).history == s.history && Remember(t, o, pending).history == t.history
  {
    hide Remembered, NotBefore;
  }

  lemma CourseOfQuiet(s: WriterState, t: WriterState, o: Observation)
    requires SameCourse(s, t) && !s.active
    ensures var (s', handed), (t', handed') := WriteAndTake(s, o, Online), WriteAndTake(t, o, Online);
            && SameCourse(s', t') && s'.history == s.history && t'.history == t.history && handed == handed' == None
  {
    hide Sample, Remember, BelowFull, Deadline;
    var appended, appended' := s.(file := s.file.Append(Sample(o))), t.(file := t.file.Append(Sample(o)));
    if s.recharging {
      RememberCourse(appended, appended', o, false);
    } else if s.postFullUntil.Some? && BelowFull(o) {
      RememberCourse(appended.(recharging := true, postFullUntil := None),
          appended'.(recharging := true, postFullUntil := None), o, false);
    } else if s.postFullUntil.Some? && o.micros <= s.postFullUntil.value {
      RememberCourse(appended, appended', o, false);
    } else {
      RememberCourse(s.(postFullUntil := None), t.(postFullUntil := None), o, true);
    }
  }

  /** Twins stay twins through any poll that does not end an episode. */
  lemma TwinsInside(s: WriterState, t: WriterState, o: Observation, kind: BlackoutKind)
    requires Twins(s, t) && Classified(o.status, kind)
    requires ActiveStatus(o.status) || !s.active
    ensures Twins(WriteAndTake(s, o, kind).0, WriteAndTake(t, o, kind).0)
    ensures SameEvidence(WriteAndTake(s, o, kind).1, WriteAndTake(t, o, kind).1)
  {
    assert SameCourse(s, t);
    hide OpenTail, Stripped, ClosedEpisodes, SameEpisodeKeys, Write, LosesEpisode;
    PollStreams(s, o, kind);
    PollStreams(t, o, kind);
    if ActiveStatus(o.status) {
      CourseOfActive(s, t, o, kind);
    } else if kind == Online {
      CourseOfQuiet(s, t, o);
    } else {
      assert Write(s, o, kind) == (s, NotWritten) && Write(t, o, kind) == (t, NotWritten) by {
        UnknownIgnored(s, o, kind);
        UnknownIgnored(t, o, kind);
      }
    }
  }

  lemma UnknownIgnored(s: WriterState, o: Observation, kind: BlackoutKind)
    requires Classified(o.status, kind) && kind == Unknown
    ensures Write(s, o, kind) == (s, NotWritten)
  {}

  /** Twins stay twins through any poll and hand out the same event. */
  lemma TwinsPoll(s: WriterState, t: WriterState, o: Observation, kind: BlackoutKind)
    requires Twins(s, t) && Classified(o.status, kind)
    ensures Twins(WriteAndTake(s, o, kind).0, WriteAndTake(t, o, kind).0)
    ensures SameEvidence(WriteAndTake(s, o, kind).1, WriteAndTake(t, o, kind).1)
  {
    if s.active && kind == Online {
      TwinsClose(s, t, o);
    } else if s.active && kind == Unknown {
      UnknownIgnored(s, o, kind);
      UnknownIgnored(t, o, kind);
    } else {
      TwinsInside(s, t, o, kind);
    }
  }

  function HandedOut(s: WriterState, polls: seq<(Observation, BlackoutKind)>): seq<Option<seq<Row>>>
    decreases |polls|
  {
    if polls == [] then []
    else
      var (next, handed) := WriteAndTake(s, polls[0].0, polls[0].1);
      [handed] + HandedOut(next, polls[1..])
  }

  function Polled(s: WriterState, polls: seq<(Observation, BlackoutKind)>): WriterState
    decreases |polls|
  {
    if polls == [] then s else Polled(WriteAndTake(s, polls[0].0, polls[0].1).0, polls[1..])
  }

  lemma {:induction false} TwinsPolled(s: WriterState, t: WriterState, polls: seq<(Observation, BlackoutKind)>)
    requires Twins(s, t) && forall i :: 0 <= i < |polls| ==> Classified(polls[i].0.status, polls[i].1)
    ensures Twins(Polled(s, polls), Polled(t, polls))
    ensures |HandedOut(s, polls)| == |HandedOut(t, polls)| == |polls|
    ensures forall i :: 0 <= i < |polls| ==> SameEvidence(HandedOut(s, polls)[i], HandedOut(t, polls)[i])
    decreases |polls|
  {
    hide Twins, SameEvidence, WriteAndTake;
    if polls != [] {
      TwinsPoll(s, t, polls[0].0, polls[0].1);
      TwinsPolled(WriteAndTake(s, polls[0].0, polls[0].1).0, WriteAndTake(t, polls[0].0, polls[0].1).0, polls[1..]);
    }
  }

  lemma RestartedTwin(s: WriterState)
    requires InSync(s) && OneMode(s) && s.active && Unmixed(s.file.rows)
    ensures Construct(s.file, s.history, s.window).1
    ensures Twins(s, Construct(s.file, s.history, s.window).0)
  {
    hide Stripped, FirstActive, RunStart, RestoredContextStart, RestoredRecent, LatestClosed, EventKinds;
    var blank := Blank(s.file, s.history, s.window);
    RestoreSyncs(blank);
    assert ActiveRow(s.file.rows[|s.file.rows| - 1]);
    OpenTailHidesClosed(s.file.rows);
  }

  /** Kill the daemon anywhere inside an episode, rebuild it from the files and let
      both writers see the same polls from then on: for ever after the file is the
      same, and every episode handed out is the same event with the same active
      rows, terminal row, key and IR observation. */
  lemma RestartIsTransparent(s: WriterState, polls: seq<(Observation, BlackoutKind)>)
    requires InSync(s) && OneMode(s) && s.active && Unmixed(s.file.rows)
    requires forall i :: 0 <= i < |polls| ==> Classified(polls[i].0.status, polls[i].1)
    ensures var t := Construct(s.file, s.history, s.window).0;
            && Polled(s, polls).file == Polled(t, polls).file
            && |HandedOut(s, polls)| == |HandedOut(t, polls)| == |polls|
            && forall i :: 0 <= i < |polls| ==> SameEvidence(HandedOut(s, polls)[i], HandedOut(t, polls)[i])
  {
    hide InSync, HandedOut, Polled, Construct, OneMode, Unmixed, SameEvidence;
    RestartedTwin(s);
    TwinsPolled(s, Construct(s.file, s.history, s.window).0, polls);
  }
}
