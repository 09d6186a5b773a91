/** What construction of the writer adds to the history, exactly. */
module Reconciliation {
  import opened Types
  import opened Storage
  import opened IrEstimator
  import opened Cohort
  import opened History
  import opened Segments
  import opened FeedbackQuiet
  import opened FeedbackRuns
  import opened Summaries
  import opened Feedback
  import opened Writer
  import WriterPending
  import opened WriterEpisodes

  /** Key of the summary that reconciliation would record: the first active row
      among the latest closed episode and the 31 rows before it. */
  function ReconciledKey(rows: seq<Row>): Option<int> {
    match LatestClosed(rows)
    case None => None
    case Some((start, end)) => EventStart(ReconciledSlice(rows, start, end))
  }

  predicate NoActiveIn(rows: seq<Row>, from: int, to: int) {
    forall i :: 0 <= from <= i < to <= |rows| ==> !ActiveRow(rows[i])
  }

  lemma SliceHasActive(rows: seq<Row>)
    requires LatestClosed(rows).Some?
    ensures var (start, end) := LatestClosed(rows).value;
            && start < end < |rows| && ActiveRow(rows[start])
            && Stripped(ReconciledSlice(rows, start, end)) != []
            && ReconciledKey(rows) == Some(Stripped(ReconciledSlice(rows, start, end))[0].at)
            && (NoActiveIn(rows, if start > RECENT_LIMIT then start - RECENT_LIMIT else 0, start)
                ==> ReconciledKey(rows) == Some(rows[start].at))
  {
    hide FirstActive;
    var (start, end) := LatestClosed(rows).value;
    var from := if start > RECENT_LIMIT then start - RECENT_LIMIT else 0;
    assert ActiveRow(rows[start]);
    var slice := ReconciledSlice(rows, start, end);
    assert slice[start - from] == rows[start];
    assert FirstActive(slice) <= start - from;
    forall i | 0 <= i < FirstActive(slice) ensures slice[i] == rows[from + i] {}
    assert slice[FirstActive(slice)] == rows[from + FirstActive(slice)];
  }

  /** Construction adds one row at most, and exactly when no summary of the latest
      closed episode or a younger one is the last row of its event, and the first
      active row of the reconciled slice has no summary; that row's time is the key
      of what it adds. */
  lemma ReconcileExactly(rows: seq<Row>, history: Log<HistoryRow>)
    ensures var (after, result) := Reconcile(rows, history);
            && (result != AlreadyThere <==>
                  && LatestClosed(rows).Some?
                  && !EpisodeAtOrAfter(EventKinds(history.rows), rows[LatestClosed(rows).value.0].at)
                  && !HasEpisode(history.rows, ReconciledKey(rows).value))
            && (result == AlreadyThere ==> after == history)
            && (forall e :: HasEpisode(after.rows, e) <==>
                  HasEpisode(history.rows, e) || (result == Added && Some(e) == ReconciledKey(rows)))
  {
    hide EventKinds, EpisodeAtOrAfter, HasEpisode, FirstActive, Stripped, AddEpisode, ReconciledKey;
    if LatestClosed(rows).Some? {
      var (start, end) := LatestClosed(rows).value;
      SliceHasActive(rows);
      AddedSummary(history, ReconciledSlice(rows, start, end), BlackoutReal);
      UnchangedWhenPresent(history, ReconciledSlice(rows, start, end));
    }
  }

  lemma UnchangedWhenPresent(history: Log<HistoryRow>, records: seq<Row>)
    ensures AddEpisode(history, records, BlackoutReal).1 == AlreadyThere
            ==> AddEpisode(history, records, BlackoutReal).0 == history
  {}

  /** If the append goes through, the latest closed episode is recorded afterwards
      if and only if it was recorded before, or no recorded episode is as young and
      the first active row of the slice carries its key. */
  lemma LatestRecovered(rows: seq<Row>, history: Log<HistoryRow>)
    requires LatestClosed(rows).Some? && NextOk(history.outcomes)
    ensures var at := rows[LatestClosed(rows).value.0].at;
            HasEpisode(Reconcile(rows, history).0.rows, at) <==>
              || HasEpisode(history.rows, at)
              || (!EpisodeAtOrAfter(EventKinds(history.rows), at) && ReconciledKey(rows) == Some(at))
  {
    hide EventKinds, EpisodeAtOrAfter, HasEpisode, ReconciledKey, Stripped;
    ReconcileExactly(rows, history);
    assert Reconcile(rows, history).1 != AppendFailed by {
      hide SummarizeEpisode, LatestClosed;
    }
  }

  /** Constructing the writer again on the same files changes nothing. */
  lemma ConstructTwice(file: Log<Row>, history: Log<HistoryRow>, window: Option<int>)
    requires Construct(file, history, window).1
    ensures var once := Construct(file, history, window).0;
            Construct(once.file, once.history, window) == (once, true)
  {
    hide EventKinds, EpisodeAtOrAfter, HasEpisode, ReconciledKey, RestoredRecent, RunStart, RestoredContextStart,
         ChargeStart, SummarizeEpisode, AddEpisode, LatestClosed;
    WriterPending.RestoreKeepsFile(Blank(file, history, window));
    var (after, result) := Reconcile(file.rows, history);
    ReconcileExactly(file.rows, history);
    ReconcileExactly(file.rows, after);
    assert Reconcile(file.rows, after) == (after, AlreadyThere) by {
      if result == AlreadyThere {
        assert after == history;
      } else {
        SliceHasActive(file.rows);
        assert HasEpisode(after.rows, ReconciledKey(file.rows).value);
      }
    }
    RestoreIgnoresHistory(file, history, after, window);
  }

  lemma RestoreIgnoresHistory(file: Log<Row>, history: Log<HistoryRow>, other: Log<HistoryRow>, window: Option<int>)
    ensures Restore(Blank(file, history, window)).(history := other) == Restore(Blank(file, other, window))
  {
    hide RestoredRecent, RunStart, RestoredContextStart, ChargeStart;
  }

  // ----- what the added summary is a summary of ------------------------------------------

  function SliceStart(start: nat): nat {
    if start > RECENT_LIMIT then start - RECENT_LIMIT else 0
  }

  /** Row f is the first of a run of active rows. */
  predicate StartsRun(rows: seq<Row>, f: nat) {
    f < |rows| && ActiveRow(rows[f]) && (f == 0 || !ActiveRow(rows[f - 1]))
  }

  /** The slice for the latest closed episode begins inside an older run. */
  predicate CutsEpisode(rows: seq<Row>) {
    match LatestClosed(rows)
    case None => false
    case Some((start, _)) =>
      var from := SliceStart(start);
      0 < from < |rows| && ActiveRow(rows[from]) && ActiveRow(rows[from - 1])
  }

  /** Index of the row whose time is the reconciled key. */
  function ReconciledIndex(rows: seq<Row>): nat
    requires LatestClosed(rows).Some?
  {
    var (start, end) := LatestClosed(rows).value;
    SliceStart(start) + FirstActive(ReconciledSlice(rows, start, end))
  }

  lemma FirstActiveOfSlice(rows: seq<Row>, from: nat, start: nat, end: nat)
    requires from <= start < end < |rows| && ActiveRow(rows[start])
    ensures var slice := rows[from..end + 1];
            var n := FirstActive(slice);
            && n <= start - from && ActiveRow(rows[from + n]) && EventStart(slice) == Some(rows[from + n].at)
            && forall i :: from <= i < from + n ==> !ActiveRow(rows[i])
  {
    var slice := rows[from..end + 1];
    SliceRows(rows, from, end + 1);
    assert slice[start - from] == rows[start];
    var n := FirstActive(slice);
    forall i | from <= i < from + n ensures !ActiveRow(rows[i]) {
      assert slice[i - from] == rows[i];
    }
  }

  lemma IndexAt(rows: seq<Row>, start: nat, end: nat)
    requires LatestClosed(rows) == Some((start, end)) && start < end < |rows| && ActiveRow(rows[start])
    ensures var f := ReconciledIndex(rows);
            && f <= start && ActiveRow(rows[f]) && ReconciledKey(rows) == Some(rows[f].at)
            && (StartsRun(rows, f) <==> !CutsEpisode(rows))
  {
    hide LatestClosed, FirstActive, StartsRun, EventStart;
    var from := SliceStart(start);
    FirstActiveOfSlice(rows, from, start, end);
    CutDecides(rows, from, FirstActive(rows[from..end + 1]));
  }

  /** The reconciled key belongs to a row that starts a run of active rows, unless
      the slice begins inside one. */
  lemma IndexStartsRun(rows: seq<Row>)
    requires LatestClosed(rows).Some?
    ensures var f, (start, end) := ReconciledIndex(rows), LatestClosed(rows).value;
            && f <= start < end < |rows| && ActiveRow(rows[f]) && !ActiveRow(rows[end]) && ActiveRow(rows[start])
            && ReconciledKey(rows) == Some(rows[f].at)
            && (StartsRun(rows, f) <==> !CutsEpisode(rows))
  {
    LatestBounds(rows);
    hide LatestClosed, ReconciledIndex, ReconciledKey, StartsRun, CutsEpisode;
    IndexAt(rows, LatestClosed(rows).value.0, LatestClosed(rows).value.1);
  }

  lemma CutDecides(rows: seq<Row>, from: nat, n: nat)
    requires from + n < |rows| && ActiveRow(rows[from + n])
    requires forall i :: from <= i < from + n ==> !ActiveRow(rows[i])
    ensures StartsRun(rows, from + n) <==> !(0 < from && ActiveRow(rows[from]) && ActiveRow(rows[from - 1]))
  {
    assert n > 0 ==> !ActiveRow(rows[from + n - 1]) && !ActiveRow(rows[from]);
  }

  lemma LatestBounds(rows: seq<Row>)
    requires LatestClosed(rows).Some?
    ensures var (start, end) := LatestClosed(rows).value;
            start < end < |rows| && ActiveRow(rows[start]) && !ActiveRow(rows[end])
  {}

  lemma SliceRows(rows: seq<Row>, from: nat, to: nat)
    requires from <= to <= |rows|
    ensures forall i :: 0 <= i < to - from ==> rows[from..to][i] == rows[from + i]
  {}

  /** Reconciliation adds a summary of something that is no run of active rows
      exactly when it adds a summary at all and its slice begins inside a run: all
      of it can be read off the files beforehand. */
  lemma InventedExactly(rows: seq<Row>, history: Log<HistoryRow>)
    ensures Reconcile(rows, history).1 != AlreadyThere && !StartsRun(rows, ReconciledIndex(rows)) <==>
              && CutsEpisode(rows)
              && !EpisodeAtOrAfter(EventKinds(history.rows), rows[LatestClosed(rows).value.0].at)
              && !HasEpisode(history.rows, rows[SliceStart(LatestClosed(rows).value.0)].at)
  {
    hide EventKinds, EpisodeAtOrAfter, HasEpisode, Reconcile, FirstActive;
    ReconcileExactly(rows, history);
    if LatestClosed(rows).Some? {
      IndexStartsRun(rows);
      if CutsEpisode(rows) {
        CutIndex(rows);
      }
    }
  }

  lemma CutIndex(rows: seq<Row>)
    requires CutsEpisode(rows)
    ensures ReconciledIndex(rows) == SliceStart(LatestClosed(rows).value.0)
  {
    var (start, end) := LatestClosed(rows).value;
    assert ReconciledSlice(rows, start, end)[0] == rows[SliceStart(start)];
  }

  ghost predicate StrictTimes(rows: seq<Row>) {
    forall i, j :: 0 <= i < j < |rows| ==> rows[i].at < rows[j].at
  }

  /** Some closed episode of the file starts at this time. */
  ghost predicate Happened(rows: seq<Row>, at: int) {
    exists i :: 0 <= i < |ClosedEpisodes(rows)| && EventStart(ClosedEpisodes(rows)[i]) == Some(at)
  }

  lemma HappenedLater(rows: seq<Row>, at: int)
    requires rows != [] && Happened(rows[..|rows| - 1], at)
    ensures Happened(rows, at)
  {
    hide EventStart;
    var before := ClosedEpisodes(rows[..|rows| - 1]);
    var i :| 0 <= i < |before| && EventStart(before[i]) == Some(at);
    assert ClosedEpisodes(rows)[i] == before[i];
  }

  /** A run of active rows that ends is a closed episode. */
  lemma {:induction false} EndedRunHappened(rows: seq<Row>, f: nat, m: nat)
    requires ActiveOrOnline(rows) && StartsRun(rows, f) && f < m < |rows| && !ActiveRow(rows[m])
    ensures Happened(rows, rows[f].at)
  {
    hide EventStart;
    var n := |rows| - 1;
    var front := rows[..n];
    if i :| f < i < n && !ActiveRow(rows[i]) {
      EndedRunHappened(front, f, i);
      HappenedLater(rows, rows[f].at);
    } else {
      assert m == n;
      OpenTailIsRun(front);
      RunReachesBack(front, f, n);
      assert front[f..][0] == rows[f];
      StartOfTail(front[f..], rows[n]);
      var closed := ClosedEpisodes(rows);
      assert closed[|closed| - 1] == front[f..] + [rows[n]];
    }
  }

  lemma {:induction false} RunReachesBack(rows: seq<Row>, f: nat, end: nat)
    requires StartsRun(rows, f) && f < end <= |rows| && forall i :: f <= i < end ==> ActiveRow(rows[i])
    ensures RunStart(rows, end) == f
    decreases end
  {
    if f < end - 1 {
      RunReachesBack(rows, f, end - 1);
    }
  }

  lemma StartOfTail(tail: seq<Row>, terminal: Row)
    requires tail != [] && ActiveRow(tail[0])
    ensures EventStart(tail + [terminal]) == Some(tail[0].at)
  {
    assert (tail + [terminal])[0] == tail[0];
  }

  /** Every closed episode is a run of active rows. */
  lemma {:induction false} HappenedStartsRun(rows: seq<Row>, at: int) returns (f: nat)
    requires ActiveOrOnline(rows) && Happened(rows, at)
    ensures StartsRun(rows, f) && rows[f].at == at
  {
    hide EventStart;
    var n := |rows| - 1;
    var front := rows[..n];
    if Happened(front, at) {
      f := HappenedStartsRun(front, at);
    } else {
      OpenTailIsRun(front);
      f := RunStart(front, n);
      var closed := ClosedEpisodes(rows);
      var i :| 0 <= i < |closed| && EventStart(closed[i]) == Some(at);
      assert i == |closed| - 1 && closed[i] == front[f..] + [rows[n]];
      assert front[f..] != [] && front[f..][0] == front[f];
      StartOfTail(front[f..], rows[n]);
    }
  }

  /** On rows in strict order of time, the reconciled key is the start of no closed
      episode exactly when the slice begins inside one. */
  lemma InventedNeverHappened(rows: seq<Row>)
    requires ActiveOrOnline(rows) && StrictTimes(rows) && LatestClosed(rows).Some?
    ensures !Happened(rows, ReconciledKey(rows).value) <==> CutsEpisode(rows)
  {
    hide LatestClosed, ReconciledKey, ReconciledIndex, ClosedEpisodes, Happened;
    IndexStartsRun(rows);
    var f := ReconciledIndex(rows);
    if Happened(rows, rows[f].at) {
      var g := HappenedStartsRun(rows, rows[f].at);
      SameMoment(rows, f, g);
    }
    if StartsRun(rows, f) {
      EndedRunHappened(rows, f, LatestClosed(rows).value.1);
    }
  }

  lemma SameMoment(rows: seq<Row>, f: nat, g: nat)
    requires StrictTimes(rows) && f < |rows| && g < |rows| && rows[f].at == rows[g].at
    ensures f == g
  {}

  // ----- an uninterrupted learner does not mind -----------------------------------------------

  lemma LastClosedIs(rows: seq<Row>, start: nat, end: nat)
    requires ActiveOrOnline(rows) && LatestClosed(rows) == Some((start, end)) && !ActiveRow(rows[|rows| - 1])
    requires start < end < |rows|
    ensures var closed := ClosedEpisodes(rows);
            closed != [] && closed[|closed| - 1] == rows[start..end + 1]
  {
    hide LatestClosed, ClosedEpisodes, ActiveOrOnline;
    LatestIsLastClosed(rows);
  }

  lemma LastStartUpTo(closed: seq<seq<Row>>, e: seq<Row>, newest: int, at: int)
    requires StartsUpTo(closed, newest) && closed != [] && closed[|closed| - 1] == e && EventStart(e) == Some(at)
    ensures at <= newest
  {
    hide EventStart;
  }

  lemma LatestStartUpTo(rows: seq<Row>, newest: int, start: nat, end: nat)
    requires ActiveOrOnline(rows) && StartsUpTo(ClosedEpisodes(rows), newest)
    requires LatestClosed(rows) == Some((start, end)) && start < end < |rows| && ActiveRow(rows[start])
    requires !ActiveRow(rows[|rows| - 1])
    ensures rows[start].at <= newest
  {
    hide LatestClosed, EventStart, ActiveOrOnline, ClosedEpisodes, StartsUpTo;
    LastClosedIs(rows, start, end);
    ClosedStart(rows, start, end);
    LastStartUpTo(ClosedEpisodes(rows), rows[start..end + 1], newest, rows[start].at);
  }

  lemma KeyUpToNewest(rows: seq<Row>, newest: int)
    requires ActiveOrOnline(rows) && WriterPending.RowsInOrder(rows) && StartsUpTo(ClosedEpisodes(rows), newest)
    requires LatestClosed(rows).Some?
    ensures ReconciledKey(rows).Some? && ReconciledKey(rows).value <= newest
  {
    LastNotActive(rows);
    hide ReconciledKey, ReconciledIndex, LatestClosed, CutsEpisode, StartsUpTo, StartsRun;
    IndexStartsRun(rows);
    LatestStartUpTo(rows, newest, LatestClosed(rows).value.0, LatestClosed(rows).value.1);
    var f, start := ReconciledIndex(rows), LatestClosed(rows).value.0;
    assert f == start || rows[f].at <= rows[start].at;
  }

  lemma LastNotActive(rows: seq<Row>)
    requires LatestClosed(rows).Some?
    ensures rows != [] && !ActiveRow(rows[|rows| - 1])
  {}

  lemma ClosedStart(rows: seq<Row>, start: nat, end: nat)
    requires start < end < |rows| && ActiveRow(rows[start])
    ensures EventStart(rows[start..end + 1]) == Some(rows[start].at)
  {
    assert rows[start..end + 1][0] == rows[start];
  }

  /** Whatever a restart reconciles, a quiet learner whose closed episodes have
      their summaries stays quiet: the new summary is of no closed episode. */
  lemma ReconcileKeepsQuiet(c: Chronicle, rows: seq<Row>)
    requires Quiet(c) && AllSummarised(c.learner.history.rows, c.closed)
    requires c.closed == ClosedEpisodes(rows) && ActiveOrOnline(rows) && WriterPending.RowsInOrder(rows)
    ensures var (after, result) := Reconcile(rows, c.learner.history);
            && Quiet(c.(learner := c.learner.(history := after)))
            && result != AppendFailed && Extends(c.learner.history.rows, after.rows)
  {
    var (after, result) := Reconcile(rows, c.learner.history);
    hide EventKinds, EpisodeAtOrAfter, HasEpisode, ReconciledKey, LatestClosed, EventStart, ClosedEpisodes;
    ReconcileExactly(rows, c.learner.history);
    if result != AlreadyThere {
      KeyUpToNewest(rows, c.newest);
      var row := ReconciledRow(rows, c.learner.history);
      QuietWithSummary(c, row);
    }
  }

  /** The row that reconciliation appends. */
  lemma ReconciledRow(rows: seq<Row>, history: Log<HistoryRow>) returns (row: HistoryRow)
    requires Reconcile(rows, history).1 != AlreadyThere
    ensures row.Episode? && !row.selfTest && Some(row.at) == ReconciledKey(rows) && !HasEpisode(history.rows, row.at)
    ensures Reconcile(rows, history).0 == history.Append(row)
    ensures Reconcile(rows, history).1 == if NextOk(history.outcomes) then Added else AppendFailed
  {
    hide EventKinds, EpisodeAtOrAfter, HasEpisode, SummarizeEpisode, FirstActive;
    var (start, end) := LatestClosed(rows).value;
    SliceHasActive(rows);
    SummaryKey(ReconciledSlice(rows, start, end), BlackoutReal);
    row := SummarizeEpisode(ReconciledSlice(rows, start, end), BlackoutReal).value;
  }

  lemma QuietWithSummary(c: Chronicle, row: HistoryRow)
    requires Quiet(c) && AllSummarised(c.learner.history.rows, c.closed)
    requires row.Episode? && row.at <= c.newest && !HasEpisode(c.learner.history.rows, row.at)
    ensures Quiet(c.(learner := c.learner.(history := c.learner.history.Append(row))))
  {
    hide EventKinds, Updates, LastUpdate, ObservedRows, NewerThan, Propose, ExtractIr, EventStart, HasEpisode;
    var rows := c.learner.history.rows;
    AppendedRow(rows, row);
    AppendedPending(rows, row);
    forall i | 0 <= i < |c.closed| ensures DoneBy(EventKinds(rows + [row]), c.closed[i]) {
      assert DoneBy(EventKinds(rows), c.closed[i]) && Summarised(rows, c.closed[i]);
    }
  }
}
