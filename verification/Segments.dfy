/** The three ways the repository cuts a telemetry file into battery episodes:
    the monitor's _closed_episodes, the script's _episodes and the writer's
    _latest_closed_episode. */
module Segments {
  import opened Types

  /** Active rows of the episode that is still open at the end of the file. */
  function OpenTail(rows: seq<Row>): (tail: seq<Row>)
    ensures forall i :: 0 <= i < |tail| ==> ActiveRow(tail[i])
  {
    if rows == [] then []
    else
      var n := |rows| - 1;
      if ActiveRow(rows[n]) then OpenTail(rows[..n]) + [rows[n]]
      else if OnlineRow(rows[n]) then []
      else OpenTail(rows[..n])
  }

  /** Every episode with its terminal online row, in file order. */
  function ClosedEpisodes(rows: seq<Row>): seq<seq<Row>> {
    if rows == [] then []
    else
      var n := |rows| - 1;
      var before := ClosedEpisodes(rows[..n]);
      var tail := OpenTail(rows[..n]);
      if !ActiveRow(rows[n]) && OnlineRow(rows[n]) && tail != [] then before + [tail + [rows[n]]] else before
  }

  /** monitor._closed_episodes. */
  method FindClosedEpisodes(records: seq<Row>) returns (completed: seq<seq<Row>>)
    ensures completed == ClosedEpisodes(records)
  {
    completed := [];
    var active: Option<seq<Row>> := None;
    for i := 0 to |records|
      invariant completed == ClosedEpisodes(records[..i])
      invariant if active.None? then OpenTail(records[..i]) == []
                else active.value == OpenTail(records[..i]) != []
    {
      assert records[..i + 1][..i] == records[..i];
      if ActiveRow(records[i]) {
        active := Some((if active.Some? then active.value else []) + [records[i]]);
      } else if active.Some? && OnlineRow(records[i]) {
        completed := completed + [active.value + [records[i]]];
        active := None;
      }
    }
    assert records[..|records|] == records;
  }

  // ----- the report script --------------------------------------------------------

  datatype Period = Period(start: int, end: int)

  /** One reported blackout: loss of mains and restoration, if observed. */
  datatype Blackout = Blackout(loss: int, restoration: Option<int>)

  predicate Reported(loss: int, period: Period, selfTests: set<int>) {
    loss !in selfTests && period.start <= loss < period.end
  }

  function ReportClosed(episodes: seq<seq<Row>>, period: Period, selfTests: set<int>): seq<Blackout>
    requires forall i :: 0 <= i < |episodes| ==> episodes[i] != []
  {
    if episodes == [] then []
    else
      var n := |episodes| - 1;
      var e := episodes[n];
      ReportClosed(episodes[..n], period, selfTests)
      + if Reported(e[0].at, period, selfTests) then [Blackout(e[0].at, Some(e[|e| - 1].at))] else []
  }

  function ReportOpen(tail: seq<Row>, period: Period, selfTests: set<int>): seq<Blackout> {
    if tail != [] && Reported(tail[0].at, period, selfTests) then [Blackout(tail[0].at, None)] else []
  }

  lemma {:induction false} EpisodesNonEmpty(rows: seq<Row>)
    ensures forall i :: 0 <= i < |ClosedEpisodes(rows)| ==> |ClosedEpisodes(rows)[i]| >= 2
  {
    if rows != [] {
      EpisodesNonEmpty(rows[..|rows| - 1]);
    }
  }

  /** blackout-history._episodes: what it prints is exactly the closed episodes
      of the file, plus the open one, whose start is in the period and was not
      recorded as a self-test. */
  method FindBlackouts(records: seq<Row>, period: Period, selfTests: set<int>) returns (found: seq<Blackout>)
    ensures forall i :: 0 <= i < |ClosedEpisodes(records)| ==> ClosedEpisodes(records)[i] != []
    ensures found == ReportClosed(ClosedEpisodes(records), period, selfTests)
                     + ReportOpen(OpenTail(records), period, selfTests)
  {
    EpisodesNonEmpty(records);
    found := [];
    var active: Option<int> := None;
    for i := 0 to |records|
      invariant forall m :: 0 <= m < |ClosedEpisodes(records[..i])| ==> ClosedEpisodes(records[..i])[m] != []
      invariant found == ReportClosed(ClosedEpisodes(records[..i]), period, selfTests)
      invariant active == if OpenTail(records[..i]) == [] then None else Some(OpenTail(records[..i])[0].at)
    {
      ghost var before := records[..i];
      assert records[..i + 1][..i] == before;
      EpisodesNonEmpty(records[..i + 1]);
      if ActiveRow(records[i]) {
        active := if active.Some? then active else Some(records[i].at);
      } else if active.Some? && OnlineRow(records[i]) {
        if active.value !in selfTests {
          if period.start <= active.value < period.end {
            found := found + [Blackout(active.value, Some(records[i].at))];
          }
        }
        ghost var closed := ClosedEpisodes(records[..i + 1]);
        assert closed[..|closed| - 1] == ClosedEpisodes(before);
        active := None;
      }
    }
    assert records[..|records|] == records;
    if active.Some? && period.start <= active.value < period.end {
      if active.value !in selfTests {
        found := found + [Blackout(active.value, None)];
      }
    }
  }

  /** Reported are exactly the closed episodes that start in the period and are not
      self-tests, each with its start and its terminal row. */
  lemma {:induction false} ReportExactly(episodes: seq<seq<Row>>, period: Period, selfTests: set<int>, b: Blackout)
    requires forall i :: 0 <= i < |episodes| ==> episodes[i] != []
    ensures b in ReportClosed(episodes, period, selfTests) <==>
              exists i :: 0 <= i < |episodes|
                  && b == Blackout(episodes[i][0].at, Some(episodes[i][|episodes[i]| - 1].at))
                          && b.loss !in selfTests && period.start <= b.loss < period.end
  {
    if episodes != [] {
      var n := |episodes| - 1;
      ReportExactly(episodes[..n], period, selfTests, b);
      assert forall i :: 0 <= i < n ==> episodes[..n][i] == episodes[i];
    }
  }

  // ----- every active row is in one episode -----------------------------------------

  function ActiveRows(rows: seq<Row>): seq<Row> {
    if rows == [] then []
    else
      var n := |rows| - 1;
      if ActiveRow(rows[n]) then ActiveRows(rows[..n]) + [rows[n]] else ActiveRows(rows[..n])
  }

  /** The rows of the episodes without their terminal rows. */
  function Inside(episodes: seq<seq<Row>>): seq<Row> {
    if episodes == [] then []
    else
      var e := episodes[|episodes| - 1];
      Inside(episodes[..|episodes| - 1]) + if e == [] then [] else e[..|e| - 1]
  }

  /** The closed episodes and the open one hold the active rows of the file, each
      once and in file order. */
  lemma {:induction false} EpisodesCoverActive(rows: seq<Row>)
    ensures ActiveRows(rows) == Inside(ClosedEpisodes(rows)) + OpenTail(rows)
  {
    hide ActiveRow, OnlineRow, Inside;
    if rows == [] {
      NothingInside();
    } else {
      var n := |rows| - 1;
      EpisodesCoverActive(rows[..n]);
      var before, tail := ClosedEpisodes(rows[..n]), OpenTail(rows[..n]);
      OneMoreInside(before, tail, rows[n]);
      assert Inside(before) + tail + [rows[n]] == Inside(before) + (tail + [rows[n]]);
      assert Inside(before) + tail + [] == Inside(before) + tail;
    }
  }

  lemma NothingInside()
    ensures Inside([]) == []
  {}

  lemma OneMoreInside(episodes: seq<seq<Row>>, tail: seq<Row>, terminal: Row)
    ensures Inside(episodes + [tail + [terminal]]) == Inside(episodes) + tail
  {
    var e, more := tail + [terminal], episodes + [tail + [terminal]];
    assert more[..|more| - 1] == episodes && more[|more| - 1] == e && e[..|e| - 1] == tail;
  }

  // ----- the latest closed episode -------------------------------------------------

  /** Start of the maximal active run that ends just before `end`. */
  function RunStart(rows: seq<Row>, end: nat): (start: nat)
    requires end <= |rows|
    ensures start <= end
    ensures forall i :: start <= i < end ==> ActiveRow(rows[i])
    ensures 0 < start ==> start == end || !ActiveRow(rows[start - 1])
    ensures start == end && 0 < end ==> !ActiveRow(rows[end - 1])
  {
    if end > 0 && ActiveRow(rows[end - 1]) then RunStart(rows, end - 1) else end
  }

  /** One past the last active row, or 0. */
  function LastActiveEnd(rows: seq<Row>): (end: nat)
    ensures end <= |rows|
    ensures 0 < end ==> ActiveRow(rows[end - 1])
    ensures forall i :: end <= i < |rows| ==> !ActiveRow(rows[i])
  {
    if rows == [] then 0
    else
      var n := |rows| - 1;
      if ActiveRow(rows[n]) then |rows| else LastActiveEnd(rows[..n])
  }

  /** telemetry_jsonl._latest_closed_episode: first active row and the row after
      the run, if the file goes on after its last active row. */
  function LatestClosed(rows: seq<Row>): Option<(nat, nat)> {
    var end := LastActiveEnd(rows);
    if end == 0 || end == |rows| then None else Some((RunStart(rows, end), end))
  }

  method FindLatestClosedEpisode(records: seq<Row>) returns (bounds: Option<(nat, nat)>)
    ensures bounds == LatestClosed(records)
  {
    var index := |records|;
    assert records[..index] == records;
    while index > 0 && !ActiveRow(records[index - 1])
      invariant 0 <= index <= |records|
      invariant LastActiveEnd(records) == LastActiveEnd(records[..index])
    {
      assert records[..index][..index - 1] == records[..index - 1];
      index := index - 1;
    }
    if index == 0 {
      return None;
    }
    var start := index - 1;
    assert RunStart(records, index) == RunStart(records, index - 1);
    while start > 0 && ActiveRow(records[start - 1])
      invariant 0 <= start < index
      invariant RunStart(records, index) == RunStart(records, start)
    {
      start := start - 1;
    }
    // The forward scan of the source stops at once: the row after the last
    // active row is not active.
    bounds := if index < |records| then Some((start, index)) else None;
  }

  /** Only active and online rows, as the writer produces them. */
  ghost predicate ActiveOrOnline(rows: seq<Row>) {
    forall i :: 0 <= i < |rows| ==> ActiveRow(rows[i]) || OnlineRow(rows[i])
  }

  lemma {:induction false} OpenTailIsRun(rows: seq<Row>)
    requires ActiveOrOnline(rows)
    ensures OpenTail(rows) == rows[RunStart(rows, |rows|)..]
  {
    if rows != [] {
      var n := |rows| - 1;
      if ActiveRow(rows[n]) {
        OpenTailIsRun(rows[..n]);
        RunStartOfPrefix(rows, n, n);
        var start := RunStart(rows, n);
        assert rows[start..] == rows[..n][start..] + [rows[n]];
      } else {
        assert RunStart(rows, |rows|) == |rows| && OnlineRow(rows[n]);
      }
    }
  }

  lemma {:induction false} RunStartOfPrefix(rows: seq<Row>, n: nat, end: nat)
    requires end <= n <= |rows|
    ensures RunStart(rows[..n], end) == RunStart(rows, end)
    decreases end
  {
    if end > 0 {
      RunStartOfPrefix(rows, n, end - 1);
    }
  }

  /** On a file of active and online rows whose last row is not active, the latest
      closed episode is the last one _closed_episodes finds; there is none in the
      one sense exactly when there is none in the other. */
  lemma {:induction false} LatestIsLastClosed(rows: seq<Row>)
    requires ActiveOrOnline(rows)
    requires rows == [] || !ActiveRow(rows[|rows| - 1])
    ensures LatestClosed(rows).None? <==> ClosedEpisodes(rows) == []
    ensures LatestClosed(rows).Some? ==>
              var (start, end) := LatestClosed(rows).value;
              var closed := ClosedEpisodes(rows);
              start < end < |rows| && closed[|closed| - 1] == rows[start..end + 1]
  {
    if rows != [] {
      var n := |rows| - 1;
      OpenTailIsRun(rows[..n]);
      if n > 0 && ActiveRow(rows[n - 1]) {
        LatestJustClosed(rows);
      } else {
        LatestIsLastClosed(rows[..n]);
        LatestOfLonger(rows);
      }
    }
  }

  lemma LatestJustClosed(rows: seq<Row>)
    requires ActiveOrOnline(rows) && |rows| > 1
    requires !ActiveRow(rows[|rows| - 1]) && ActiveRow(rows[|rows| - 2])
    ensures LatestClosed(rows).Some?
    ensures var (start, end) := LatestClosed(rows).value;
            var closed := ClosedEpisodes(rows);
            start < end < |rows| && closed != [] && closed[|closed| - 1] == rows[start..end + 1]
  {
    hide ActiveRow, OnlineRow, LastActiveEnd, RunStart, OpenTail;
    var n := |rows| - 1;
    OpenTailIsRun(rows[..n]);
    RunStartOfPrefix(rows, n, n);
    LastRowClosed(rows);
    var start := RunStart(rows, n);
    assert rows[start..n + 1] == rows[..n][start..] + [rows[n]];
  }

  lemma LastRowClosed(rows: seq<Row>)
    requires |rows| > 1 && !ActiveRow(rows[|rows| - 1]) && ActiveRow(rows[|rows| - 2])
    ensures LastActiveEnd(rows) == |rows| - 1 && RunStart(rows, |rows| - 1) < |rows| - 1
  {
    hide ActiveRow;
    var n := |rows| - 1;
    assert rows[..n][n - 1] == rows[n - 1];
    assert LastActiveEnd(rows) == LastActiveEnd(rows[..n]);
  }

  lemma LatestOfLonger(rows: seq<Row>)
    requires rows != [] && !ActiveRow(rows[|rows| - 1])
    requires |rows| > 1 ==> !ActiveRow(rows[|rows| - 2])
    ensures LatestClosed(rows) == LatestClosed(rows[..|rows| - 1])
    ensures LatestClosed(rows).Some? ==>
              var (start, end) := LatestClosed(rows).value;
              start < end < |rows| - 1 && rows[..|rows| - 1][start..end + 1] == rows[start..end + 1]
  {
    var n := |rows| - 1;
    var end := LastActiveEnd(rows[..n]);
    assert LastActiveEnd(rows) == end;
    assert n > 0 ==> rows[..n][n - 1] == rows[n - 1];
    assert end < n || n == 0;
    if end > 0 {
      RunStartOfPrefix(rows, n, end);
      assert ActiveRow(rows[..n][end - 1]);
    }
  }

  /** With an open tail there is no latest closed episode, whatever came before. */
  lemma OpenTailHidesClosed(rows: seq<Row>)
    requires rows != [] && ActiveRow(rows[|rows| - 1])
    ensures LatestClosed(rows) == None
  {}

  /** Every closed episode is active rows followed by one online row, so its
      event key is the time of its first row. */
  lemma {:induction false} ClosedEpisodeShape(rows: seq<Row>, i: nat)
    requires i < |ClosedEpisodes(rows)|
    ensures var e := ClosedEpisodes(rows)[i];
            && |e| >= 2 && OnlineRow(e[|e| - 1]) && !ActiveRow(e[|e| - 1])
            && forall m :: 0 <= m < |e| - 1 ==> ActiveRow(e[m])
  {
    var n := |rows| - 1;
    if i < |ClosedEpisodes(rows[..n])| {
      ClosedEpisodeShape(rows[..n], i);
    }
  }
}
