/** What the writer remembers of quiet online time, stated without its code: the
    recent observations are the longest one-second run of at most 31, the pending
    ones are those inside the window, and the context of an episode is both
    together, one observation per moment, in order of time. */
module WriterMemory {
  import opened Types
  import opened Sorting
  import opened Storage
  import opened History
  import opened Segments
  import opened FeedbackQuiet
  import opened Writer

  // ----- recent observations ------------------------------------------------------------

  /** The observations remembered one after another, starting with none. */
  function RememberedAll(os: seq<Observation>): seq<Observation> {
    if os == [] then []
    else
      var n := |os| - 1;
      Remembered(RememberedAll(os[..n]), os[n])
  }

  predicate OneSecondApart(os: seq<Observation>, m: nat)
    requires 0 < m < |os|
  {
    os[m].micros - os[m - 1].micros == MICROS
  }

  /** os[m..] is the longest run of at most 31 observations at the end of os with
      exactly one second between neighbours. */
  ghost predicate LongestRun(os: seq<Observation>, m: nat) {
    && m <= |os| && |os| - m <= RECENT_LIMIT
    && (os != [] ==> m < |os|)
    && (forall i :: m < i < |os| ==> OneSecondApart(os, i))
    && (0 < m ==> |os| - m == RECENT_LIMIT || !OneSecondApart(os, m))
  }

  /** Where the run starts after one more observation. */
  function RunWithLast(os: seq<Observation>, k: nat): (m: nat)
    requires os != [] && k < |os|
    ensures k <= m < |os|
  {
    var n := |os| - 1;
    if n > 0 && !OneSecondApart(os, n) then n
    else if n - k == RECENT_LIMIT then k + 1
    else k
  }

  lemma LongestRunGrows(os: seq<Observation>, k: nat)
    requires os != [] && LongestRun(os[..|os| - 1], k)
    ensures LongestRun(os, RunWithLast(os, k))
  {
    var n := |os| - 1;
    var m := RunWithLast(os, k);
    forall i | m < i < |os| ensures OneSecondApart(os, i) {
      if i < n {
        assert OneSecondApart(os[..n], i);
      }
    }
    if 0 < m && m == k && m < n {
      assert n - m == RECENT_LIMIT || !OneSecondApart(os[..n], m);
    }
  }

  lemma RememberedLast(os: seq<Observation>, k: nat)
    requires os != [] && LongestRun(os[..|os| - 1], k)
    ensures Remembered(os[..|os| - 1][k..], os[|os| - 1]) == os[RunWithLast(os, k)..]
  {
    var n := |os| - 1;
    var recent := os[..n][k..];
    assert recent + [os[n]] == os[k..];
    assert n > 0 ==> recent != [] && recent[|recent| - 1] == os[n - 1];
  }

  /** The deque of recent observations is the longest one-second run. */
  lemma {:induction false} RecentIsLongestRun(os: seq<Observation>) returns (m: nat)
    ensures LongestRun(os, m) && RememberedAll(os) == os[m..]
  {
    if os == [] {
      m := 0;
    } else {
      hide LongestRun, Remembered, RunWithLast;
      var k := RecentIsLongestRun(os[..|os| - 1]);
      LongestRunGrows(os, k);
      RememberedLast(os, k);
      m := RunWithLast(os, k);
    }
  }

  // ----- what a restart restores ---------------------------------------------------------------

  lemma {:induction false} RestoredEndsWithLast(recent: seq<Observation>, rows: seq<Row>)
    requires rows != [] && OnlineRow(rows[|rows| - 1])
    ensures var after := RecentAfter(recent, rows);
            after != [] && after[|after| - 1] == ObservationFromRow(rows[|rows| - 1])
    decreases |rows|
  {
    if |rows| > 1 {
      var next := if OnlineRow(rows[0]) then Remembered(recent, ObservationFromRow(rows[0])) else [];
      RestoredEndsWithLast(next, rows[1..]);
    } else {
      assert RecentAfter(recent, rows) == Remembered(recent, ObservationFromRow(rows[0])) by {
        assert rows[1..] == [];
      }
    }
  }

  function Observations(rows: seq<Row>): (os: seq<Observation>)
    ensures |os| == |rows|
  {
    seq(|rows|, i requires 0 <= i < |rows| => ObservationFromRow(rows[i]))
  }

  lemma {:induction false} RecentByLast(recent: seq<Observation>, rows: seq<Row>)
    requires rows != []
    ensures RecentAfter(recent, rows) ==
            if OnlineRow(rows[|rows| - 1])
            then Remembered(RecentAfter(recent, rows[..|rows| - 1]), ObservationFromRow(rows[|rows| - 1]))
            else []
    decreases |rows|
  {
    hide Remembered;
    if |rows| == 1 {
      assert rows[1..] == [] && rows[..0] == [];
    } else {
      var next := if OnlineRow(rows[0]) then Remembered(recent, ObservationFromRow(rows[0])) else [];
      RecentByLast(next, rows[1..]);
      assert rows[1..][..|rows| - 2] == rows[..|rows| - 1][1..];
    }
  }

  lemma RememberOneMore(seen: seq<Observation>, o: Observation)
    ensures RememberedAll(seen + [o]) == Remembered(RememberedAll(seen), o)
  {
    assert (seen + [o])[..|seen|] == seen;
  }

  lemma ObservationsLast(rows: seq<Row>, k: nat)
    requires k < |rows|
    ensures var n := |rows| - 1;
            Observations(rows[k..]) == Observations(rows[..n][k..]) + [ObservationFromRow(rows[n])]
  {
    hide ObservationFromRow;
    var n := |rows| - 1;
    assert rows[k..] == rows[..n][k..] + [rows[n]];
  }

  /** The online rows at the end of the file, remembered one after another. */
  lemma {:induction false} RecentOfTrailing(rows: seq<Row>) returns (k: nat)
    ensures k <= |rows| && (forall i :: k <= i < |rows| ==> OnlineRow(rows[i]))
    ensures k > 0 ==> !OnlineRow(rows[k - 1])
    ensures RecentAfter([], rows) == RememberedAll(Observations(rows[k..]))
  {
    hide RecentAfter, Remembered, RememberedAll, Observations, ObservationFromRow, OnlineRow;
    if rows == [] {
      k := 0;
      NothingRemembered(rows);
    } else {
      var n := |rows| - 1;
      RecentByLast([], rows);
      if OnlineRow(rows[n]) {
        k := RecentOfTrailing(rows[..n]);
        ObservationsLast(rows, k);
        RememberOneMore(Observations(rows[..n][k..]), ObservationFromRow(rows[n]));
      } else {
        k := n + 1;
        NothingRemembered(rows);
      }
    }
  }

  lemma NothingRemembered(rows: seq<Row>)
    ensures RecentAfter([], []) == [] == RememberedAll(Observations(rows[|rows|..]))
  {}

  /** rows[from..] is the longest run of at most 31 online rows at the end with one
      second between neighbours. */
  ghost predicate LongestOnlineRun(rows: seq<Row>, from: nat) {
    && from <= |rows| && |rows| - from <= RECENT_LIMIT
    && (forall i :: from <= i < |rows| ==> OnlineRow(rows[i]))
    && (forall i :: from < i < |rows| ==> rows[i].at == rows[i - 1].at + 1)
    && (0 < from < |rows| ==>
          |rows| - from == RECENT_LIMIT || !OnlineRow(rows[from - 1]) || rows[from].at != rows[from - 1].at + 1)
    && (from == |rows| ==> rows == [] || !OnlineRow(rows[|rows| - 1]))
  }

  lemma SecondsApart(rows: seq<Row>, k: nat, i: nat)
    requires k + i < |rows| && 0 < i
    ensures OneSecondApart(Observations(rows[k..]), i) <==> rows[k + i].at == rows[k + i - 1].at + 1
  {}

  lemma RunOfRows(rows: seq<Row>, k: nat, m: nat)
    requires k <= |rows| && (forall i :: k <= i < |rows| ==> OnlineRow(rows[i])) && (k > 0 ==> !OnlineRow(rows[k - 1]))
    requires LongestRun(Observations(rows[k..]), m)
    ensures LongestOnlineRun(rows, k + m) && Observations(rows[k..])[m..] == Observations(rows[k + m..])
  {
    hide OnlineRow, OneSecondApart, ObservationFromRow;
    var os := Observations(rows[k..]);
    forall i | k + m < i < |rows| ensures rows[i].at == rows[i - 1].at + 1 {
      SecondsApart(rows, k, i - k);
      assert OneSecondApart(os, i - k);
    }
    if 0 < m && k + m < |rows| {
      SecondsApart(rows, k, m);
    }
  }

  lemma RecentExactly(rows: seq<Row>) returns (from: nat)
    ensures LongestOnlineRun(rows, from) && RecentAfter([], rows) == Observations(rows[from..])
  {
    hide RecentAfter, RememberedAll, LongestRun, LongestOnlineRun, Observations;
    var k := RecentOfTrailing(rows);
    var m := RecentIsLongestRun(Observations(rows[k..]));
    RunOfRows(rows, k, m);
    from := k + m;
  }

  /** A restart remembers the longest run of at most 31 online rows at the end of the
      file with exactly one second between neighbours. */
  lemma RestoredRecentExactly(rows: seq<Row>) returns (from: nat)
    ensures LongestOnlineRun(rows, from) && RestoredRecent(rows) == Observations(rows[from..])
  {
    hide RecentAfter, Observations, OnlineRow;
    var cut := if |rows| > RECENT_LIMIT then |rows| - RECENT_LIMIT else 0;
    var last := rows[cut..];
    var m := RecentExactly(last);
    from := cut + m;
    assert last[m..] == rows[from..];
    forall i | from <= i < |rows| ensures OnlineRow(rows[i]) {
      assert rows[i] == last[i - cut];
    }
    forall i | from < i < |rows| ensures rows[i].at == rows[i - 1].at + 1 {
      assert last[i - cut].at == last[i - cut - 1].at + 1;
    }
  }

  ghost predicate ChargeFrom(rows: seq<Row>, start: nat) {
    && start < |rows|
    && (forall i :: start <= i < |rows| ==> ChargingStatus(rows[i].status))
    && (start > 0 ==> !ChargingStatus(rows[start - 1].status))
  }

  lemma {:induction false} ChargeStartMeaning(rows: seq<Row>, from: nat)
    requires from < |rows| && forall i :: from <= i < |rows| ==> ChargingStatus(rows[i].status)
    ensures ChargeFrom(rows, ChargeStart(rows, from))
  {
    if from > 0 && ChargingStatus(rows[from - 1].status) {
      ChargeStartMeaning(rows, from - 1);
    }
  }

  lemma RestoredLast(rows: seq<Row>)
    requires rows != [] && OnlineRow(rows[|rows| - 1])
    ensures var recent := RestoredRecent(rows);
            recent != [] && recent[|recent| - 1] == ObservationFromRow(rows[|rows| - 1])
  {
    hide RecentAfter;
    RestoredEndsWithLast([], if |rows| > RECENT_LIMIT then rows[|rows| - RECENT_LIMIT..] else rows);
  }

  /** A restart after a row that is online and not active resumes charging exactly
      when that row reports a charge below full, with the first row of the
      uninterrupted charge at the end of the file. */
  lemma ChargeResumed(file: Log<Row>, history: Log<HistoryRow>, window: Option<int>)
    requires file.rows != []
    requires var last := file.rows[|file.rows| - 1]; OnlineRow(last) && !ActiveRow(last)
    ensures var s, last := Restore(Blank(file, history, window)), file.rows[|file.rows| - 1];
            && !s.active && s.postFullUntil.None?
            && (s.recharging <==> ChargingStatus(last.status) && last.batteryPct.Some? && last.batteryPct.value < 100.0)
            && (s.rechargeStart.Some? <==> s.recharging)
            && (s.recharging ==> exists start: nat ::
                  ChargeFrom(file.rows, start) && s.rechargeStart == Some(ObservationFromRow(file.rows[start])))
  {
    hide RestoredRecent, RunStart, RestoredContextStart, ChargeStart, ChargeFrom;
    var rows := file.rows;
    RestoredLast(rows);
    var s := Restore(Blank(file, history, window));
    assert s == RestoreOnlineTail(Blank(file, history, window), rows).(kind := BlackoutReal);
    if ChargingStatus(rows[|rows| - 1].status) {
      ChargeStartMeaning(rows, |rows| - 1);
    }
  }

  /** The context restored with an open episode is as long as online rows directly
      before it go, but at most five. */
  lemma {:induction false} RestoredContextExactly(rows: seq<Row>, activeStart: nat, from: nat)
    requires from <= activeStart <= |rows| && activeStart - from <= RESTORED_CONTEXT
    ensures var start := RestoredContextStart(rows, activeStart, from);
            && start <= from && activeStart - start <= RESTORED_CONTEXT
            && (forall i :: start <= i < from ==> OnlineRow(rows[i]))
            && (start > 0 ==> activeStart - start == RESTORED_CONTEXT || !OnlineRow(rows[start - 1]))
  {
    if from > 0 && activeStart - from < RESTORED_CONTEXT && OnlineRow(rows[from - 1]) {
      RestoredContextExactly(rows, activeStart, from - 1);
    }
  }

  /** A writer rebuilt on an open episode holds it with that context, remembers its
      last observations one second apart, and takes it for a real blackout. */
  lemma RestoredEpisodeExactly(file: Log<Row>, history: Log<HistoryRow>, window: Option<int>)
    returns (from: nat, start: nat, m: nat)
    requires file.rows != [] && ActiveRow(file.rows[|file.rows| - 1])
    ensures from <= start < |file.rows| && start - from <= RESTORED_CONTEXT
    ensures forall i :: start <= i < |file.rows| ==> ActiveRow(file.rows[i])
    ensures start > 0 ==> !ActiveRow(file.rows[start - 1])
    ensures forall i :: from <= i < start ==> OnlineRow(file.rows[i])
    ensures from > 0 ==> start - from == RESTORED_CONTEXT || !OnlineRow(file.rows[from - 1])
    ensures var s := Restore(Blank(file, history, window));
            && s.active && s.records == file.rows[from..] && s.kind == BlackoutReal
            && s.silent == [] && !s.recharging && s.postFullUntil.None?
            && LongestOnlineRun(file.rows[from..start], m)
            && s.recent == Observations(file.rows[from..start][m..])
  {
    hide RestoredRecent, LongestOnlineRun, RunStart, RestoredContextStart;
    start := RunStart(file.rows, |file.rows|);
    from := RestoredContextStart(file.rows, start, start);
    RestoredContextExactly(file.rows, start, start);
    m := RestoredRecentExactly(file.rows[from..start]);
  }

  // ----- pending observations ---------------------------------------------------------------

  /** Exactly the observations not older than the cutoff are kept, in their order. */
  lemma {:induction false} PendingIsWindow(os: seq<Observation>, cutoff: int)
    ensures forall o :: o in NotBefore(os, cutoff) <==> o in os && o.micros >= cutoff
    ensures forall o :: multiset(NotBefore(os, cutoff))[o] == if o.micros >= cutoff then multiset(os)[o] else 0
  {
    if os != [] {
      var n := |os| - 1;
      assert os == os[..n] + [os[n]];
      PendingIsWindow(os[..n], cutoff);
    }
  }

  /** An online observation in silent mode is pending afterwards, together with the
      earlier pending ones that are at most a window older than it. */
  lemma SilentKeepsWindow(s: WriterState, o: Observation)
    requires OnlineStatus(o.status) && s.window.Some? && s.window.value >= 0
    ensures var after := Remember(s, o, true);
            && o in after.silent
            && forall p :: p in after.silent <==> p == o || (p in s.silent && p.micros >= o.micros - s.window.value)
  {
    hide Remembered;
    PendingIsWindow(s.silent + [o], o.micros - s.window.value);
  }

  // ----- the context of an episode --------------------------------------------------------------

  ghost predicate DistinctTimes(os: seq<Observation>) {
    forall i, j :: 0 <= i < j < |os| ==> os[i].micros != os[j].micros
  }

  /** The last observation of os at time t. */
  function LatestAt(os: seq<Observation>, t: int): (latest: Option<Observation>)
    ensures latest.Some? ==> latest.value in os && latest.value.micros == t
    ensures latest.None? ==> forall o :: o in os ==> o.micros != t
  {
    if os == [] then None
    else
      var n := |os| - 1;
      if os[n].micros == t then Some(os[n])
      else
        assert os == os[..n] + [os[n]];
        LatestAt(os[..n], t)
  }

  lemma {:induction false} PutMeaning(dict: seq<Observation>, o: Observation)
    requires DistinctTimes(dict)
    ensures DistinctTimes(Put(dict, o))
    ensures forall p :: p in Put(dict, o) <==> p == o || (p in dict && p.micros != o.micros)
  {
    if dict != [] {
      assert dict == [dict[0]] + dict[1..];
      var rest := dict[1..];
      if dict[0].micros != o.micros {
        PutMeaning(rest, o);
        var put := Put(dict, o);
        assert put == [dict[0]] + Put(rest, o);
        forall j | 0 < j < |put| ensures put[j].micros != dict[0].micros {
          assert put[j] in Put(rest, o);
          if put[j] != o {
            var i :| 0 <= i < |rest| && rest[i] == put[j];
            assert dict[i + 1] == put[j];
          }
        }
      } else {
        forall p | p in rest ensures p.micros != o.micros {
          var i :| 0 <= i < |rest| && rest[i] == p;
          assert dict[i + 1] == p;
        }
      }
    }
  }

  /** A dict updated with os holds the last value of os for every time in os, and
      its own values for all other times. */
  lemma {:induction false} PutAllMeaning(dict: seq<Observation>, os: seq<Observation>)
    requires DistinctTimes(dict)
    ensures DistinctTimes(PutAll(dict, os))
    ensures forall p :: p in PutAll(dict, os) <==>
              LatestAt(os, p.micros) == Some(p) || (LatestAt(os, p.micros).None? && p in dict)
  {
    if os != [] {
      var n := |os| - 1;
      PutAllMeaning(dict, os[..n]);
      PutMeaning(PutAll(dict, os[..n]), os[n]);
    }
  }

  /** The observations the context rows are made of. */
  function ContextObservations(recent: seq<Observation>, silent: seq<Observation>): (os: seq<Observation>)
    ensures ContextRows(recent, silent) == Samples(os)
  {
    Sort(PutAll(PutAll([], recent), silent), TimeOf)
  }

  /** One observation per moment that is pending or recent, the pending one if
      there is one, strictly in order of time. */
  lemma ContextExactly(recent: seq<Observation>, silent: seq<Observation>)
    ensures var os := ContextObservations(recent, silent);
            && (forall i, j :: 0 <= i < j < |os| ==> os[i].micros < os[j].micros)
            && (forall p :: p in os <==>
                  LatestAt(silent, p.micros) == Some(p)
                  || (LatestAt(silent, p.micros).None? && LatestAt(recent, p.micros) == Some(p)))
  {
    hide PutAll, Sort;
    var dict := PutAll(PutAll([], recent), silent);
    PutAllMeaning([], recent);
    PutAllMeaning(PutAll([], recent), silent);
    var os := ContextObservations(recent, silent);
    SortIsSorting(dict, TimeOf);
    forall p ensures p in os <==> p in dict {
      assert p in os <==> p in multiset(os);
      assert p in dict <==> p in multiset(dict);
    }
    StrictlySorted(dict, os);
  }

  lemma StrictlySorted(dict: seq<Observation>, os: seq<Observation>)
    requires DistinctTimes(dict) && multiset(os) == multiset(dict) && SortedBy(os, TimeOf)
    ensures forall i, j :: 0 <= i < j < |os| ==> os[i].micros < os[j].micros
  {
    forall i, j | 0 <= i < j < |os| ensures os[i].micros < os[j].micros {
      assert TimeOf(os[i]) <= TimeOf(os[j]);
      if os[i].micros == os[j].micros {
        assert os[i] in multiset(dict) && os[j] in multiset(dict);
        var a :| 0 <= a < |dict| && dict[a] == os[i];
        var b :| 0 <= b < |dict| && dict[b] == os[j];
        assert a == b && os[i] == os[j];
        Twice(os, i, j);
        Once(dict, a);
      }
    }
  }

  lemma Twice<T>(s: seq<T>, i: nat, j: nat)
    requires i < j < |s| && s[i] == s[j]
    ensures multiset(s)[s[i]] >= 2
  {
    assert s == s[..j] + [s[j]] + s[j + 1..];
    assert s[i] in s[..j];
  }

  lemma Once(dict: seq<Observation>, a: nat)
    requires DistinctTimes(dict) && a < |dict|
    ensures multiset(dict)[dict[a]] == 1
  {
    assert dict == dict[..a] + [dict[a]] + dict[a + 1..];
    assert forall i :: 0 <= i < a ==> dict[..a][i] != dict[a];
    var rest := dict[a + 1..];
    assert forall i :: 0 <= i < |rest| ==> rest[i] == dict[a + 1 + i] && rest[i].micros != dict[a].micros;
  }

  // ----- the summary of a closed episode --------------------------------------------------------------

  lemma RunOfClosed(tail: seq<Row>, terminal: Row)
    requires !ActiveRow(terminal) && forall i :: 0 <= i < |tail| ==> ActiveRow(tail[i])
    ensures ActiveRun(tail + [terminal]) == |tail|
  {
    var all := tail + [terminal];
    assert all[|tail|] == terminal && forall i :: 0 <= i < |tail| ==> all[i] == tail[i];
  }

  lemma BoundsOfClosed(context: seq<Row>, tail: seq<Row>, terminal: Row)
    requires forall i :: 0 <= i < |context| ==> !ActiveRow(context[i])
    requires tail != [] && !ActiveRow(terminal) && forall i :: 0 <= i < |tail| ==> ActiveRow(tail[i])
    ensures DischargeBounds(context + tail + [terminal]) == Some((|context|, |context| + |tail|))
  {
    hide ActiveRun;
    var records := context + tail + [terminal];
    assert records == context + (tail + [terminal]);
    StartIgnoresContext(context, tail + [terminal]);
    assert FirstActive(tail + [terminal]) == 0;
    hide FirstActive;
    assert records[|context|..] == tail + [terminal];
    RunOfClosed(tail, terminal);
  }

  /** A summary covers the active rows and the terminal row: it is keyed by the
      first active row and lasts until the terminal one. */
  lemma SummaryOfClosed(context: seq<Row>, tail: seq<Row>, terminal: Row, kind: BlackoutKind)
    requires forall i :: 0 <= i < |context| ==> !ActiveRow(context[i])
    requires tail != [] && !ActiveRow(terminal) && forall i :: 0 <= i < |tail| ==> ActiveRow(tail[i])
    ensures var summary := SummarizeEpisode(context + tail + [terminal], kind);
            && summary.Some? && summary.value.Episode?
            && (summary.value.selfTest <==> kind == BlackoutTest)
            && summary.value.at == tail[0].at
            && (terminal.at >= tail[0].at ==> summary.value.at + summary.value.durationS == terminal.at)
            && (terminal.at < tail[0].at ==> summary.value.durationS == 0)
  {
    hide DischargeBounds;
    BoundsOfClosed(context, tail, terminal);
    var records := context + tail + [terminal];
    assert records[|context|] == tail[0] && records[|context| + |tail|] == terminal;
  }
}
