/** The telemetry writer (src/adapters/telemetry_jsonl.py): a streaming recorder
    of battery episodes that keeps no row of quiet online time on disk, except
    the window before an episode and the charge and full tail after it. */
module Writer {
  import opened Types
  import opened Sorting
  import opened Storage
  import opened History
  import opened Segments

  const RECENT_LIMIT := 31
  const RESTORED_CONTEXT := 5

  /** Fields of the writer with the two files it owns.  Times are microseconds. */
  datatype WriterState = WriterState(
    file: Log<Row>,
    history: Log<HistoryRow>,
    active: bool,
    records: seq<Row>,
    kind: BlackoutKind,
    completed: Option<seq<Row>>,
    recharging: bool,
    window: Option<int>,
    recent: seq<Observation>,
    silent: seq<Observation>,
    postFullUntil: Option<int>,
    rechargeStart: Option<Observation>)

  /** What write() returned, or that it raised OSError. */
  datatype WriteResult = Written | NotWritten | Raised

  function TimeOf(o: Observation): real { o.micros as real }

  // ----- what the writer remembers --------------------------------------------------

  function NotBefore(os: seq<Observation>, cutoff: int): seq<Observation> {
    if os == [] then []
    else
      var n := |os| - 1;
      if os[n].micros >= cutoff then NotBefore(os[..n], cutoff) + [os[n]] else NotBefore(os[..n], cutoff)
  }

  /** The recent online observations, exactly one second apart. */
  function Remembered(recent: seq<Observation>, o: Observation): seq<Observation> {
    var kept := if recent != [] && o.micros - recent[|recent| - 1].micros != MICROS then [] else recent;
    var all := kept + [o];
    if |all| > RECENT_LIMIT then all[|all| - RECENT_LIMIT..] else all
  }

  function Remember(s: WriterState, o: Observation, pending: bool): WriterState {
    if !OnlineStatus(o.status) then s.(recent := [], silent := [])
    else
      var remembered := s.(recent := Remembered(s.recent, o));
      if pending && s.window.Some?
      then remembered.(silent := NotBefore(s.silent + [o], o.micros - s.window.value))
      else remembered
  }

  /** A dict keyed by time, in insertion order. */
  function Put(dict: seq<Observation>, o: Observation): seq<Observation> {
    if dict == [] then [o]
    else if dict[0].micros == o.micros then [o] + dict[1..]
    else [dict[0]] + Put(dict[1..], o)
  }

  function PutAll(dict: seq<Observation>, os: seq<Observation>): seq<Observation> {
    if os == [] then dict
    else
      var n := |os| - 1;
      Put(PutAll(dict, os[..n]), os[n])
  }

  function ContextRows(recent: seq<Observation>, silent: seq<Observation>): seq<Row> {
    Samples(Sort(PutAll(PutAll([], recent), silent), TimeOf))
  }

  function RemoveFirst(os: seq<Observation>, o: Observation): seq<Observation> {
    if os == [] then []
    else if os[0] == o then os[1..]
    else [os[0]] + RemoveFirst(os[1..], o)
  }

  /** Write the given pending observations one by one; stop at a failed append. */
  function Flush(s: WriterState, sorted: seq<Observation>): (WriterState, bool)
    decreases |sorted|
  {
    if sorted == [] then (s, true)
    else
      var appended := s.(file := s.file.Append(Sample(sorted[0])));
      if !NextOk(s.file.outcomes) then (appended, false)
      else Flush(appended.(silent := RemoveFirst(s.silent, sorted[0])), sorted[1..])
  }

  // ----- writing ----------------------------------------------------------------------

  function Deadline(o: Observation, window: Option<int>): Option<int> {
    if o.batteryPct != Some(100.0) || window.None? then None else Some(o.micros + window.value)
  }

  function ContinueEpisode(s: WriterState, o: Observation): (WriterState, WriteResult) {
    var appended := s.(file := s.file.Append(Sample(o)));
    if !NextOk(s.file.outcomes) then (appended, Raised)
    else (appended.(records := s.records + [Sample(o)]), Written)
  }

  function StartEpisode(s: WriterState, o: Observation, kind: BlackoutKind): (WriterState, WriteResult) {
    var (flushed, ok) := Flush(s, Sort(s.silent, TimeOf));
    if !ok then (flushed, Raised)
    else
      var appended := flushed.(file := flushed.file.Append(Sample(o)));
      if !NextOk(flushed.file.outcomes) then (appended, Raised)
      else (appended.(kind := if kind == BlackoutTest then BlackoutTest else BlackoutReal,
                      active := true, recharging := false,
                      records := ContextRows(s.recent, s.silent) + [Sample(o)],
                      postFullUntil := None),
            Written)
  }

  function CloseEpisode(s: WriterState, o: Observation): (WriterState, WriteResult) {
    var appended := s.(file := s.file.Append(Sample(o)));
    if !NextOk(s.file.outcomes) then (appended, Raised)
    else
      var records := s.records + [Sample(o)];
      var closed := Remember(appended.(active := false, recharging := BelowFull(o),
                                       postFullUntil := Deadline(o, s.window), records := []), o, false);
      var (history, result) := AddEpisode(s.history, records, s.kind);
      if result == AppendFailed then (closed.(history := history), Raised)
      else (closed.(history := history, completed := Some(records), kind := BlackoutReal), Written)
  }

  function Recharge(s: WriterState, o: Observation): (WriterState, WriteResult) {
    var appended := s.(file := s.file.Append(Sample(o)));
    if !NextOk(s.file.outcomes) then (appended, Raised)
    else
      var remembered := Remember(appended, o, false);
      if BelowFull(o) then (remembered.(postFullUntil := None), Written)
      else (remembered.(recharging := false, postFullUntil := Deadline(o, s.window)), Written)
  }

  function WriteOnline(s: WriterState, o: Observation): (WriterState, WriteResult) {
    if s.active then CloseEpisode(s, o)
    else if s.recharging then Recharge(s, o)
    else if s.postFullUntil.Some? && BelowFull(o)
    then Recharge(s.(recharging := true, postFullUntil := None), o)
    else if s.postFullUntil.Some? && o.micros <= s.postFullUntil.value then
      var appended := s.(file := s.file.Append(Sample(o)));
      if !NextOk(s.file.outcomes) then (appended, Raised) else (Remember(appended, o, false), Written)
    else (Remember(s.(postFullUntil := None), o, true), NotWritten)
  }

  function Write(s: WriterState, o: Observation, kind: BlackoutKind): (WriterState, WriteResult) {
    if (kind == BlackoutReal || kind == BlackoutTest) && ActiveStatus(o.status) then
      if s.active then ContinueEpisode(s, o) else StartEpisode(s, o, kind)
    else if kind == Online then WriteOnline(s, o)
    else (s, NotWritten)
  }

  /** monitor._write_telemetry: the completed episode is taken unless write raised. */
  function WriteAndTake(s: WriterState, o: Observation, kind: BlackoutKind): (WriterState, Option<seq<Row>>) {
    var (next, result) := Write(s, o, kind);
    if result == Raised then (next, None) else (next.(completed := None), next.completed)
  }

  // ----- construction -------------------------------------------------------------------

  function Blank(file: Log<Row>, history: Log<HistoryRow>, window: Option<int>): WriterState {
    WriterState(file, history, false, [], BlackoutReal, None, false, window, [], [], None, None)
  }

  function RecentAfter(recent: seq<Observation>, rows: seq<Row>): seq<Observation>
    decreases |rows|
  {
    if rows == [] then recent
    else RecentAfter(if OnlineRow(rows[0]) then Remembered(recent, ObservationFromRow(rows[0])) else [], rows[1..])
  }

  function RestoredRecent(rows: seq<Row>): seq<Observation> {
    RecentAfter([], if |rows| > RECENT_LIMIT then rows[|rows| - RECENT_LIMIT..] else rows)
  }

  /** Up to five online rows before the active run. */
  function RestoredContextStart(rows: seq<Row>, activeStart: nat, from: nat): (start: nat)
    requires from <= activeStart <= |rows|
    ensures start <= from
    ensures forall i :: start <= i < from ==> OnlineRow(rows[i])
  {
    if from > 0 && activeStart - from < RESTORED_CONTEXT && OnlineRow(rows[from - 1])
    then RestoredContextStart(rows, activeStart, from - 1)
    else from
  }

  function ChargeStart(rows: seq<Row>, from: nat): (start: nat)
    requires from < |rows|
    ensures start <= from
  {
    if from > 0 && ChargingStatus(rows[from - 1].status) then ChargeStart(rows, from - 1) else from
  }

  function RestoreOnlineTail(s: WriterState, rows: seq<Row>): WriterState
    requires rows != []
  {
    var recent := RestoredRecent(rows);
    var charging := recent != [] && ChargingStatus(recent[|recent| - 1].status) && BelowFull(recent[|recent| - 1]);
    s.(recent := recent, recharging := charging,
       rechargeStart := if charging then Some(ObservationFromRow(rows[ChargeStart(rows, |rows| - 1)]))
           else s.rechargeStart)
  }

  function Restore(s: WriterState): WriterState {
    var rows := s.file.rows;
    if rows == [] then s
    else if ActiveRow(rows[|rows| - 1]) then
      var start := RunStart(rows, |rows|);
      var from := RestoredContextStart(rows, start, start);
      s.(recent := RestoredRecent(rows[from..start]), records := rows[from..], active := true, kind := BlackoutReal)
    else if OnlineRow(rows[|rows| - 1]) then RestoreOnlineTail(s, rows).(kind := BlackoutReal)
    else s.(kind := BlackoutReal)
  }

  predicate EpisodeAtOrAfter(kinds: map<int, RowKind>, at: int) {
    exists e :: e in kinds && (kinds[e] == BlackoutKindRow || kinds[e] == SelfTestKindRow) && e >= at
  }

  /** The rows reconciliation summarises: the latest closed episode and up to 31
      rows before it. */
  function ReconciledSlice(rows: seq<Row>, start: nat, end: nat): seq<Row>
    requires start <= end < |rows|
  {
    rows[if start > RECENT_LIMIT then start - RECENT_LIMIT else 0..end + 1]
  }

  function Reconcile(rows: seq<Row>, history: Log<HistoryRow>): (Log<HistoryRow>, AppendResult) {
    match LatestClosed(rows)
    case None => (history, AlreadyThere)
    case Some((start, end)) =>
      if EpisodeAtOrAfter(EventKinds(history.rows), rows[start].at) then (history, AlreadyThere)
      else AddEpisode(history, ReconciledSlice(rows, start, end), BlackoutReal)
  }

  /** The constructed writer, and whether construction went through. */
  function Construct(file: Log<Row>, history: Log<HistoryRow>, window: Option<int>): (WriterState, bool) {
    var (reconciled, result) := Reconcile(file.rows, history);
    (Restore(Blank(file, history, window)).(history := reconciled), result != AppendFailed)
  }

  // ----- the writer object ----------------------------------------------------------------

  class TelemetryJsonlWriter {
    const file: AppendFile<Row>
    const history: BatteryHistory
    const window: Option<int>
    var episodeActive: bool
    var episodeRecords: seq<Row>
    var episodeKind: BlackoutKind
    var completedEpisode: Option<seq<Row>>
    var recharging: bool
    var recentOnline: seq<Observation>
    var silentObservations: seq<Observation>
    var postFullUntil: Option<int>
    var rechargeStart: Option<Observation>

    ghost function State(): WriterState
      reads this, file, history, history.file
    {
      WriterState(file.State(), history.file.State(), episodeActive, episodeRecords, episodeKind, completedEpisode,
                  recharging, window, recentOnline, silentObservations, postFullUntil, rechargeStart)
    }

    constructor Fields(file: AppendFile<Row>, history: BatteryHistory, window: Option<int>)
      ensures this.file == file && this.history == history && this.window == window
      ensures State() == Blank(file.State(), history.file.State(), window)
    {
      this.file, this.history, this.window := file, history, window;
      episodeActive, episodeRecords, episodeKind := false, [], BlackoutReal;
      completedEpisode, recharging := None, false;
      recentOnline, silentObservations := [], [];
      postFullUntil, rechargeStart := None, None;
    }

    method RestoreRecentOnline(rows: seq<Row>)
      requires recentOnline == []
      modifies this
      ensures State() == old(State()).(recent := RestoredRecent(rows))
    {
      var tail := if |rows| > RECENT_LIMIT then rows[|rows| - RECENT_LIMIT..] else rows;
      for i := 0 to |tail|
        invariant RestoredRecent(rows) == RecentAfter(recentOnline, tail[i..])
        invariant State() == old(State()).(recent := recentOnline)
      {
        assert tail[i..][1..] == tail[i + 1..];
        if OnlineRow(tail[i]) {
          recentOnline := Remembered(recentOnline, ObservationFromRow(tail[i]));
        } else {
          recentOnline := [];
        }
      }
    }

    method RestoreOnlineTailOf(rows: seq<Row>)
      requires rows != [] && recentOnline == []
      modifies this
      ensures State() == RestoreOnlineTail(old(State()), rows)
    {
      RestoreRecentOnline(rows);
      var n := |recentOnline|;
      recharging := n > 0 && ChargingStatus(recentOnline[n - 1].status) && BelowFull(recentOnline[n - 1]);
      if !recharging {
        return;
      }
      var start := |rows| - 1;
      while start > 0 && ChargingStatus(rows[start - 1].status)
        invariant 0 <= start < |rows| && ChargeStart(rows, |rows| - 1) == ChargeStart(rows, start)
      {
        start := start - 1;
      }
      rechargeStart := Some(ObservationFromRow(rows[start]));
    }

    /** Start of the open active run and of the context kept with it. */
    static method FindOpenEpisode(records: seq<Row>) returns (activeStart: nat, contextStart: nat)
      requires records != [] && ActiveRow(records[|records| - 1])
      ensures activeStart == RunStart(records, |records|)
      ensures contextStart == RestoredContextStart(records, activeStart, activeStart)
    {
      activeStart := |records| - 1;
      assert RunStart(records, |records|) == RunStart(records, activeStart);
      while activeStart > 0 && ActiveRow(records[activeStart - 1])
        invariant activeStart < |records| && RunStart(records, |records|) == RunStart(records, activeStart)
      {
        activeStart := activeStart - 1;
      }
      contextStart := activeStart;
      while contextStart > 0 && activeStart - contextStart < RESTORED_CONTEXT && OnlineRow(records[contextStart - 1])
        invariant contextStart <= activeStart
        invariant RestoredContextStart(records, activeStart, activeStart)
                  == RestoredContextStart(records, activeStart, contextStart)
      {
        contextStart := contextStart - 1;
      }
    }

    method RestoreActiveEpisode()
      requires recentOnline == []
      modifies this
      ensures State() == Restore(old(State()))
    {
      hide RunStart, RestoredContextStart, RestoredRecent;
      var records := file.rows;
      if records == [] {
        return;
      }
      if ActiveRow(records[|records| - 1]) {
        var activeStart, contextStart := FindOpenEpisode(records);
        RestoreRecentOnline(records[contextStart..activeStart]);
        episodeRecords := records[contextStart..];
        episodeActive := true;
      } else if OnlineRow(records[|records| - 1]) {
        RestoreOnlineTailOf(records);
      }
      episodeKind := BlackoutReal;
    }

    method ReconcileClosedEpisodes() returns (ok: bool)
      modifies history.file
      ensures history.file.State() == Reconcile(file.rows, old(history.file.State())).0
      ensures ok <==> Reconcile(file.rows, old(history.file.State())).1 != AppendFailed
    {
      hide EventKinds, AddEpisode, EpisodeAtOrAfter;
      var records := file.rows;
      var candidate := FindLatestClosedEpisode(records);
      if candidate.None? {
        return true;
      }
      var (start, end) := candidate.value;
      var kinds := history.ReadEventKinds();
      if EpisodeAtOrAfter(kinds, records[start].at) {
        return true;
      }
      var contextStart := if start > RECENT_LIMIT then start - RECENT_LIMIT else 0;
      var result := history.AddEpisodeSummary(records[contextStart..end + 1], BlackoutReal);
      ok := result != AppendFailed;
    }

    method RememberRecentObservation(o: Observation, pending: bool)
      modifies this
      ensures State() == Remember(old(State()), o, pending)
    {
      if !OnlineStatus(o.status) {
        recentOnline, silentObservations := [], [];
        return;
      }
      recentOnline := Remembered(recentOnline, o);
      if pending && window.Some? {
        silentObservations := silentObservations + [o];
        var cutoff := o.micros - window.value;
        var kept: seq<Observation> := [];
        var all := silentObservations;
        for i := 0 to |all|
          invariant kept == NotBefore(all[..i], cutoff)
        {
          assert all[..i + 1][..i] == all[..i];
          if all[i].micros >= cutoff {
            kept := kept + [all[i]];
          }
        }
        assert all[..|all|] == all;
        silentObservations := kept;
      }
    }

    method EventContextRows() returns (rows: seq<Row>)
      ensures rows == ContextRows(recentOnline, silentObservations)
    {
      var dict: seq<Observation> := [];
      for i := 0 to |recentOnline|
        invariant dict == PutAll([], recentOnline[..i])
      {
        assert recentOnline[..i + 1][..i] == recentOnline[..i];
        dict := Put(dict, recentOnline[i]);
      }
      assert recentOnline[..|recentOnline|] == recentOnline;
      ghost var first := dict;
      for i := 0 to |silentObservations|
        invariant dict == PutAll(first, silentObservations[..i])
      {
        assert silentObservations[..i + 1][..i] == silentObservations[..i];
        dict := Put(dict, silentObservations[i]);
      }
      assert silentObservations[..|silentObservations|] == silentObservations;
      rows := Samples(Sort(dict, TimeOf));
    }

    method FlushSilentObservations() returns (ok: bool)
      modifies this, file
      ensures (State(), ok) == Flush(old(State()), Sort(old(silentObservations), TimeOf))
    {
      var sorted := Sort(silentObservations, TimeOf);
      ghost var whole := Flush(State(), sorted);
      for i := 0 to |sorted|
        invariant Flush(State(), sorted[i..]) == whole
      {
        assert sorted[i..][1..] == sorted[i + 1..];
        ok := file.Append(Sample(sorted[i]));
        if !ok {
          return;
        }
        silentObservations := RemoveFirst(silentObservations, sorted[i]);
      }
      ok := true;
    }

    method Start(o: Observation, physicalKind: BlackoutKind) returns (result: WriteResult)
      requires !episodeActive
      modifies this, file
      ensures (State(), result) == StartEpisode(old(State()), o, physicalKind)
    {
      var context := EventContextRows();
      var ok := FlushSilentObservations();
      if !ok {
        return Raised;
      }
      var row := Sample(o);
      ok := file.Append(row);
      if !ok {
        return Raised;
      }
      episodeKind := if physicalKind == BlackoutTest then BlackoutTest else BlackoutReal;
      episodeActive := true;
      recharging := false;
      episodeRecords := context + [row];
      postFullUntil := None;
      result := Written;
    }

    method WriteSample(o: Observation, physicalKind: BlackoutKind) returns (result: WriteResult)
      requires file as object != history.file as object
      modifies this, file, history.file
      ensures (State(), result) == Write(old(State()), o, physicalKind)
    {
      if (physicalKind == BlackoutReal || physicalKind == BlackoutTest) && ActiveStatus(o.status) {
        if episodeActive {
          var row := Sample(o);
          var ok := file.Append(row);
          if !ok {
            return Raised;
          }
          episodeRecords := episodeRecords + [row];
          return Written;
        }
        result := Start(o, physicalKind);
        return;
      }
      if physicalKind == Online {
        result := WriteOnlineSample(o);
        return;
      }
      result := NotWritten;
    }

    method WriteOnlineSample(o: Observation) returns (result: WriteResult)
      requires file as object != history.file as object
      modifies this, file, history.file
      ensures (State(), result) == WriteOnline(old(State()), o)
    {
      if episodeActive {
        result := Close(o);
        return;
      }
      if recharging {
        result := WriteRecharge(o);
        return;
      }
      if postFullUntil.Some? {
        if BelowFull(o) {
          recharging := true;
          postFullUntil := None;
          result := WriteRecharge(o);
          return;
        }
        if o.micros <= postFullUntil.value {
          var ok := file.Append(Sample(o));
          if !ok {
            return Raised;
          }
          RememberRecentObservation(o, false);
          return Written;
        }
        postFullUntil := None;
      }
      RememberRecentObservation(o, true);
      result := NotWritten;
    }

    method Close(o: Observation) returns (result: WriteResult)
      requires file as object != history.file as object
      modifies this, file, history.file
      ensures (State(), result) == CloseEpisode(old(State()), o)
    {
      hide AddEpisode, Remembered, Sample;
      var row := Sample(o);
      var ok := file.Append(row);
      if !ok {
        return Raised;
      }
      episodeRecords := episodeRecords + [row];
      episodeActive := false;
      recharging := BelowFull(o);
      postFullUntil := Deadline(o, window);
      RememberRecentObservation(o, false);
      var records := episodeRecords;
      episodeRecords := [];
      var added := history.AddEpisodeSummary(records, episodeKind);
      if added == AppendFailed {
        return Raised;
      }
      completedEpisode := Some(records);
      episodeKind := BlackoutReal;
      result := Written;
    }

    method WriteRecharge(o: Observation) returns (result: WriteResult)
      modifies this, file
      ensures (State(), result) == Recharge(old(State()), o)
    {
      hide Remembered, Sample;
      var ok := file.Append(Sample(o));
      if !ok {
        return Raised;
      }
      RememberRecentObservation(o, false);
      if BelowFull(o) {
        postFullUntil := None;
      } else {
        recharging := false;
        postFullUntil := Deadline(o, window);
      }
      result := Written;
    }

    method TakeCompletedEpisode() returns (completed: Option<seq<Row>>)
      modifies this
      ensures completed == old(completedEpisode)
      ensures State() == old(State()).(completed := None)
    {
      completed := completedEpisode;
      completedEpisode := None;
    }
  }

  /** Construction: restore the open episode, then reconcile the summaries. */
  method NewWriter(file: AppendFile<Row>, history: BatteryHistory, window: Option<int>)
    returns (writer: TelemetryJsonlWriter, ok: bool)
    requires file as object != history.file as object
    modifies history.file
    ensures writer.file == file && writer.history == history
    ensures (writer.State(), ok) == Construct(old(file.State()), old(history.file.State()), window)
  {
    writer := new TelemetryJsonlWriter.Fields(file, history, window);
    writer.RestoreActiveEpisode();
    ok := writer.ReconcileClosedEpisodes();
  }
}
