/** The derived history file (src/adapters/battery_history.py): episode
    summaries, IR observations and model-update receipts. */
module History {
  import opened Types
  import opened Storage
  import opened IrEstimator

  /** The receipt of one applied model update. */
  datatype Receipt = Receipt(eventAt: int, evidenceAt: int, fromValue: real, toValue: real, reason: string)

  datatype HistoryRow =
    | Episode(selfTest: bool, at: int, durationS: nat)
    | Observed(observation: IrObservation)
    | Update(receipt: Receipt)

  datatype RowKind = BlackoutKindRow | SelfTestKindRow | ObservedKind | UpdateKind

  function KeyOf(r: HistoryRow): int {
    match r
    case Episode(_, at, _) => at
    case Observed(o) => o.eventAt
    case Update(receipt) => receipt.eventAt
  }

  function KindOf(r: HistoryRow): RowKind {
    match r
    case Episode(selfTest, _, _) => if selfTest then SelfTestKindRow else BlackoutKindRow
    case Observed(_) => ObservedKind
    case Update(_) => UpdateKind
  }

  predicate HasEpisode(rows: seq<HistoryRow>, at: int) {
    exists i :: 0 <= i < |rows| && rows[i].Episode? && rows[i].at == at
  }

  predicate HasObserved(rows: seq<HistoryRow>, eventAt: int) {
    exists i :: 0 <= i < |rows| && rows[i].Observed? && rows[i].observation.eventAt == eventAt
  }

  predicate HasUpdate(rows: seq<HistoryRow>, eventAt: int) {
    exists i :: 0 <= i < |rows| && rows[i].Update? && rows[i].receipt.eventAt == eventAt
  }

  // ----- summaries --------------------------------------------------------------

  /** Index of the first active row, or the length. */
  function FirstActive(records: seq<Row>): nat
    ensures FirstActive(records) <= |records|
    ensures FirstActive(records) < |records| ==> ActiveRow(records[FirstActive(records)])
    ensures forall i :: 0 <= i < FirstActive(records) ==> !ActiveRow(records[i])
  {
    if records == [] || ActiveRow(records[0]) then 0 else 1 + FirstActive(records[1..])
  }

  /** Length of the leading run of active rows. */
  function ActiveRun(records: seq<Row>): nat
    ensures ActiveRun(records) <= |records|
    ensures ActiveRun(records) < |records| ==> !ActiveRow(records[ActiveRun(records)])
    ensures forall i :: 0 <= i < ActiveRun(records) ==> ActiveRow(records[i])
  {
    if records == [] || !ActiveRow(records[0]) then 0 else 1 + ActiveRun(records[1..])
  }

  /** First active row and the row that ends its run (the last row if none does). */
  function DischargeBounds(records: seq<Row>): Option<(nat, nat)> {
    var start := FirstActive(records);
    if start == |records| then None
    else
      var end := start + ActiveRun(records[start..]);
      Some((start, if end < |records| then end else |records| - 1))
  }

  function SummarizeEpisode(records: seq<Row>, kind: BlackoutKind): Option<HistoryRow> {
    match DischargeBounds(records)
    case None => None
    case Some((start, end)) =>
      var duration := records[end].at - records[start].at;
      Some(Episode(kind == BlackoutTest, records[start].at, if duration < 0 then 0 else duration))
  }

  // ----- reading ----------------------------------------------------------------

  /** The kind of the last row of each event. */
  function EventKinds(rows: seq<HistoryRow>): map<int, RowKind> {
    if rows == [] then map[]
    else
      var n := |rows| - 1;
      EventKinds(rows[..n])[KeyOf(rows[n]) := KindOf(rows[n])]
  }

  /** Event of the last model update in file order. */
  function LastUpdate(rows: seq<HistoryRow>): Option<int> {
    if rows == [] then None
    else
      var n := |rows| - 1;
      if rows[n].Update? then Some(rows[n].receipt.eventAt) else LastUpdate(rows[..n])
  }

  function ObservedRows(rows: seq<HistoryRow>): seq<IrObservation> {
    if rows == [] then []
    else
      var n := |rows| - 1;
      if rows[n].Observed? then ObservedRows(rows[..n]) + [rows[n].observation] else ObservedRows(rows[..n])
  }

  predicate IsNewer(eventAt: int, lastUpdate: Option<int>) {
    lastUpdate.None? || eventAt > lastUpdate.value
  }

  /** The first observation of each event newer than the given update. */
  function NewerThan(os: seq<IrObservation>, lastUpdate: Option<int>): seq<IrObservation> {
    if os == [] then []
    else
      var n := |os| - 1;
      var kept := NewerThan(os[..n], lastUpdate);
      if IsNewer(os[n].eventAt, lastUpdate) && !HasEvent(kept, os[n].eventAt) then kept + [os[n]] else kept
  }

  /** The not yet consumed observations. */
  function PendingObservations(rows: seq<HistoryRow>): seq<IrObservation> {
    NewerThan(ObservedRows(rows), LastUpdate(rows))
  }

  // ----- appending --------------------------------------------------------------

  datatype AppendResult = Added | AlreadyThere | AppendFailed

  function AppendUnless(log: Log<HistoryRow>, present: bool, row: HistoryRow): (Log<HistoryRow>, AppendResult) {
    if present then (log, AlreadyThere)
    else (log.Append(row), if NextOk(log.outcomes) then Added else AppendFailed)
  }

  function AddEpisode(log: Log<HistoryRow>, records: seq<Row>, kind: BlackoutKind): (Log<HistoryRow>, AppendResult) {
    match SummarizeEpisode(records, kind)
    case None => (log, AlreadyThere)
    case Some(summary) => AppendUnless(log, HasEpisode(log.rows, summary.at), summary)
  }

  function AddObservation(log: Log<HistoryRow>, o: IrObservation): (Log<HistoryRow>, AppendResult) {
    AppendUnless(log, HasObserved(log.rows, o.eventAt), Observed(o))
  }

  function AddUpdate(log: Log<HistoryRow>, receipt: Receipt): (Log<HistoryRow>, AppendResult) {
    AppendUnless(log, HasUpdate(log.rows, receipt.eventAt), Update(receipt))
  }

  class BatteryHistory {
    const file: AppendFile<HistoryRow>

    constructor (file: AppendFile<HistoryRow>)
      ensures this.file == file
    {
      this.file := file;
    }

    method AddEpisodeSummary(records: seq<Row>, kind: BlackoutKind) returns (result: AppendResult)
      modifies file
      ensures (file.State(), result) == AddEpisode(old(file.State()), records, kind)
    {
      var summary := SummarizeEpisode(records, kind);
      if summary.None? {
        return AlreadyThere;
      }
      for i := 0 to |file.rows|
        invariant forall j :: 0 <= j < i ==> !(file.rows[j].Episode? && file.rows[j].at == summary.value.at)
        invariant file.State() == old(file.State())
      {
        if file.rows[i].Episode? && file.rows[i].at == summary.value.at {
          return AlreadyThere;
        }
      }
      var ok := file.Append(summary.value);
      result := if ok then Added else AppendFailed;
    }

    method RecordIrObservation(o: IrObservation) returns (result: AppendResult)
      modifies file
      ensures (file.State(), result) == AddObservation(old(file.State()), o)
    {
      for i := 0 to |file.rows|
        invariant forall j :: 0 <= j < i ==> !(file.rows[j].Observed? && file.rows[j].observation.eventAt == o.eventAt)
        invariant file.State() == old(file.State())
      {
        if file.rows[i].Observed? && file.rows[i].observation.eventAt == o.eventAt {
          return AlreadyThere;
        }
      }
      var ok := file.Append(Observed(o));
      result := if ok then Added else AppendFailed;
    }

    method UpsertModelUpdate(receipt: Receipt) returns (result: AppendResult)
      modifies file
      ensures (file.State(), result) == AddUpdate(old(file.State()), receipt)
    {
      for i := 0 to |file.rows|
        invariant forall j :: 0 <= j < i ==> !(file.rows[j].Update? && file.rows[j].receipt.eventAt == receipt.eventAt)
        invariant file.State() == old(file.State())
      {
        if file.rows[i].Update? && file.rows[i].receipt.eventAt == receipt.eventAt {
          return AlreadyThere;
        }
      }
      var ok := file.Append(Update(receipt));
      result := if ok then Added else AppendFailed;
    }

    method IrObservations() returns (pending: seq<IrObservation>)
      ensures pending == PendingObservations(file.rows)
    {
      var rows := file.rows;
      var lastUpdate: Option<int> := None;
      var observed: seq<IrObservation> := [];
      for i := 0 to |rows|
        invariant lastUpdate == LastUpdate(rows[..i]) && observed == ObservedRows(rows[..i])
      {
        assert rows[..i + 1][..i] == rows[..i];
        match rows[i] {
          case Update(receipt) => lastUpdate := Some(receipt.eventAt);
          case Observed(o) => observed := observed + [o];
          case Episode(_, _, _) =>
        }
      }
      assert rows[..|rows|] == rows;
      pending := [];
      for i := 0 to |observed|
        invariant pending == NewerThan(observed[..i], lastUpdate)
      {
        assert observed[..i + 1][..i] == observed[..i];
        if IsNewer(observed[i].eventAt, lastUpdate) && !HasEvent(pending, observed[i].eventAt) {
          pending := pending + [observed[i]];
        }
      }
      assert observed[..|observed|] == observed;
    }

    method ReadEventKinds() returns (kinds: map<int, RowKind>)
      ensures kinds == EventKinds(file.rows)
    {
      kinds := map[];
      var rows := file.rows;
      for i := 0 to |rows|
        invariant kinds == EventKinds(rows[..i])
      {
        assert rows[..i + 1][..i] == rows[..i];
        kinds := kinds[KeyOf(rows[i]) := KindOf(rows[i])];
      }
      assert rows[..|rows|] == rows;
    }
  }

  // ----- one row per event and kind of record -----------------------------------

  predicate SameRecord(a: HistoryRow, b: HistoryRow) {
    && KeyOf(a) == KeyOf(b)
    && ((a.Episode? && b.Episode?) || (a.Observed? && b.Observed?) || (a.Update? && b.Update?))
  }

  /** At most one summary, one observation and one update per event. */
  ghost predicate KeysUnique(rows: seq<HistoryRow>) {
    forall i, j :: 0 <= i < j < |rows| ==> !SameRecord(rows[i], rows[j])
  }

  datatype HistoryCall =
    | CallEpisode(records: seq<Row>, kind: BlackoutKind)
    | CallObservation(observation: IrObservation)
    | CallUpdate(receipt: Receipt)

  function Called(log: Log<HistoryRow>, call: HistoryCall): Log<HistoryRow> {
    match call
    case CallEpisode(records, kind) => AddEpisode(log, records, kind).0
    case CallObservation(o) => AddObservation(log, o).0
    case CallUpdate(receipt) => AddUpdate(log, receipt).0
  }

  function CalledAll(log: Log<HistoryRow>, calls: seq<HistoryCall>): Log<HistoryRow>
    decreases |calls|
  {
    if calls == [] then log else CalledAll(Called(log, calls[0]), calls[1..])
  }

  /** Keys stay unique, and rows are only ever added at the end, over every
      sequence of calls, failing appends and restarts included; the same call
      repeated adds nothing. */
  lemma {:induction false} KeysStayUnique(log: Log<HistoryRow>, calls: seq<HistoryCall>)
    requires KeysUnique(log.rows)
    ensures KeysUnique(CalledAll(log, calls).rows) && log.rows <= CalledAll(log, calls).rows
    decreases |calls|
  {
    if calls != [] {
      KeysStayUnique(Called(log, calls[0]), calls[1..]);
    }
  }

  /** A call whose append does not fail is settled: repeating it changes
      nothing, whatever the storage does. */
  lemma RepeatedCallIsNoOp(log: Log<HistoryRow>, call: HistoryCall, outcomes: seq<bool>)
    requires NextOk(log.outcomes)
    ensures var once := Called(log, call);
            Called(once.(outcomes := outcomes), call).rows == once.rows
  {
    var once := Called(log, call);
    if |once.rows| > |log.rows| {
      assert once.rows[|log.rows|] == once.rows[|once.rows| - 1];
    }
  }
}
