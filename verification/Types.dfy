/** Values shared by every part of the model: status flags, observations, raw
    telemetry rows and the classification of one poll. */
module Types {

  datatype Option<+T> = None | Some(value: T)

  /** One word of the NUT `ups.status` text. */
  datatype Flag = OL | OB | CAL | LB | CHRG | Other(word: string)

  /** A status text is used only through the set of words it contains. */
  type Status = set<Flag>

  predicate ActiveStatus(status: Status) {
    OB in status || CAL in status
  }

  predicate OnlineStatus(status: Status) {
    OL in status
  }

  predicate ChargingStatus(status: Status) {
    OL in status && CHRG in status
  }

  datatype BlackoutKind = Online | BlackoutReal | BlackoutTest | Unknown

  /** One NUT reply.  Wall time has microsecond precision. */
  datatype Observation = Observation(
    monotonicNs: int,
    micros: int,
    status: Status,
    batteryV: Option<real>,
    loadPct: Option<real>,
    inputV: Option<real>,
    batteryPct: Option<real>,
    runtimeS: Option<real>,
    outputV: Option<real>)

  /** One line of telemetry.jsonl.  Rows are written with whole seconds. */
  datatype Row = Row(
    at: int,
    batteryV: Option<real>,
    batteryPct: Option<real>,
    runtimeS: Option<real>,
    loadPct: Option<real>,
    inputV: Option<real>,
    outputV: Option<real>,
    status: Status)

  const MICROS := 1_000_000

  /** The row recorded for an observation: seconds are truncated. */
  function Sample(o: Observation): Row {
    Row(o.micros / MICROS, o.batteryV, o.batteryPct, o.runtimeS, o.loadPct, o.inputV, o.outputV, o.status)
  }

  function Samples(os: seq<Observation>): seq<Row> {
    seq(|os|, i requires 0 <= i < |os| => Sample(os[i]))
  }

  function ObservationFromRow(r: Row): Observation {
    Observation(0, r.at * MICROS, r.status, r.batteryV, r.loadPct, r.inputV, r.batteryPct, r.runtimeS, r.outputV)
  }

  predicate ActiveRow(r: Row) { ActiveStatus(r.status) }
  predicate OnlineRow(r: Row) { OnlineStatus(r.status) }

  /** lifecycle.classify_physical_observation. */
  function Classify(status: Status, attributed: Option<BlackoutKind>): BlackoutKind {
    if ActiveStatus(status) then
      if attributed == Some(BlackoutTest) then BlackoutTest else BlackoutReal
    else if OnlineStatus(status) then Online
    else Unknown
  }

  /** `kind` is one that classification can give to a poll with this status. */
  predicate Classified(status: Status, kind: BlackoutKind) {
    if ActiveStatus(status) then kind == BlackoutReal || kind == BlackoutTest
    else if OnlineStatus(status) then kind == Online
    else kind == Unknown
  }

  predicate BelowFull(o: Observation) {
    o.batteryPct.Some? && o.batteryPct.value < 100.0
  }

  /** A recorded sample read back and recorded again is the same row. */
  lemma SampleRoundTrip(r: Row)
    ensures Sample(ObservationFromRow(r)) == r
  {
    assert r.at * MICROS / MICROS == r.at;
  }
}
