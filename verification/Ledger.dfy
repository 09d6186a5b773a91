/** Following a learner through a concrete run: what its history says in one
    value, and what one blackout or one replayed event does to it. */
module Ledger {
  import opened Types
  import opened Storage
  import opened IrEstimator
  import opened Cohort
  import opened History
  import opened ModelStore
  import opened Feedback
  import opened FeedbackRuns
  import opened FeedbackQuiet
  import opened Blackouts

  /** What a history of blackouts says: kinds, last update, observed events in file
      order, update receipts, and the events with a summary. */
  datatype Digest = Digest(
    kinds: map<int, RowKind>,
    last: Option<int>,
    times: seq<int>,
    updates: seq<Receipt>,
    summarised: set<int>)

  const EMPTY_DIGEST := Digest(map[], None, [], [], {})

  function Noted(d: Digest, row: HistoryRow): Digest {
    var kinds := d.kinds[KeyOf(row) := KindOf(row)];
    match row
    case Episode(_, at, _) => d.(kinds := kinds, summarised := d.summarised + {at})
    case Observed(o) => d.(kinds := kinds, times := d.times + [o.eventAt])
    case Update(r) => d.(kinds := kinds, last := Some(r.eventAt), updates := d.updates + [r])
  }

  ghost predicate HasReceipt(updates: seq<Receipt>, e: int) {
    exists i :: 0 <= i < |updates| && updates[i].eventAt == e
  }

  ghost predicate Says(rows: seq<HistoryRow>, d: Digest) {
    && EventKinds(rows) == d.kinds && LastUpdate(rows) == d.last
    && ObservedRows(rows) == SeenAll(d.times) && Updates(rows) == d.updates
    && (forall e :: HasEpisode(rows, e) <==> e in d.summarised)
    && (forall e :: HasObserved(rows, e) <==> e in d.times)
    && (forall e :: HasUpdate(rows, e) <==> HasReceipt(d.updates, e))
  }

  lemma EmptySays()
    ensures Says([], EMPTY_DIGEST)
  {}

  lemma OneMoreReceipt(updates: seq<Receipt>, r: Receipt)
    ensures forall e :: HasReceipt(updates + [r], e) <==> HasReceipt(updates, e) || e == r.eventAt
  {
    var more := updates + [r];
    forall e ensures HasReceipt(more, e) <==> HasReceipt(updates, e) || e == r.eventAt {
      assert forall i :: 0 <= i < |updates| ==> more[i] == updates[i];
      assert more[|updates|] == r;
    }
  }

  lemma SaysMore(rows: seq<HistoryRow>, d: Digest, row: HistoryRow)
    requires Says(rows, d) && (row.Observed? ==> row.observation == Seen(row.observation.eventAt))
    ensures Says(rows + [row], Noted(d, row))
  {
    hide EventKinds, LastUpdate, ObservedRows, Updates, HasEpisode, HasObserved, HasUpdate, HasReceipt;
    AppendedRow(rows, row);
    AppendedPending(rows, row);
    match row {
      case Update(r) => OneMoreReceipt(d.updates, r);
      case Observed(o) =>
        SeenLast(d.times + [o.eventAt]);
        assert (d.times + [o.eventAt])[..|d.times|] == d.times;
      case Episode(_, _, _) =>
    }
  }

  // ----- a learner and its ledger ---------------------------------------------------------------

  /** History and model of a learner. */
  ghost predicate Reads(l: Learner, d: Digest, m: Model) {
    Says(l.history.rows, d) && l.model.memory == m
  }

  /** The same, and its appends will succeed. */
  ghost predicate Holds(l: Learner, d: Digest, m: Model) {
    Reads(l, d, m) && l.history.outcomes == []
  }

  /** The pending events are those from the n-th observed one on. */
  ghost predicate PendingFrom(d: Digest, n: nat, young: seq<int>) {
    && n <= |d.times| && Increasing(d.times) && young == d.times[n..]
    && match d.last case None => n == 0 case Some(u) => AllUpTo(d.times[..n], u) && AllAfter(young, u)
  }

  lemma PendingAre(l: Learner, d: Digest, m: Model, n: nat, young: seq<int>)
    requires Reads(l, d, m) && PendingFrom(d, n, young)
    ensures PendingObservations(l.history.rows) == SeenAll(young) && Increasing(young)
  {
    hide NewerThan, EventKinds, Updates;
    assert d.times == d.times[..n] + young;
    PendingSuffix(d.times[..n], young, d.last);
  }

  /** Nothing is proposed from fewer than three events, or once k has come within
      0.001 of them. */
  lemma NothingProposed(l: Learner, d: Digest, m: Model, n: nat, young: seq<int>, kinds: map<int, RowKind>, e: int)
    requires Reads(l, d, m) && PendingFrom(d, n, young) && MIN_K <= m.irK <= MAX_K
    requires |young| < 3 || m.irK < 0.00725
    ensures ProposalFor(l) == None && ProposeAndApply(l, kinds, e) == Turn(Pass(l, true, []), kinds)
  {
    hide Propose, PendingObservations;
    PendingAre(l, d, m, n, young);
    SeenProposal(young, m.irK);
  }

  ghost function ReceiptOf(l: Learner, e: int): Receipt
    requires ProposalFor(l).Some?
  {
    var p := ProposalFor(l).value;
    Receipt(e, p.evidenceAt, l.model.memory.irK, p.toValue, p.reason)
  }

  lemma SomethingProposed(l: Learner, d: Digest, m: Model, n: nat, young: seq<int>)
    requires Reads(l, d, m) && PendingFrom(d, n, young) && 0.00825 <= m.irK <= MAX_K && |young| >= 3
    ensures ProposalFor(l).Some? && ProposalFor(l).value.toValue == m.irK - MAX_STEP
    ensures PendingObservations(l.history.rows) == SeenAll(young)
  {
    hide Propose, PendingObservations;
    PendingAre(l, d, m, n, young);
    SeenProposal(young, m.irK);
  }

  /** A proposal for an event without an update row: model and history get it. */
  lemma UpdateRecorded(l: Learner, d: Digest, m: Model, n: nat, young: seq<int>, kinds: map<int, RowKind>, e: int)
    returns (after: Learner, receipt: Receipt)
    requires Holds(l, d, m) && PendingFrom(d, n, young) && 0.00825 <= m.irK <= MAX_K && |young| >= 3
    requires l.model.file.outcomes == [] && !SameEvent(m, e) && !HasReceipt(d.updates, e)
    ensures receipt.eventAt == e && receipt.fromValue == m.irK && receipt.toValue == m.irK - MAX_STEP
    ensures Holds(after, Noted(d, Update(receipt)), Model(receipt.toValue, Some(receipt)))
    ensures after.model == Loaded(after.model.memory, [])
    ensures ProposeAndApply(l, kinds, e) ==
            Turn(Pass(after, true, [AppliedUpdate(receipt, SeenAll(young))]), kinds[e := UpdateKind])
  {
    hide Propose, PendingObservations, EventKinds, LastUpdate, ObservedRows, Updates, HasReceipt;
    SomethingProposed(l, d, m, n, young);
    receipt := ReceiptOf(l, e);
    SaysMore(l.history.rows, d, Update(receipt));
    after := Learner(Loaded(Model(receipt.toValue, Some(receipt)), []), Log(l.history.rows + [Update(receipt)], []));
    hide SeenAll;
  }

  /** The same for an event that already has an update row: the model gets it, the
      history does not. */
  lemma UpdateDropped(l: Learner, d: Digest, m: Model, n: nat, young: seq<int>, kinds: map<int, RowKind>, e: int)
    returns (after: Learner, receipt: Receipt)
    requires Holds(l, d, m) && PendingFrom(d, n, young) && 0.00825 <= m.irK <= MAX_K && |young| >= 3
    requires l.model.file.outcomes == [] && !SameEvent(m, e) && HasReceipt(d.updates, e)
    ensures receipt.eventAt == e && receipt.fromValue == m.irK && receipt.toValue == m.irK - MAX_STEP
    ensures Holds(after, d, Model(receipt.toValue, Some(receipt)))
    ensures after.model == Loaded(after.model.memory, []) && after.history == l.history
    ensures ProposeAndApply(l, kinds, e) ==
            Turn(Pass(after, true, [AppliedUpdate(receipt, SeenAll(young))]), kinds[e := UpdateKind])
  {
    hide Propose, PendingObservations, EventKinds, LastUpdate, ObservedRows, Updates, HasReceipt;
    SomethingProposed(l, d, m, n, young);
    receipt := ReceiptOf(l, e);
    after := Learner(Loaded(Model(receipt.toValue, Some(receipt)), []), l.history);
    hide SeenAll;
  }

  /** A refused model write stops the pass and leaves everything as it was. */
  lemma UpdateRefused(l: Learner, d: Digest, m: Model, n: nat, young: seq<int>, kinds: map<int, RowKind>, e: int)
    requires Holds(l, d, m) && PendingFrom(d, n, young) && 0.00825 <= m.irK <= MAX_K && |young| >= 3
    requires l.model == Loaded(m, [Refused]) && !SameEvent(m, e)
    ensures ProposeAndApply(l, kinds, e) == Turn(Pass(l.(model := Loaded(m, [])), false, []), kinds)
  {
    hide Propose, PendingObservations, EventKinds, LastUpdate, ObservedRows, Updates;
    SomethingProposed(l, d, m, n, young);
  }

  // ----- turns ---------------------------------------------------------------------------------------

  /** A blackout without feedback rows is observed first. */
  lemma BlackoutTurn(l: Learner, d: Digest, m: Model, kinds: map<int, RowKind>, e: int)
    returns (observed: Learner, d': Digest)
    requires Holds(l, d, m) && (e in kinds ==> kinds[e] == BlackoutKindRow) && e !in d.times
    ensures d' == Noted(d, Observed(Seen(e))) && Holds(observed, d', m) && observed.model == l.model
    ensures OneEpisode(l, kinds, BlackoutRows(e)) == ProposeAndApply(observed, kinds[e := ObservedKind], e)
  {
    hide EventKinds, LastUpdate, ObservedRows, Updates, ExtractIr, EventStart, ProposeAndApply;
    BlackoutIsSeen(e);
    SaysMore(l.history.rows, d, Observed(Seen(e)));
    d' := Noted(d, Observed(Seen(e)));
    observed := l.(history := l.history.Append(Observed(Seen(e))));
  }

  /** A blackout whose last row is a summary although it was observed. */
  lemma ReopenedTurn(l: Learner, d: Digest, m: Model, kinds: map<int, RowKind>, e: int)
    requires Reads(l, d, m) && e in kinds && kinds[e] == BlackoutKindRow && e in d.times
    ensures OneEpisode(l, kinds, BlackoutRows(e)) == ProposeAndApply(l, kinds[e := ObservedKind], e)
  {
    hide EventKinds, LastUpdate, ObservedRows, Updates, ExtractIr, EventStart, ProposeAndApply;
    BlackoutIsSeen(e);
  }

  /** A blackout whose last row is its observation. */
  lemma ObservedTurn(l: Learner, kinds: map<int, RowKind>, e: int)
    requires e in kinds && kinds[e] == ObservedKind
    ensures OneEpisode(l, kinds, BlackoutRows(e)) == ProposeAndApply(l, kinds, e)
  {
    hide ExtractIr, EventStart, ProposeAndApply;
    BlackoutIsSeen(e);
  }

  function AllBlackouts(times: seq<int>): (episodes: seq<seq<Row>>)
    ensures |episodes| == |times|
  {
    seq(|times|, i requires 0 <= i < |times| => BlackoutRows(times[i]))
  }

  /** One turn of a pass, and the rest of it. */
  lemma TurnThenRest(l: Learner, kinds: map<int, RowKind>, e: int, times: seq<int>, turn: Turn)
    requires OneEpisode(l, kinds, BlackoutRows(e)) == turn && turn.pass.completed
    ensures ApplyFeedback(l, kinds, AllBlackouts([e] + times)) ==
            var rest := ApplyFeedback(turn.pass.learner, turn.kinds, AllBlackouts(times));
            rest.(applied := turn.pass.applied + rest.applied)
  {
    hide OneEpisode, BlackoutRows;
    var episodes := AllBlackouts([e] + times);
    assert episodes[0] == BlackoutRows(e) && episodes[1..] == AllBlackouts(times);
  }

  ghost predicate AllObserved(kinds: map<int, RowKind>, times: seq<int>) {
    forall i :: 0 <= i < |times| ==> times[i] in kinds && kinds[times[i]] == ObservedKind
  }

  lemma FirstOfAll(kinds: map<int, RowKind>, times: seq<int>, rest: seq<int>)
    requires AllObserved(kinds, times) && times != []
    ensures times[0] in kinds && kinds[times[0]] == ObservedKind && AllObserved(kinds, times[1..])
    ensures [times[0]] + (times[1..] + rest) == times + rest
  {}

  /** Observed events with too little pending pass without effect. */
  lemma {:induction false} QuietPass(l: Learner, d: Digest, m: Model, n: nat, young: seq<int>, kinds: map<int, RowKind>,
                                     times: seq<int>, rest: seq<int>)
    requires Reads(l, d, m) && PendingFrom(d, n, young) && MIN_K <= m.irK <= MAX_K
    requires |young| < 3 || m.irK < 0.00725
    requires AllObserved(kinds, times)
    ensures ApplyFeedback(l, kinds, AllBlackouts(times + rest)) == ApplyFeedback(l, kinds, AllBlackouts(rest))
    decreases |times|
  {
    hide Reads, PendingFrom, ApplyFeedback, AllBlackouts, AllObserved;
    if times == [] {
      assert times + rest == rest;
    } else {
      FirstOfAll(kinds, times, rest);
      QuietOne(l, d, m, n, young, kinds, times[0], times[1..] + rest);
      QuietPass(l, d, m, n, young, kinds, times[1..], rest);
    }
  }

  lemma QuietOne(l: Learner, d: Digest, m: Model, n: nat, young: seq<int>, kinds: map<int, RowKind>, e: int,
        times: seq<int>)
    requires Reads(l, d, m) && PendingFrom(d, n, young) && MIN_K <= m.irK <= MAX_K
    requires |young| < 3 || m.irK < 0.00725
    requires e in kinds && kinds[e] == ObservedKind
    ensures ApplyFeedback(l, kinds, AllBlackouts([e] + times)) == ApplyFeedback(l, kinds, AllBlackouts(times))
  {
    hide Reads, PendingFrom, OneEpisode, ApplyFeedback, AllBlackouts, ProposeAndApply;
    ObservedTurn(l, kinds, e);
    NothingProposed(l, d, m, n, young, kinds, e);
    TurnThenRest(l, kinds, e, times, Turn(Pass(l, true, []), kinds));
    var rest := ApplyFeedback(l, kinds, AllBlackouts(times));
    assert [] + rest.applied == rest.applied;
  }

  lemma EmptyPass(l: Learner, kinds: map<int, RowKind>)
    ensures ApplyFeedback(l, kinds, AllBlackouts([])) == Pass(l, true, [])
  {}

  lemma RecoveredAlready(l: Learner, d: Digest, m: Model)
    requires Reads(l, d, m) && (m.lastFeedback.Some? ==> HasReceipt(d.updates, m.lastFeedback.value.eventAt))
    ensures Recover(l) == Pass(l, true, [])
  {
    hide EventKinds, LastUpdate, ObservedRows, Updates, HasReceipt;
  }
}
