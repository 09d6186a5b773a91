/** Runs of the whole station, from empty files and through explicit failures, in
    which evidence is used twice, an update is lost from the history, the latest
    blackout is never recorded, and one that never happened is. */
module Counterexamples {
  import opened Types
  import opened Storage
  import opened IrEstimator
  import opened Cohort
  import opened History
  import opened ModelStore
  import opened Segments
  import opened Feedback
  import opened FeedbackRuns
  import opened FeedbackQuiet
  import opened Writer
  import WriterPending
  import opened WriterEpisodes
  import opened Reconciliation
  import opened Station
  import opened Blackouts
  import opened Ledger
  import opened StationRuns

  // ----- one blackout in a run ---------------------------------------------------------------

  ghost predicate ReceiptIn(d: Digest, m: Model) {
    m.lastFeedback.Some? ==> HasReceipt(d.updates, m.lastFeedback.value.eventAt)
  }

  /** Between blackouts, with the history digested and the receipt recorded. */
  ghost predicate Knows(v: View, d: Digest, m: Model) {
    Holds(Mind(v), d, m) && ReceiptIn(d, m) && v.replayed && v.tail == []
  }

  /** A blackout has passed and its feedback has run. */
  ghost predicate Arrived(st: StationState, v: View, e: int) {
    var after := WithBlackout(v, e);
    Shows(st, Learned(after, RunFeedback(Mind(after), [BlackoutRows(e)])))
  }

  function WatchedDigest(d: Digest, e: int): Digest {
    Noted(Noted(d, Episode(false, e, 45)), Observed(Seen(e)))
  }

  /** Summarised and observed. */
  function Watched(v: View, e: int): View {
    var after := WithBlackout(v, e);
    after.(history := after.history.Append(Observed(Seen(e))))
  }

  /** Feedback over one blackout that was just summarised. */
  lemma FeedbackOfNew(v: View, d: Digest, m: Model, e: int)
    requires Knows(v, d, m) && e !in d.times
    ensures var l, kinds := Mind(Watched(v, e)), WatchedDigest(d, e).kinds;
            && Holds(l, WatchedDigest(d, e), m)
            && RunFeedback(Mind(WithBlackout(v, e)), [BlackoutRows(e)]) == ProposeAndApply(l, kinds, e).pass
  {
    hide Says, OneEpisode, ProposeAndApply, HasReceipt, BlackoutRows;
    var l := Mind(WithBlackout(v, e));
    SaysMore(v.history.rows, d, Episode(false, e, 45));
    var summarised := Noted(d, Episode(false, e, 45));
    RecoveredAlready(l, summarised, m);
    SaysKinds(l.history.rows, summarised);
    SingleEpisode(l, summarised.kinds, BlackoutRows(e));
    var observed, d' := BlackoutTurn(l, summarised, m, summarised.kinds, e);
    SaysMore(l.history.rows, summarised, Observed(Seen(e)));
    NewTurn(l, summarised, m, e);
  }

  lemma SaysKinds(rows: seq<HistoryRow>, d: Digest)
    requires Says(rows, d)
    ensures EventKinds(rows) == d.kinds
  {}

  lemma NewTurn(l: Learner, d: Digest, m: Model, e: int)
    requires Holds(l, d, m) && e in d.kinds && d.kinds[e] == BlackoutKindRow && e !in d.times
    ensures OneEpisode(l, d.kinds, BlackoutRows(e)) ==
            ProposeAndApply(l.(history := l.history.Append(Observed(Seen(e)))), d.kinds[e := ObservedKind], e)
  {
    hide EventKinds, LastUpdate, ObservedRows, Updates, ExtractIr, EventStart, ProposeAndApply;
    BlackoutIsSeen(e);
  }

  /** Too little evidence: the blackout is recorded and nothing else happens. */
  lemma Watches(st: StationState, v: View, d: Digest, m: Model, e: int, n: nat, young: seq<int>)
    requires Knows(v, d, m) && Arrived(st, v, e) && e !in d.times
    requires PendingFrom(WatchedDigest(d, e), n, young) && |young| < 3 && MIN_K <= m.irK <= MAX_K
    ensures Shows(st, Watched(v, e)) && Knows(Watched(v, e), WatchedDigest(d, e), m)
  {
    hide Says, ProposeAndApply, HasReceipt, BlackoutRows, Shows, PendingFrom, RunFeedback;
    FeedbackOfNew(v, d, m, e);
    var l := Mind(Watched(v, e));
    NothingProposed(l, WatchedDigest(d, e), m, n, young, WatchedDigest(d, e).kinds, e);
    assert v.applied + [] == v.applied;
  }

  /** Enough evidence, but the model write is refused. */
  lemma Refuses(st: StationState, v: View, d: Digest, m: Model, e: int, n: nat, young: seq<int>)
    requires Knows(v, d, m) && Arrived(st, v, e) && e !in d.times && v.model == Loaded(m, [Refused]) && !SameEvent(m, e)
    requires PendingFrom(WatchedDigest(d, e), n, young) && |young| >= 3 && 0.00825 <= m.irK <= MAX_K
    ensures var after := Watched(v, e).(model := Loaded(m, []));
            Shows(st, after) && Knows(after, WatchedDigest(d, e), m)
  {
    hide Says, ProposeAndApply, HasReceipt, BlackoutRows, Shows, PendingFrom, RunFeedback;
    FeedbackOfNew(v, d, m, e);
    var l := Mind(Watched(v, e));
    UpdateRefused(l, WatchedDigest(d, e), m, n, young, WatchedDigest(d, e).kinds, e);
    assert v.applied + [] == v.applied;
  }

  /** Enough evidence: an update keyed to this blackout. */
  lemma UpdatesModel(st: StationState, v: View, d: Digest, m: Model, e: int, n: nat, young: seq<int>)
    returns (v': View, receipt: Receipt)
    requires Knows(v, d, m) && Arrived(st, v, e) && e !in d.times && v.model == Loaded(m, []) && !SameEvent(m, e)
    requires !HasReceipt(d.updates, e)
    requires PendingFrom(WatchedDigest(d, e), n, young) && |young| >= 3 && 0.00825 <= m.irK <= MAX_K
    ensures receipt.eventAt == e && receipt.toValue == m.irK - MAX_STEP
    ensures v'.rows == v.rows + BlackoutRows(e) && v'.closed == v.closed + [BlackoutRows(e)] && v'.charging
    ensures v'.applied == v.applied + [AppliedUpdate(receipt, SeenAll(young))]
    ensures v'.model == Loaded(Model(receipt.toValue, Some(receipt)), [])
    ensures Shows(st, v')
    ensures Knows(v', Noted(WatchedDigest(d, e), Update(receipt)), Model(receipt.toValue, Some(receipt)))
  {
    hide Says, ProposeAndApply, HasReceipt, BlackoutRows, Shows, PendingFrom, RunFeedback, SeenAll;
    FeedbackOfNew(v, d, m, e);
    var l := Mind(Watched(v, e));
    var after;
    after, receipt := UpdateRecorded(l, WatchedDigest(d, e), m, n, young, WatchedDigest(d, e).kinds, e);
    v' := Learned(WithBlackout(v, e), RunFeedback(Mind(WithBlackout(v, e)), [BlackoutRows(e)]));
    OneMoreReceipt(d.updates, receipt);
  }

  // ----- polls and restarts of a run ------------------------------------------------------------

  lemma Rests(v: View, d: Digest, m: Model)
    requires Holds(Mind(v), d, m) && ReceiptIn(d, m)
    ensures AtRest(v)
  {
    hide Says, HasReceipt;
    RecoveredAlready(Mind(v), d, m);
  }

  lemma NotSummarised(v: View, d: Digest, m: Model, e: int)
    requires Holds(Mind(v), d, m)
    ensures HasEpisode(v.history.rows, e) <==> e in d.summarised
  {
    hide EventKinds, LastUpdate, ObservedRows, Updates, HasEpisode;
  }

  /** One more blackout without failing appends. */
  lemma Passes(st: StationState, v: View, d: Digest, m: Model, e: int)
    requires Shows(st, v) && Knows(v, d, m) && e !in d.summarised
    ensures Arrived(AfterAll(st, BlackoutSteps(e)), v, e)
  {
    hide Says, HasReceipt, Shows, RunFeedback, AtRest, HasEpisode;
    Rests(v, d, m);
    NotSummarised(v, d, m, e);
    BlackoutPasses(st, v, e);
  }

  /** The first blackout after a start; `begun` is the view after the replay. */
  lemma PassesAfterStart(st: StationState, v: View, begun: View, d: Digest, m: Model, e: int)
    requires Shows(st, v) && !v.replayed && v.tail == []
    requires var pass := RunFeedback(Mind(v), v.closed); pass.completed && begun == Learned(v, pass)
    requires Knows(begun, d, m) && e !in d.summarised
    ensures Arrived(AfterAll(st, BlackoutSteps(e)), begun, e)
  {
    hide Says, HasReceipt, Shows, RunFeedback, AtRest, HasEpisode;
    Rests(begun, d, m);
    NotSummarised(begun, d, m, e);
    BlackoutAfterStart(st, v, e);
  }

  /** A daemon on empty files. */
  function FreshStation(modelOutcomes: seq<ReplaceOutcome>, historyOutcomes: seq<bool>): StationState {
    StationState(Construct(Log([], []), Log([], historyOutcomes), None).0, Loaded(Model(0.015, None), modelOutcomes),
                 false, [], -1, 0)
  }

  function FreshView(modelOutcomes: seq<ReplaceOutcome>, historyOutcomes: seq<bool>): View {
    View([], [], [], false, Log([], historyOutcomes), Loaded(Model(0.015, None), modelOutcomes), false, [])
  }

  lemma FreshShows(modelOutcomes: seq<ReplaceOutcome>, historyOutcomes: seq<bool>)
    ensures Shows(FreshStation(modelOutcomes, historyOutcomes), FreshView(modelOutcomes, historyOutcomes))
    ensures RunFeedback(Mind(FreshView(modelOutcomes, historyOutcomes)), []) ==
            Pass(Mind(FreshView(modelOutcomes, historyOutcomes)), true, [])
  {}

  lemma UnmixedSum(a: seq<Row>, b: seq<Row>)
    requires Unmixed(a) && Unmixed(b)
    ensures Unmixed(a + b)
  {}

  lemma UnmixedBlackout(e: int)
    ensures Unmixed(BlackoutRows(e))
  {
    DischargeRows(e);
  }

  // ----- restarts inside a blackout --------------------------------------------------------------

  /** Recovery finds the receipt whatever will happen to the next writes. */
  lemma ReloadRests(v: View, d: Digest, m: Model, mo: seq<ReplaceOutcome>, h: seq<bool>)
    requires Reads(Mind(v), d, m) && ReceiptIn(d, m) && v.model.file.content == m
    ensures var l := Learner(Reloaded(v.model, mo), v.history.(outcomes := h));
            l.model == Loaded(m, mo) && Reads(l, d, m) && Recover(l) == Pass(l, true, [])
  {
    hide Says, HasReceipt;
    RecoveredAlready(Learner(Reloaded(v.model, mo), v.history.(outcomes := h)), d, m);
  }

  /** The view after a restart with an open episode. */
  function Reopened(v: View, m: Model, mo: seq<ReplaceOutcome>, h: seq<bool>): View {
    v.(model := Loaded(m, mo), history := v.history.(outcomes := h), replayed := false, charging := false)
  }

  lemma RestartsInside(st: StationState, v: View, d: Digest, m: Model, mo: seq<ReplaceOutcome>, h: seq<bool>)
    requires Shows(st, v) && v.tail != [] && Unmixed(v.rows)
    requires Reads(Mind(v), d, m) && ReceiptIn(d, m) && v.model.file.content == m
    ensures Shows(After(st, StartAgain(mo, [], h)), Reopened(v, m, mo, h))
  {
    OpenNotReconciled(v, st, v.history.(outcomes := h));
    hide Says, HasReceipt, Shows, Unmixed, Reconcile, Recover;
    RestartedView(st, v, mo, h);
    ReloadRests(v, d, m, mo, h);
  }

  /** A blackout whose first poll is followed by a restart, up to its second poll,
      which replays. */
  function Interrupted(e: int): seq<StationStep> {
    [Observe(Discharge(e)[0], BlackoutReal), StartAgain([], [], []), Observe(Discharge(e)[1], BlackoutReal)]
  }

  lemma AfterTwo(st: StationState, a: StationStep, b: StationStep)
    ensures AfterAll(st, [a, b]) == After(After(st, a), b)
  {
    AfterSum(st, [a], [b]);
    AfterOne(st, a);
    AfterOne(After(st, a), b);
    assert [a] + [b] == [a, b];
  }

  lemma AfterThree(st: StationState, a: StationStep, b: StationStep, c: StationStep)
    ensures AfterAll(st, [a, b, c]) == After(After(After(st, a), b), c)
  {
    AfterSum(st, [a, b], [c]);
    AfterTwo(st, a, b);
    AfterOne(After(After(st, a), b), c);
    assert [a, b] + [c] == [a, b, c];
  }

  /** The view after the interrupted start, with the feedback of the replay. */
  function Resumed(v: View, m: Model, e: int): View {
    var reopened := Reopened(v, m, [], []);
    var rows := Samples(Discharge(e)[..2]);
    Learned(reopened, RunFeedback(Mind(reopened), v.closed)).(rows := v.rows + rows, tail := rows)
  }

  lemma Interrupts(st: StationState, v: View, d: Digest, m: Model, e: int)
    requires Shows(st, v) && Knows(v, d, m) && v.model.file.content == m && Unmixed(v.rows)
    ensures Shows(AfterAll(st, Interrupted(e)), Resumed(v, m, e))
  {
    hide Says, HasReceipt, Shows, RunFeedback, AtRest, Unmixed, PollStation, RestartStation;
    RestoredFacts(e);
    var os := Discharge(e);
    Rests(v, d, m);
    ActivePoll(st, v, os[0]);
    var one := v.(rows := v.rows + [Sample(os[0])], tail := [Sample(os[0])], charging := false);
    assert v.tail + [Sample(os[0])] == [Sample(os[0])];
    RestingPoll(v, one);
    var st1 := PollStation(st, os[0], BlackoutReal);
    UnmixedFirst(v.rows, e);
    RestartsInside(st1, one, d, m, [], []);
    var two := Reopened(one, m, [], []);
    var st2 := RestartStation(st1, [], [], []);
    ActivePoll(st2, two, os[1]);
    AfterThree(st, Observe(os[0], BlackoutReal), StartAgain([], [], []), Observe(os[1], BlackoutReal));
    TwoSamples(v.rows, os);
  }

  lemma TwoSamples(rows: seq<Row>, os: seq<Observation>)
    requires |os| >= 2
    ensures Samples(os[..2]) == [Sample(os[0])] + [Sample(os[1])]
    ensures rows + [Sample(os[0])] + [Sample(os[1])] == rows + Samples(os[..2])
  {}

  lemma UnmixedFirst(rows: seq<Row>, e: int)
    requires Unmixed(rows)
    ensures Unmixed(rows + [Sample(Discharge(e)[0])])
  {
    DischargeRows(e);
    assert Sample(Discharge(e)[0]) == Samples(Discharge(e))[0];
  }

  /** The rest of an interrupted blackout. */
  function Remaining(e: int): seq<StationStep> {
    Polls(Discharge(e)[2..], BlackoutReal) + [Observe(Restored(e), Online)]
  }

  lemma Remains(st: StationState, v: View, begun: View, d: Digest, m: Model, e: int)
    requires Shows(st, v) && v.tail == Samples(Discharge(e)[..2]) && v.rows == begun.rows + v.tail
    requires begun == v.(rows := begun.rows, tail := [])
    requires Knows(begun, d, m) && e !in d.summarised
    ensures Arrived(AfterAll(st, Remaining(e)), begun, e)
  {
    hide Says, HasReceipt, Shows, RunFeedback, AtRest, HasEpisode, PollStation, Samples, Sample;
    RestoredFacts(e);
    Rests(begun, d, m);
    RestIsMind(begun, v);
    NotSummarised(begun, d, m, e);
    var os := Discharge(e);
    ActivePolls(st, v, os[2..]);
    var grown := Grown(v, os[2..]);
    WriterPending.SamplesOfSum(os[..2], os[2..]);
    assert os[..2] + os[2..] == os;
    assert grown.tail == Samples(os);
    assert grown.rows == begun.rows + Samples(os);
    var mid := AfterAll(st, Polls(os[2..], BlackoutReal));
    BlackoutEnds(mid, grown, e);
    AfterSum(st, Polls(os[2..], BlackoutReal), [Observe(Restored(e), Online)]);
    AfterOne(mid, Observe(Restored(e), Online));
    assert grown.rows + [Sample(Restored(e))] == begun.rows + BlackoutRows(e);
  }

  // ----- a blackout whose summary is lost ----------------------------------------------------------

  /** A restart just before mains return, and a history append that then fails. */
  function LostSteps(e: int): seq<StationStep> {
    Polls(Discharge(e), BlackoutReal) + [StartAgain([], [], [false]), Observe(Restored(e), Online)]
  }

  /** After it, before the feedback, which replays every closed episode. */
  function Lost(v: View, m: Model, e: int): View {
    v.(rows := v.rows + BlackoutRows(e), closed := v.closed + [BlackoutRows(e)], tail := [], charging := true,
       model := Loaded(m, []), replayed := false)
  }

  lemma Loses(st: StationState, v: View, d: Digest, m: Model, e: int)
    requires Shows(st, v) && Knows(v, d, m) && v.model.file.content == m && Unmixed(v.rows) && e !in d.summarised
    ensures var after := Lost(v, m, e);
            Shows(AfterAll(st, LostSteps(e)), Learned(after, RunFeedback(Mind(after), after.closed)))
  {
    hide Says, HasReceipt, Shows, RunFeedback, AtRest, HasEpisode, Unmixed, PollStation, RestartStation;
    RestoredFacts(e);
    Rests(v, d, m);
    NotSummarised(v, d, m, e);
    var os := Discharge(e);
    ActivePolls(st, v, os);
    var grown := Grown(v, os);
    assert grown.tail == Samples(os);
    var st1 := AfterAll(st, Polls(os, BlackoutReal));
    UnmixedDischarge(v.rows, e);
    RestartsInside(st1, grown, d, m, [], [false]);
    var two := Reopened(grown, m, [], [false]);
    var st2 := After(st1, StartAgain([], [], [false]));
    hide Samples, Sample;
    BlackoutEnds(st2, two, e);
    AfterSum(st, Polls(os, BlackoutReal), [StartAgain([], [], [false]), Observe(Restored(e), Online)]);
    AfterTwo(st1, StartAgain([], [], [false]), Observe(Restored(e), Online));
    assert v.rows + Samples(os) + [Sample(Restored(e))] == v.rows + BlackoutRows(e);
    assert Later([false]) == [];
  }

  lemma UnmixedDischarge(rows: seq<Row>, e: int)
    requires Unmixed(rows)
    ensures Unmixed(rows + Samples(Discharge(e)))
  {
    DischargeRows(e);
  }

  // ----- evidence used twice ---------------------------------------------------------------------------

  const DEFAULT_MODEL := Model(0.015, None)

  lemma WatchedFacts(d: Digest, e: int)
    ensures WatchedDigest(d, e) ==
            Digest(d.kinds[e := ObservedKind], d.last, d.times + [e], d.updates, d.summarised + {e})
  {
    assert d.kinds[e := BlackoutKindRow][e := ObservedKind] == d.kinds[e := ObservedKind];
  }

  /** One more event is pending. */
  lemma PendingGrows(d: Digest, e: int, n: nat, young: seq<int>)
    requires PendingFrom(d, n, young) && AllUpTo(d.times, e - 1) && (d.last.Some? ==> e > d.last.value)
    ensures PendingFrom(WatchedDigest(d, e), n, young + [e])
  {
    WatchedFacts(d, e);
    assert (d.times + [e])[n..] == young + [e] && (d.times + [e])[..n] == d.times[..n];
  }

  lemma FirstBlackout(mo: seq<ReplaceOutcome>) returns (v: View, d: Digest)
    ensures Shows(AfterAll(FreshStation(mo, []), BlackoutSteps(0)), v) && Knows(v, d, DEFAULT_MODEL)
    ensures d == Digest(map[0 := ObservedKind], None, [0], [], {0}) && PendingFrom(d, 0, [0])
    ensures v.rows == BlackoutRows(0) && v.closed == [BlackoutRows(0)] && v.charging
    ensures v.model == Loaded(DEFAULT_MODEL, mo) && v.applied == []
  {
    hide Says, HasReceipt, Shows, RunFeedback, BlackoutRows, FreshStation, PendingFrom, WatchedDigest, BlackoutSteps,
         AfterAll, Arrived, Knows;
    var begun := FreshView(mo, []).(replayed := true);
    FirstArrives(mo);
    d := WatchedDigest(EMPTY_DIGEST, 0);
    WatchedFacts(EMPTY_DIGEST, 0);
    EmptyPending();
    PendingGrows(EMPTY_DIGEST, 0, 0, []);
    assert [] + [0] == [0];
    Watches(AfterAll(FreshStation(mo, []), BlackoutSteps(0)), begun, EMPTY_DIGEST, DEFAULT_MODEL, 0, 0, [0]);
    v := Watched(begun, 0);
    assert [] + BlackoutRows(0) == BlackoutRows(0);
  }

  lemma FirstArrives(mo: seq<ReplaceOutcome>)
    ensures var begun := FreshView(mo, []).(replayed := true);
            Knows(begun, EMPTY_DIGEST, DEFAULT_MODEL)
                && Arrived(AfterAll(FreshStation(mo, []), BlackoutSteps(0)), begun, 0)
  {
    hide Says, HasReceipt, Shows, RunFeedback, BlackoutRows, FreshStation;
    FreshShows(mo, []);
    EmptySays();
    var begun := FreshView(mo, []).(replayed := true);
    PassesAfterStart(FreshStation(mo, []), FreshView(mo, []), begun, EMPTY_DIGEST, DEFAULT_MODEL, 0);
  }

  lemma EmptyPending()
    ensures PendingFrom(EMPTY_DIGEST, 0, [])
  {}

  lemma SecondBlackout(st: StationState, v: View, d: Digest)
    requires Shows(st, v) && Knows(v, d, DEFAULT_MODEL)
    requires d == Digest(map[0 := ObservedKind], None, [0], [], {0}) && PendingFrom(d, 0, [0])
    ensures var st', v', d' := AfterAll(st, BlackoutSteps(100)), Watched(v, 100), WatchedDigest(d, 100);
            && Shows(st', v') && Knows(v', d', DEFAULT_MODEL) && PendingFrom(d', 0, [0, 100])
            && d' == Digest(map[0 := ObservedKind, 100 := ObservedKind], None, [0, 100], [], {0, 100})
  {
    hide Says, HasReceipt, Shows, RunFeedback, BlackoutRows, PendingFrom, WatchedDigest;
    Passes(st, v, d, DEFAULT_MODEL, 100);
    WatchedFacts(d, 100);
    PendingGrows(d, 100, 0, [0]);
    assert [0] + [100] == [0, 100];
    Watches(AfterAll(st, BlackoutSteps(100)), v, d, DEFAULT_MODEL, 100, 0, [0, 100]);
  }

  /** The model write for the third blackout is refused. */
  lemma ThirdRefused(st: StationState, v: View, d: Digest)
    requires Shows(st, v) && Knows(v, d, DEFAULT_MODEL) && v.model == Loaded(DEFAULT_MODEL, [Refused])
    requires d == Digest(map[0 := ObservedKind, 100 := ObservedKind], None, [0, 100], [], {0, 100})
             && PendingFrom(d, 0, [0, 100])
    ensures var v', d' := Watched(v, 200).(model := Loaded(DEFAULT_MODEL, [])), WatchedDigest(d, 200);
            && Shows(AfterAll(st, BlackoutSteps(200)), v') && Knows(v', d', DEFAULT_MODEL)
            && PendingFrom(d', 0, [0, 100, 200])
            && d' == Digest(map[0 := ObservedKind, 100 := ObservedKind, 200 := ObservedKind], None, [0, 100, 200], [],
               {0, 100, 200})
  {
    hide Says, HasReceipt, Shows, RunFeedback, BlackoutRows, PendingFrom, WatchedDigest;
    Passes(st, v, d, DEFAULT_MODEL, 200);
    WatchedFacts(d, 200);
    PendingGrows(d, 200, 0, [0, 100]);
    assert [0, 100] + [200] == [0, 100, 200];
    Refuses(AfterAll(st, BlackoutSteps(200)), v, d, DEFAULT_MODEL, 200, 0, [0, 100, 200]);
  }

  /** The replay after the crash: one update, keyed to the oldest blackout. */
  lemma ReplayKeysOldest(l: Learner, d: Digest) returns (after: Learner, receipt: Receipt)
    requires Holds(l, d, DEFAULT_MODEL) && l.model == Loaded(DEFAULT_MODEL, [])
    requires d == Digest(map[0 := ObservedKind, 100 := ObservedKind, 200 := ObservedKind], None, [0, 100, 200], [],
             {0, 100, 200})
    requires PendingFrom(d, 0, [0, 100, 200])
    ensures receipt.eventAt == 0 && receipt.toValue == 0.013
    ensures PendingFrom(Noted(d, Update(receipt)), 1, [100, 200])
    ensures Holds(after, Noted(d, Update(receipt)), Model(0.013, Some(receipt)))
            && after.model == Loaded(after.model.memory, [])
    ensures RunFeedback(l, AllBlackouts([0, 100, 200]))
            == Pass(after, true, [AppliedUpdate(receipt, SeenAll([0, 100, 200]))])
  {
    hide Says, OneEpisode, ProposeAndApply, SeenAll, ApplyFeedback, AllBlackouts;
    RecoveredAlready(l, d, DEFAULT_MODEL);
    SaysKinds(l.history.rows, d);
    ObservedTurn(l, d.kinds, 0);
    after, receipt := UpdateRecorded(l, d, DEFAULT_MODEL, 0, [0, 100, 200], d.kinds, 0);
    var kinds := d.kinds[0 := UpdateKind];
    var turn := Turn(Pass(after, true, [AppliedUpdate(receipt, SeenAll([0, 100, 200]))]), kinds);
    TurnThenRest(l, d.kinds, 0, [100, 200], turn);
    assert [0] + [100, 200] == [0, 100, 200];
    var noted, m := Noted(d, Update(receipt)), Model(0.013, Some(receipt));
    assert noted.times[1..] == [100, 200] && noted.times[..1] == [0];
    QuietPass(after, noted, m, 1, [100, 200], kinds, [100, 200], []);
    assert [100, 200] + [] == [100, 200];
    EmptyPass(after, kinds);
  }

  function ReuseSteps(): seq<StationStep> {
    BlackoutSteps(0) + BlackoutSteps(100) + BlackoutSteps(200) + Interrupted(300) + Remaining(300)
  }

  lemma ThreeClosed(v: View)
    requires v.closed == [BlackoutRows(0)] + [BlackoutRows(100)] + [BlackoutRows(200)]
    ensures v.closed == AllBlackouts([0, 100, 200])
  {}

  /** The daemon dies after recording its third blackout, before the model is
      written.  The replay keys the update to the blackout at 0, so those at 100
      and 200 are used again for the update after the fourth blackout. */
  lemma EvidenceReusedAfterCrash()
    ensures var us := AfterAll(FreshStation([Refused], []), ReuseSteps()).applied;
            && |us| == 2
            && us[0].receipt.eventAt == 0 && us[0].cohort == SeenAll([0, 100, 200])
            && us[1].receipt.eventAt == 300 && us[1].cohort == SeenAll([100, 200, 300])
  {
    hide Says, HasReceipt, Shows, RunFeedback, BlackoutRows, FreshStation, SeenAll, Interrupted, Remaining,
         BlackoutSteps, PendingFrom, AfterAll;
    var st0 := FreshStation([Refused], []);
    var v1, d1 := FirstBlackout([Refused]);
    var st1 := AfterAll(st0, BlackoutSteps(0));
    SecondBlackout(st1, v1, d1);
    var st2, v2, d2 := AfterAll(st1, BlackoutSteps(100)), Watched(v1, 100), WatchedDigest(d1, 100);
    ThirdRefused(st2, v2, d2);
    var st3, v3, d3 := AfterAll(st2, BlackoutSteps(200)), Watched(v2, 200).(model := Loaded(DEFAULT_MODEL, [])),
        WatchedDigest(d2, 200);
    UnmixedThree(v3.rows);
    Interrupts(st3, v3, d3, DEFAULT_MODEL, 300);
    var st4, v4 := AfterAll(st3, Interrupted(300)), Resumed(v3, DEFAULT_MODEL, 300);
    ThreeClosed(v3);
    var reopened := Reopened(v3, DEFAULT_MODEL, [], []);
    var after, receipt := ReplayKeysOldest(Mind(reopened), d3);
    var begun := Learned(reopened, RunFeedback(Mind(reopened), v3.closed));
    var d4, m4 := Noted(d3, Update(receipt)), Model(0.013, Some(receipt));
    OneReceipt(receipt, 0);
    assert d4.updates == [receipt];
    Remains(st4, v4, begun, d4, m4, 300);
    var st5 := AfterAll(st4, Remaining(300));
    PendingGrows(d4, 300, 1, [100, 200]);
    assert [100, 200] + [300] == [100, 200, 300];
    assert !HasReceipt([receipt], 300) by { OneReceipt(receipt, 300); }
    var v5, receipt' := UpdatesModel(st5, begun, d4, m4, 300, 1, [100, 200, 300]);
    AfterFive(st0, BlackoutSteps(0), BlackoutSteps(100), BlackoutSteps(200), Interrupted(300), Remaining(300));
    assert st5.applied == v5.applied by { ShowsApplied(st5, v5); }
  }

  lemma ShowsApplied(st: StationState, v: View)
    requires Shows(st, v)
    ensures st.applied == v.applied && st.model == v.model && st.writer.history == v.history
            && st.writer.file.rows == v.rows
    ensures ClosedEpisodes(st.writer.file.rows) == v.closed
  {}

  lemma OneReceipt(r: Receipt, e: int)
    ensures HasReceipt([r], e) <==> e == r.eventAt
  {
    assert [r][0] == r;
  }

  lemma UnmixedThree(rows: seq<Row>)
    requires rows == BlackoutRows(0) + BlackoutRows(100) + BlackoutRows(200)
    ensures Unmixed(rows)
  {
    hide BlackoutRows;
    UnmixedBlackout(0);
    UnmixedBlackout(100);
    UnmixedBlackout(200);
  }

  lemma AfterFive(st: StationState, a: seq<StationStep>, b: seq<StationStep>, c: seq<StationStep>, d: seq<StationStep>,
        e: seq<StationStep>)
    ensures AfterAll(st, a + b + c + d + e) == AfterAll(AfterAll(AfterAll(AfterAll(AfterAll(st, a), b), c), d), e)
  {
    hide AfterAll;
    AfterSum(st, a + b + c + d, e);
    AfterSum(st, a + b + c, d);
    AfterSum(st, a + b, c);
    AfterSum(st, a, b);
  }

  // ----- what a restart reconciles after such runs -----------------------------------------------------

  lemma LatestOfBlackout(before: seq<Row>, e: int)
    requires before == [] || !ActiveRow(before[|before| - 1])
    ensures LatestClosed(before + BlackoutRows(e)) == Some((|before|, |before| + 5))
  {
    hide BlackoutRows, ActiveRow, LatestClosed;
    BlackoutShape(e);
    LastRunClosed(before, BlackoutRows(e));
  }

  lemma LastRunClosed(before: seq<Row>, rows: seq<Row>)
    requires before == [] || !ActiveRow(before[|before| - 1])
    requires |rows| == 6 && !ActiveRow(rows[5]) && forall i :: 0 <= i < 5 ==> ActiveRow(rows[i])
    ensures LatestClosed(before + rows) == Some((|before|, |before| + 5))
  {
    hide ActiveRow;
    var file, n := before + rows, |before|;
    assert file[..n + 5][n + 4] == file[n + 4] == rows[4] && file[n + 5] == rows[5];
    assert LastActiveEnd(file) == LastActiveEnd(file[..n + 5]) == n + 5;
    RunReachesBack(file, n, n + 5);
  }

  lemma BlackoutShape(e: int)
    ensures var rows := BlackoutRows(e);
            && |rows| == 6 && !ActiveRow(rows[5]) && OnlineRow(rows[5])
            && (forall i :: 0 <= i < 5 ==> ActiveRow(rows[i]))
            && rows[0].at == e && rows[1].at == e + 10 && rows[2].at == e + 20 && EventStart(rows) == Some(e)
  {
    DischargeRows(e);
    var rows := BlackoutRows(e);
    assert forall i :: 0 <= i < 5 ==> rows[i] == Samples(Discharge(e))[i];
    BlackoutIsSeen(e);
  }

  /** No kind is a summary's. */
  predicate NoSummaryLast(kinds: map<int, RowKind>) {
    forall e :: e in kinds ==> kinds[e] == ObservedKind || kinds[e] == UpdateKind
  }

  lemma NothingAtOrAfter(rows: seq<HistoryRow>, d: Digest, at: int)
    requires Says(rows, d) && NoSummaryLast(d.kinds)
    ensures !EpisodeAtOrAfter(EventKinds(rows), at)
  {
    hide LastUpdate, ObservedRows, Updates, HasEpisode, HasObserved, HasUpdate;
  }

  lemma DigestSummarised(rows: seq<HistoryRow>, d: Digest, e: int)
    requires Says(rows, d)
    ensures HasEpisode(rows, e) <==> e in d.summarised
  {
    hide EventKinds, LastUpdate, ObservedRows, Updates, HasEpisode, HasObserved, HasUpdate;
  }

  /** The reconciled key is in the history already. */
  lemma NothingReconciled(rows: seq<Row>, history: Log<HistoryRow>, d: Digest, key: int)
    requires ReconciledKey(rows) == Some(key) && Says(history.rows, d) && key in d.summarised
    ensures Reconcile(rows, history) == (history, AlreadyThere)
  {
    hide Says, Reconcile, ReconciledKey, EpisodeAtOrAfter, HasEpisode, EventKinds;
    ReconcileExactly(rows, history);
    DigestSummarised(history.rows, d, key);
  }

  /** It is not, and no summary is the last row of its event. */
  lemma SomethingReconciled(rows: seq<Row>, history: Log<HistoryRow>, d: Digest, key: int) returns (row: HistoryRow)
    requires LatestClosed(rows).Some? && ReconciledKey(rows) == Some(key)
    requires Says(history.rows, d) && key !in d.summarised && NoSummaryLast(d.kinds)
    ensures row.Episode? && !row.selfTest && row.at == key && Reconcile(rows, history).0 == history.Append(row)
  {
    LatestBounds(rows);
    hide Says, Reconcile, ReconciledKey, EpisodeAtOrAfter, HasEpisode, EventKinds, LatestClosed, NoSummaryLast;
    ReconcileExactly(rows, history);
    DigestSummarised(history.rows, d, key);
    NothingAtOrAfter(history.rows, d, rows[LatestClosed(rows).value.0].at);
    row := ReconciledRow(rows, history);
  }

  /** A restart between blackouts. */
  lemma RestartsIdle(st: StationState, v: View, d: Digest, m: Model, mo: seq<ReplaceOutcome>, history: Log<HistoryRow>,
        d': Digest)
    requires Shows(st, v) && Unmixed(v.rows) && Holds(Mind(v), d, m) && v.model.file.content == m
    requires Reconcile(v.rows, v.history).0 == history && Says(history.rows, d') && history.outcomes == []
             && ReceiptIn(d', m)
    ensures Shows(After(st, StartAgain(mo, [], [])),
                  v.(history := history, model := Loaded(m, mo), replayed := false, charging := false))
  {
    hide Says, HasReceipt, Shows, Unmixed, Reconcile, Recover;
    RestartedView(st, v, mo, []);
    assert v.history.(outcomes := []) == v.history;
    RecoveredAlready(Learner(Reloaded(v.model, mo), history), d', m);
  }

  // ----- the latest blackout is never recorded -----------------------------------------------------------

  function Restarts(n: nat): seq<StationStep> {
    if n == 0 then [] else [StartAgain([], [], [])] + Restarts(n - 1)
  }

  lemma KeyOfFirst(rows: seq<Row>)
    requires rows == BlackoutRows(0) + BlackoutRows(100)
    ensures ReconciledKey(rows) == Some(0)
  {
    hide BlackoutRows, EventStart;
    BlackoutShape(0);
    BlackoutShape(100);
    LatestOfBlackout(BlackoutRows(0), 100);
    FirstActiveOfSlice(rows, 0, 6, 11);
    hide LatestClosed;
    assert ReconciledSlice(rows, 6, 11)[0] == rows[0] == BlackoutRows(0)[0];
    assert FirstActive(ReconciledSlice(rows, 6, 11)) == 0;
  }

  lemma RestartsUnfold(n: nat)
    requires n > 0
    ensures Restarts(n) == [StartAgain([], [], [])] + Restarts(n - 1)
  {}

  lemma RestartChangesNothing(st: StationState, v: View, d: Digest)
    requires Shows(st, v) && Holds(Mind(v), d, DEFAULT_MODEL) && v.model == Loaded(DEFAULT_MODEL, [])
    requires v.rows == BlackoutRows(0) + BlackoutRows(100) && 0 in d.summarised && v.tail == []
    ensures Shows(After(st, StartAgain([], [], [])), v.(replayed := false, charging := false))
  {
    hide Says, Shows, BlackoutRows, Unmixed, Reconcile, HasReceipt;
    UnmixedBlackout(0);
    UnmixedBlackout(100);
    UnmixedSum(BlackoutRows(0), BlackoutRows(100));
    KeyOfFirst(v.rows);
    NothingReconciled(v.rows, v.history, d, 0);
    RestartsIdle(st, v, d, DEFAULT_MODEL, [], v.history, d);
    assert v.(history := v.history, model := Loaded(DEFAULT_MODEL, []), replayed := false, charging := false)
        == v.(replayed := false, charging := false);
  }

  lemma NoRestarts(st: StationState)
    ensures AfterAll(st, Restarts(0)) == st
  {}

  lemma {:induction false} RestartsChangeNothing(st: StationState, v: View, d: Digest, n: nat) returns (v': View)
    requires Shows(st, v) && Holds(Mind(v), d, DEFAULT_MODEL) && v.model == Loaded(DEFAULT_MODEL, [])
    requires v.rows == BlackoutRows(0) + BlackoutRows(100) && 0 in d.summarised && v.tail == []
    ensures Shows(AfterAll(st, Restarts(n)), v')
    ensures v'.history == v.history && v'.closed == v.closed && v'.rows == v.rows
    decreases n
  {
    hide Says, Shows, BlackoutRows, After, AfterAll, Restarts;
    if n == 0 {
      NoRestarts(st);
      v' := v;
    } else {
      RestartChangesNothing(st, v, d);
      var next := After(st, StartAgain([], [], []));
      v' := RestartsChangeNothing(next, v.(replayed := false, charging := false), d, n - 1);
      RestartsUnfold(n);
      AfterSum(st, [StartAgain([], [], [])], Restarts(n - 1));
      AfterOne(st, StartAgain([], [], []));
    }
  }

  lemma LostAndObserved(l: Learner, d: Digest) returns (after: Learner)
    requires Holds(l, d, DEFAULT_MODEL) && d == Digest(map[0 := ObservedKind], None, [0], [], {0})
             && PendingFrom(d, 0, [0])
    ensures Holds(after, Noted(d, Observed(Seen(100))), DEFAULT_MODEL) && after.model == l.model
    ensures RunFeedback(l, AllBlackouts([0, 100])) == Pass(after, true, [])
  {
    hide Says, OneEpisode, ProposeAndApply, SeenAll, ApplyFeedback, AllBlackouts, PendingFrom;
    RecoveredAlready(l, d, DEFAULT_MODEL);
    SaysKinds(l.history.rows, d);
    QuietPass(l, d, DEFAULT_MODEL, 0, [0], d.kinds, [0], [100]);
    assert [0] + [100] == [0, 100] && [100] + [] == [100];
    var d';
    after, d' := BlackoutTurn(l, d, DEFAULT_MODEL, d.kinds, 100);
    var kinds := d.kinds[100 := ObservedKind];
    TwoPending(d);
    NothingProposed(after, d', DEFAULT_MODEL, 0, [0, 100], kinds, 100);
    TurnThenRest(l, d.kinds, 100, [], Turn(Pass(after, true, []), kinds));
    EmptyPass(after, kinds);
  }

  lemma TwoPending(d: Digest)
    requires d == Digest(map[0 := ObservedKind], None, [0], [], {0})
    ensures PendingFrom(Noted(d, Observed(Seen(100))), 0, [0, 100])
  {}

  /** The summary of the second blackout is lost; whatever number of restarts
      follows, reconciliation finds the first one instead. */
  lemma LatestNotRecovered(n: nat)
    ensures var st := AfterAll(FreshStation([], []), BlackoutSteps(0) + LostSteps(100) + Restarts(n));
            && ClosedEpisodes(st.writer.file.rows) == [BlackoutRows(0), BlackoutRows(100)]
            && EventStart(BlackoutRows(100)) == Some(100) && !HasEpisode(st.writer.history.rows, 100)
  {
    hide Says, HasReceipt, Shows, RunFeedback, BlackoutRows, FreshStation, BlackoutSteps, LostSteps, Restarts,
         HasEpisode, EventStart, ClosedEpisodes, PendingFrom;
    var st0 := FreshStation([], []);
    var v1, d1 := FirstBlackout([]);
    var st1 := AfterAll(st0, BlackoutSteps(0));
    UnmixedBlackout(0);
    Loses(st1, v1, d1, DEFAULT_MODEL, 100);
    var st2, w := AfterAll(st1, LostSteps(100)), Lost(v1, DEFAULT_MODEL, 100);
    var after := LostAndObserved(Mind(w), d1);
    assert w.closed == AllBlackouts([0, 100]);
    var v2, d2 := Learned(w, RunFeedback(Mind(w), w.closed)), Noted(d1, Observed(Seen(100)));
    var v3 := RestartsChangeNothing(st2, v2, d2, n);
    var st3 := AfterAll(st2, Restarts(n));
    ShowsApplied(st3, v3);
    DigestSummarised(v2.history.rows, d2, 100);
    BlackoutShape(100);
    AfterSum(st0, BlackoutSteps(0) + LostSteps(100), Restarts(n));
    AfterSum(st0, BlackoutSteps(0), LostSteps(100));
  }

  // ----- a restart records a blackout that never happened ------------------------------------------------

  /** n seconds of charging from second t on. */
  function Charge(t: int, n: nat): (os: seq<Observation>)
    ensures |os| == n
  {
    seq(n, i requires 0 <= i < n => Charging(t + i))
  }

  lemma ChargeFacts(t: int, n: nat)
    ensures forall i :: 0 <= i < n ==> Classified(Charge(t, n)[i].status, Online) && BelowFull(Charge(t, n)[i])
    ensures forall i :: 0 <= i < n ==> OnlineRow(Samples(Charge(t, n))[i]) && !ActiveRow(Samples(Charge(t, n))[i])
    ensures |Samples(Charge(t, n))| == n && Unmixed(Samples(Charge(t, n)))
  {
    forall i | 0 <= i < n
      ensures Charge(t, n)[i] == Charging(t + i) && Samples(Charge(t, n))[i] == Sample(Charging(t + i)) {}
  }

  lemma Charges(st: StationState, v: View, d: Digest, m: Model, t: int, n: nat)
    requires Shows(st, v) && Knows(v, d, m) && v.charging
    ensures var after := v.(rows := v.rows + Samples(Charge(t, n)));
            Shows(AfterAll(st, Polls(Charge(t, n), Online)), after) && Knows(after, d, m)
  {
    hide Says, HasReceipt, Shows, AtRest, Charge;
    Rests(v, d, m);
    ChargeFacts(t, n);
    ChargePolls(st, v, Charge(t, n));
  }

  /** The file after a blackout at 0, 27 seconds of charging and a blackout at 100. */
  function CutRows(): seq<Row> {
    BlackoutRows(0) + Samples(Charge(46, 27)) + BlackoutRows(100)
  }

  lemma CutFacts()
    ensures LatestClosed(CutRows()) == Some((33, 38)) && CutsEpisode(CutRows())
    ensures ReconciledKey(CutRows()) == Some(20) && Unmixed(CutRows())
  {
    hide BlackoutRows, Samples, Charge;
    var rows, before := CutRows(), BlackoutRows(0) + Samples(Charge(46, 27));
    BlackoutShape(0);
    BlackoutShape(100);
    ChargeFacts(46, 27);
    assert before[32] == Samples(Charge(46, 27))[26];
    LatestOfBlackout(before, 100);
    assert rows[1] == BlackoutRows(0)[1] && rows[2] == BlackoutRows(0)[2];
    hide LatestClosed;
    CutIndex(rows);
    IndexStartsRun(rows);
    UnmixedBlackout(0);
    UnmixedBlackout(100);
    UnmixedSum(BlackoutRows(0), Samples(Charge(46, 27)));
    UnmixedSum(before, BlackoutRows(100));
  }

  function CutSteps(): seq<StationStep> {
    BlackoutSteps(0) + Polls(Charge(46, 27), Online) + BlackoutSteps(100)
  }

  lemma CutView() returns (v: View, d: Digest)
    ensures Shows(AfterAll(FreshStation([], []), CutSteps()), v) && Knows(v, d, DEFAULT_MODEL)
    ensures v.rows == CutRows() && v.closed == [BlackoutRows(0), BlackoutRows(100)]
            && v.model == Loaded(DEFAULT_MODEL, [])
    ensures d == Digest(map[0 := ObservedKind, 100 := ObservedKind], None, [0, 100], [], {0, 100})
  {
    hide Says, HasReceipt, Shows, RunFeedback, BlackoutRows, FreshStation, BlackoutSteps, PendingFrom, Samples,
         Charge, AfterAll, WatchedDigest;
    var st0 := FreshStation([], []);
    var v1, d1 := FirstBlackout([]);
    var st1 := AfterAll(st0, BlackoutSteps(0));
    Charges(st1, v1, d1, DEFAULT_MODEL, 46, 27);
    var st2, v2 := AfterAll(st1, Polls(Charge(46, 27), Online)), v1.(rows := v1.rows + Samples(Charge(46, 27)));
    SecondBlackout(st2, v2, d1);
    v, d := Watched(v2, 100), WatchedDigest(d1, 100);
    AfterSum(st0, BlackoutSteps(0) + Polls(Charge(46, 27), Online), BlackoutSteps(100));
    AfterSum(st0, BlackoutSteps(0), Polls(Charge(46, 27), Online));
  }

  /** Two blackouts, both recorded and learned from, without any failure: a restart
      then records one at second 20, where none began. */
  lemma RestartInventsBlackout()
    ensures var st := AfterAll(FreshStation([], []), CutSteps());
            var after := After(st, StartAgain([], [], []));
            && ClosedEpisodes(after.writer.file.rows) == ClosedEpisodes(st.writer.file.rows)
               == [BlackoutRows(0), BlackoutRows(100)]
            && EventStart(BlackoutRows(0)) == Some(0) && EventStart(BlackoutRows(100)) == Some(100)
            && !HasEpisode(st.writer.history.rows, 20) && HasEpisode(after.writer.history.rows, 20)
  {
    hide Says, HasReceipt, Shows, BlackoutRows, FreshStation, CutSteps, HasEpisode, EventStart, ClosedEpisodes,
         CutRows, Reconcile, ReconciledKey, LatestClosed, CutsEpisode, Unmixed;
    var st := AfterAll(FreshStation([], []), CutSteps());
    var v, d := CutView();
    CutFacts();
    var row := SomethingReconciled(v.rows, v.history, d, 20);
    var history := v.history.Append(row);
    SaysMore(v.history.rows, d, row);
    RestartsIdle(st, v, d, DEFAULT_MODEL, [], history, Noted(d, row));
    var after := After(st, StartAgain([], [], []));
    ShowsApplied(st, v);
    ShowsApplied(after, v.(history := history, model := Loaded(DEFAULT_MODEL, []), replayed := false,
        charging := false));
    DigestSummarised(v.history.rows, d, 20);
    DigestSummarised(history.rows, Noted(d, row), 20);
    BlackoutShape(0);
    BlackoutShape(100);
  }

  // ----- an update that never reaches the history -------------------------------------------------------------

  /** Blackouts at 0 and 100, half a minute of charging, and one at 200 whose
      summary is lost and which the replay after its restart learns from; a restart
      that records the summary late; blackouts at 300, 400 and 500, for the last of
      which the model write is refused; and a restart inside a blackout at 600. */
  function LateSteps(): seq<StationStep> {
    BlackoutSteps(0) + BlackoutSteps(100) + Polls(Charge(146, 31), Online) + LostSteps(200)
    + [StartAgain([Refused], [], [])]
    + (BlackoutSteps(300) + (BlackoutSteps(400) + BlackoutSteps(500)) + Interrupted(600))
  }

  function LateRows(): seq<Row> {
    BlackoutRows(0) + BlackoutRows(100) + Samples(Charge(146, 31)) + BlackoutRows(200)
  }

  lemma LateFacts()
    ensures LatestClosed(LateRows()) == Some((43, 48)) && ReconciledKey(LateRows()) == Some(200)
    ensures Unmixed(LateRows()) && Unmixed(BlackoutRows(0) + BlackoutRows(100) + Samples(Charge(146, 31)))
  {
    hide BlackoutRows, Samples, Charge;
    var rows, before := LateRows(), BlackoutRows(0) + BlackoutRows(100) + Samples(Charge(146, 31));
    BlackoutShape(0);
    BlackoutShape(100);
    BlackoutShape(200);
    ChargeFacts(146, 31);
    assert before[42] == Samples(Charge(146, 31))[30];
    LatestOfBlackout(before, 200);
    assert forall i :: 12 <= i < 43 ==> rows[i] == Samples(Charge(146, 31))[i - 12];
    assert rows[43] == BlackoutRows(200)[0];
    SliceHasActive(rows);
    UnmixedBlackout(0);
    UnmixedBlackout(100);
    UnmixedBlackout(200);
    UnmixedSum(BlackoutRows(0), BlackoutRows(100));
    UnmixedSum(BlackoutRows(0) + BlackoutRows(100), Samples(Charge(146, 31)));
    UnmixedSum(before, BlackoutRows(200));
  }

  const KINDS_BEFORE := map[0 := ObservedKind, 100 := ObservedKind]

  /** The replay after the lost summary learns from the third blackout. */
  lemma LostAndLearned(l: Learner, d: Digest) returns (after: Learner, receipt: Receipt, d': Digest)
    requires Holds(l, d, DEFAULT_MODEL) && l.model == Loaded(DEFAULT_MODEL, [])
    requires d == Digest(KINDS_BEFORE, None, [0, 100], [], {0, 100}) && PendingFrom(d, 0, [0, 100])
    ensures receipt.eventAt == 200 && receipt.toValue == 0.013
    ensures d' == Digest(KINDS_BEFORE[200 := UpdateKind], Some(200), [0, 100, 200], [receipt], {0, 100})
    ensures Holds(after, d', Model(0.013, Some(receipt))) && after.model == Loaded(after.model.memory, [])
    ensures RunFeedback(l, AllBlackouts([0, 100, 200]))
            == Pass(after, true, [AppliedUpdate(receipt, SeenAll([0, 100, 200]))])
  {
    hide Says, OneEpisode, ProposeAndApply, SeenAll, ApplyFeedback, AllBlackouts, PendingFrom;
    RecoveredAlready(l, d, DEFAULT_MODEL);
    SaysKinds(l.history.rows, d);
    QuietPass(l, d, DEFAULT_MODEL, 0, [0, 100], d.kinds, [0, 100], [200]);
    assert [0, 100] + [200] == [0, 100, 200] && [200] + [] == [200];
    var observed, seen := BlackoutTurn(l, d, DEFAULT_MODEL, d.kinds, 200);
    var kinds := d.kinds[200 := ObservedKind];
    NotedPending(d);
    after, receipt := UpdateRecorded(observed, seen, DEFAULT_MODEL, 0, [0, 100, 200], kinds, 200);
    TurnThenRest(l, d.kinds, 200, [],
                 Turn(Pass(after, true, [AppliedUpdate(receipt, SeenAll([0, 100, 200]))]), kinds[200 := UpdateKind]));
    EmptyPass(after, kinds[200 := UpdateKind]);
    d' := Noted(seen, Update(receipt));
    assert KINDS_BEFORE[200 := ObservedKind][200 := UpdateKind] == KINDS_BEFORE[200 := UpdateKind];
  }

  lemma NotedPending(d: Digest)
    requires d == Digest(KINDS_BEFORE, None, [0, 100], [], {0, 100})
    ensures PendingFrom(Noted(d, Observed(Seen(200))), 0, [0, 100, 200])
  {}

  /** A digest in which 200 was updated and then summarised late. */
  predicate LateDigest(d: Digest, receipt: Receipt, times: seq<int>) {
    && receipt.eventAt == 200 && d.last == Some(200) && d.updates == [receipt] && d.times == times
    && {0, 100, 200} <= d.kinds.Keys && d.kinds[0] == d.kinds[100] == ObservedKind && d.kinds[200] == BlackoutKindRow
  }

  /** While too little is pending, a replay reopens the event and does nothing. */
  lemma ReplayReopens(l: Learner, d: Digest, m: Model, receipt: Receipt)
    requires Holds(l, d, m) && LateDigest(d, receipt, [0, 100, 200]) && ReceiptIn(d, m) && MIN_K <= m.irK <= MAX_K
    ensures RunFeedback(l, AllBlackouts([0, 100, 200])) == Pass(l, true, [])
    ensures PendingFrom(d, 3, [])
  {
    hide Says, OneEpisode, ProposeAndApply, SeenAll, ApplyFeedback, AllBlackouts, HasReceipt;
    assert PendingFrom(d, 3, []);
    hide PendingFrom;
    RecoveredAlready(l, d, m);
    SaysKinds(l.history.rows, d);
    QuietPass(l, d, m, 3, [], d.kinds, [0, 100], [200]);
    assert [0, 100] + [200] == [0, 100, 200] && [200] + [] == [200];
    ReopenedTurn(l, d, m, d.kinds, 200);
    var kinds := d.kinds[200 := ObservedKind];
    NothingProposed(l, d, m, 3, [], kinds, 200);
    TurnThenRest(l, d.kinds, 200, [], Turn(Pass(l, true, []), kinds));
    EmptyPass(l, kinds);
  }

  /** The end of a pass does not depend on how it is reported. */
  ghost predicate EndsLike(p: Pass, q: Pass) {
    p.learner == q.learner && p.completed == q.completed
  }

  /** A replayed event gets an update of its own, and the pass goes on. */
  lemma ReplayUpdates(l: Learner, d: Digest, m: Model, n: nat, young: seq<int>, kinds: map<int, RowKind>, e: int,
        times: seq<int>)
    returns (after: Learner, receipt: Receipt)
    requires Holds(l, d, m) && PendingFrom(d, n, young) && 0.00825 <= m.irK <= MAX_K && |young| >= 3
    requires l.model == Loaded(m, []) && !SameEvent(m, e) && !HasReceipt(d.updates, e)
    requires e in kinds && kinds[e] == ObservedKind
    ensures receipt.eventAt == e && receipt.toValue == m.irK - MAX_STEP
    ensures Holds(after, Noted(d, Update(receipt)), Model(receipt.toValue, Some(receipt)))
    ensures after.model == Loaded(Model(receipt.toValue, Some(receipt)), [])
    ensures EndsLike(ApplyFeedback(l, kinds, AllBlackouts([e] + times)),
                     ApplyFeedback(after, kinds[e := UpdateKind], AllBlackouts(times)))
  {
    hide Says, OneEpisode, ProposeAndApply, SeenAll, ApplyFeedback, AllBlackouts, PendingFrom, HasReceipt;
    ObservedTurn(l, kinds, e);
    after, receipt := UpdateRecorded(l, d, m, n, young, kinds, e);
    TurnThenRest(l, kinds, e, times,
        Turn(Pass(after, true, [AppliedUpdate(receipt, SeenAll(young))]), kinds[e := UpdateKind]));
  }

  /** The same for a reopened event with an update row: nothing reaches the history. */
  lemma ReplayLoses(l: Learner, d: Digest, m: Model, n: nat, young: seq<int>, kinds: map<int, RowKind>, e: int,
        times: seq<int>)
    returns (after: Learner, receipt: Receipt)
    requires Holds(l, d, m) && PendingFrom(d, n, young) && 0.00825 <= m.irK <= MAX_K && |young| >= 3
    requires l.model == Loaded(m, []) && !SameEvent(m, e) && HasReceipt(d.updates, e)
    requires e in kinds && kinds[e] == BlackoutKindRow && e in d.times
    ensures receipt.eventAt == e && receipt.toValue == m.irK - MAX_STEP
    ensures Holds(after, d, Model(receipt.toValue, Some(receipt)))
    ensures after.model == Loaded(Model(receipt.toValue, Some(receipt)), [])
    ensures EndsLike(ApplyFeedback(l, kinds, AllBlackouts([e] + times)),
                     ApplyFeedback(after, kinds[e := ObservedKind][e := UpdateKind], AllBlackouts(times)))
  {
    hide Says, OneEpisode, ProposeAndApply, SeenAll, ApplyFeedback, AllBlackouts, PendingFrom, HasReceipt;
    ReopenedTurn(l, d, m, kinds, e);
    after, receipt := UpdateDropped(l, d, m, n, young, kinds[e := ObservedKind], e);
    TurnThenRest(l, kinds, e, times, Turn(Pass(after, true, [AppliedUpdate(receipt, SeenAll(young))]),
                                          kinds[e := ObservedKind][e := UpdateKind]));
  }

  lemma SixTimes()
    ensures [0] + [100, 200, 300, 400, 500] == [0, 100, 200, 300, 400, 500]
    ensures [100] + [200, 300, 400, 500] == [100, 200, 300, 400, 500]
    ensures [200] + [300, 400, 500] == [200, 300, 400, 500] && [300, 400, 500] + [] == [300, 400, 500]
  {}

  /** The third update of the replay finds its event's row in place. */
  lemma ReplayThird(l: Learner, d: Digest, m: Model, kinds: map<int, RowKind>) returns (after: Learner, r2: Receipt)
    requires Holds(l, d, m) && l.model == Loaded(m, []) && m.irK == 0.009 && !SameEvent(m, 200)
    requires HasReceipt(d.updates, 200) && d.times == [0, 100, 200, 300, 400, 500] && d.last == Some(100)
    requires 200 in kinds && kinds[200] == BlackoutKindRow && AllObserved(kinds, [300, 400, 500])
    ensures r2.eventAt == 200 && Holds(after, d, Model(0.007, Some(r2)))
            && after.model == Loaded(Model(0.007, Some(r2)), [])
    ensures EndsLike(ApplyFeedback(l, kinds, AllBlackouts([200, 300, 400, 500])), Pass(after, true, []))
  {
    hide Says, HasReceipt, ApplyFeedback, AllBlackouts, PendingFrom, Holds;
    SixTimes();
    SuffixPending(d, 2, [200, 300, 400, 500]);
    after, r2 := ReplayLoses(l, d, m, 2, [200, 300, 400, 500], kinds, 200, [300, 400, 500]);
    var late := kinds[200 := ObservedKind][200 := UpdateKind];
    assert Reads(after, d, Model(0.007, Some(r2))) by { Held(after, d, Model(0.007, Some(r2))); }
    QuietPass(after, d, Model(0.007, Some(r2)), 2, [200, 300, 400, 500], late, [300, 400, 500], []);
    EmptyPass(after, late);
  }

  lemma Held(l: Learner, d: Digest, m: Model)
    requires Holds(l, d, m)
    ensures Reads(l, d, m) && EventKinds(l.history.rows) == d.kinds
  {}

  /** With three younger blackouts pending the replay makes three updates, keyed 0,
      100 and 200. */
  lemma ReplayDrops(l: Learner, d: Digest, receipt: Receipt)
    returns (after: Learner, d': Digest, r0: Receipt, r1: Receipt, r2: Receipt)
    requires Holds(l, d, Model(0.013, Some(receipt))) && l.model == Loaded(Model(0.013, Some(receipt)), [])
    requires LateDigest(d, receipt, [0, 100, 200, 300, 400, 500])
    requires {300, 400, 500} <= d.kinds.Keys && d.kinds[300] == d.kinds[400] == d.kinds[500] == ObservedKind
    ensures d'.updates == [receipt, r0, r1] && r1.toValue == 0.009 && r2.eventAt == 200
    ensures Holds(after, d', Model(0.007, Some(r2))) && after.model == Loaded(Model(0.007, Some(r2)), [])
    ensures EndsLike(RunFeedback(l, AllBlackouts([0, 100, 200, 300, 400, 500])), Pass(after, true, []))
  {
    hide Says, HasReceipt, ApplyFeedback, AllBlackouts, Holds;
    var m := Model(0.013, Some(receipt));
    OneReceipt(receipt, 200);
    Held(l, d, m);
    RecoveredAlready(l, d, m);
    var l1;
    l1, d', r0, r1 := ReplayFirstTwo(l, d, receipt);
    ThreeReceipts(receipt, r0, r1);
    after, r2 := ReplayThird(l1, d', Model(0.009, Some(r1)), d.kinds[0 := UpdateKind][100 := UpdateKind]);
  }

  lemma ThreeReceipts(receipt: Receipt, r0: Receipt, r1: Receipt)
    ensures HasReceipt([receipt, r0, r1], receipt.eventAt)
  {
    assert [receipt, r0, r1][0] == receipt;
  }

  /** The updates for the blackouts at 0 and 100. */
  lemma ReplayFirstTwo(l: Learner, d: Digest, receipt: Receipt)
    returns (l1: Learner, d1: Digest, r0: Receipt, r1: Receipt)
    requires Holds(l, d, Model(0.013, Some(receipt))) && l.model == Loaded(Model(0.013, Some(receipt)), [])
    requires LateDigest(d, receipt, [0, 100, 200, 300, 400, 500])
    ensures d1.updates == [receipt, r0, r1] && d1.last == Some(100) && d1.times == d.times
    ensures r1.toValue == 0.009 && r1.eventAt == 100
    ensures Holds(l1, d1, Model(0.009, Some(r1))) && l1.model == Loaded(Model(0.009, Some(r1)), [])
    ensures EndsLike(ApplyFeedback(l, d.kinds, AllBlackouts([0, 100, 200, 300, 400, 500])),
                     ApplyFeedback(l1, d.kinds[0 := UpdateKind][100 := UpdateKind], AllBlackouts([200, 300, 400, 500])))
  {
    hide Says, ApplyFeedback, AllBlackouts, PendingFrom, HasReceipt;
    OneReceipt(receipt, 100);
    OneReceipt(receipt, 0);
    SixTimes();
    SuffixPending(d, 3, [300, 400, 500]);
    var l0;
    l0, r0 := ReplayUpdates(l, d, Model(0.013, Some(receipt)), 3, [300, 400, 500], d.kinds, 0,
        [100, 200, 300, 400, 500]);
    var d0, k0 := Noted(d, Update(r0)), d.kinds[0 := UpdateKind];
    OneMoreReceipt([receipt], r0);
    SuffixPending(d0, 1, [100, 200, 300, 400, 500]);
    l1, r1 := ReplayUpdates(l0, d0, Model(0.011, Some(r0)), 1, [100, 200, 300, 400, 500], k0, 100,
        [200, 300, 400, 500]);
    d1 := Noted(d0, Update(r1));
  }

  lemma SuffixPending(d: Digest, n: nat, young: seq<int>)
    requires n <= 6 && d.times == [0, 100, 200, 300, 400, 500] && young == d.times[n..]
    requires d.last.Some? && (n > 0 ==> d.times[n - 1] <= d.last.value) && (n < 6 ==> d.last.value < d.times[n])
    ensures PendingFrom(d, n, young)
  {}

  /** Two blackouts and half a minute of charging. */
  lemma LateStart() returns (v: View, d: Digest)
    ensures Shows(AfterAll(FreshStation([], []),
            BlackoutSteps(0) + BlackoutSteps(100) + Polls(Charge(146, 31), Online)), v)
    ensures Knows(v, d, DEFAULT_MODEL) && v.model == Loaded(DEFAULT_MODEL, [])
    ensures v.rows == BlackoutRows(0) + BlackoutRows(100) + Samples(Charge(146, 31))
    ensures v.closed == [BlackoutRows(0)] + [BlackoutRows(100)]
    ensures d == Digest(KINDS_BEFORE, None, [0, 100], [], {0, 100}) && PendingFrom(d, 0, [0, 100])
  {
    hide Says, HasReceipt, Shows, RunFeedback, BlackoutRows, FreshStation, BlackoutSteps, PendingFrom, Samples,
         Charge, Unmixed, AfterAll, WatchedDigest;
    var st0 := FreshStation([], []);
    var v1, d1 := FirstBlackout([]);
    var st1 := AfterAll(st0, BlackoutSteps(0));
    SecondBlackout(st1, v1, d1);
    var st2, v2 := AfterAll(st1, BlackoutSteps(100)), Watched(v1, 100);
    d := WatchedDigest(d1, 100);
    Charges(st2, v2, d, DEFAULT_MODEL, 146, 31);
    v := v2.(rows := v2.rows + Samples(Charge(146, 31)));
    AfterSum(st0, BlackoutSteps(0) + BlackoutSteps(100), Polls(Charge(146, 31), Online));
    AfterSum(st0, BlackoutSteps(0), BlackoutSteps(100));
  }

  /** Up to the lost summary and what the replay learns. */
  lemma LateLost() returns (v: View, d: Digest, m: Model, receipt: Receipt)
    ensures var st := AfterAll(FreshStation([], []),
                               BlackoutSteps(0) + BlackoutSteps(100) + Polls(Charge(146, 31), Online) + LostSteps(200));
            Shows(st, v) && Knows(v, d, m)
    ensures m == Model(0.013, Some(receipt)) && receipt.eventAt == 200 && v.model == Loaded(m, [])
    ensures v.rows == LateRows() && v.closed == AllBlackouts([0, 100, 200])
    ensures d == Digest(KINDS_BEFORE[200 := UpdateKind], Some(200), [0, 100, 200], [receipt], {0, 100})
  {
    hide Says, HasReceipt, Shows, RunFeedback, BlackoutRows, FreshStation, BlackoutSteps, LostSteps, PendingFrom,
         Samples, Charge, Unmixed, AfterAll;
    var start := BlackoutSteps(0) + BlackoutSteps(100) + Polls(Charge(146, 31), Online);
    var v1, d1 := LateStart();
    LateFacts();
    Loses(AfterAll(FreshStation([], []), start), v1, d1, DEFAULT_MODEL, 200);
    var w := Lost(v1, DEFAULT_MODEL, 200);
    ThreeClosed(w);
    var after;
    after, receipt, d := LostAndLearned(Mind(w), d1);
    v, m := Learned(w, RunFeedback(Mind(w), w.closed)), Model(0.013, Some(receipt));
    OneReceipt(receipt, 200);
    AfterSum(FreshStation([], []), start, LostSteps(200));
  }

  /** The restart that records the summary after the update. */
  lemma LateReconciled(st: StationState, v: View, d: Digest, m: Model, receipt: Receipt) returns (v': View, d': Digest)
    requires Shows(st, v) && Knows(v, d, m) && m == Model(0.013, Some(receipt)) && v.model == Loaded(m, [])
    requires receipt.eventAt == 200 && v.rows == LateRows()
    requires d == Digest(KINDS_BEFORE[200 := UpdateKind], Some(200), [0, 100, 200], [receipt], {0, 100})
    ensures Shows(After(st, StartAgain([Refused], [], [])), v') && v'.rows == v.rows && v'.closed == v.closed
    ensures !v'.replayed && v'.tail == [] && v'.model == Loaded(m, [Refused])
    ensures Holds(Mind(v'), d', m) && ReceiptIn(d', m) && LateDigest(d', receipt, [0, 100, 200])
            && d'.summarised == {0, 100, 200}
  {
    hide Says, HasReceipt, Shows, LateRows, Unmixed, LatestClosed, ReconciledKey, Reconcile;
    LateFacts();
    var row := SomethingReconciled(v.rows, v.history, d, 200);
    SaysMore(v.history.rows, d, row);
    d' := Noted(d, row);
    RestartsIdle(st, v, d, m, [Refused], v.history.Append(row), d');
    v' := v.(history := v.history.Append(row), model := Loaded(m, [Refused]), replayed := false, charging := false);
  }

  ghost predicate KeepsLate(d: Digest, receipt: Receipt, times: seq<int>, n: nat, young: seq<int>) {
    LateDigest(d, receipt, times) && PendingFrom(d, n, young)
  }

  lemma LateGrows(d: Digest, receipt: Receipt, times: seq<int>, young: seq<int>, e: int)
    requires KeepsLate(d, receipt, times, 3, young) && e > 200 && AllUpTo(times, e - 1)
    ensures KeepsLate(WatchedDigest(d, e), receipt, times + [e], 3, young + [e])
    ensures WatchedDigest(d, e).summarised == d.summarised + {e}
    ensures WatchedDigest(d, e).kinds == d.kinds[e := ObservedKind]
  {
    hide PendingFrom;
    WatchedFacts(d, e);
    PendingGrows(d, e, 3, young);
  }

  lemma LatePending(d: Digest, receipt: Receipt)
    requires LateDigest(d, receipt, [0, 100, 200])
    ensures KeepsLate(d, receipt, [0, 100, 200], 3, [])
  {}

  /** One more blackout that is only watched. */
  lemma LateWatches(st: StationState, v: View, d: Digest, m: Model, receipt: Receipt, times: seq<int>, young: seq<int>,
        e: int)
    requires Knows(v, d, m) && Arrived(st, v, e) && m.irK == 0.013 && |young| < 2
    requires KeepsLate(d, receipt, times, 3, young) && e > 200 && AllUpTo(times, e - 1)
    ensures var d' := WatchedDigest(d, e);
            && Shows(st, Watched(v, e)) && Knows(Watched(v, e), d', m)
            && KeepsLate(d', receipt, times + [e], 3, young + [e])
            && d'.summarised == d.summarised + {e} && d'.kinds == d.kinds[e := ObservedKind]
  {
    hide Says, HasReceipt, Shows, PendingFrom, WatchedDigest, Arrived, Holds;
    assert e !in d.times;
    LateGrows(d, receipt, times, young, e);
    Watches(st, v, d, m, e, 3, young + [e]);
  }

  lemma LateRefuses(st: StationState, v: View, d: Digest, m: Model, receipt: Receipt, times: seq<int>, young: seq<int>,
        e: int)
    requires Knows(v, d, m) && Arrived(st, v, e) && m == Model(0.013, Some(receipt)) && |young| == 2
             && v.model == Loaded(m, [Refused])
    requires KeepsLate(d, receipt, times, 3, young) && e > 200 && AllUpTo(times, e - 1)
    ensures var v', d' := Watched(v, e).(model := Loaded(m, [])), WatchedDigest(d, e);
            && Shows(st, v') && Knows(v', d', m)
            && KeepsLate(d', receipt, times + [e], 3, young + [e]) && d'.kinds == d.kinds[e := ObservedKind]
  {
    hide Says, HasReceipt, Shows, PendingFrom, WatchedDigest, Arrived, Holds;
    assert e !in d.times;
    LateGrows(d, receipt, times, young, e);
    Refuses(st, v, d, m, e, 3, young + [e]);
  }

  /** The first blackout after the late summary; its replay does nothing. */
  lemma LateFirst(st: StationState, v: View, d: Digest, m: Model, receipt: Receipt) returns (v': View, d': Digest)
    requires Shows(st, v) && !v.replayed && v.tail == [] && v.model == Loaded(m, [Refused])
    requires m == Model(0.013, Some(receipt)) && v.closed == AllBlackouts([0, 100, 200])
    requires Holds(Mind(v), d, m) && ReceiptIn(d, m) && LateDigest(d, receipt, [0, 100, 200])
             && d.summarised == {0, 100, 200}
    ensures Shows(AfterAll(st, BlackoutSteps(300)), v') && Knows(v', d', m)
    ensures v'.model == Loaded(m, [Refused])
    ensures KeepsLate(d', receipt, [0, 100, 200, 300], 3, [300]) && d'.summarised == {0, 100, 200, 300}
    ensures d'.kinds == d.kinds[300 := ObservedKind]
    ensures v'.rows == v.rows + BlackoutRows(300) && v'.closed == v.closed + [BlackoutRows(300)]
  {
    hide Says, HasReceipt, Shows, RunFeedback, BlackoutRows, BlackoutSteps, WatchedDigest, AllBlackouts, KeepsLate,
         Arrived;
    ReplayReopens(Mind(v), d, m, receipt);
    LatePending(d, receipt);
    hide LateDigest, PendingFrom;
    var begun := v.(replayed := true);
    assert v.applied + [] == v.applied;
    PassesAfterStart(st, v, begun, d, m, 300);
    LateWatches(AfterAll(st, BlackoutSteps(300)), begun, d, m, receipt, [0, 100, 200], [], 300);
    assert [0, 100, 200] + [300] == [0, 100, 200, 300] && [] + [300] == [300];
    v', d' := Watched(begun, 300), WatchedDigest(d, 300);
  }

  /** Two more blackouts; for the last one the model write is refused. */
  lemma LateLastTwo(st: StationState, v: View, d: Digest, m: Model, receipt: Receipt) returns (v': View, d': Digest)
    requires Shows(st, v) && Knows(v, d, m) && v.model == Loaded(m, [Refused]) && m == Model(0.013, Some(receipt))
    requires KeepsLate(d, receipt, [0, 100, 200, 300], 3, [300]) && d.summarised == {0, 100, 200, 300}
    ensures Shows(AfterAll(st, BlackoutSteps(400) + BlackoutSteps(500)), v') && Knows(v', d', m)
    ensures v'.model == Loaded(m, []) && KeepsLate(d', receipt, [0, 100, 200, 300, 400, 500], 3, [300, 400, 500])
    ensures d'.kinds == d.kinds[400 := ObservedKind][500 := ObservedKind]
    ensures v'.rows == v.rows + BlackoutRows(400) + BlackoutRows(500)
    ensures v'.closed == v.closed + [BlackoutRows(400)] + [BlackoutRows(500)]
  {
    hide Says, HasReceipt, Shows, RunFeedback, BlackoutRows, BlackoutSteps, WatchedDigest, AllBlackouts, KeepsLate,
         Arrived, LateDigest;
    Passes(st, v, d, m, 400);
    var st1 := AfterAll(st, BlackoutSteps(400));
    LateWatches(st1, v, d, m, receipt, [0, 100, 200, 300], [300], 400);
    assert [0, 100, 200, 300] + [400] == [0, 100, 200, 300, 400] && [300] + [400] == [300, 400];
    var v1, d1 := Watched(v, 400), WatchedDigest(d, 400);
    Passes(st1, v1, d1, m, 500);
    var st2 := AfterAll(st1, BlackoutSteps(500));
    LateRefuses(st2, v1, d1, m, receipt, [0, 100, 200, 300, 400], [300, 400], 500);
    assert [0, 100, 200, 300, 400] + [500] == [0, 100, 200, 300, 400, 500] && [300, 400] + [500] == [300, 400, 500];
    v', d' := Watched(v1, 500).(model := Loaded(m, [])), WatchedDigest(d1, 500);
    AfterSum(st, BlackoutSteps(400), BlackoutSteps(500));
  }

  lemma LateThree(st: StationState, v: View, d: Digest, m: Model, receipt: Receipt) returns (v': View, d': Digest)
    requires Shows(st, v) && !v.replayed && v.tail == [] && v.model == Loaded(m, [Refused])
    requires m == Model(0.013, Some(receipt)) && v.closed == AllBlackouts([0, 100, 200])
    requires Holds(Mind(v), d, m) && ReceiptIn(d, m) && LateDigest(d, receipt, [0, 100, 200])
             && d.summarised == {0, 100, 200}
    ensures Shows(AfterAll(st, BlackoutSteps(300) + (BlackoutSteps(400) + BlackoutSteps(500))), v')
    ensures Knows(v', d', m) && v'.model == Loaded(m, [])
    ensures LateDigest(d', receipt, [0, 100, 200, 300, 400, 500])
    ensures {300, 400, 500} <= d'.kinds.Keys && d'.kinds[300] == d'.kinds[400] == d'.kinds[500] == ObservedKind
    ensures v'.rows == v.rows + BlackoutRows(300) + BlackoutRows(400) + BlackoutRows(500)
    ensures v'.closed == v.closed + [BlackoutRows(300)] + [BlackoutRows(400)] + [BlackoutRows(500)]
  {
    hide Says, HasReceipt, Shows, RunFeedback, BlackoutRows, BlackoutSteps, PendingFrom, AllBlackouts, Knows, Holds;
    var v1, d1 := LateFirst(st, v, d, m, receipt);
    v', d' := LateLastTwo(AfterAll(st, BlackoutSteps(300)), v1, d1, m, receipt);
    AfterSum(st, BlackoutSteps(300), BlackoutSteps(400) + BlackoutSteps(500));
  }

  lemma SixClosed(closed: seq<seq<Row>>)
    requires closed == AllBlackouts([0, 100, 200]) + [BlackoutRows(300)] + [BlackoutRows(400)] + [BlackoutRows(500)]
    ensures closed == AllBlackouts([0, 100, 200, 300, 400, 500])
  {
    hide BlackoutRows;
  }

  lemma UnmixedLate(rows: seq<Row>)
    requires rows == LateRows() + BlackoutRows(300) + BlackoutRows(400) + BlackoutRows(500)
    ensures Unmixed(rows)
  {
    hide BlackoutRows, LateRows;
    LateFacts();
    UnmixedBlackout(300);
    UnmixedBlackout(400);
    UnmixedBlackout(500);
  }

  /** After this run the model holds 0.007, the trail in the history ends at 0.009,
      and recovery has nothing left to add: one update is lost from the trail. */
  lemma UpdateLostFromTrail()
    ensures var l := LearnerOf(AfterAll(FreshStation([], []), LateSteps()));
            && EndOf(0.015, Updates(l.history.rows)) == 0.009 && l.model == Loaded(l.model.memory, [])
            && l.model.memory.irK == 0.007 && Recover(l) == Pass(l, true, [])
  {
    hide Says, HasReceipt, Shows, RunFeedback, BlackoutRows, FreshStation, BlackoutSteps, LostSteps, Interrupted,
         LateRows, AllBlackouts, Unmixed, Charge, PendingFrom;
    var st0 := FreshStation([], []);
    var v1, d1, m, receipt := LateLost();
    var first := BlackoutSteps(0) + BlackoutSteps(100) + Polls(Charge(146, 31), Online) + LostSteps(200);
    var st1 := AfterAll(st0, first);
    var v2, d2 := LateReconciled(st1, v1, d1, m, receipt);
    var st2 := After(st1, StartAgain([Refused], [], []));
    AfterOne(st1, StartAgain([Refused], [], []));
    var v3, d3 := LateThree(st2, v2, d2, m, receipt);
    var three := BlackoutSteps(300) + (BlackoutSteps(400) + BlackoutSteps(500));
    var st3 := AfterAll(st2, three);
    UnmixedLate(v3.rows);
    SixClosed(v3.closed);
    Interrupts(st3, v3, d3, m, 600);
    var st4, v4 := AfterAll(st3, Interrupted(600)), Resumed(v3, m, 600);
    var reopened := Reopened(v3, m, [], []);
    var after, d4, r0, r1, r2 := ReplayDrops(Mind(reopened), d3, receipt);
    assert Mind(v4) == after;
    ShowsApplied(st4, v4);
    AfterSum(st2, three, Interrupted(600));
    AfterSum(st1, [StartAgain([Refused], [], [])], three + Interrupted(600));
    AfterSum(st0, first, [StartAgain([Refused], [], [])] + (three + Interrupted(600)));
    LateParts(first, [StartAgain([Refused], [], [])], three, Interrupted(600));
    TrailSays(after.history.rows, d4);
    ThreeReceipts(receipt, r0, r1);
    RecoveredAlready(after, d4, Model(0.007, Some(r2)));
  }

  lemma LateParts(first: seq<StationStep>, restart: seq<StationStep>, three: seq<StationStep>, last: seq<StationStep>)
    ensures first + restart + (three + last) == first + (restart + (three + last))
  {}

  lemma TrailSays(rows: seq<HistoryRow>, d: Digest)
    requires Says(rows, d)
    ensures Updates(rows) == d.updates
  {}
}
