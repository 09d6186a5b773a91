/** Following the station through a concrete run: what its files, model and writer
    hold in one value, and what each kind of poll or restart does to it. */
module StationRuns {
  import opened Types
  import opened Sorting
  import opened Storage
  import opened History
  import opened ModelStore
  import opened Segments
  import opened Feedback
  import opened FeedbackQuiet
  import opened Writer
  import WriterPending
  import opened WriterEpisodes
  import opened WriterMemory
  import opened Station
  import opened Blackouts

  /** `charging` promises that the next online observation is recorded. */
  datatype View = View(
    rows: seq<Row>,
    closed: seq<seq<Row>>,
    tail: seq<Row>,
    charging: bool,
    history: Log<HistoryRow>,
    model: OwnedModel,
    replayed: bool,
    applied: seq<AppliedUpdate>)

  function Mind(v: View): Learner { Learner(v.model, v.history) }

  ghost predicate Shows(st: StationState, v: View) {
    && InSync(st.writer) && st.writer.silent == []
    && st.writer.file == Log(v.rows, []) && ClosedEpisodes(v.rows) == v.closed && OpenTail(v.rows) == v.tail
    && (st.writer.active ==> st.writer.kind == BlackoutReal)
    && (v.charging ==> v.tail == [] && st.writer.recharging)
    && st.writer.history == v.history && st.model == v.model
    && st.replayed == v.replayed && st.applied == v.applied
  }

  /** The learner after the feedback of a poll. */
  function Learned(v: View, pass: Pass): View {
    v.(history := pass.learner.history, model := pass.learner.model,
       replayed := v.replayed || pass.completed, applied := v.applied + pass.applied)
  }

  // ----- polls -------------------------------------------------------------------------

  lemma ActiveWrite(w: WriterState, o: Observation)
    requires InSync(w) && w.silent == [] && w.file.outcomes == [] && ActiveStatus(o.status)
    ensures var (after, handed) := WriteAndTake(w, o, BlackoutReal);
            && handed == None && after.file == Log(w.file.rows + [Sample(o)], [])
            && after.silent == [] && after.history == w.history && after.active
            && after.kind == (if w.active then w.kind else BlackoutReal)
    ensures !LosesEpisode(w, o, BlackoutReal)
  {
    hide Sample, ContextRows, OpenTail, Stripped, ClosedEpisodes, Quiescent, ActiveOrOnline;
    assert Sort(w.silent, TimeOf) == [];
  }

  lemma ActivePoll(st: StationState, v: View, o: Observation)
    requires Shows(st, v) && ActiveStatus(o.status)
    ensures var grown := v.(rows := v.rows + [Sample(o)], tail := v.tail + [Sample(o)], charging := false);
            Shows(PollStation(st, o, BlackoutReal),
                  Learned(grown, RunFeedback(Mind(v), if v.replayed then [] else v.closed)))
  {
    hide Sample, OpenTail, ClosedEpisodes, InSync, WriteAndTake, RunFeedback, LosesEpisode, Stripped, EventStart;
    ActiveWrite(st.writer, o);
    PollStreams(st.writer, o, BlackoutReal);
    SegmentsAppend(v.rows, Sample(o));
    SampleStatus(o);
    var written := WriteAndTake(st.writer, o, BlackoutReal).0;
    SyncIgnoresHistory(written, PollStation(st, o, BlackoutReal).writer.history);
  }

  lemma ChargeWrite(w: WriterState, o: Observation)
    requires InSync(w) && w.silent == [] && w.file.outcomes == [] && !w.active && w.recharging
    requires Classified(o.status, Online) && BelowFull(o)
    ensures var (after, handed) := WriteAndTake(w, o, Online);
            && handed == None && after.file == Log(w.file.rows + [Sample(o)], [])
            && after.silent == [] && after.history == w.history && !after.active && after.recharging
    ensures !LosesEpisode(w, o, Online)
  {
    hide Sample, Remembered, OpenTail, Stripped, ClosedEpisodes, Quiescent, ActiveOrOnline;
  }

  lemma ChargePoll(st: StationState, v: View, o: Observation)
    requires Shows(st, v) && v.charging && Classified(o.status, Online) && BelowFull(o)
    ensures var grown := v.(rows := v.rows + [Sample(o)]);
            Shows(PollStation(st, o, Online),
                  Learned(grown, RunFeedback(Mind(v), if v.replayed then [] else v.closed)))
  {
    IdleWriter(st.writer);
    hide Sample, OpenTail, ClosedEpisodes, InSync, WriteAndTake, RunFeedback, LosesEpisode, Stripped, EventStart,
         BelowFull;
    ChargeWrite(st.writer, o);
    PollStreams(st.writer, o, Online);
    SegmentsAppend(v.rows, Sample(o));
    SampleStatus(o);
    var written := WriteAndTake(st.writer, o, Online).0;
    SyncIgnoresHistory(written, PollStation(st, o, Online).writer.history);
  }

  lemma IdleWriter(w: WriterState)
    requires InSync(w)
    ensures w.active <==> OpenTail(w.file.rows) != []
    ensures w.active ==> Stripped(w.records) == OpenTail(w.file.rows)
  {}

  /** The summary of the open episode if it ends at this second. */
  function EndedAt(tail: seq<Row>, at: int): HistoryRow
    requires tail != [] && tail[0].at <= at
  {
    Episode(false, tail[0].at, at - tail[0].at)
  }

  lemma SummaryOfOpen(w: WriterState, o: Observation)
    requires InSync(w) && w.active && w.kind == BlackoutReal && Classified(o.status, Online)
    requires OpenTail(w.file.rows)[0].at <= Sample(o).at
    ensures SummarizeEpisode(w.records + [Sample(o)], w.kind) == Some(EndedAt(OpenTail(w.file.rows), Sample(o).at))
    ensures Stripped(w.records + [Sample(o)]) == OpenTail(w.file.rows) + [Sample(o)]
  {
    hide FirstActive, SummarizeEpisode, OpenTail, Sample;
    StrippedGrows(w.records, Sample(o));
    hide Stripped;
    SampleStatus(o);
    var n := FirstActive(w.records);
    var context, tail := w.records[..n], OpenTail(w.file.rows);
    assert tail == w.records[n..] by { StrippedIs(w.records); }
    assert w.records == context + tail;
    SummaryOfClosed(context, tail, Sample(o), w.kind);
  }

  lemma StrippedIs(records: seq<Row>)
    ensures Stripped(records) == records[FirstActive(records)..]
  {}

  lemma CloseWrite(w: WriterState, o: Observation)
    requires InSync(w) && w.silent == [] && w.file.outcomes == [] && w.active && w.kind == BlackoutReal
    requires Classified(o.status, Online) && BelowFull(o) && OpenTail(w.file.rows)[0].at <= Sample(o).at
    requires !HasEpisode(w.history.rows, OpenTail(w.file.rows)[0].at)
    ensures var (after, handed) := WriteAndTake(w, o, Online);
            && after.file == Log(w.file.rows + [Sample(o)], [])
            && after.silent == [] && !after.active && after.recharging
            && after.history == w.history.Append(EndedAt(OpenTail(w.file.rows), Sample(o).at))
            && (if NextOk(w.history.outcomes) then handed == Some(w.records + [Sample(o)]) else handed == None)
  {
    hide Remembered, Stripped, ClosedEpisodes, Quiescent, ActiveOrOnline, HasEpisode, OpenTail;
    SummaryOfOpen(w, o);
    hide SummarizeEpisode, Sample;
  }

  /** The view of a poll that ends the open episode, before its feedback. */
  function Closed(v: View, row: Row): View
    requires v.tail != [] && v.tail[0].at <= row.at
  {
    v.(rows := v.rows + [row], closed := v.closed + [v.tail + [row]], tail := [], charging := true,
       history := v.history.Append(EndedAt(v.tail, row.at)))
  }

  lemma ClosePoll(st: StationState, v: View, o: Observation)
    requires Shows(st, v) && v.tail != [] && Classified(o.status, Online) && BelowFull(o)
    requires v.tail[0].at <= Sample(o).at && !HasEpisode(v.history.rows, v.tail[0].at)
    ensures var closed := Closed(v, Sample(o));
            Shows(PollStation(st, o, Online),
                  Learned(closed, RunFeedback(Mind(closed),
                                              if !v.replayed then closed.closed
                                              else if NextOk(v.history.outcomes) then [v.tail + [Sample(o)]] else [])))
  {
    IdleWriter(st.writer);
    hide OpenTail, ClosedEpisodes, InSync, WriteAndTake, RunFeedback, LosesEpisode, Stripped, EventStart, BelowFull,
         HasEpisode;
    CloseWrite(st.writer, o);
    SummaryOfOpen(st.writer, o);
    PollStreams(st.writer, o, Online);
    SegmentsAppend(v.rows, Sample(o));
    SampleStatus(o);
    hide Sample;
    var closed := Closed(v, Sample(o));
    var written := WriteAndTake(st.writer, o, Online).0;
    SyncIgnoresHistory(written, PollStation(st, o, Online).writer.history);
    HandedIsStripped(Mind(closed), st.writer.records + [Sample(o)]);
  }

  /** Feedback over a handed-out episode is feedback over its stripped rows. */
  lemma HandedIsStripped(l: Learner, records: seq<Row>)
    ensures RunFeedback(l, [records]) == RunFeedback(l, [Stripped(records)])
  {
    hide ApplyFeedback, Recover, EventKinds;
    var n := FirstActive(records);
    assert records == records[..n] + records[n..];
    var recovered := Recover(l);
    FeedbackIgnoresContext(recovered.learner, EventKinds(recovered.learner.history.rows), records[..n], records[n..]);
  }

  // ----- restarts --------------------------------------------------------------------------

  lemma RestartedView(st: StationState, v: View, m: seq<ReplaceOutcome>, h: seq<bool>)
    requires Shows(st, v) && Unmixed(v.rows)
    ensures var reconciled := Reconcile(v.rows, v.history.(outcomes := h)).0;
            var pass := Recover(Learner(Reloaded(v.model, m), reconciled));
            Shows(RestartStation(st, m, [], h),
                  v.(history := pass.learner.history, model := pass.learner.model, replayed := false,
                      charging := false))
  {
    hide OpenTail, ClosedEpisodes, InSync, Restore, Reconcile, Recover, Unmixed;
    RebuildSyncs(st.writer, [], h);
    var blank := Blank(st.writer.file.(outcomes := []), st.writer.history.(outcomes := h), st.writer.window);
    WriterPending.RestoreKeepsFile(blank);
    RestoredKind(blank);
    var rebuilt := WriterPending.Rebuild(st.writer, [], h);
    SyncIgnoresHistory(rebuilt, RestartStation(st, m, [], h).writer.history);
  }

  lemma RestoredKind(s: WriterState)
    requires s.kind == BlackoutReal
    ensures Restore(s).kind == BlackoutReal
  {
    hide RestoredRecent, RunStart, RestoredContextStart, ChargeStart;
  }

  /** In the middle of an episode there is nothing to reconcile. */
  lemma OpenNotReconciled(v: View, st: StationState, history: Log<HistoryRow>)
    requires Shows(st, v) && v.tail != []
    ensures Reconcile(v.rows, history) == (history, AlreadyThere)
  {
    hide LatestClosed;
    LastIsActive(v.rows);
    OpenTailHidesClosed(v.rows);
  }

  lemma LastIsActive(rows: seq<Row>)
    requires ActiveOrOnline(rows) && OpenTail(rows) != []
    ensures rows != [] && ActiveRow(rows[|rows| - 1])
  {}

  // ----- stretches of polls ------------------------------------------------------------------

  function Polls(os: seq<Observation>, kind: BlackoutKind): (steps: seq<StationStep>)
    ensures |steps| == |os|
  {
    seq(|os|, i requires 0 <= i < |os| => Observe(os[i], kind))
  }

  lemma {:induction false} AfterSum(st: StationState, a: seq<StationStep>, b: seq<StationStep>)
    ensures AfterAll(st, a + b) == AfterAll(AfterAll(st, a), b)
    decreases |a|
  {
    hide After;
    if a == [] {
      assert a + b == b;
    } else {
      AfterSum(After(st, a[0]), a[1..], b);
      assert (a + b)[0] == a[0] && (a + b)[1..] == a[1..] + b;
    }
  }

  lemma AfterOne(st: StationState, step: StationStep)
    ensures AfterAll(st, [step]) == After(st, step)
  {
    assert [step][1..] == [];
  }

  /** The receipt in memory is in the history already. */
  predicate AtRest(v: View) {
    Recover(Mind(v)) == Pass(Mind(v), true, [])
  }

  lemma RestingPoll(v: View, grown: View)
    requires AtRest(v) && v.replayed && grown.replayed && Mind(grown) == Mind(v)
    ensures Learned(grown, RunFeedback(Mind(v), [])) == grown
  {
    hide Recover, EventKinds;
    assert grown.applied + [] == grown.applied;
  }

  function Grown(v: View, os: seq<Observation>): View {
    v.(rows := v.rows + Samples(os), tail := v.tail + Samples(os), charging := os == [] && v.charging)
  }

  lemma {:induction false} ActivePolls(st: StationState, v: View, os: seq<Observation>)
    requires Shows(st, v) && v.replayed && AtRest(v)
    requires forall i :: 0 <= i < |os| ==> ActiveStatus(os[i].status)
    ensures Shows(AfterAll(st, Polls(os, BlackoutReal)), Grown(v, os))
    decreases |os|
  {
    hide Shows, PollStation, AtRest, RunFeedback, Sample;
    if os == [] {
      assert v.rows + Samples(os) == v.rows && v.tail + Samples(os) == v.tail;
    } else {
      var grown := v.(rows := v.rows + [Sample(os[0])], tail := v.tail + [Sample(os[0])], charging := false);
      ActivePoll(st, v, os[0]);
      RestingPoll(v, grown);
      RestIsMind(v, grown);
      ActivePolls(PollStation(st, os[0], BlackoutReal), grown, os[1..]);
      assert Polls(os, BlackoutReal)[1..] == Polls(os[1..], BlackoutReal);
      WriterPending.SamplesOfFirst(os);
      assert v.rows + [Sample(os[0])] + Samples(os[1..]) == v.rows + Samples(os);
      assert v.tail + [Sample(os[0])] + Samples(os[1..]) == v.tail + Samples(os);
    }
  }

  lemma RestIsMind(v: View, w: View)
    requires AtRest(v) && Mind(w) == Mind(v)
    ensures AtRest(w)
  {}

  lemma {:induction false} ChargePolls(st: StationState, v: View, os: seq<Observation>)
    requires Shows(st, v) && v.replayed && AtRest(v) && v.charging
    requires forall i :: 0 <= i < |os| ==> Classified(os[i].status, Online) && BelowFull(os[i])
    ensures Shows(AfterAll(st, Polls(os, Online)), v.(rows := v.rows + Samples(os)))
    decreases |os|
  {
    hide Shows, PollStation, AtRest, RunFeedback, Sample, Classified, BelowFull;
    if os == [] {
      assert v.rows + Samples(os) == v.rows;
    } else {
      var grown := v.(rows := v.rows + [Sample(os[0])]);
      ChargePoll(st, v, os[0]);
      RestingPoll(v, grown);
      RestIsMind(v, grown);
      ChargePolls(PollStation(st, os[0], Online), grown, os[1..]);
      assert Polls(os, Online)[1..] == Polls(os[1..], Online);
      WriterPending.SamplesOfFirst(os);
      assert v.rows + [Sample(os[0])] + Samples(os[1..]) == v.rows + Samples(os);
    }
  }

  // ----- whole blackouts -------------------------------------------------------------------------

  function BlackoutSteps(e: int): seq<StationStep> {
    Polls(Discharge(e), BlackoutReal) + [Observe(Restored(e), Online)]
  }

  /** After a blackout, before its feedback. */
  function WithBlackout(v: View, e: int): View {
    v.(rows := v.rows + BlackoutRows(e), closed := v.closed + [BlackoutRows(e)], tail := [], charging := true,
       history := v.history.Append(Episode(false, e, 45)))
  }

  lemma RestoredFacts(e: int)
    ensures Classified(Restored(e).status, Online) && BelowFull(Restored(e))
    ensures forall i :: 0 <= i < 5 ==> ActiveStatus(Discharge(e)[i].status)
  {}

  /** The last poll of a blackout, with the tail it ends. */
  lemma BlackoutEnds(st: StationState, v: View, e: int)
    requires Shows(st, v) && v.tail == Samples(Discharge(e)) && !HasEpisode(v.history.rows, e)
    ensures var closed := v.(rows := v.rows + [Sample(Restored(e))], closed := v.closed + [BlackoutRows(e)], tail := [],
                             charging := true, history := v.history.Append(Episode(false, e, 45)));
            Shows(PollStation(st, Restored(e), Online),
                  Learned(closed, RunFeedback(Mind(closed),
                                              if !v.replayed then closed.closed
                                              else if NextOk(v.history.outcomes) then [BlackoutRows(e)] else [])))
  {
    hide Shows, RunFeedback, HasEpisode, BelowFull, Classified, PollStation;
    DischargeRows(e);
    RestoredFacts(e);
    hide Sample, Samples;
    ClosePoll(st, v, Restored(e));
  }

  /** Six polls of a replayed station at rest: one blackout, then its feedback. */
  lemma BlackoutPasses(st: StationState, v: View, e: int)
    requires Shows(st, v) && v.replayed && AtRest(v) && v.tail == [] && !HasEpisode(v.history.rows, e)
    ensures var after := WithBlackout(v, e);
            Shows(AfterAll(st, BlackoutSteps(e)),
                  Learned(after,
                          RunFeedback(Mind(after), if NextOk(v.history.outcomes) then [BlackoutRows(e)] else [])))
  {
    hide Shows, RunFeedback, HasEpisode, PollStation, AtRest, Sample, Samples;
    RestoredFacts(e);
    ActivePolls(st, v, Discharge(e));
    var grown := Grown(v, Discharge(e));
    assert grown.tail == Samples(Discharge(e));
    var mid := AfterAll(st, Polls(Discharge(e), BlackoutReal));
    BlackoutEnds(mid, grown, e);
    AfterSum(st, Polls(Discharge(e), BlackoutReal), [Observe(Restored(e), Online)]);
    AfterOne(mid, Observe(Restored(e), Online));
    assert grown.rows + [Sample(Restored(e))] == v.rows + BlackoutRows(e);
  }

  /** The same for the first blackout of a process: its first poll replays. */
  lemma BlackoutAfterStart(st: StationState, v: View, e: int)
    requires Shows(st, v) && !v.replayed && v.tail == []
    requires var pass := RunFeedback(Mind(v), v.closed);
             pass.completed && AtRest(Learned(v, pass)) && !HasEpisode(pass.learner.history.rows, e)
    ensures var begun := Learned(v, RunFeedback(Mind(v), v.closed));
            var after := WithBlackout(begun, e);
            Shows(AfterAll(st, BlackoutSteps(e)),
                  Learned(after,
                          RunFeedback(Mind(after), if NextOk(begun.history.outcomes) then [BlackoutRows(e)] else [])))
  {
    hide Shows, RunFeedback, HasEpisode, PollStation, AtRest, Sample, Samples;
    RestoredFacts(e);
    var os, begun := Discharge(e), Learned(v, RunFeedback(Mind(v), v.closed));
    ActivePoll(st, v, os[0]);
    var one := v.(rows := v.rows + [Sample(os[0])], tail := v.tail + [Sample(os[0])], charging := false);
    var first := Learned(one, RunFeedback(Mind(v), v.closed));
    RestIsMind(begun, first);
    var begunSt := PollStation(st, os[0], BlackoutReal);
    ActivePolls(begunSt, first, os[1..]);
    var grown := Grown(first, os[1..]);
    WriterPending.SamplesOfFirst(os);
    assert grown.tail == Samples(os) && grown.rows == v.rows + Samples(os);
    assert Polls(os, BlackoutReal)[0] == Observe(os[0], BlackoutReal);
    assert Polls(os, BlackoutReal)[1..] == Polls(os[1..], BlackoutReal);
    var mid := AfterAll(st, Polls(os, BlackoutReal));
    assert mid == AfterAll(begunSt, Polls(os[1..], BlackoutReal));
    BlackoutEnds(mid, grown, e);
    AfterSum(st, Polls(os, BlackoutReal), [Observe(Restored(e), Online)]);
    AfterOne(mid, Observe(Restored(e), Online));
    assert grown.rows + [Sample(Restored(e))] == v.rows + BlackoutRows(e);
  }
}
