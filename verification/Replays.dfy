/** A pass that goes through leaves none of its episodes undone, whatever state a
    crash left behind; so after a start the first one that does has caught up with
    everything closed on disk. */
module Replays {
  import opened Types
  import opened IrEstimator
  import opened IrExact
  import opened Cohort
  import opened History
  import opened ModelStore
  import opened Segments
  import opened Feedback
  import opened FeedbackRuns
  import opened FeedbackQuiet
  import opened Summaries
  import opened Writer
  import opened WriterEpisodes
  import opened Station

  /** Kinds only change to those of an event that feedback has dealt with. */
  ghost predicate Progress(before: map<int, RowKind>, after: map<int, RowKind>) {
    forall e :: e in before || e in after ==>
      && e in after
      && (after[e] == ObservedKind || after[e] == UpdateKind || (e in before && after[e] == before[e]))
      && (e in before && (before[e] == UpdateKind || before[e] == SelfTestKindRow) ==>
            after[e] == UpdateKind || after[e] == before[e])
  }

  lemma DoneStaysDone(before: map<int, RowKind>, after: map<int, RowKind>, episodes: seq<seq<Row>>)
    requires Progress(before, after) && AllDone(before, episodes)
    ensures AllDone(after, episodes)
  {
    hide ExtractIr, EventStart;
    forall i | 0 <= i < |episodes| ensures DoneBy(after, episodes[i]) {
      assert DoneBy(before, episodes[i]);
    }
  }

  lemma ProgressTwice(a: map<int, RowKind>, b: map<int, RowKind>, c: map<int, RowKind>)
    requires Progress(a, b) && Progress(b, c)
    ensures Progress(a, c)
  {}

  /** One turn that goes through: its episode is done. */
  lemma TurnDone(l: Learner, k0: real, kinds: map<int, RowKind>, episode: seq<Row>)
    requires Between(l, k0, kinds) && OneEpisode(l, kinds, episode).pass.completed
    ensures var t := OneEpisode(l, kinds, episode);
            Progress(kinds, t.kinds) && DoneBy(t.kinds, episode)
  {
    hide EventKinds, Updates, ExtractIr, EventStart, Outbox, ProposalFor, Recover;
  }

  /** The learner when the turn of an observed or observable episode proposes. */
  function ObservedLearner(l: Learner, kinds: map<int, RowKind>, episode: seq<Row>, e: int): Learner {
    if AlreadyObserved(kinds, e) || ExtractIr(episode, Some(e)).None? then l
    else l.(history := l.history.Append(Observed(ExtractIr(episode, Some(e)).value)))
  }

  /** A proposal made for event e and put into force: the model holds it, with the
      event's receipt, and the history has its row. */
  ghost predicate PutIntoForce(before: Learner, e: int, p: Proposal, pass: Pass) {
    var receipt := Receipt(e, p.evidenceAt, before.model.memory.irK, p.toValue, p.reason);
    && pass.applied == [AppliedUpdate(receipt, PendingObservations(before.history.rows))]
    && pass.learner.model.memory == pass.learner.model.file.content == Model(p.toValue, Some(receipt))
    && pass.learner.history.rows == before.history.rows + [Update(receipt)]
  }

  lemma ProposeApplies(l: Learner, kinds: map<int, RowKind>, e: int)
    requires Settled(l) && !HasUpdate(l.history.rows, e) && ProposeAndApply(l, kinds, e).pass.completed
    ensures var pass := ProposeAndApply(l, kinds, e).pass;
            match ProposalFor(l)
            case None => pass == Pass(l, true, [])
            case Some(p) => PutIntoForce(l, e, p, pass)
  {
    hide Updates, ProposalFor, PendingObservations, HasUpdate;
    if l.model.memory.lastFeedback.Some? {
      LastUpdateIsRow(l.history.rows);
    }
    if ProposalFor(l).Some? {
      ProposalForBounds(l);
    }
  }

  /** A turn that goes through, of an episode that was or can be observed and has no
      update: if the evidence recorded by then yields a proposal it is put into force,
      and otherwise nothing more changes. */
  lemma TurnApplies(l: Learner, k0: real, kinds: map<int, RowKind>, episode: seq<Row>, e: int)
    requires Between(l, k0, kinds) && OneEpisode(l, kinds, episode).pass.completed
    requires EventStart(episode) == Some(e) && !Skipped(kinds, e)
    requires AlreadyObserved(kinds, e) || ExtractIr(episode, Some(e)).Some?
    ensures var before, pass := ObservedLearner(l, kinds, episode, e), OneEpisode(l, kinds, episode).pass;
            match ProposalFor(before)
            case None => pass == Pass(before, true, [])
            case Some(p) => PutIntoForce(before, e, p, pass)
  {
    hide EventKinds, Updates, ExtractIr, EventStart, ProposalFor, ProposeAndApply, PutIntoForce, Trail, Missing,
         FileInStep;
    var before := ObservedLearner(l, kinds, episode, e);
    assert !HasUpdate(l.history.rows, e) && (!AlreadyObserved(kinds, e) ==> !HasObserved(l.history.rows, e));
    if AlreadyObserved(kinds, e) {
      ProposeApplies(l, kinds, e);
    } else {
      var o := ExtractIr(episode, Some(e)).value;
      ExtractedObservationBounds(episode, Some(e));
      AppendedRow(l.history.rows, Observed(o));
      hide HasUpdate, HasObserved;
      ProposeApplies(before, kinds[e := ObservedKind], e);
    }
  }

  lemma {:induction false} PassDone(l: Learner, k0: real, kinds: map<int, RowKind>, episodes: seq<seq<Row>>)
    requires Between(l, k0, kinds) && ApplyFeedback(l, kinds, episodes).completed
    ensures var rows := ApplyFeedback(l, kinds, episodes).learner.history.rows;
            Progress(kinds, EventKinds(rows)) && AllDone(EventKinds(rows), episodes)
    decreases |episodes|
  {
    hide OneEpisode, Outbox, Settled, DoneBy, Progress;
    if episodes == [] {
      NoProgress(kinds);
    } else {
      var t := OneEpisode(l, kinds, episodes[0]);
      TurnKeepsOutbox(l, k0, kinds, episodes[0]);
      TurnDone(l, k0, kinds, episodes[0]);
      PassDone(t.pass.learner, k0, t.kinds, episodes[1..]);
      var after := EventKinds(ApplyFeedback(l, kinds, episodes).learner.history.rows);
      ProgressTwice(kinds, t.kinds, after);
      assert AllDone(t.kinds, [episodes[0]]);
      DoneStaysDone(t.kinds, after, [episodes[0]]);
      assert [episodes[0]][0] == episodes[0] && DoneBy(after, episodes[0]);
      forall i | 0 <= i < |episodes| ensures DoneBy(after, episodes[i]) {
        assert i == 0 || episodes[i] == episodes[1..][i - 1];
      }
    }
  }

  lemma NoProgress(kinds: map<int, RowKind>)
    ensures Progress(kinds, kinds)
  {}

  /** Feedback that goes through: the receipt is recorded, and every episode was
      observed, updated, is a self-test, or has nothing to observe. */
  lemma FeedbackDone(l: Learner, k0: real, episodes: seq<seq<Row>>)
    requires Outbox(l, k0) && RunFeedback(l, episodes).completed
    ensures var after := RunFeedback(l, episodes).learner;
            Settled(after) && AllDone(EventKinds(after.history.rows), episodes)
  {
    hide ApplyFeedback, EventKinds, AllDone, Outbox, Settled;
    RecoverKeepsOutbox(l, k0);
    var recovered := Recover(l).learner;
    PassKeepsOutbox(recovered, k0, EventKinds(recovered.history.rows), episodes);
    PassDone(recovered, k0, EventKinds(recovered.history.rows), episodes);
  }

  /** As long as no summary is lost: the poll after which no replay is due any more
      leaves every episode closed on disk done, and the receipt recorded. */
  lemma ReplayCatchesUp(st: StationState, k0: real, o: Observation, kind: BlackoutKind)
    requires Outbox(LearnerOf(st), k0) && KeyedStation(st) && Unlost(st, Observe(o, kind)) && !st.replayed
    ensures var after := PollStation(st, o, kind);
            after.replayed ==>
              Settled(LearnerOf(after))
              && AllDone(EventKinds(after.writer.history.rows), ClosedEpisodes(after.writer.file.rows))
  {
    hide Outbox, Keyed, AddEpisode, InSync, WriteAndTake, RunFeedback, AllSummarised, EventStart, LosesEpisode,
         AllDone, Settled, EventKinds;
    HistoryOfWrite(st.writer, o, kind);
    var (written, handed) := WriteAndTake(st.writer, o, kind);
    if handed.Some? {
      AddEpisodeKeepsOutbox(LearnerOf(st), k0, handed.value, st.writer.kind);
    }
    var l := Learner(st.model, written.history);
    if RunFeedback(l, ClosedEpisodes(written.file.rows)).completed {
      FeedbackDone(l, k0, ClosedEpisodes(written.file.rows));
    }
  }
}
