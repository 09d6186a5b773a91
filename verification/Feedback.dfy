/** The learning loop of the monitor (src/monitor.py, _run_model_feedback,
    _apply_feedback and _recover_model_update) over the durable model and
    history files. */
module Feedback {
  import opened Types
  import opened Storage
  import opened IrEstimator
  import opened Cohort
  import opened History
  import opened ModelStore
  import opened Segments

  /** Everything durable that learning touches. */
  datatype Learner = Learner(model: OwnedModel, history: Log<HistoryRow>)

  /** One update written to the model, with the cohort it was computed from. */
  datatype AppliedUpdate = AppliedUpdate(receipt: Receipt, cohort: seq<IrObservation>)

  /** Result of some part of a pass: `completed` is false when a durable write
      failed (or the daemon died there) and the rest was abandoned. */
  datatype Pass = Pass(learner: Learner, completed: bool, applied: seq<AppliedUpdate>)

  datatype Turn = Turn(pass: Pass, kinds: map<int, RowKind>)

  /** monitor._event_start. */
  function EventStart(episode: seq<Row>): Option<int> {
    var i := FirstActive(episode);
    if i < |episode| then Some(episode[i].at) else None
  }

  /** _recover_model_update: the receipt in model.json is put into the history. */
  function Recover(l: Learner): Pass {
    match l.model.memory.lastFeedback
    case None => Pass(l, true, [])
    case Some(receipt) =>
      var (history, result) := AddUpdate(l.history, receipt);
      Pass(l.(history := history), result != AppendFailed, [])
  }

  function ProposalFor(l: Learner): Option<Proposal> {
    Propose(PendingObservations(l.history.rows), None, l.model.memory.irK)
  }

  /** From the cohort on disk to the updated model and its history row. */
  function ProposeAndApply(l: Learner, kinds: map<int, RowKind>, eventAt: int): Turn {
    match ProposalFor(l)
    case None => Turn(Pass(l, true, []), kinds)
    case Some(p) =>
      var (model, result) := ApplyFeedbackTo(l.model, Some(p.toValue),
          Some(EventReceipt(eventAt, p.evidenceAt, p.reason)));
      match result
      case NoChange => Turn(Pass(l, true, []), kinds)
      case WriteFailed => Turn(Pass(l.(model := model), false, []), kinds)
      case Applied(_, _) =>
        var recovered := Recover(l.(model := model));
        var update := AppliedUpdate(model.memory.lastFeedback.value, PendingObservations(l.history.rows));
        Turn(recovered.(applied := [update]), if recovered.completed then kinds[eventAt := UpdateKind] else kinds)
  }

  predicate Skipped(kinds: map<int, RowKind>, eventAt: int) {
    eventAt in kinds && (kinds[eventAt] == SelfTestKindRow || kinds[eventAt] == UpdateKind)
  }

  predicate AlreadyObserved(kinds: map<int, RowKind>, eventAt: int) {
    eventAt in kinds && kinds[eventAt] == ObservedKind
  }

  /** One iteration of the loop in _apply_feedback. */
  function OneEpisode(l: Learner, kinds: map<int, RowKind>, episode: seq<Row>): Turn {
    match EventStart(episode)
    case None => Turn(Pass(l, true, []), kinds)
    case Some(eventAt) =>
      if Skipped(kinds, eventAt) then Turn(Pass(l, true, []), kinds)
      else if AlreadyObserved(kinds, eventAt) then ProposeAndApply(l, kinds, eventAt)
      else
        match ExtractIr(episode, Some(eventAt))
        case None => Turn(Pass(l, true, []), kinds)
        case Some(o) =>
          var (history, result) := AddObservation(l.history, o);
          if result == AppendFailed then Turn(Pass(l.(history := history), false, []), kinds)
          else ProposeAndApply(l.(history := history), kinds[eventAt := ObservedKind], eventAt)
  }

  function ApplyFeedback(l: Learner, kinds: map<int, RowKind>, episodes: seq<seq<Row>>): Pass
    decreases |episodes|
  {
    if episodes == [] then Pass(l, true, [])
    else
      var turn := OneEpisode(l, kinds, episodes[0]);
      if !turn.pass.completed then turn.pass
      else
        var rest := ApplyFeedback(turn.pass.learner, turn.kinds, episodes[1..]);
        rest.(applied := turn.pass.applied + rest.applied)
  }

  /** _run_model_feedback for the episodes of this poll. */
  function RunFeedback(l: Learner, episodes: seq<seq<Row>>): Pass {
    var recovered := Recover(l);
    if !recovered.completed then recovered
    else ApplyFeedback(recovered.learner, EventKinds(recovered.learner.history.rows), episodes)
  }

  /** The episodes a poll works on: all closed ones until a replay has gone
      through, afterwards the one just completed. */
  function EpisodesOfPoll(replayed: bool, telemetry: seq<Row>, completed: Option<seq<Row>>): seq<seq<Row>> {
    if !replayed then ClosedEpisodes(telemetry)
    else if completed.Some? then [completed.value]
    else []
  }

  class FeedbackMonitor {
    const owner: ModelOwner
    const history: BatteryHistory
    var feedbackReplayed: bool

    ghost function State(): Learner
      reads owner, owner.file, history, history.file
    {
      Learner(owner.State(), history.file.State())
    }

    constructor (owner: ModelOwner, history: BatteryHistory)
      ensures this.owner == owner && this.history == history && !feedbackReplayed
    {
      this.owner, this.history := owner, history;
      feedbackReplayed := false;
    }

    method RecoverModelUpdate() returns (ok: bool)
      modifies history.file
      ensures Pass(State(), ok, []) == Recover(old(State()))
    {
      if owner.state.lastFeedback.None? {
        return true;
      }
      var result := history.UpsertModelUpdate(owner.state.lastFeedback.value);
      ok := result != AppendFailed;
    }

    method Propose(kinds: map<int, RowKind>, eventAt: int)
      returns (kinds': map<int, RowKind>, ok: bool, ghost applied: seq<AppliedUpdate>)
      modifies owner, owner.file, history.file
      ensures Turn(Pass(State(), ok, applied), kinds') == ProposeAndApply(old(State()), kinds, eventAt)
    {
      kinds', applied := kinds, [];
      var observations := history.IrObservations();
      var proposal := ProposeIrCohortFeedback(observations, None, owner.state.irK);
      if proposal.None? {
        return kinds, true, [];
      }
      var p := proposal.value;
      var result := owner.ApplyFeedback(Some(p.toValue), Some(EventReceipt(eventAt, p.evidenceAt, p.reason)));
      if result.WriteFailed? {
        return kinds, false, [];
      }
      if result.NoChange? {
        return kinds, true, [];
      }
      applied := [AppliedUpdate(owner.state.lastFeedback.value, observations)];
      ok := RecoverModelUpdate();
      if ok {
        kinds' := kinds[eventAt := UpdateKind];
      }
    }

    method ProcessEpisode(kinds: map<int, RowKind>, episode: seq<Row>)
      returns (kinds': map<int, RowKind>, ok: bool, ghost applied: seq<AppliedUpdate>)
      modifies owner, owner.file, history.file
      ensures Turn(Pass(State(), ok, applied), kinds') == OneEpisode(old(State()), kinds, episode)
    {
      kinds', ok, applied := kinds, true, [];
      var start := EventStart(episode);
      if start.None? || Skipped(kinds, start.value) {
        return;
      }
      var eventAt := start.value;
      if !AlreadyObserved(kinds, eventAt) {
        var observation := ExtractIrObservation(episode, Some(eventAt));
        if observation.None? {
          return;
        }
        var result := history.RecordIrObservation(observation.value);
        if result == AppendFailed {
          return kinds, false, [];
        }
        kinds' := kinds'[eventAt := ObservedKind];
      }
      kinds', ok, applied := Propose(kinds', eventAt);
    }

    method Apply(episodes: seq<seq<Row>>) returns (ok: bool, ghost applied: seq<AppliedUpdate>)
      modifies owner, owner.file, history.file
      ensures Pass(State(), ok, applied) ==
              ApplyFeedback(old(State()), EventKinds(old(history.file.rows)), episodes)
    {
      hide OneEpisode, EventKinds;
      var kinds := history.ReadEventKinds();
      ghost var whole := ApplyFeedback(State(), kinds, episodes);
      applied := [];
      assert episodes[0..] == episodes;
      for i := 0 to |episodes|
        invariant var rest := ApplyFeedback(State(), kinds, episodes[i..]);
                  whole == rest.(applied := applied + rest.applied)
      {
        ghost var turn;
        assert episodes[i..][0] == episodes[i] && episodes[i..][1..] == episodes[i + 1..];
        kinds, ok, turn := ProcessEpisode(kinds, episodes[i]);
        applied := applied + turn;
        if !ok {
          return;
        }
      }
      ok := true;
    }

    method RunModelFeedback(completed: Option<seq<Row>>, telemetry: seq<Row>)
      returns (ok: bool, ghost applied: seq<AppliedUpdate>)
      modifies this, owner, owner.file, history.file
      ensures Pass(State(), ok, applied) ==
              RunFeedback(old(State()), EpisodesOfPoll(old(feedbackReplayed), telemetry, completed))
      ensures feedbackReplayed <==> old(feedbackReplayed) || ok
    {
      applied := [];
      ok := RecoverModelUpdate();
      if !ok {
        return;
      }
      if !feedbackReplayed {
        var episodes := FindClosedEpisodes(telemetry);
        ok, applied := Apply(episodes);
        feedbackReplayed := ok;
      } else if completed.Some? {
        ok, applied := Apply([completed.value]);
      }
    }
  }
}
