/** The history is a lossless outbox for model updates, learning stays in range
    and terminates, and a replay after a quiet pass changes nothing. */
module FeedbackRuns {
  import opened Types
  import opened Storage
  import opened IrEstimator
  import opened IrExact
  import opened Cohort
  import opened History
  import opened ModelStore
  import opened Feedback

  // ----- the audit trail -----------------------------------------------------------

  function Updates(rows: seq<HistoryRow>): seq<Receipt> {
    if rows == [] then []
    else
      var n := |rows| - 1;
      if rows[n].Update? then Updates(rows[..n]) + [rows[n].receipt] else Updates(rows[..n])
  }

  /** Coefficient after a chain of updates that starts at k0. */
  function EndOf(k0: real, rs: seq<Receipt>): real {
    if rs == [] then k0 else rs[|rs| - 1].toValue
  }

  /** Each update starts where the one before it ended. */
  ghost predicate Chained(k0: real, rs: seq<Receipt>) {
    forall i :: 0 <= i < |rs| ==> rs[i].fromValue == EndOf(k0, rs[..i])
  }

  /** Each update lowers k by between 0.001 and 0.002 and not below 0.005. */
  ghost predicate BoundedStep(r: Receipt) {
    MIN_PROPOSAL_DECREMENT <= r.fromValue - r.toValue <= MAX_STEP && MIN_K <= r.toValue && r.fromValue <= MAX_K
  }

  /** The receipt in model.json is the newest row of the trail. */
  ghost predicate Settled(l: Learner) {
    var rs := Updates(l.history.rows);
    match l.model.memory.lastFeedback
    case None => rs == []
    case Some(r) => rs != [] && rs[|rs| - 1] == r
  }

  /** The receipt in model.json is the one update the trail still lacks. */
  ghost predicate Missing(l: Learner, k0: real) {
    var rs := Updates(l.history.rows);
    && l.model.memory.lastFeedback.Some?
    && l.model.memory.lastFeedback.value.fromValue == EndOf(k0, rs)
    && !HasUpdate(l.history.rows, l.model.memory.lastFeedback.value.eventAt)
    && BoundedStep(l.model.memory.lastFeedback.value)
  }

  ghost predicate Trail(l: Learner, k0: real) {
    var rs := Updates(l.history.rows);
    && Chained(k0, rs)
    && (forall r :: r in rs ==> BoundedStep(r))
    && (l.model.memory.lastFeedback.None? ==> l.model.memory.irK == k0)
    && (l.model.memory.lastFeedback.Some? ==> l.model.memory.irK == l.model.memory.lastFeedback.value.toValue)
  }

  /** No summary row of an event comes after its feedback rows, and no
      observation after its update: the last row of an event tells how far its
      feedback got. */
  ghost predicate KindsAccurate(rows: seq<HistoryRow>) {
    && (forall e :: HasUpdate(rows, e) ==> e in EventKinds(rows) && EventKinds(rows)[e] == UpdateKind)
    && (forall e :: HasObserved(rows, e) && !HasUpdate(rows, e) ==>
          e in EventKinds(rows) && EventKinds(rows)[e] == ObservedKind)
  }

  /** Memory and file agree, or a write that failed behind its rename left the
      file one bounded update ahead, of an event without an update row. */
  ghost predicate FileInStep(l: Learner) {
    var d := l.model.file.content;
    || d == l.model.memory
    || (&& Settled(l) && d.lastFeedback.Some? && BoundedStep(d.lastFeedback.value)
        && d.irK == d.lastFeedback.value.toValue && l.model.memory.irK == d.lastFeedback.value.fromValue
        && !HasUpdate(l.history.rows, d.lastFeedback.value.eventAt))
  }

  ghost predicate Outbox(l: Learner, k0: real) {
    Trail(l, k0) && (Settled(l) || Missing(l, k0)) && KindsAccurate(l.history.rows) && FileInStep(l)
  }

  // ----- one row more ----------------------------------------------------------------

  lemma AppendedRow(rows: seq<HistoryRow>, row: HistoryRow)
    ensures Updates(rows + [row]) == if row.Update? then Updates(rows) + [row.receipt] else Updates(rows)
    ensures EventKinds(rows + [row]) == EventKinds(rows)[KeyOf(row) := KindOf(row)]
    ensures forall e :: HasUpdate(rows + [row], e) <==> HasUpdate(rows, e) || (row.Update? && KeyOf(row) == e)
    ensures forall e :: HasObserved(rows + [row], e) <==> HasObserved(rows, e) || (row.Observed? && KeyOf(row) == e)
    ensures forall e :: HasEpisode(rows + [row], e) <==> HasEpisode(rows, e) || (row.Episode? && KeyOf(row) == e)
  {
    var more := rows + [row];
    assert more[..|more| - 1] == rows && more[|rows|] == row;
    forall e
      ensures HasUpdate(rows, e) ==> HasUpdate(more, e)
      ensures HasObserved(rows, e) ==> HasObserved(more, e)
      ensures HasEpisode(rows, e) ==> HasEpisode(more, e)
      ensures row.Update? && KeyOf(row) == e ==> HasUpdate(more, e)
      ensures row.Observed? && KeyOf(row) == e ==> HasObserved(more, e)
      ensures row.Episode? && KeyOf(row) == e ==> HasEpisode(more, e)
    {
      assert forall i :: 0 <= i < |rows| ==> more[i] == rows[i];
      assert more[|rows|] == row;
    }
  }

  lemma AppendKeepsKinds(rows: seq<HistoryRow>, row: HistoryRow)
    requires KindsAccurate(rows)
    requires row.Episode? ==> !HasUpdate(rows, KeyOf(row)) && !HasObserved(rows, KeyOf(row))
    requires row.Observed? ==> !HasUpdate(rows, KeyOf(row))
    ensures KindsAccurate(rows + [row])
  {
    hide EventKinds, HasUpdate, HasObserved, HasEpisode, Updates;
    AppendedRow(rows, row);
  }

  lemma ChainExtends(k0: real, rs: seq<Receipt>, r: Receipt)
    requires Chained(k0, rs) && r.fromValue == EndOf(k0, rs)
    ensures Chained(k0, rs + [r])
  {
    var more := rs + [r];
    forall i | 0 <= i < |more| ensures more[i].fromValue == EndOf(k0, more[..i]) {
      assert more[..i] == rs[..i];
      if i == |rs| {
        assert rs[..i] == rs;
      }
    }
  }

  // ----- recovery ----------------------------------------------------------------------

  /** Recovery keeps the outbox, and when it goes through nothing is missing. */
  lemma RecoverKeepsOutbox(l: Learner, k0: real)
    requires Outbox(l, k0)
    ensures Outbox(Recover(l).learner, k0) && Recover(l).learner.model == l.model
    ensures Recover(l).completed ==> Settled(Recover(l).learner)
  {
    hide EventKinds, Updates, Chained, BoundedStep;
    if l.model.memory.lastFeedback.Some? {
      var r := l.model.memory.lastFeedback.value;
      if !HasUpdate(l.history.rows, r.eventAt) {
        AppendedRow(l.history.rows, Update(r));
        AppendKeepsKinds(l.history.rows, Update(r));
        if Settled(l) {
          LastUpdateIsRow(l.history.rows);
        }
        ChainExtends(k0, Updates(l.history.rows), r);
      }
    }
  }

  lemma {:induction false} LastUpdateIsRow(rows: seq<HistoryRow>)
    requires Updates(rows) != []
    ensures HasUpdate(rows, Updates(rows)[|Updates(rows)| - 1].eventAt)
  {
    var n := |rows| - 1;
    if !rows[n].Update? {
      LastUpdateIsRow(rows[..n]);
      var e := Updates(rows)[|Updates(rows)| - 1].eventAt;
      var i :| 0 <= i < n && rows[..n][i].Update? && rows[..n][i].receipt.eventAt == e;
      assert rows[i].Update?;
    }
  }

  lemma SettledEnd(l: Learner, k0: real)
    requires Trail(l, k0) && Settled(l)
    ensures EndOf(k0, Updates(l.history.rows)) == l.model.memory.irK
  {}

  // ----- one turn of the loop --------------------------------------------------------------

  /** What holds between two episodes of a pass. */
  ghost predicate Between(l: Learner, k0: real, kinds: map<int, RowKind>) {
    Outbox(l, k0) && Settled(l) && kinds == EventKinds(l.history.rows)
  }

  lemma ProposalForBounds(l: Learner)
    requires ProposalFor(l).Some?
    ensures var p, k := ProposalFor(l).value, l.model.memory.irK;
            MIN_PROPOSAL_DECREMENT <= k - p.toValue <= MAX_STEP && MIN_K <= p.toValue < k <= MAX_K
  {
    ProposalBounds(PendingObservations(l.history.rows), None, l.model.memory.irK);
  }

  lemma ApplyLeavesMissing(l: Learner, k0: real, kinds: map<int, RowKind>, receipt: EventReceipt, toValue: real)
    requires Between(l, k0, kinds) && !HasUpdate(l.history.rows, receipt.eventAt)
    requires var k := l.model.memory.irK;
             MIN_PROPOSAL_DECREMENT <= k - toValue <= MAX_STEP && MIN_K <= toValue < k <= MAX_K
    ensures var (model, result) := ApplyFeedbackTo(l.model, Some(toValue), Some(receipt));
            && result != NoChange
            && (result == WriteFailed ==> model.memory == l.model.memory)
            && (result.Applied? ==> Outbox(l.(model := model), k0) && Missing(l.(model := model), k0))
            && (result == WriteFailed ==> Outbox(l.(model := model), k0))
  {
    hide EventKinds, Updates, Chained;
    SettledEnd(l, k0);
    if l.model.memory.lastFeedback.Some? {
      LastUpdateIsRow(l.history.rows);
    }
  }

  lemma ProposeKeepsOutbox(l: Learner, k0: real, kinds: map<int, RowKind>, eventAt: int)
    requires Between(l, k0, kinds) && !HasUpdate(l.history.rows, eventAt)
    ensures var t := ProposeAndApply(l, kinds, eventAt);
            && Outbox(t.pass.learner, k0)
            && (t.pass.completed ==> Between(t.pass.learner, k0, t.kinds))
            && t.pass.learner.model.memory.irK <= l.model.memory.irK
  {
    hide EventKinds, Updates, Chained, KindsAccurate, ProposeFrom, PendingObservations;
    if ProposalFor(l).Some? {
      ProposalForBounds(l);
      var p := ProposalFor(l).value;
      var receipt := EventReceipt(eventAt, p.evidenceAt, p.reason);
      ApplyLeavesMissing(l, k0, kinds, receipt, p.toValue);
      var (model, result) := ApplyFeedbackTo(l.model, Some(p.toValue), Some(receipt));
      if result.Applied? {
        RecoverKeepsOutbox(l.(model := model), k0);
        AppendedRow(l.history.rows, Update(model.memory.lastFeedback.value));
      }
    }
  }

  lemma TurnKeepsOutbox(l: Learner, k0: real, kinds: map<int, RowKind>, episode: seq<Row>)
    requires Between(l, k0, kinds)
    ensures var t := OneEpisode(l, kinds, episode);
            && Outbox(t.pass.learner, k0)
            && (t.pass.completed ==> Between(t.pass.learner, k0, t.kinds))
            && t.pass.learner.model.memory.irK <= l.model.memory.irK
  {
    hide EventKinds, Updates, Chained, ExtractIr, ProposeAndApply;
    var start := EventStart(episode);
    if start.Some? && !Skipped(kinds, start.value) {
      var eventAt := start.value;
      assert !HasUpdate(l.history.rows, eventAt);
      if AlreadyObserved(kinds, eventAt) {
        ProposeKeepsOutbox(l, k0, kinds, eventAt);
      } else if ExtractIr(episode, Some(eventAt)).Some? {
        var o := ExtractIr(episode, Some(eventAt)).value;
        ExtractedObservationBounds(episode, Some(eventAt));
        assert !HasObserved(l.history.rows, eventAt);
        if NextOk(l.history.outcomes) {
          AppendedRow(l.history.rows, Observed(o));
          AppendKeepsKinds(l.history.rows, Observed(o));
          var recorded := l.(history := AddObservation(l.history, o).0);
          ProposeKeepsOutbox(recorded, k0, kinds[eventAt := ObservedKind], eventAt);
        }
      }
    }
  }

  lemma {:induction false} PassKeepsOutbox(l: Learner, k0: real, kinds: map<int, RowKind>, episodes: seq<seq<Row>>)
    requires Between(l, k0, kinds)
    ensures var p := ApplyFeedback(l, kinds, episodes);
            && Outbox(p.learner, k0) && (p.completed ==> Settled(p.learner))
            && p.learner.model.memory.irK <= l.model.memory.irK
    decreases |episodes|
  {
    hide OneEpisode, Outbox, Settled;
    if episodes != [] {
      TurnKeepsOutbox(l, k0, kinds, episodes[0]);
      var t := OneEpisode(l, kinds, episodes[0]);
      if t.pass.completed {
        PassKeepsOutbox(t.pass.learner, k0, t.kinds, episodes[1..]);
      }
    }
  }

  // ----- runs -------------------------------------------------------------------------------

  /** What happens to the durable learning state.  A restart keeps it; the
      outcomes carried by the files decide which writes fail, and a crash is a
      write that fails and a restart after it. */
  datatype LearnStep =
    | Feedback(episodes: seq<seq<Row>>)
    | Summary(records: seq<Row>, kind: BlackoutKind)
    | Restart(modelOutcomes: seq<ReplaceOutcome>, historyOutcomes: seq<bool>)

  function Stepped(l: Learner, step: LearnStep): Learner {
    match step
    case Feedback(episodes) => RunFeedback(l, episodes).learner
    case Summary(records, kind) => l.(history := AddEpisode(l.history, records, kind).0)
    case Restart(m, h) => Learner(Reloaded(l.model, m), l.history.(outcomes := h))
  }

  function Ran(l: Learner, steps: seq<LearnStep>): Learner
    decreases |steps|
  {
    if steps == [] then l else Ran(Stepped(l, steps[0]), steps[1..])
  }

  /** The summary of an episode does not land after feedback rows of its event. */
  predicate LandsInOrder(l: Learner, step: LearnStep) {
    step.Summary? ==>
      match SummarizeEpisode(step.records, step.kind)
      case None => true
      case Some(row) =>
        HasEpisode(l.history.rows, row.at)
        || (!HasObserved(l.history.rows, row.at) && !HasUpdate(l.history.rows, row.at))
  }

  predicate RunInOrder(l: Learner, steps: seq<LearnStep>)
    decreases |steps|
  {
    steps == [] || (LandsInOrder(l, steps[0]) && RunInOrder(Stepped(l, steps[0]), steps[1..]))
  }

  /** A new process finds the model of the old one, or the update it lacks. */
  lemma ReloadKeepsOutbox(l: Learner, k0: real, outcomes: seq<ReplaceOutcome>)
    requires Outbox(l, k0)
    ensures Outbox(l.(model := Reloaded(l.model, outcomes)), k0)
    ensures Reloaded(l.model, outcomes).memory.irK <= l.model.memory.irK
  {
    hide EventKinds, Updates, Chained;
    if l.model.file.content != l.model.memory {
      SettledEnd(l, k0);
    }
  }

  lemma StepKeepsOutbox(l: Learner, k0: real, step: LearnStep)
    requires Outbox(l, k0) && LandsInOrder(l, step)
    ensures Outbox(Stepped(l, step), k0)
    ensures Stepped(l, step).model.memory.irK <= l.model.memory.irK
  {
    hide EventKinds, Updates, Chained, ApplyFeedback;
    match step {
      case Feedback(episodes) =>
        RecoverKeepsOutbox(l, k0);
        var recovered := Recover(l);
        if recovered.completed {
          PassKeepsOutbox(recovered.learner, k0, EventKinds(recovered.learner.history.rows), episodes);
        }
      case Summary(records, kind) =>
        var summary := SummarizeEpisode(records, kind);
        if summary.Some? {
          AppendedRow(l.history.rows, summary.value);
          if !HasEpisode(l.history.rows, summary.value.at) {
            AppendKeepsKinds(l.history.rows, summary.value);
          }
        }
      case Restart(m, _) => ReloadKeepsOutbox(l, k0, m);
    }
  }

  /** Over every interleaving of feedback, summaries, failed writes, crashes and
      restarts: the update rows form a chain of bounded steps from k0, at most one
      receipt is missing from it and it is the one in model.json, and the model
      only ever goes down. */
  lemma {:induction false} OutboxOverRun(l: Learner, k0: real, steps: seq<LearnStep>)
    requires Outbox(l, k0) && RunInOrder(l, steps)
    ensures Outbox(Ran(l, steps), k0)
    ensures Ran(l, steps).model.memory.irK <= l.model.memory.irK
    decreases |steps|
  {
    hide Stepped, Outbox, LandsInOrder;
    if steps != [] {
      StepKeepsOutbox(l, k0, steps[0]);
      OutboxOverRun(Stepped(l, steps[0]), k0, steps[1..]);
    }
  }

  /** After any such run, once a recovery goes through, the trail ends at the
      model's coefficient. */
  lemma RecoveredTrailEndsAtModel(l: Learner, k0: real, steps: seq<LearnStep>)
    requires Outbox(l, k0) && RunInOrder(l, steps)
    requires Recover(Ran(l, steps)).completed
    ensures var after := Recover(Ran(l, steps)).learner;
            && Chained(k0, Updates(after.history.rows))
            && EndOf(k0, Updates(after.history.rows)) == after.model.memory.irK == Ran(l, steps).model.memory.irK
  {
    hide EventKinds, Updates, Chained, Ran, KindsAccurate;
    OutboxOverRun(l, k0, steps);
    RecoverKeepsOutbox(Ran(l, steps), k0);
    SettledEnd(Recover(Ran(l, steps)).learner, k0);
  }

  /** A model without feedback and an empty history satisfy the outbox. */
  lemma FreshOutbox(k0: real, modelOutcomes: seq<ReplaceOutcome>, historyOutcomes: seq<bool>)
    ensures Outbox(Learner(Loaded(Model(k0, None), modelOutcomes), Log([], historyOutcomes)), k0)
  {}

  // ----- learning terminates ------------------------------------------------------------------

  /** n updates, each by between 0.001 and 0.002, the last one not below 0.005. */
  predicate Falls(from: real, to: real, n: nat) {
    && n as real * MIN_PROPOSAL_DECREMENT <= from - to <= n as real * MAX_STEP
    && (n > 0 ==> MIN_K <= to)
  }

  /** The file holds the coefficient in memory or that of one update more. */
  predicate AtMostOneAhead(m: OwnedModel) {
    Falls(m.memory.irK, m.file.content.irK, 0) || Falls(m.memory.irK, m.file.content.irK, 1)
  }

  lemma ProposalFalls(l: Learner, kinds: map<int, RowKind>, eventAt: int)
    requires AtMostOneAhead(l.model)
    ensures var p := ProposeAndApply(l, kinds, eventAt).pass;
            Falls(l.model.memory.irK, p.learner.model.memory.irK, |p.applied|) && AtMostOneAhead(p.learner.model)
  {
    hide PendingObservations, Propose;
    if ProposalFor(l).Some? {
      ProposalForBounds(l);
    }
  }

  lemma TurnFalls(l: Learner, kinds: map<int, RowKind>, episode: seq<Row>)
    requires AtMostOneAhead(l.model)
    ensures var p := OneEpisode(l, kinds, episode).pass;
            Falls(l.model.memory.irK, p.learner.model.memory.irK, |p.applied|) && AtMostOneAhead(p.learner.model)
  {
    hide ExtractIr, EventStart, ProposeAndApply;
    var e := EventStart(episode);
    if e.Some? {
      ProposalFalls(l, kinds, e.value);
      if ExtractIr(episode, e).Some? {
        var recorded := l.(history := AddObservation(l.history, ExtractIr(episode, e).value).0);
        ProposalFalls(recorded, kinds[e.value := ObservedKind], e.value);
      }
    }
  }

  lemma FallsOn(a: real, b: real, c: real, m: nat, n: nat)
    requires Falls(a, b, m) && Falls(b, c, n)
    ensures Falls(a, c, m + n)
  {
    assert (m + n) as real == m as real + n as real;
  }

  lemma {:induction false} PassFalls(l: Learner, kinds: map<int, RowKind>, episodes: seq<seq<Row>>)
    requires AtMostOneAhead(l.model)
    ensures var p := ApplyFeedback(l, kinds, episodes);
            Falls(l.model.memory.irK, p.learner.model.memory.irK, |p.applied|) && AtMostOneAhead(p.learner.model)
    decreases |episodes|
  {
    hide OneEpisode, Falls, AtMostOneAhead;
    if episodes == [] {
      FallsNot(l.model.memory.irK);
    } else {
      TurnFalls(l, kinds, episodes[0]);
      var t := OneEpisode(l, kinds, episodes[0]);
      if t.pass.completed {
        PassFalls(t.pass.learner, t.kinds, episodes[1..]);
        var rest := ApplyFeedback(t.pass.learner, t.kinds, episodes[1..]);
        FallsOn(l.model.memory.irK, t.pass.learner.model.memory.irK, rest.learner.model.memory.irK,
                |t.pass.applied|, |rest.applied|);
      }
    }
  }

  lemma FallsNot(k: real)
    ensures Falls(k, k, 0)
  {}

  /** Updates one step puts into force: those feedback applied, or the one a new
      process finds in the file. */
  function UpdatesIn(l: Learner, step: LearnStep): nat {
    match step
    case Feedback(episodes) => |RunFeedback(l, episodes).applied|
    case Summary(_, _) => 0
    case Restart(_, _) => if l.model.file.content.irK == l.model.memory.irK then 0 else 1
  }

  function UpdatesMade(l: Learner, steps: seq<LearnStep>): nat
    decreases |steps|
  {
    if steps == [] then 0 else UpdatesIn(l, steps[0]) + UpdatesMade(Stepped(l, steps[0]), steps[1..])
  }

  lemma StepFalls(l: Learner, step: LearnStep)
    requires AtMostOneAhead(l.model)
    ensures Falls(l.model.memory.irK, Stepped(l, step).model.memory.irK, UpdatesIn(l, step))
    ensures AtMostOneAhead(Stepped(l, step).model)
  {
    hide ApplyFeedback, EventKinds, AddEpisode, AddUpdate;
    if step.Feedback? {
      var recovered := Recover(l);
      if recovered.completed {
        PassFalls(recovered.learner, EventKinds(recovered.learner.history.rows), step.episodes);
      }
    }
  }

  /** Over every run, whatever fails, crashes or is replayed, in whatever order
      rows land: each update put into force lowers the coefficient by between
      0.001 and 0.002 and leaves it at 0.005 or more, so from k0 there are at most
      (k0 - 0.005) / 0.001 of them. */
  lemma {:induction false} LearningTerminates(l: Learner, steps: seq<LearnStep>)
    requires AtMostOneAhead(l.model)
    ensures var k0, k, n := l.model.memory.irK, Ran(l, steps).model.memory.irK, UpdatesMade(l, steps);
            && n as real * MIN_PROPOSAL_DECREMENT <= k0 - k <= n as real * MAX_STEP
            && (n > 0 ==> MIN_K <= k && n as real * MIN_PROPOSAL_DECREMENT <= k0 - MIN_K)
            && (n == 0 ==> k == k0)
    ensures AtMostOneAhead(Ran(l, steps).model)
    decreases |steps|
  {
    hide Stepped, UpdatesIn;
    if steps != [] {
      var next := Stepped(l, steps[0]);
      StepFalls(l, steps[0]);
      LearningTerminates(next, steps[1..]);
      FallsOn(l.model.memory.irK, next.model.memory.irK, Ran(next, steps[1..]).model.memory.irK,
              UpdatesIn(l, steps[0]), UpdatesMade(next, steps[1..]));
    }
  }

  /** From the default coefficient 0.015 there are at most 10 updates, ever. */
  lemma AtMostTenUpdates(l: Learner, steps: seq<LearnStep>)
    requires l.model == Loaded(l.model.memory, l.model.file.outcomes) && l.model.memory.irK == 0.015
    ensures UpdatesMade(l, steps) <= 10
  {
    hide UpdatesMade, Ran;
    LearningTerminates(l, steps);
    assert UpdatesMade(l, steps) as real * 0.001 <= 0.010 || UpdatesMade(l, steps) == 0;
  }

  // ----- the order of summaries matters ------------------------------------------------------------

  /** Applying a proposal for an event and recovering it extends the trail exactly
      when the event has no update row yet: with one, the receipt is dropped. */
  lemma TrailExtendsIffEventNew(l: Learner, k0: real, eventAt: int)
    requires Trail(l, k0) && Settled(l) && ProposalFor(l).Some?
    requires NextReplace(l.model.file.outcomes) == Replaced && NextOk(l.history.outcomes)
    requires !SameEvent(l.model.memory, eventAt)
    ensures var t := ProposeAndApply(l, EventKinds(l.history.rows), eventAt);
            && t.pass.completed
            && t.pass.learner.model.memory.irK < l.model.memory.irK
            && (!HasUpdate(l.history.rows, eventAt) <==>
                  EndOf(k0, Updates(t.pass.learner.history.rows)) == t.pass.learner.model.memory.irK)
  {
    hide EventKinds, Updates, Chained, PendingObservations, ProposeFrom;
    ProposalForBounds(l);
    SettledEnd(l, k0);
    var p := ProposalFor(l).value;
    var model := ApplyFeedbackTo(l.model, Some(p.toValue), Some(EventReceipt(eventAt, p.evidenceAt, p.reason))).0;
    AppendedRow(l.history.rows, Update(model.memory.lastFeedback.value));
  }
}
