/** Feedback touches only events that have a summary, as long as the episodes it
    is given have one. */
module Summaries {
  import opened Types
  import opened IrEstimator
  import opened IrExact
  import opened History
  import opened ModelStore
  import opened Feedback
  import opened FeedbackRuns

  ghost predicate ReceiptKeyed(rows: seq<HistoryRow>, receipt: Option<Receipt>) {
    receipt.Some? ==> HasEpisode(rows, receipt.value.eventAt)
  }

  /** Every event with feedback rows or a receipt has a summary. */
  ghost predicate Keyed(l: Learner) {
    && (forall e :: HasObserved(l.history.rows, e) || HasUpdate(l.history.rows, e) ==> HasEpisode(l.history.rows, e))
    && ReceiptKeyed(l.history.rows, l.model.memory.lastFeedback)
    && ReceiptKeyed(l.history.rows, l.model.file.content.lastFeedback)
  }

  ghost predicate Summarised(rows: seq<HistoryRow>, episode: seq<Row>) {
    EventStart(episode).Some? ==> HasEpisode(rows, EventStart(episode).value)
  }

  ghost predicate AllSummarised(rows: seq<HistoryRow>, episodes: seq<seq<Row>>) {
    forall i :: 0 <= i < |episodes| ==> Summarised(rows, episodes[i])
  }

  /** No summary is lost. */
  ghost predicate Extends(before: seq<HistoryRow>, after: seq<HistoryRow>) {
    forall e :: HasEpisode(before, e) ==> HasEpisode(after, e)
  }

  lemma SummarisedLater(before: seq<HistoryRow>, after: seq<HistoryRow>, episodes: seq<seq<Row>>)
    requires AllSummarised(before, episodes) && Extends(before, after)
    ensures AllSummarised(after, episodes)
  {
    hide EventStart;
    forall i | 0 <= i < |episodes| ensures Summarised(after, episodes[i]) {
      assert Summarised(before, episodes[i]);
    }
  }

  lemma RecoverKeepsKeyed(l: Learner)
    requires Keyed(l)
    ensures Keyed(Recover(l).learner) && Extends(l.history.rows, Recover(l).learner.history.rows)
  {
    hide HasEpisode, HasObserved, HasUpdate;
    if l.model.memory.lastFeedback.Some? {
      AppendedRow(l.history.rows, Update(l.model.memory.lastFeedback.value));
    }
  }

  lemma ProposeKeepsKeyed(l: Learner, kinds: map<int, RowKind>, eventAt: int)
    requires Keyed(l) && HasEpisode(l.history.rows, eventAt)
    ensures var after := ProposeAndApply(l, kinds, eventAt).pass.learner;
            Keyed(after) && Extends(l.history.rows, after.history.rows)
  {
    hide HasEpisode, HasObserved, HasUpdate, ProposalFor, Recover;
    if ProposalFor(l).Some? {
      var p := ProposalFor(l).value;
      var model := ApplyFeedbackTo(l.model, Some(p.toValue), Some(EventReceipt(eventAt, p.evidenceAt, p.reason))).0;
      RecoverKeepsKeyed(l.(model := model));
    }
  }

  lemma TurnKeepsKeyed(l: Learner, kinds: map<int, RowKind>, episode: seq<Row>)
    requires Keyed(l) && Summarised(l.history.rows, episode)
    ensures var after := OneEpisode(l, kinds, episode).pass.learner;
            Keyed(after) && Extends(l.history.rows, after.history.rows)
  {
    hide HasEpisode, HasObserved, HasUpdate, ProposeAndApply, EventStart, ExtractIr;
    var e := EventStart(episode);
    if e.Some? {
      ProposeKeepsKeyed(l, kinds, e.value);
      if ExtractIr(episode, e).Some? {
        var o := ExtractIr(episode, e).value;
        ExtractedObservationBounds(episode, e);
        AppendedRow(l.history.rows, Observed(o));
        var recorded := l.(history := AddObservation(l.history, o).0);
        ProposeKeepsKeyed(recorded, kinds[e.value := ObservedKind], e.value);
      }
    }
  }

  lemma {:induction false} PassKeepsKeyed(l: Learner, kinds: map<int, RowKind>, episodes: seq<seq<Row>>)
    requires Keyed(l) && AllSummarised(l.history.rows, episodes)
    ensures var after := ApplyFeedback(l, kinds, episodes).learner;
            Keyed(after) && Extends(l.history.rows, after.history.rows)
    decreases |episodes|
  {
    hide OneEpisode, Keyed, Summarised, HasEpisode;
    if episodes != [] {
      TurnKeepsKeyed(l, kinds, episodes[0]);
      var t := OneEpisode(l, kinds, episodes[0]);
      if t.pass.completed {
        SummarisedLater(l.history.rows, t.pass.learner.history.rows, episodes[1..]);
        PassKeepsKeyed(t.pass.learner, t.kinds, episodes[1..]);
      }
    }
  }

  /** A pass over summarised episodes, stopped anywhere, keeps every event with
      feedback rows summarised. */
  lemma FeedbackKeepsKeyed(l: Learner, episodes: seq<seq<Row>>)
    requires Keyed(l) && AllSummarised(l.history.rows, episodes)
    ensures var after := RunFeedback(l, episodes).learner;
            Keyed(after) && Extends(l.history.rows, after.history.rows)
  {
    hide ApplyFeedback, Keyed, EventKinds, HasEpisode, Summarised;
    RecoverKeepsKeyed(l);
    var recovered := Recover(l);
    if recovered.completed {
      SummarisedLater(l.history.rows, recovered.learner.history.rows, episodes);
      PassKeepsKeyed(recovered.learner, EventKinds(recovered.learner.history.rows), episodes);
    }
  }

  lemma AddEpisodeKeepsKeyed(l: Learner, records: seq<Row>, kind: BlackoutKind)
    requires Keyed(l)
    ensures var after := l.(history := AddEpisode(l.history, records, kind).0);
            Keyed(after) && Extends(l.history.rows, after.history.rows)
  {
    hide HasEpisode, HasObserved, HasUpdate;
    if SummarizeEpisode(records, kind).Some? {
      AppendedRow(l.history.rows, SummarizeEpisode(records, kind).value);
    }
  }
}
