/** After a feedback pass that was not interrupted nothing is left to do: a
    replay of every closed episode changes neither the model nor the history,
    and no observation is ever used by two updates.  Both fail after a crash in
    the wrong place, and this module says exactly when. */
module FeedbackQuiet {
  import opened Types
  import opened Storage
  import opened IrEstimator
  import opened IrExact
  import opened Cohort
  import opened History
  import opened ModelStore
  import opened Feedback
  import opened FeedbackRuns

  /** Memory and file agree and no write is going to fail. */
  predicate Clean(m: OwnedModel) {
    m == Loaded(m.memory, [])
  }

  // ----- a replay with nothing to do ---------------------------------------------------

  /** The kinds say that the loop has nothing to record for this episode. */
  predicate DoneBy(kinds: map<int, RowKind>, episode: seq<Row>) {
    match EventStart(episode)
    case None => true
    case Some(e) => Skipped(kinds, e) || AlreadyObserved(kinds, e) || ExtractIr(episode, Some(e)).None?
  }

  ghost predicate AllDone(kinds: map<int, RowKind>, episodes: seq<seq<Row>>) {
    forall i :: 0 <= i < |episodes| ==> DoneBy(kinds, episodes[i])
  }

  lemma {:induction false} DoneEpisodesDropped(l: Learner, kinds: map<int, RowKind>, done: seq<seq<Row>>,
        more: seq<seq<Row>>)
    requires ProposalFor(l).None? && AllDone(kinds, done)
    ensures ApplyFeedback(l, kinds, done + more) == ApplyFeedback(l, kinds, more)
    decreases |done|
  {
    hide ProposalFor, ExtractIr, EventStart;
    if done == [] {
      assert done + more == more;
    } else {
      assert DoneBy(kinds, done[0]);
      assert OneEpisode(l, kinds, done[0]) == Turn(Pass(l, true, []), kinds);
      DoneEpisodesDropped(l, kinds, done[1..], more);
      assert (done + more)[0] == done[0] && (done + more)[1..] == done[1..] + more;
    }
  }

  lemma SettledRecovers(l: Learner)
    requires Settled(l)
    ensures Recover(l) == Pass(l, true, [])
  {
    hide Updates;
    if l.model.memory.lastFeedback.Some? {
      LastUpdateIsRow(l.history.rows);
    }
  }

  /** With the receipt in the history, no proposal pending and every episode
      done, feedback over all of them is a no-op, whatever the storage does. */
  lemma ReplayIsNoOp(l: Learner, episodes: seq<seq<Row>>)
    requires Settled(l) && ProposalFor(l).None? && AllDone(EventKinds(l.history.rows), episodes)
    ensures RunFeedback(l, episodes) == Pass(l, true, [])
  {
    hide Updates, EventKinds, ProposalFor, Recover;
    SettledRecovers(l);
    DoneEpisodesDropped(l, EventKinds(l.history.rows), episodes, []);
    assert episodes + [] == episodes;
  }

  // ----- what an update consumes ---------------------------------------------------------

  lemma {:induction false} NewerThanEvents(os: seq<IrObservation>, u: Option<int>)
    ensures forall e :: HasEvent(NewerThan(os, u), e) <==> HasEvent(os, e) && IsNewer(e, u)
    ensures forall o :: o in NewerThan(os, u) ==> IsNewer(o.eventAt, u) && o in os
  {
    if os != [] {
      var n := |os| - 1;
      NewerThanEvents(os[..n], u);
      assert os == os[..n] + [os[n]];
      var kept, all := NewerThan(os[..n], u), NewerThan(os, u);
      assert forall i :: 0 <= i < |kept| ==> all[i] == kept[i];
      forall e ensures HasEvent(all, e) <==> HasEvent(os, e) && IsNewer(e, u) {
        assert HasEvent(os, e) <==> HasEvent(os[..n], e) || os[n].eventAt == e by {
          assert forall i :: 0 <= i < n ==> os[..n][i] == os[i];
        }
        if |all| > |kept| {
          assert all[|kept|] == os[n];
        }
      }
    }
  }

  /** Each pending observation is the first one of its event. */
  lemma {:induction false} PendingIsFirst(os: seq<IrObservation>, u: Option<int>, o: IrObservation) returns (i: nat)
    requires o in NewerThan(os, u)
    ensures i < |os| && os[i] == o && forall j :: 0 <= j < i ==> os[j].eventAt != o.eventAt
  {
    var n := |os| - 1;
    var front := os[..n];
    if o in NewerThan(front, u) {
      i := PendingIsFirst(front, u, o);
      assert os[i] == front[i];
    } else {
      i := n;
      NewerThanEvents(front, u);
      forall j | 0 <= j < n ensures os[j].eventAt != o.eventAt {
        assert os[j] == front[j];
        assert HasEvent(front, os[j].eventAt);
      }
    }
  }

  lemma AppendedPending(rows: seq<HistoryRow>, row: HistoryRow)
    ensures LastUpdate(rows + [row]) == if row.Update? then Some(KeyOf(row)) else LastUpdate(rows)
    ensures ObservedRows(rows + [row]) == if row.Observed? then ObservedRows(rows) + [row.observation]
            else ObservedRows(rows)
  {
    var more := rows + [row];
    assert more[..|more| - 1] == rows && more[|rows|] == row;
  }

  /** An update keyed K consumes all the evidence exactly when K is not older than
      any recorded observation; otherwise the younger ones can be used again. */
  lemma ConsumedExactly(rows: seq<HistoryRow>, receipt: Receipt)
    ensures var left := PendingObservations(rows + [Update(receipt)]);
            && (left == [] <==> forall o :: o in ObservedRows(rows) ==> o.eventAt <= receipt.eventAt)
            && (forall e :: HasEvent(left, e) <==> HasEvent(ObservedRows(rows), e) && e > receipt.eventAt)
  {
    hide NewerThan;
    AppendedPending(rows, Update(receipt));
    var os := ObservedRows(rows);
    NewerThanEvents(os, Some(receipt.eventAt));
    var left := PendingObservations(rows + [Update(receipt)]);
    if left != [] {
      assert left[0] in left;
    }
    forall o | o in os && o.eventAt > receipt.eventAt ensures left != [] {
      assert HasEvent(os, o.eventAt);
      assert HasEvent(left, o.eventAt);
    }
  }

  // ----- uninterrupted runs in order of time -----------------------------------------------

  /** A learner with what it has seen: the closed episodes on disk, the newest
      event key, and the updates it applied. */
  datatype Chronicle = Chronicle(learner: Learner, closed: seq<seq<Row>>, newest: int, applied: seq<AppliedUpdate>)

  /** An episode closes (its summary, then feedback over it with its online
      context, or over all closed episodes when none was replayed since the last
      restart); or a poll replays what is closed. */
  datatype Moment =
    | Close(context: seq<Row>, episode: seq<Row>, kind: BlackoutKind, replay: bool)
    | Replay

  function Advance(c: Chronicle, m: Moment): Chronicle {
    match m
    case Close(context, episode, kind, replay) =>
      var closed := c.closed + [episode];
      var l := c.learner.(history := AddEpisode(c.learner.history, context + episode, kind).0);
      var pass := RunFeedback(l, if replay then closed else [context + episode]);
      Chronicle(pass.learner, closed,
                if EventStart(episode).Some? then EventStart(episode).value else c.newest,
                c.applied + pass.applied)
    case Replay =>
      var pass := RunFeedback(c.learner, c.closed);
      c.(learner := pass.learner, applied := c.applied + pass.applied)
  }

  function AdvanceAll(c: Chronicle, ms: seq<Moment>): Chronicle
    decreases |ms|
  {
    if ms == [] then c else AdvanceAll(Advance(c, ms[0]), ms[1..])
  }

  /** The closing episode is younger than everything before it. */
  predicate InOrder(c: Chronicle, m: Moment) {
    m.Close? ==>
      && EventStart(m.episode).Some? && EventStart(m.episode).value > c.newest
      && forall i :: 0 <= i < |m.context| ==> !ActiveRow(m.context[i])
  }

  predicate AllInOrder(c: Chronicle, ms: seq<Moment>)
    decreases |ms|
  {
    ms == [] || (InOrder(c, ms[0]) && AllInOrder(Advance(c, ms[0]), ms[1..]))
  }

  ghost predicate KeysUpTo(rows: seq<HistoryRow>, bound: int) {
    forall i :: 0 <= i < |rows| ==> KeyOf(rows[i]) <= bound
  }

  ghost predicate StartsUpTo(episodes: seq<seq<Row>>, bound: int) {
    forall i :: 0 <= i < |episodes| ==> EventStart(episodes[i]).Some? ==> EventStart(episodes[i]).value <= bound
  }

  ghost predicate CohortUpTo(u: AppliedUpdate) {
    forall o :: o in u.cohort ==> o.eventAt <= u.receipt.eventAt
  }

  ghost predicate CohortAfter(u: AppliedUpdate, e: int) {
    forall o :: o in u.cohort ==> o.eventAt > e
  }

  /** The cohorts of two updates lie in disjoint stretches of time. */
  ghost predicate Separated(us: seq<AppliedUpdate>) {
    && (forall i :: 0 <= i < |us| ==> CohortUpTo(us[i]))
    && (forall i, j :: 0 <= i < j < |us| ==> us[i].receipt.eventAt < us[j].receipt.eventAt)
    && (forall i, j :: 0 <= i < j < |us| ==> CohortAfter(us[j], us[i].receipt.eventAt))
  }

  ghost predicate Quiet(c: Chronicle) {
    var rows := c.learner.history.rows;
    && Clean(c.learner.model) && c.learner.history.outcomes == []
    && Settled(c.learner) && ProposalFor(c.learner).None?
    && AllDone(EventKinds(rows), c.closed)
    && KeysUpTo(rows, c.newest) && StartsUpTo(c.closed, c.newest)
    && Separated(c.applied)
    && (c.applied != [] ==> LastUpdate(rows) == Some(c.applied[|c.applied| - 1].receipt.eventAt))
  }

  lemma FreshIsQuiet(k0: real, newest: int)
    ensures Quiet(Chronicle(Learner(Loaded(Model(k0, None), []), Log([], [])), [], newest, []))
  {
    ProposalExactly([], None, k0);
  }

  // ----- the first feedback for a new event -----------------------------------------------------

  lemma KeysBound(rows: seq<HistoryRow>, bound: int, e: int)
    requires KeysUpTo(rows, bound) && e > bound
    ensures !HasEpisode(rows, e) && !HasObserved(rows, e) && !HasUpdate(rows, e)
  {}

  lemma {:induction false} ObservedUpTo(rows: seq<HistoryRow>, bound: int)
    requires KeysUpTo(rows, bound)
    ensures forall o :: o in ObservedRows(rows) ==> o.eventAt <= bound
  {
    if rows != [] {
      var n := |rows| - 1;
      assert KeysUpTo(rows[..n], bound);
      assert KeyOf(rows[n]) <= bound;
      ObservedUpTo(rows[..n], bound);
    }
  }

  lemma NothingPendingNoProposal(l: Learner)
    requires PendingObservations(l.history.rows) == []
    ensures ProposalFor(l).None?
  {
    ProposalExactly([], None, l.model.memory.irK);
  }

  /** What processing a brand-new event leaves behind. */
  ghost predicate Fresh(l: Learner, e: int, pass: Pass) {
    var rows := pass.learner.history.rows;
    && pass.completed
    && Clean(pass.learner.model) && pass.learner.history.outcomes == []
    && Settled(pass.learner) && ProposalFor(pass.learner).None?
    && KeysUpTo(rows, e)
    && (forall x :: x != e ==>
          (x in EventKinds(rows) <==> x in EventKinds(l.history.rows))
          && (x in EventKinds(rows) ==> EventKinds(rows)[x] == EventKinds(l.history.rows)[x]))
    && (pass.applied == [] ==> LastUpdate(rows) == LastUpdate(l.history.rows))
    && (pass.applied != [] ==>
          && |pass.applied| == 1 && pass.applied[0].receipt.eventAt == e
          && LastUpdate(rows) == Some(e)
          && CohortUpTo(pass.applied[0])
          && (LastUpdate(l.history.rows).Some? ==> CohortAfter(pass.applied[0], LastUpdate(l.history.rows).value)))
  }

  /** A proposal for a brand-new event is applied and recorded. */
  lemma ProposalGoesThrough(l: Learner, kinds: map<int, RowKind>, e: int) returns (receipt: Receipt)
    requires Clean(l.model) && l.history.outcomes == []
    requires Settled(l) && ProposalFor(l).Some? && !HasUpdate(l.history.rows, e)
    ensures receipt.eventAt == e && receipt.toValue == ProposalFor(l).value.toValue
    ensures ProposeAndApply(l, kinds, e).pass ==
            Pass(Learner(Loaded(Model(receipt.toValue, Some(receipt)), []),
                Log(l.history.rows + [Update(receipt)], [])),
                 true, [AppliedUpdate(receipt, PendingObservations(l.history.rows))])
  {
    hide Updates, PendingObservations, Propose;
    ProposalForBounds(l);
    if l.model.memory.lastFeedback.Some? {
      LastUpdateIsRow(l.history.rows);
    }
    var p := ProposalFor(l).value;
    receipt := Receipt(e, p.evidenceAt, l.model.memory.irK, p.toValue, p.reason);
  }

  lemma FreshUpdate(l: Learner, receipt: Receipt, pass: Pass)
    requires l.history.outcomes == [] && KeysUpTo(l.history.rows, receipt.eventAt)
    requires pass == Pass(Learner(Loaded(Model(receipt.toValue, Some(receipt)), []),
             Log(l.history.rows + [Update(receipt)], [])),
                          true, [AppliedUpdate(receipt, PendingObservations(l.history.rows))])
    ensures Fresh(l, receipt.eventAt, pass)
    ensures EventKinds(pass.learner.history.rows) == EventKinds(l.history.rows)[receipt.eventAt := UpdateKind]
  {
    hide EventKinds, Updates, LastUpdate, ObservedRows, NewerThan, ProposalFor, HasUpdate, HasObserved, HasEpisode,
         HasEvent;
    AppendedRow(l.history.rows, Update(receipt));
    AppendedPending(l.history.rows, Update(receipt));
    ObservedUpTo(l.history.rows, receipt.eventAt);
    ConsumedExactly(l.history.rows, receipt);
    NothingPendingNoProposal(pass.learner);
    NewerThanEvents(ObservedRows(l.history.rows), LastUpdate(l.history.rows));
  }

  lemma FreshProposal(l: Learner, kinds: map<int, RowKind>, e: int)
    requires Clean(l.model) && l.history.outcomes == []
    requires Settled(l) && KeysUpTo(l.history.rows, e)
    requires !HasUpdate(l.history.rows, e)
    ensures Fresh(l, e, ProposeAndApply(l, kinds, e).pass)
    ensures var rows := ProposeAndApply(l, kinds, e).pass.learner.history.rows;
            e in EventKinds(l.history.rows) && EventKinds(l.history.rows)[e] == ObservedKind
            ==> e in EventKinds(rows) && (EventKinds(rows)[e] == ObservedKind || EventKinds(rows)[e] == UpdateKind)
  {
    if ProposalFor(l).Some? {
      hide EventKinds, Updates, PendingObservations, Propose, ProposeAndApply, ProposalFor, HasUpdate, Fresh;
      var receipt := ProposalGoesThrough(l, kinds, e);
      FreshUpdate(l, receipt, ProposeAndApply(l, kinds, e).pass);
    } else {
      hide EventKinds, Updates, LastUpdate, PendingObservations, ProposalFor;
      assert ProposeAndApply(l, kinds, e).pass == Pass(l, true, []);
    }
  }

  lemma FreshEvent(l: Learner, e: int, episode: seq<Row>, kind: RowKind)
    requires Clean(l.model) && l.history.outcomes == []
    requires Settled(l) && ProposalFor(l).None? && KeysUpTo(l.history.rows, e)
    requires !HasUpdate(l.history.rows, e) && !HasObserved(l.history.rows, e)
    requires EventStart(episode) == Some(e)
    requires e in EventKinds(l.history.rows)
             && (EventKinds(l.history.rows)[e] == BlackoutKindRow || EventKinds(l.history.rows)[e] == SelfTestKindRow)
    ensures var pass := OneEpisode(l, EventKinds(l.history.rows), episode).pass;
            Fresh(l, e, pass) && DoneBy(EventKinds(pass.learner.history.rows), episode)
  {
    hide EventKinds, Updates, LastUpdate, ObservedRows, NewerThan, ProposeFrom, ExtractIr, EventStart, ProposeAndApply;
    var kinds := EventKinds(l.history.rows);
    if kinds[e] == BlackoutKindRow && ExtractIr(episode, Some(e)).Some? {
      var o := ExtractIr(episode, Some(e)).value;
      ExtractedObservationBounds(episode, Some(e));
      AppendedRow(l.history.rows, Observed(o));
      AppendedPending(l.history.rows, Observed(o));
      var recorded := l.(history := AddObservation(l.history, o).0);
      FreshProposal(recorded, kinds[e := ObservedKind], e);
    }
  }

  // ----- context does not matter ----------------------------------------------------------------

  lemma {:induction false} StartIgnoresContext(context: seq<Row>, episode: seq<Row>)
    requires forall i :: 0 <= i < |context| ==> !ActiveRow(context[i])
    ensures FirstActive(context + episode) == |context| + FirstActive(episode)
    ensures EventStart(context + episode) == EventStart(episode)
  {
    if context == [] {
      assert context + episode == episode;
    } else {
      StartIgnoresContext(context[1..], episode);
      assert (context + episode)[1..] == context[1..] + episode;
      assert !ActiveRow(context[0]);
    }
  }

  /** Feedback treats an episode the same with or without its online context. */
  lemma FeedbackIgnoresContext(l: Learner, kinds: map<int, RowKind>, context: seq<Row>, episode: seq<Row>)
    requires forall i :: 0 <= i < |context| ==> !ActiveRow(context[i])
    ensures OneEpisode(l, kinds, context + episode) == OneEpisode(l, kinds, episode)
    ensures ApplyFeedback(l, kinds, [context + episode]) == ApplyFeedback(l, kinds, [episode])
  {
    hide ExtractIr, FirstActive, ProposeAndApply;
    StartIgnoresContext(context, episode);
    if EventStart(episode).Some? {
      ExtractionIgnoresContext(context, episode, EventStart(episode));
    }
  }

  lemma SummaryOfNew(context: seq<Row>, episode: seq<Row>, kind: BlackoutKind)
    requires forall i :: 0 <= i < |context| ==> !ActiveRow(context[i])
    requires EventStart(episode).Some?
    ensures var s := SummarizeEpisode(context + episode, kind);
            s.Some? && s.value.Episode? && s.value.at == EventStart(episode).value
  {
    hide ActiveRun;
    StartIgnoresContext(context, episode);
  }

  // ----- one moment and whole runs -------------------------------------------------------------------

  /** Closing a new episode is the same with and without a replay of the old ones. */
  lemma CloseReduces(c: Chronicle, m: Moment)
    requires Quiet(c) && m.Close? && InOrder(c, m)
    ensures var l := c.learner.(history := AddEpisode(c.learner.history, m.context + m.episode, m.kind).0);
            var e := EventStart(m.episode).value;
            var rows := l.history.rows;
            && (exists row: HistoryRow :: row.Episode? && row.at == e && rows == c.learner.history.rows + [row])
            && l.history.outcomes == []
            && Settled(l) && ProposalFor(l).None?
            && RunFeedback(l, if m.replay then c.closed + [m.episode] else [m.context + m.episode])
               == ApplyFeedback(l, EventKinds(rows), [m.episode])
  {
    hide EventKinds, Updates, LastUpdate, ObservedRows, NewerThan, Propose, ExtractIr, FirstActive, OneEpisode,
         ApplyFeedback, Recover;
    var e := EventStart(m.episode).value;
    var before := c.learner.history.rows;
    SummaryOfNew(m.context, m.episode, m.kind);
    KeysBound(before, c.newest, e);
    var row := SummarizeEpisode(m.context + m.episode, m.kind).value;
    AppendedRow(before, row);
    AppendedPending(before, row);
    var l := c.learner.(history := AddEpisode(c.learner.history, m.context + m.episode, m.kind).0);
    assert l.history.rows == before + [row];
    SettledRecovers(l);
    var kinds := EventKinds(l.history.rows);
    if m.replay {
      forall i | 0 <= i < |c.closed| ensures DoneBy(kinds, c.closed[i]) {
        assert DoneBy(EventKinds(before), c.closed[i]);
      }
      DoneEpisodesDropped(l, kinds, c.closed, [m.episode]);
    } else {
      FeedbackIgnoresContext(l, kinds, m.context, m.episode);
    }
  }

  lemma SingleEpisode(l: Learner, kinds: map<int, RowKind>, episode: seq<Row>)
    ensures ApplyFeedback(l, kinds, [episode]) == OneEpisode(l, kinds, episode).pass
  {
    hide OneEpisode;
    var turn := OneEpisode(l, kinds, episode);
    assert [episode][1..] == [];
    assert turn.pass.applied + [] == turn.pass.applied;
  }

  lemma SeparatedExtends(us: seq<AppliedUpdate>, u: AppliedUpdate)
    requires Separated(us) && CohortUpTo(u)
    requires us != [] ==>
               us[|us| - 1].receipt.eventAt < u.receipt.eventAt && CohortAfter(u, us[|us| - 1].receipt.eventAt)
    ensures Separated(us + [u])
  {
    var more := us + [u];
    forall i, j | 0 <= i < j < |more|
      ensures more[i].receipt.eventAt < more[j].receipt.eventAt && CohortAfter(more[j], more[i].receipt.eventAt)
    {
      if j == |us| && i < |us| - 1 {
        assert us[i].receipt.eventAt < us[|us| - 1].receipt.eventAt;
      }
    }
  }

  lemma {:induction false} LastUpdateUpTo(rows: seq<HistoryRow>, bound: int)
    requires KeysUpTo(rows, bound)
    ensures LastUpdate(rows).Some? ==> LastUpdate(rows).value <= bound
  {
    if rows != [] {
      var n := |rows| - 1;
      assert KeyOf(rows[n]) <= bound;
      assert KeysUpTo(rows[..n], bound);
      LastUpdateUpTo(rows[..n], bound);
    }
  }

  lemma AdvanceKeepsQuiet(c: Chronicle, m: Moment)
    requires Quiet(c) && InOrder(c, m)
    ensures Quiet(Advance(c, m))
  {
    hide EventKinds, Updates, LastUpdate, ObservedRows, NewerThan, ProposalFor, FirstActive, OneEpisode,
         ApplyFeedback, Recover, AddEpisode, Settled, Separated, CohortUpTo, CohortAfter, RunFeedback, EventStart;
    match m {
      case Replay =>
        ReplayIsNoOp(c.learner, c.closed);
        assert c.applied + [] == c.applied;
      case Close(context, episode, kind, replay) =>
        CloseReduces(c, m);
        var e := EventStart(episode).value;
        var before := c.learner.history.rows;
        var l := c.learner.(history := AddEpisode(c.learner.history, context + episode, kind).0);
        var row: HistoryRow :| row.Episode? && row.at == e && l.history.rows == before + [row];
        KeysBound(before, c.newest, e);
        AppendedRow(before, row);
        AppendedPending(before, row);
        LastUpdateUpTo(before, c.newest);
        FreshEvent(l, e, episode, KindOf(row));
        SingleEpisode(l, EventKinds(l.history.rows), episode);
        var next := Advance(c, m);
        var pass := OneEpisode(l, EventKinds(l.history.rows), episode).pass;
        assert next == Chronicle(pass.learner, c.closed + [episode], e, c.applied + pass.applied);
        DoneStays(c, l, pass, episode, e, row);
        if pass.applied != [] {
          SeparatedExtends(c.applied, pass.applied[0]);
          assert pass.applied == [pass.applied[0]];
        } else {
          assert c.applied + [] == c.applied;
        }
    }
  }

  lemma DoneStays(c: Chronicle, l: Learner, pass: Pass, episode: seq<Row>, e: int, row: HistoryRow)
    requires AllDone(EventKinds(c.learner.history.rows), c.closed) && StartsUpTo(c.closed, c.newest)
    requires e > c.newest && EventStart(episode) == Some(e)
    requires row.Episode? && row.at == e && l.history.rows == c.learner.history.rows + [row]
    requires Fresh(l, e, pass) && DoneBy(EventKinds(pass.learner.history.rows), episode)
    ensures AllDone(EventKinds(pass.learner.history.rows), c.closed + [episode])
    ensures StartsUpTo(c.closed + [episode], e)
  {
    hide EventKinds, EventStart, ExtractIr, Settled, ProposalFor, LastUpdate;
    AppendedRow(c.learner.history.rows, row);
    var kinds := EventKinds(pass.learner.history.rows);
    var closed := c.closed + [episode];
    forall i | 0 <= i < |closed|
      ensures DoneBy(kinds, closed[i]) && (EventStart(closed[i]).Some? ==> EventStart(closed[i]).value <= e)
    {
      if i < |c.closed| {
        assert DoneBy(EventKinds(c.learner.history.rows), c.closed[i]);
        assert closed[i] == c.closed[i];
      }
    }
  }

  lemma {:induction false} RunStaysQuiet(c: Chronicle, ms: seq<Moment>)
    requires Quiet(c) && AllInOrder(c, ms)
    ensures Quiet(AdvanceAll(c, ms))
    decreases |ms|
  {
    hide Advance, Quiet, InOrder;
    if ms != [] {
      AdvanceKeepsQuiet(c, ms[0]);
      RunStaysQuiet(Advance(c, ms[0]), ms[1..]);
    }
  }

  /** Over every uninterrupted run in order of time, no event contributes to two
      updates. */
  lemma EvidenceUsedOnce(c: Chronicle, ms: seq<Moment>, i: nat, j: nat, o: IrObservation, o': IrObservation)
    requires Quiet(c) && AllInOrder(c, ms)
    requires var us := AdvanceAll(c, ms).applied;
             i < j < |us| && o in us[i].cohort && o' in us[j].cohort
    ensures o.eventAt < o'.eventAt
  {
    hide AdvanceAll, AllInOrder, AllDone, Settled, ProposalFor, KeysUpTo, StartsUpTo, LastUpdate, EventKinds;
    RunStaysQuiet(c, ms);
    var us := AdvanceAll(c, ms).applied;
    assert CohortUpTo(us[i]) && CohortAfter(us[j], us[i].receipt.eventAt);
  }

  /** After every such run the remaining cohort proposes nothing, and a restart
      that replays all closed episodes changes nothing. */
  lemma ReplayAfterRunIsNoOp(c: Chronicle, ms: seq<Moment>, modelOutcomes: seq<ReplaceOutcome>,
        historyOutcomes: seq<bool>)
    requires Quiet(c) && AllInOrder(c, ms)
    ensures var after := AdvanceAll(c, ms);
            var restarted := Stepped(after.learner, Restart(modelOutcomes, historyOutcomes));
            && ProposalFor(after.learner).None?
            && RunFeedback(restarted, after.closed) == Pass(restarted, true, [])
  {
    hide AdvanceAll, AllInOrder, EventKinds, Updates, NewerThan, ObservedRows, LastUpdate, Propose;
    RunStaysQuiet(c, ms);
    var after := AdvanceAll(c, ms);
    var restarted := Stepped(after.learner, Restart(modelOutcomes, historyOutcomes));
    ReplayIsNoOp(restarted, after.closed);
  }

  // ----- after a crash between recording and applying -------------------------------------------------

  /** Replay keys the update to the first observed episode it meets; the evidence
      is consumed exactly when no recorded observation is younger than that. */
  lemma ReplayAfterCrash(l: Learner, episode: seq<Row>)
    requires Clean(l.model) && l.history.outcomes == []
    requires Settled(l) && ProposalFor(l).Some? && EventStart(episode).Some?
    requires AlreadyObserved(EventKinds(l.history.rows), EventStart(episode).value)
    requires !HasUpdate(l.history.rows, EventStart(episode).value)
    ensures var e, pass := EventStart(episode).value, OneEpisode(l, EventKinds(l.history.rows), episode).pass;
            && pass.completed && |pass.applied| == 1 && pass.applied[0].receipt.eventAt == e
            && pass.applied[0].cohort == PendingObservations(l.history.rows)
            && (PendingObservations(pass.learner.history.rows) == []
                <==> forall o :: o in ObservedRows(l.history.rows) ==> o.eventAt <= e)
  {
    hide EventKinds, Updates, LastUpdate, ObservedRows, NewerThan, ProposalFor, EventStart, ProposeAndApply;
    var e := EventStart(episode).value;
    var receipt := ProposalGoesThrough(l, EventKinds(l.history.rows), e);
    ConsumedExactly(l.history.rows, receipt);
  }
}
