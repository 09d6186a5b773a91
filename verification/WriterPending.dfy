/** What happens to the pending online observations of the writer under any
    pattern of failing appends: nothing is written twice, everything pending is
    written before an episode starts, oldest first, and the file stays in order. */
module WriterPending {
  import opened Types
  import opened Sorting
  import opened Storage
  import opened History
  import opened Segments
  import opened Writer

  // ----- samples of sequences --------------------------------------------------------

  lemma SamplesOfSum(a: seq<Observation>, b: seq<Observation>)
    ensures Samples(a + b) == Samples(a) + Samples(b)
  {}

  lemma SamplesOfFirst(os: seq<Observation>)
    requires os != []
    ensures Samples(os) == [Sample(os[0])] + Samples(os[1..])
    ensures os == [os[0]] + os[1..]
  {}

  lemma {:induction false} RemovedFirst(os: seq<Observation>, o: Observation)
    requires o in os
    ensures multiset(RemoveFirst(os, o)) == multiset(os) - multiset{o}
  {
    assert os == [os[0]] + os[1..];
    if os[0] != o {
      RemovedFirst(os[1..], o);
    }
  }

  lemma {:induction false} SamplesWithout(os: seq<Observation>, o: Observation)
    requires o in os
    ensures multiset(Samples(RemoveFirst(os, o))) == multiset(Samples(os)) - multiset{Sample(o)}
  {
    hide Samples, Sample;
    SamplesOfFirst(os);
    if os[0] != o {
      var rest := os[1..];
      SamplesWithout(rest, o);
      FirstIsCounted(rest, o);
      var without := [os[0]] + RemoveFirst(rest, o);
      assert without[1..] == RemoveFirst(rest, o);
      SamplesOfFirst(without);
    }
  }

  lemma {:induction false} SamplesNotBefore(os: seq<Observation>, cutoff: int)
    ensures multiset(Samples(NotBefore(os, cutoff))) <= multiset(Samples(os))
  {
    if os != [] {
      var n := |os| - 1;
      SamplesNotBefore(os[..n], cutoff);
      assert os == os[..n] + [os[n]];
      SamplesOfSum(os[..n], [os[n]]);
      SamplesOfSum(NotBefore(os[..n], cutoff), [os[n]]);
      assert Samples([os[n]]) == [Sample(os[n])];
    }
  }

  // ----- the flush ----------------------------------------------------------------------

  predicate OutcomeOk(outcomes: seq<bool>, i: nat) {
    i >= |outcomes| || outcomes[i]
  }

  /** Rows on disk and rows waiting, counted with multiplicity. */
  ghost function Accounted(s: WriterState): multiset<Row> {
    multiset(s.file.rows) + multiset(Samples(s.silent))
  }

  lemma AccountedStep(s: WriterState, o: Observation)
    requires o in s.silent && NextOk(s.file.outcomes)
    ensures var next := s.(file := s.file.Append(Sample(o)), silent := RemoveFirst(s.silent, o));
            && Accounted(next) == Accounted(s)
            && multiset(next.silent) == multiset(s.silent) - multiset{o}
            && next.file.rows == s.file.rows + [Sample(o)]
  {
    hide Samples, Sample;
    RemovedFirst(s.silent, o);
    SamplesWithout(s.silent, o);
    FirstIsCounted(s.silent, o);
  }

  lemma PrefixStep(sorted: seq<Observation>, m: nat)
    requires m < |sorted|
    ensures Samples(sorted[..m + 1]) == [Sample(sorted[0])] + Samples(sorted[1..][..m])
    ensures multiset(sorted[..m + 1]) == multiset{sorted[0]} + multiset(sorted[1..][..m])
    ensures multiset(sorted) == multiset{sorted[0]} + multiset(sorted[1..])
  {
    assert sorted[..m + 1] == [sorted[0]] + sorted[1..][..m];
    assert sorted == [sorted[0]] + sorted[1..];
  }

  /** A flush writes a prefix of what it is given and forgets exactly that prefix;
      the prefix is as long as the appends succeed. */
  lemma {:induction false} FlushWritesPrefix(s: WriterState, sorted: seq<Observation>) returns (n: nat)
    requires multiset(sorted) <= multiset(s.silent)
    ensures n <= |sorted|
    ensures var (after, ok) := Flush(s, sorted);
            && after == s.(file := after.file, silent := after.silent)
            && after.file.rows == s.file.rows + Samples(sorted[..n])
            && multiset(after.silent) == multiset(s.silent) - multiset(sorted[..n])
            && Accounted(after) == Accounted(s)
            && (ok <==> n == |sorted|)
    ensures forall i :: 0 <= i < n ==> OutcomeOk(s.file.outcomes, i)
    ensures n < |sorted| ==> !OutcomeOk(s.file.outcomes, n)
    decreases |sorted|
  {
    hide Samples, Sample, RemoveFirst, Accounted;
    if sorted == [] || !NextOk(s.file.outcomes) {
      n := 0;
      NothingFlushed(s, sorted);
    } else {
      PrefixStep(sorted, 0);
      assert sorted[0] in multiset(s.silent);
      var next := s.(file := s.file.Append(Sample(sorted[0])), silent := RemoveFirst(s.silent, sorted[0]));
      AccountedStep(s, sorted[0]);
      var m := FlushWritesPrefix(next, sorted[1..]);
      n := m + 1;
      assert Flush(s, sorted) == Flush(next, sorted[1..]);
      hide Flush;
      PrefixStep(sorted, m);
      LaterOutcomes(s.file.outcomes);
      RemovedTwice(multiset(s.silent), multiset{sorted[0]}, multiset(sorted[1..][..m]));
      WrittenTwice(s.file.rows, Sample(sorted[0]), Samples(sorted[1..][..m]));
    }
  }

  lemma RemovedTwice<T>(all: multiset<T>, a: multiset<T>, b: multiset<T>)
    ensures all - a - b == all - (a + b)
  {}

  lemma WrittenTwice<T>(rows: seq<T>, row: T, more: seq<T>)
    ensures rows + [row] + more == rows + ([row] + more)
  {}

  lemma NothingFlushed(s: WriterState, sorted: seq<Observation>)
    requires sorted == [] || !NextOk(s.file.outcomes)
    ensures var (after, ok) := Flush(s, sorted);
            && after == s.(file := after.file)
            && after.file.rows == s.file.rows + Samples(sorted[..0])
            && multiset(after.silent) == multiset(s.silent) - multiset(sorted[..0])
            && Accounted(after) == Accounted(s)
            && (ok <==> sorted == [])
    ensures sorted != [] ==> !OutcomeOk(s.file.outcomes, 0)
  {}

  lemma LaterOutcomes(outcomes: seq<bool>)
    ensures OutcomeOk(outcomes, 0) <==> NextOk(outcomes)
    ensures forall i {:trigger OutcomeOk(outcomes, i)} ::
              i > 0 ==> (OutcomeOk(outcomes, i) <==> OutcomeOk(Later(outcomes), i - 1))
  {}

  lemma FirstIsCounted(os: seq<Observation>, o: Observation)
    requires o in os
    ensures Sample(o) in multiset(Samples(os))
  {
    var i :| 0 <= i < |os| && os[i] == o;
    assert Samples(os)[i] == Sample(o);
  }

  lemma RestIsPending(s: WriterState, pending: seq<Observation>, n: nat)
    requires multiset(pending) == multiset(s.silent) && n <= |pending|
    ensures multiset(s.silent) - multiset(pending[..n]) == multiset(pending[n..])
    ensures n == |pending| ==> pending[..n] == pending && |multiset(pending[n..])| == 0
  {
    assert pending == pending[..n] + pending[n..];
  }

  /** A flush of everything pending: in order of time, a prefix is written and the
      rest stays pending. */
  lemma FlushOfPending(s: WriterState) returns (n: nat)
    ensures var (flushed, ok) := Flush(s, Sort(s.silent, TimeOf));
            var pending := Sort(s.silent, TimeOf);
            && n <= |pending| && (ok <==> n == |pending|)
            && flushed.file.rows == s.file.rows + Samples(pending[..n])
            && multiset(flushed.silent) == multiset(pending[n..])
            && (ok ==> flushed.file.rows == s.file.rows + Samples(pending) && flushed.silent == [])
  {
    hide Sort, Samples, Sample, Flush, Accounted, SortedBy;
    var pending := Sort(s.silent, TimeOf);
    SortIsSorting(s.silent, TimeOf);
    n := FlushWritesPrefix(s, pending);
    RestIsPending(s, pending, n);
    var flushed := Flush(s, pending).0;
    assert |multiset(flushed.silent)| == |flushed.silent|;
  }

  /** When an episode starts, everything pending has been written before its first
      row, ordered by time, and nothing is pending any more; when it does not start
      because an append failed, a prefix of that order is on disk and the rest is
      still pending. */
  lemma EpisodeStartFlushesAll(s: WriterState, o: Observation, kind: BlackoutKind)
    ensures var (after, result) := StartEpisode(s, o, kind);
            var pending := Sort(s.silent, TimeOf);
            && SortedBy(pending, TimeOf) && multiset(pending) == multiset(s.silent)
            && (result == Written ==>
                  && after.file.rows == s.file.rows + Samples(pending) + [Sample(o)]
                  && after.silent == [] && after.active)
            && (result == Raised ==>
                  && exists n :: 0 <= n <= |pending|
                       && after.file.rows == s.file.rows + Samples(pending[..n])
                       && multiset(after.silent) == multiset(pending[n..]))
            && result != NotWritten
  {
    hide Sort, ContextRows, Samples, Sample, Flush, SortedBy;
    SortIsSorting(s.silent, TimeOf);
    var n := FlushOfPending(s);
  }

  lemma {:induction false} FlushWithoutFailure(w: WriterState, sorted: seq<Observation>)
    requires w.file.outcomes == []
    ensures var (flushed, ok) := Flush(w, sorted);
            ok && flushed.file.outcomes == [] && flushed.history == w.history && flushed.completed == w.completed
    decreases |sorted|
  {
    hide Sample, RemoveFirst;
    if sorted != [] {
      FlushWithoutFailure(w.(file := w.file.Append(Sample(sorted[0])), silent := RemoveFirst(w.silent, sorted[0])),
          sorted[1..]);
    }
  }

  // ----- conservation ------------------------------------------------------------------------

  ghost predicate OneMore(s: WriterState, t: WriterState, row: Row) {
    Accounted(t) <= Accounted(s) + multiset{row} && s.file.rows <= t.file.rows
  }

  lemma AppendAccounts(s: WriterState, o: Observation)
    ensures var t := s.(file := s.file.Append(Sample(o)));
            && Accounted(t) == Accounted(s) + (if NextOk(s.file.outcomes) then multiset{Sample(o)} else multiset{})
            && s.file.rows <= t.file.rows
  {
    hide Samples, Sample;
  }

  /** Only the file and the pending observations are accounted for. */
  lemma SameAccount(s: WriterState, t: WriterState)
    requires s.file.rows == t.file.rows && s.silent == t.silent
    ensures Accounted(s) == Accounted(t)
  {}

  lemma RememberAccounts(s: WriterState, o: Observation, pending: bool)
    ensures var t := Remember(s, o, pending);
            && Accounted(t) <= Accounted(s) + (if pending then multiset{Sample(o)} else multiset{})
            && t.file == s.file
  {
    hide NotBefore, Remembered, Sample;
    assert Samples([]) == [];
    if OnlineStatus(o.status) && pending && s.window.Some? {
      SamplesNotBefore(s.silent + [o], o.micros - s.window.value);
      SamplesOfSum(s.silent, [o]);
      assert Samples([o]) == [Sample(o)];
    }
  }

  lemma StartConserves(s: WriterState, o: Observation, kind: BlackoutKind)
    ensures OneMore(s, StartEpisode(s, o, kind).0, Sample(o))
  {
    hide Samples, Sample, Sort, Flush, ContextRows, Accounted;
    SortIsSorting(s.silent, TimeOf);
    var n := FlushWritesPrefix(s, Sort(s.silent, TimeOf));
    var flushed := Flush(s, Sort(s.silent, TimeOf)).0;
    AppendAccounts(flushed, o);
    var t := StartEpisode(s, o, kind).0;
    if t.file != flushed.file {
      SameAccount(flushed.(file := flushed.file.Append(Sample(o))), t);
    } else {
      SameAccount(flushed, t);
    }
  }

  lemma WrittenAndRemembered(s: WriterState, o: Observation, t: WriterState)
    requires t.silent == s.silent && t.file == s.file.Append(Sample(o))
    ensures OneMore(s, t, Sample(o)) && OneMore(s, Remember(t, o, false), Sample(o))
  {
    hide Samples, Sample, Accounted, Remember;
    AppendAccounts(s, o);
    SameAccount(s.(file := s.file.Append(Sample(o))), t);
    RememberAccounts(t, o, false);
  }

  lemma OnlineConserves(s: WriterState, o: Observation)
    ensures OneMore(s, WriteOnline(s, o).0, Sample(o))
  {
    hide Samples, Sample, AddEpisode, Accounted, Remember, OneMore;
    var appended := s.(file := s.file.Append(Sample(o)));
    var t := WriteOnline(s, o).0;
    if s.active {
      var closed := appended.(active := false, recharging := BelowFull(o), postFullUntil := Deadline(o, s.window),
          records := []);
      WrittenAndRemembered(s, o, closed);
      WrittenAndRemembered(s, o, appended);
      SameOneMore(s, Remember(closed, o, false), t, Sample(o));
      SameOneMore(s, appended, t, Sample(o));
    } else if s.recharging || (s.postFullUntil.Some? && BelowFull(o)) {
      var from := if s.recharging then appended else appended.(recharging := true, postFullUntil := None);
      WrittenAndRemembered(s, o, from);
      SameOneMore(s, Remember(from, o, false), t, Sample(o));
      SameOneMore(s, from, t, Sample(o));
    } else if s.postFullUntil.Some? && o.micros <= s.postFullUntil.value {
      WrittenAndRemembered(s, o, appended);
    } else {
      RememberedOneMore(s, o);
    }
  }

  lemma RememberedOneMore(s: WriterState, o: Observation)
    ensures OneMore(s, Remember(s.(postFullUntil := None), o, true), Sample(o))
  {
    hide Samples, Sample, Accounted, Remember;
    RememberAccounts(s.(postFullUntil := None), o, true);
    SameAccount(s, s.(postFullUntil := None));
  }

  lemma SameOneMore(s: WriterState, t: WriterState, t': WriterState, row: Row)
    requires OneMore(s, t, row)
    ensures t.file.rows == t'.file.rows && t.silent == t'.silent ==> OneMore(s, t', row)
  {}

  /** One write accounts for at most its own observation: no row appears twice,
      neither on disk nor among the rows waiting. */
  lemma WriteConserves(s: WriterState, o: Observation, kind: BlackoutKind)
    ensures Accounted(Write(s, o, kind).0) <= Accounted(s) + multiset{Sample(o)}
    ensures s.file.rows <= Write(s, o, kind).0.file.rows
  {
    hide StartEpisode, WriteOnline, Samples, Sample, Accounted;
    StartConserves(s, o, kind);
    OnlineConserves(s, o);
    AppendAccounts(s, o);
    var appended := s.(file := s.file.Append(Sample(o)));
    SameAccount(appended, appended.(records := s.records + [Sample(o)]));
  }

  /** One poll of the writer, or a restart of the daemon. A construction that fails
      is followed by another one; letting polls follow it only adds runs. */
  datatype WriterStep =
    | Poll(observation: Observation, kind: BlackoutKind)
    | Rebuilt(fileOutcomes: seq<bool>, historyOutcomes: seq<bool>)

  function Rebuild(s: WriterState, fileOutcomes: seq<bool>, historyOutcomes: seq<bool>): WriterState {
    Construct(s.file.(outcomes := fileOutcomes), s.history.(outcomes := historyOutcomes), s.window).0
  }

  function Next(s: WriterState, step: WriterStep): WriterState {
    match step
    case Poll(o, kind) => WriteAndTake(s, o, kind).0
    case Rebuilt(f, h) => Rebuild(s, f, h)
  }

  function NextAll(s: WriterState, steps: seq<WriterStep>): WriterState
    decreases |steps|
  {
    if steps == [] then s else NextAll(Next(s, steps[0]), steps[1..])
  }

  function Observed(steps: seq<WriterStep>): multiset<Row>
    decreases |steps|
  {
    if steps == [] then multiset{}
    else (if steps[0].Poll? then multiset{Sample(steps[0].observation)} else multiset{}) + Observed(steps[1..])
  }

  lemma NextConserves(s: WriterState, step: WriterStep)
    ensures Accounted(Next(s, step)) <=
            Accounted(s) + (if step.Poll? then multiset{Sample(step.observation)} else multiset{})
    ensures s.file.rows <= Next(s, step).file.rows
  {
    hide Write, Restore, Reconcile;
    match step {
      case Poll(o, kind) => WriteConserves(s, o, kind);
      case Rebuilt(f, h) =>
        var blank := Blank(s.file.(outcomes := f), s.history.(outcomes := h), s.window);
        RestoreKeepsFile(blank);
        assert Samples([]) == [];
    }
  }

  lemma RestoreKeepsFile(s: WriterState)
    ensures Restore(s).file == s.file && Restore(s).silent == s.silent && Restore(s).window == s.window
    ensures Restore(s).completed == s.completed && Restore(s).postFullUntil == s.postFullUntil
  {
    hide RestoredRecent, RunStart, RestoredContextStart, ChargeStart;
  }

  /** Over every run, with any failing appends and restarts, the file only grows
      and holds no row more often than it was observed. */
  lemma {:induction false} NothingWrittenTwice(s: WriterState, steps: seq<WriterStep>)
    ensures Accounted(NextAll(s, steps)) <= Accounted(s) + Observed(steps)
    ensures s.file.rows <= NextAll(s, steps).file.rows
    decreases |steps|
  {
    hide Next, Accounted;
    if steps != [] {
      NextConserves(s, steps[0]);
      NothingWrittenTwice(Next(s, steps[0]), steps[1..]);
    }
  }

  // ----- modes -----------------------------------------------------------------------------------

  /** The five modes exclude each other, and only the silent one has anything
      pending. */
  predicate OneMode(s: WriterState) {
    && (s.active ==> !s.recharging && s.postFullUntil.None?)
    && (s.recharging ==> s.postFullUntil.None?)
    && (s.silent != [] ==> !s.active && !s.recharging && s.postFullUntil.None?)
  }

  lemma StartKeepsMode(s: WriterState, o: Observation, kind: BlackoutKind)
    requires OneMode(s)
    ensures OneMode(StartEpisode(s, o, kind).0)
  {
    hide Samples, Sample, ContextRows, Sort, Flush;
    EpisodeStartFlushesAll(s, o, kind);
    SortIsSorting(s.silent, TimeOf);
    var n := FlushWritesPrefix(s, Sort(s.silent, TimeOf));
    NothingToFlush(s);
  }

  lemma OnlineKeepsMode(s: WriterState, o: Observation)
    requires OneMode(s)
    ensures OneMode(WriteOnline(s, o).0)
  {
    hide Remembered, NotBefore, Sample, AddEpisode;
  }

  lemma NextKeepsMode(s: WriterState, step: WriterStep)
    requires OneMode(s)
    ensures OneMode(Next(s, step))
  {
    hide Sample, Reconcile, RestoredRecent, RunStart, RestoredContextStart, ChargeStart, StartEpisode, WriteOnline;
    if step.Poll? && !s.active {
      StartKeepsMode(s, step.observation, step.kind);
    }
    if step.Poll? {
      OnlineKeepsMode(s, step.observation);
    }
  }

  lemma NothingToFlush(s: WriterState)
    ensures s.silent == [] ==> Flush(s, Sort(s.silent, TimeOf)) == (s, true)
  {}

  lemma {:induction false} PendingOnlyWhenSilent(s: WriterState, steps: seq<WriterStep>)
    requires OneMode(s)
    ensures OneMode(NextAll(s, steps))
    decreases |steps|
  {
    hide Next, OneMode;
    if steps != [] {
      NextKeepsMode(s, steps[0]);
      PendingOnlyWhenSilent(Next(s, steps[0]), steps[1..]);
    }
  }

  // ----- order of time -------------------------------------------------------------------------------

  ghost predicate RowsUpTo(rows: seq<Row>, at: int) {
    forall i :: 0 <= i < |rows| ==> rows[i].at <= at
  }

  ghost predicate RowsInOrder(rows: seq<Row>) {
    forall i, j :: 0 <= i < j < |rows| ==> rows[i].at <= rows[j].at
  }

  ghost predicate TimesUpTo(os: seq<Observation>, now: int) {
    forall i :: 0 <= i < |os| ==> os[i].micros <= now
  }

  /** File and pending observations are in order, and the file ends before the
      pending ones begin. */
  ghost predicate Chronological(s: WriterState, now: int) {
    && RowsInOrder(s.file.rows) && RowsUpTo(s.file.rows, now / MICROS)
    && SortedBy(s.silent, TimeOf) && TimesUpTo(s.silent, now)
    && (s.silent != [] ==> RowsUpTo(s.file.rows, s.silent[0].micros / MICROS))
  }

  lemma SecondsMonotone(a: int, b: int)
    requires a <= b
    ensures a / MICROS <= b / MICROS
  {}

  lemma OneRowLater(rows: seq<Row>, o: Observation, now: int)
    requires RowsInOrder(rows) && RowsUpTo(rows, now / MICROS) && o.micros >= now
    ensures RowsInOrder(rows + [Sample(o)]) && RowsUpTo(rows + [Sample(o)], o.micros / MICROS)
    ensures RowsUpTo(rows, o.micros / MICROS)
  {
    SecondsMonotone(now, o.micros);
  }

  lemma {:induction false} NotBeforeKeepsOrder(os: seq<Observation>, cutoff: int, now: int)
    requires SortedBy(os, TimeOf) && TimesUpTo(os, now)
    ensures var kept := NotBefore(os, cutoff);
            && SortedBy(kept, TimeOf) && TimesUpTo(kept, now)
            && (kept != [] ==> os != [] && os[0].micros <= kept[0].micros)
            && (forall i :: 0 <= i < |kept| ==> kept[i] in os && kept[i].micros >= cutoff)
  {
    if os != [] {
      var n := |os| - 1;
      assert os[..n] == os[0..n];
      NotBeforeKeepsOrder(os[..n], cutoff, now);
      var kept, all := NotBefore(os[..n], cutoff), NotBefore(os, cutoff);
      forall i | 0 <= i < |kept| ensures TimeOf(kept[i]) <= TimeOf(os[n]) {
        var m :| 0 <= m < n && os[..n][m] == kept[i];
        assert TimeOf(os[m]) <= TimeOf(os[n]);
      }
      assert TimeOf(os[0]) <= TimeOf(os[n]);
    }
  }

  lemma SilentExtends(s: WriterState, o: Observation, now: int)
    requires Chronological(s, now) && o.micros >= now
    ensures Chronological(Remember(s, o, true), o.micros)
  {
    hide Remembered, Samples, NotBefore;
    SecondsMonotone(now, o.micros);
    if OnlineStatus(o.status) && s.window.Some? {
      var more := s.silent + [o];
      NotBeforeKeepsOrder(more, o.micros - s.window.value, o.micros);
      var kept := NotBefore(more, o.micros - s.window.value);
      if kept != [] {
        SecondsMonotone(more[0].micros, kept[0].micros);
      }
    }
  }

  lemma {:induction false} FlushLeavesSuffix(s: WriterState)
    ensures var left := Flush(s, s.silent).0.silent;
            |left| <= |s.silent| && left == s.silent[|s.silent| - |left|..]
    decreases |s.silent|
  {
    hide Sample;
    if s.silent != [] && NextOk(s.file.outcomes) {
      var next := s.(file := s.file.Append(Sample(s.silent[0])), silent := s.silent[1..]);
      assert RemoveFirst(s.silent, s.silent[0]) == s.silent[1..];
      FlushLeavesSuffix(next);
      assert Flush(s, s.silent) == Flush(next, s.silent[1..]);
    }
  }

  /** In order of time the flush goes through the pending list from its front. */
  lemma FlushInOrder(s: WriterState) returns (n: nat)
    ensures n <= |s.silent|
    ensures var (after, ok) := Flush(s, s.silent);
            && after.file.rows == s.file.rows + Samples(s.silent[..n])
            && after.silent == s.silent[n..]
            && (ok <==> n == |s.silent|)
  {
    hide Samples, Flush, Accounted;
    n := FlushWritesPrefix(s, s.silent);
    FlushLeavesSuffix(s);
    RestIsPending(s, s.silent, n);
    var left := Flush(s, s.silent).0.silent;
    assert |multiset(left)| == |left| && |multiset(s.silent[n..])| == |s.silent| - n;
  }

  lemma SamplesUpTo(rows: seq<Row>, os: seq<Observation>, limit: int)
    requires RowsUpTo(rows, limit / MICROS) && TimesUpTo(os, limit)
    ensures RowsUpTo(rows + Samples(os), limit / MICROS)
  {
    forall i | 0 <= i < |os| ensures Samples(os)[i].at <= limit / MICROS {
      SecondsMonotone(os[i].micros, limit);
    }
  }

  lemma SamplesInOrder(rows: seq<Row>, os: seq<Observation>)
    requires RowsInOrder(rows) && SortedBy(os, TimeOf)
    requires os != [] ==> RowsUpTo(rows, os[0].micros / MICROS)
    ensures RowsInOrder(rows + Samples(os))
  {
    var all := rows + Samples(os);
    forall i, j | 0 <= i < j < |all| ensures all[i].at <= all[j].at {
      if j >= |rows| {
        var first := if i >= |rows| then i - |rows| else 0;
        assert first == j - |rows| || TimeOf(os[first]) <= TimeOf(os[j - |rows|]);
        SecondsMonotone(os[first].micros, os[j - |rows|].micros);
      }
    }
  }

  lemma FlushKeepsOrder(s: WriterState, now: int)
    requires Chronological(s, now)
    ensures Chronological(Flush(s, Sort(s.silent, TimeOf)).0, now)
    ensures Flush(s, Sort(s.silent, TimeOf)).1 ==> Flush(s, Sort(s.silent, TimeOf)).0.silent == []
  {
    hide Samples, Sort, Flush;
    SortOfSorted(s.silent, TimeOf);
    var n := FlushInOrder(s);
    var front, back := s.silent[..n], s.silent[n..];
    SamplesInOrder(s.file.rows, front);
    SamplesUpTo(s.file.rows, front, now);
    if back != [] {
      assert back[0] == s.silent[n];
      assert n == 0 || TimeOf(s.silent[0]) <= TimeOf(s.silent[n]);
      SecondsMonotone(s.silent[0].micros, back[0].micros);
      forall i | 0 <= i < |front| ensures front[i].micros <= back[0].micros {
        assert TimeOf(s.silent[i]) <= TimeOf(s.silent[n]);
      }
      SamplesUpTo(s.file.rows, front, back[0].micros);
    }
  }

  lemma AppendKeepsOrder(s: WriterState, o: Observation, now: int)
    requires Chronological(s, now) && o.micros >= now && s.silent == []
    ensures Chronological(s.(file := s.file.Append(Sample(o))), o.micros)
  {
    hide Sample;
    OneRowLater(s.file.rows, o, now);
  }

  lemma StartKeepsOrder(s: WriterState, o: Observation, kind: BlackoutKind, now: int)
    requires Chronological(s, now) && o.micros >= now
    ensures Chronological(StartEpisode(s, o, kind).0, o.micros)
  {
    hide Samples, Sample, Sort, Flush, ContextRows, Chronological;
    FlushKeepsOrder(s, now);
    var flushed := Flush(s, Sort(s.silent, TimeOf)).0;
    LaterIsInOrder(flushed, now, o.micros);
    if flushed.silent == [] {
      AppendKeepsOrder(flushed, o, now);
      var appended := flushed.(file := flushed.file.Append(Sample(o)));
      OrderOfFiles(appended, StartEpisode(s, o, kind).0, o.micros);
    }
  }

  lemma LaterIsInOrder(s: WriterState, now: int, later: int)
    requires Chronological(s, now) && later >= now
    ensures Chronological(s, later)
  {
    SecondsMonotone(now, later);
  }

  /** Only the file and the pending observations matter. */
  lemma OrderOfFiles(s: WriterState, t: WriterState, now: int)
    requires Chronological(s, now)
    ensures s.file.rows == t.file.rows && s.silent == t.silent ==> Chronological(t, now)
  {}

  lemma OnlineKeepsOrder(s: WriterState, o: Observation, now: int)
    requires Chronological(s, now) && o.micros >= now && OneMode(s)
    ensures Chronological(WriteOnline(s, o).0, o.micros)
  {
    hide Sample, Chronological, AddEpisode, NotBefore, Remembered;
    if s.active || s.recharging || s.postFullUntil.Some? {
      AppendKeepsOrder(s, o, now);
      OrderOfFiles(s.(file := s.file.Append(Sample(o))), WriteOnline(s, o).0, o.micros);
      OrderOfFiles(s, s.(postFullUntil := None), now);
    }
    assert Chronological(s.(postFullUntil := None), now) by {
      OrderOfFiles(s, s.(postFullUntil := None), now);
    }
    SilentExtends(s.(postFullUntil := None), o, now);
    if (s.active || s.recharging || s.postFullUntil.Some?) && !OnlineStatus(o.status) {
      OrderOfFiles(s.(file := s.file.Append(Sample(o))), WriteOnline(s, o).0, o.micros);
    }
  }

  lemma NextKeepsOrder(s: WriterState, step: WriterStep, now: int)
    requires Chronological(s, now) && OneMode(s)
    requires step.Poll? ==> step.observation.micros >= now
    ensures Chronological(Next(s, step), if step.Poll? then step.observation.micros else now)
  {
    hide Sample, Chronological, StartEpisode, WriteOnline, Reconcile, Restore;
    match step {
      case Poll(o, kind) =>
        StartKeepsOrder(s, o, kind, now);
        OnlineKeepsOrder(s, o, now);
        LaterIsInOrder(s, now, o.micros);
        if s.active {
          AppendKeepsOrder(s, o, now);
        }
        var written := Write(s, o, kind).0;
        if s.active {
          OrderOfFiles(s.(file := s.file.Append(Sample(o))), written, o.micros);
        }
        assert Chronological(written, o.micros);
        OrderOfFiles(written, written.(completed := None), o.micros);
      case Rebuilt(f, h) =>
        var blank := Blank(s.file.(outcomes := f), s.history.(outcomes := h), s.window);
        RestoreKeepsFile(blank);
        EmptyPendingInOrder(s, Rebuild(s, f, h), now);
    }
  }

  lemma EmptyPendingInOrder(s: WriterState, t: WriterState, now: int)
    requires Chronological(s, now) && t.file.rows == s.file.rows && t.silent == []
    ensures Chronological(t, now)
  {}

  /** Observations arrive in order of time. */
  predicate InTime(steps: seq<WriterStep>, now: int)
    decreases |steps|
  {
    steps == [] || ((steps[0].Poll? ==> steps[0].observation.micros >= now)
        && InTime(steps[1..], TimeAfter(steps[0], now)))
  }

  function TimeAfter(step: WriterStep, now: int): int {
    if step.Poll? then step.observation.micros else now
  }

  function TimeAfterAll(steps: seq<WriterStep>, now: int): int
    decreases |steps|
  {
    if steps == [] then now else TimeAfterAll(steps[1..], TimeAfter(steps[0], now))
  }

  /** If observations arrive in order of time, the file stays in order of time
      through every pattern of failed appends and restarts. */
  lemma {:induction false} FileStaysInOrder(s: WriterState, steps: seq<WriterStep>, now: int)
    requires Chronological(s, now) && OneMode(s) && InTime(steps, now)
    ensures Chronological(NextAll(s, steps), TimeAfterAll(steps, now))
    ensures RowsInOrder(NextAll(s, steps).file.rows)
    decreases |steps|
  {
    if steps != [] {
      hide Next, Chronological, OneMode;
      NextKeepsMode(s, steps[0]);
      NextKeepsOrder(s, steps[0], now);
      FileStaysInOrder(Next(s, steps[0]), steps[1..], TimeAfter(steps[0], now));
    }
  }
}
