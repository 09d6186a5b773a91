/** Everything the writer leaves on disk, hands out and summarises over a whole run
    in which nothing fails, told from the observations alone: each outage with the
    quiet window before it, and the charge and full tail after it. */
module WriterDiary {
  import opened Types
  import opened Sorting
  import opened Storage
  import opened History
  import opened Writer
  import opened WriterPending
  import opened WriterMemory
  import opened WriterTail

  ghost predicate InOrder(os: seq<Observation>) {
    forall i, j :: 0 <= i < j < |os| ==> os[i].micros <= os[j].micros
  }

  ghost predicate AllOnline(os: seq<Observation>) {
    forall i :: 0 <= i < |os| ==> OnlineStatus(os[i].status)
  }

  /** The quiet observations not older than the last one minus the window. */
  function Window(quiet: seq<Observation>, window: Option<int>): seq<Observation> {
    if quiet == [] || window.None? then [] else NotBefore(quiet, quiet[|quiet| - 1].micros - window.value)
  }

  // ----- one online poll -----------------------------------------------------------

  /** What is pending after one more quiet observation. */
  function OneMorePending(silent: seq<Observation>, o: Observation, window: Option<int>): seq<Observation> {
    if window.None? then silent else NotBefore(silent + [o], o.micros - window.value)
  }

  lemma {:induction false} CutTwice(os: seq<Observation>, early: int, late: int)
    requires early <= late
    ensures NotBefore(NotBefore(os, early), late) == NotBefore(os, late)
  {
    if os != [] {
      var n := |os| - 1;
      CutTwice(os[..n], early, late);
      var kept := NotBefore(os[..n], early);
      if os[n].micros >= early {
        assert (kept + [os[n]])[..|kept|] == kept;
      }
    }
  }

  lemma WindowGrows(quiet: seq<Observation>, o: Observation, window: Option<int>)
    requires InOrder(quiet + [o])
    ensures OneMorePending(Window(quiet, window), o, window) == Window(quiet + [o], window)
  {
    if window.Some? && quiet != [] {
      var n, cutoff := |quiet| - 1, o.micros - window.value;
      assert (quiet + [o])[n] == quiet[n] && (quiet + [o])[n + 1] == o;
      var kept := Window(quiet, window);
      CutTwice(quiet, quiet[n].micros - window.value, cutoff);
      assert (kept + [o])[..|kept|] == kept && (quiet + [o])[..n + 1] == quiet;
    }
  }

  /** An online poll outside an episode: the observation is written, or it is
      pending; it is remembered as recent in both cases. */
  lemma OnlinePoll(s: WriterState, o: Observation)
    requires !s.active && s.completed.None? && s.file.outcomes == [] && OnlineStatus(o.status)
    ensures var (t, handed) := WriteAndTake(s, o, Online);
            && handed.None? && !t.active && t.completed.None? && t.history == s.history && t.window == s.window
            && t.recent == Remembered(s.recent, o) && t.file.outcomes == []
            && (t.file == s.file ==> t.silent == OneMorePending(s.silent, o, s.window))
            && (t.file != s.file ==> t.silent == s.silent && t.file.rows == s.file.rows + [Sample(o)])
            && (PastTail(s) ==> t.file == s.file)
  {
    hide Sample, Remembered, NotBefore;
    assert s.file.Append(Sample(o)) != s.file by {
      assert |s.file.Append(Sample(o)).rows| == |s.file.rows| + 1;
    }
  }

  /** The poll that ends an episode: terminal row, summary, hand-over. */
  lemma ClosingPoll(s: WriterState, o: Observation)
    requires s.active && s.completed.None? && s.file.outcomes == [] && s.history.outcomes == []
             && OnlineStatus(o.status)
    ensures var (t, handed) := WriteAndTake(s, o, Online);
            && handed == Some(s.records + [Sample(o)]) && !t.active && t.completed.None? && t.window == s.window
            && t.history == AddEpisode(s.history, s.records + [Sample(o)], s.kind).0 && t.history.outcomes == []
            && t.recent == Remembered(s.recent, o) && t.silent == s.silent
            && t.file.rows == s.file.rows + [Sample(o)] && t.file.outcomes == []
  {
    hide Sample, Remembered, SummarizeEpisode;
  }

  // ----- runs -------------------------------------------------------------------------

  /** A writer with what it handed out. */
  datatype Diary = Diary(writer: WriterState, handed: seq<seq<Row>>)

  function Noted(d: Diary, o: Observation, kind: BlackoutKind): Diary {
    var (next, handed) := WriteAndTake(d.writer, o, kind);
    Diary(next, if handed.Some? then d.handed + [handed.value] else d.handed)
  }

  function NotedAll(d: Diary, os: seq<Observation>, kind: BlackoutKind): Diary {
    if os == [] then d
    else
      var n := |os| - 1;
      Noted(NotedAll(d, os[..n], kind), os[n], kind)
  }

  /** Between outages: what was quiet since the tail is pending, and all online
      observations so far make up the recent ones. */
  ghost predicate Quiet(s: WriterState, seen: seq<Observation>, pending: seq<Observation>) {
    && !s.active && s.completed.None? && s.file.outcomes == [] && s.history.outcomes == []
    && s.recent == RememberedAll(seen) && s.silent == pending
  }

  /** Quiet observations in order of time: nothing is written, and pending are
      exactly those not older than the last one minus the window. */
  lemma {:induction false} QuietRun(d: Diary, seen: seq<Observation>, quiet: seq<Observation>, more: seq<Observation>)
    requires Quiet(d.writer, seen, Window(quiet, d.writer.window)) && PastTail(d.writer)
    requires AllOnline(more) && InOrder(quiet + more)
    ensures var after := NotedAll(d, more, Online);
            && after.handed == d.handed && PastTail(after.writer) && after.writer.window == d.writer.window
            && after.writer.file == d.writer.file && after.writer.history == d.writer.history
            && Quiet(after.writer, seen + more, Window(quiet + more, d.writer.window))
    decreases |more|
  {
    hide WriteAndTake, Window, OneMorePending, RememberedAll, Remembered, PastTail;
    if more == [] {
      assert seen + more == seen && quiet + more == quiet;
    } else {
      var n := |more| - 1;
      var before, o := more[..n], more[n];
      assert quiet + more == quiet + before + [o] && seen + more == seen + before + [o];
      assert InOrder(quiet + before) by {
        assert forall i :: 0 <= i < |quiet + before| ==> (quiet + more)[i] == (quiet + before)[i];
      }
      QuietRun(d, seen, quiet, before);
      var s := NotedAll(d, before, Online).writer;
      assert !s.active && s.completed.None? by { PastTailIsIdle(s); }
      OnlinePoll(s, o);
      StaysPastTail(s, o);
      WindowGrows(quiet + before, o, s.window);
      RememberOneMore(seen + before, o);
    }
  }

  lemma PastTailIsIdle(s: WriterState)
    requires PastTail(s)
    ensures !s.active && s.completed.None?
  {}

  // ----- an outage -----------------------------------------------------------------------

  lemma ActiveStart(s: WriterState, o: Observation, kind: BlackoutKind)
    requires !s.active && s.completed.None? && s.file.outcomes == [] && InOrder(s.silent)
    requires ActiveStatus(o.status) && (kind == BlackoutReal || kind == BlackoutTest)
    ensures var (t, handed) := WriteAndTake(s, o, kind);
            && handed.None? && t.active && t.kind == kind && t.completed.None? && t.window == s.window
            && t.history == s.history && t.recent == s.recent && t.silent == []
            && t.file == Log(s.file.rows + Samples(s.silent) + [Sample(o)], [])
            && t.records == ContextRows(s.recent, s.silent) + [Sample(o)]
  {
    hide Sample, Samples, Sort, Flush, ContextRows;
    assert SortedBy(s.silent, TimeOf);
    SortOfSorted(s.silent, TimeOf);
    FlushWithoutFailure(s, s.silent);
    var n := FlushOfPending(s);
    var m := FlushWritesPrefix(s, s.silent);
  }

  /** The active polls of an outage: everything pending is written before them,
      oldest first, and each of them is written. */
  lemma {:induction false} ActiveRun(d: Diary, seen: seq<Observation>, pending: seq<Observation>,
                                     os: seq<Observation>, kind: BlackoutKind)
    requires Quiet(d.writer, seen, pending) && InOrder(pending) && os != []
    requires kind == BlackoutReal || kind == BlackoutTest
    requires forall i :: 0 <= i < |os| ==> ActiveStatus(os[i].status)
    ensures var after, s := NotedAll(d, os, kind), d.writer;
            && after.handed == d.handed && after.writer.active && after.writer.kind == kind
            && after.writer.completed.None? && after.writer.window == s.window && after.writer.history == s.history
            && after.writer.recent == RememberedAll(seen) && after.writer.silent == []
            && after.writer.file == Log(s.file.rows + Samples(pending) + Samples(os), [])
            && after.writer.records == ContextRows(RememberedAll(seen), pending) + Samples(os)
    decreases |os|
  {
    hide ContextRows, Samples, Sample, RememberedAll, InOrder;
    var n := |os| - 1;
    assert os == os[..n] + [os[n]];
    SamplesWithLast(os[..n], os[n]);
    if n == 0 {
      assert os[..n] == [] && NotedAll(d, os[..n], kind) == d;
      ActiveStart(d.writer, os[n], kind);
      assert Samples(os) == [Sample(os[n])];
    } else {
      ActiveRun(d, seen, pending, os[..n], kind);
      ActiveMore(NotedAll(d, os[..n], kind).writer, os[n], kind);
    }
  }

  lemma ActiveMore(s: WriterState, o: Observation, kind: BlackoutKind)
    requires s.active && s.completed.None? && s.file.outcomes == [] && ActiveStatus(o.status)
    requires kind == BlackoutReal || kind == BlackoutTest
    ensures WriteAndTake(s, o, kind) ==
            (s.(file := Log(s.file.rows + [Sample(o)], []), records := s.records + [Sample(o)]), None)
  {
    hide Sample;
  }

  // ----- the online time after it ---------------------------------------------------------

  /** How many observations are written from the one that ends the episode on. */
  function TailFrom(os: seq<Observation>, window: Option<int>, n: nat): (end: nat)
    requires n <= |os|
    ensures n <= end <= |os|
    ensures forall i :: n <= i < end ==> !StopsAt(os, i, window)
    ensures end < |os| ==> StopsAt(os, end, window)
    decreases |os| - n
  {
    if n == |os| || StopsAt(os, n, window) then n else TailFrom(os, window, n + 1)
  }

  function TailLength(os: seq<Observation>, window: Option<int>): (n: nat)
    requires os != []
    ensures 1 <= n <= |os|
  {
    TailFrom(os, window, 1)
  }

  lemma TailOfFront(os: seq<Observation>, window: Option<int>)
    requires |os| > 1
    ensures var last := |os| - 1;
            var front := TailLength(os[..last], window);
            TailLength(os, window) == if front < last || StopsAt(os, last, window) then front else last + 1
  {
    hide StopsAt;
    StopsInFront(os, window);
    var last := |os| - 1;
    var k, n := TailFrom(os[..last], window, 1), TailFrom(os, window, 1);
    assert k < last ==> StopsAt(os[..last], k, window) && StopsAt(os, k, window);
    assert n < last ==> StopsAt(os, n, window) && StopsAt(os[..last], n, window);
    assert 1 <= k < n ==> !StopsAt(os, k, window);
    assert last < n ==> !StopsAt(os, last, window);
  }

  /** From the poll that ends the episode on: the tail is written, the quiet time
      after it is pending as far as the window reaches. */
  lemma {:induction false} OnlineBlock(d: Diary, seen: seq<Observation>, os: seq<Observation>)
    requires d.writer.active && d.writer.completed.None? && d.writer.silent == []
             && d.writer.recent == RememberedAll(seen)
    requires d.writer.file.outcomes == [] && d.writer.history.outcomes == []
    requires os != [] && AllOnline(os) && InOrder(os)
    ensures var after, s := NotedAll(d, os, Online), d.writer;
            var n, episode := TailLength(os, s.window), s.records + [Sample(os[0])];
            && after.handed == d.handed + [episode] && after.writer.window == s.window
            && after.writer.history == AddEpisode(s.history, episode, s.kind).0
            && after.writer.file == Log(s.file.rows + Samples(os[..n]), [])
            && Quiet(after.writer, seen + os, Window(os[n..], s.window))
            && (if n == |os| then InTail(after.writer, os) else PastTail(after.writer))
    decreases |os|
  {
    hide WriteAndTake, Sample, Samples, StopsAt, InTail, PastTail, Window, RememberedAll, Remembered, AddEpisode,
         TailLength, OneMorePending;
    var last := |os| - 1;
    var front, o := os[..last], os[last];
    assert os == front + [o] && seen + os == seen + front + [o];
    SamplesWithLast(front, o);
    RememberOneMore(seen + front, o);
    if last == 0 {
      FirstOfBlock(d, seen, os);
    } else {
      OnlineBlock(d, seen, front);
      var s, k := NotedAll(d, front, Online).writer, TailLength(front, d.writer.window);
      TailOfFront(os, d.writer.window);
      OnlinePoll(s, o);
      BlockGrows(s, os, k, d.writer.window);
      assert front[0] == os[0];
      var n := TailLength(os, d.writer.window);
      if n == last + 1 {
        assert front[..k] == front && os[..n] == os;
        assert d.writer.file.rows + Samples(front) + [Sample(o)] == d.writer.file.rows + (Samples(front) + [Sample(o)]);
      } else {
        assert os[..n] == front[..k];
      }
    }
  }

  lemma FirstOfBlock(d: Diary, seen: seq<Observation>, os: seq<Observation>)
    requires d.writer.active && d.writer.completed.None? && d.writer.silent == []
             && d.writer.recent == RememberedAll(seen)
    requires d.writer.file.outcomes == [] && d.writer.history.outcomes == []
    requires |os| == 1 && AllOnline(os)
    ensures var after, s := NotedAll(d, os, Online), d.writer;
            var episode := s.records + [Sample(os[0])];
            && TailLength(os, s.window) == 1
            && after.handed == d.handed + [episode] && after.writer.window == s.window
            && after.writer.history == AddEpisode(s.history, episode, s.kind).0
            && after.writer.file == Log(s.file.rows + Samples(os[..1]), [])
            && Quiet(after.writer, seen + os, Window(os[1..], s.window)) && InTail(after.writer, os)
  {
    hide WriteAndTake, Sample, Samples, InTail, RememberedAll, Remembered, AddEpisode;
    assert os[..0] == [] && os[..1] == os == [os[0]] && os[1..] == [];
    SamplesWithLast([], os[0]);
    assert [] + [os[0]] == os;
    RememberOneMore(seen, os[0]);
    ClosingPoll(d.writer, os[0]);
    ClosingStartsTail(d.writer, os[0]);
    assert NotedAll(d, os, Online) == Noted(d, os[0], Online);
  }

  /** One more online poll after the first k of `os` were written. */
  lemma BlockGrows(s: WriterState, os: seq<Observation>, k: nat, window: Option<int>)
    requires |os| > 1 && AllOnline(os) && InOrder(os) && s.window == window && s.file.outcomes == []
    requires var front := os[..|os| - 1];
             && k == TailLength(front, window) && s.silent == Window(front[k..], window)
             && (if k == |front| then InTail(s, front) else PastTail(s))
    ensures var last, o := |os| - 1, os[|os| - 1];
            var n, t := TailLength(os, window), WriteAndTake(s, o, Online).0;
            && t.silent == Window(os[n..], window)
            && t.file == Log(s.file.rows + (if n == last + 1 then [Sample(o)] else []), [])
            && (n == last + 1 ==> k == last) && (n < last + 1 ==> n == k)
            && (if n == |os| then InTail(t, os) else PastTail(t))
  {
    hide WriteAndTake, Sample, StopsAt, InTail, PastTail, Window, Remembered, OneMorePending;
    var last := |os| - 1;
    var front, o := os[..last], os[last];
    assert front + [o] == os;
    TailOfFront(os, window);
    assert s.file == Log(s.file.rows, []) && s.file.rows + [] == s.file.rows;
    assert os[k..] == front[k..] + [o];
    assert InOrder(os[k..]);
    if k < last {
      PastTailIsIdle(s);
      OnlinePoll(s, o);
      StaysPastTail(s, o);
      WindowGrows(front[k..], o, window);
    } else {
      InTailIsIdle(s, front);
      OnlinePoll(s, o);
      OneMoreInTail(s, front, o);
      assert front[k..] == [] && os[last..] == [o] && os[last + 1..] == [];
      EmptyWindow(window);
      if StopsAt(os, last, window) {
        WindowGrows([], o, window);
        assert [] + [o] == [o];
      } else {
        assert WriteAndTake(s, o, Online).0.file != s.file by {
          assert |WriteAndTake(s, o, Online).0.file.rows| == |s.file.rows| + 1;
        }
      }
    }
  }

  lemma EmptyWindow(window: Option<int>)
    ensures Window([], window) == []
  {}

  lemma InTailIsIdle(s: WriterState, os: seq<Observation>)
    requires InTail(s, os)
    ensures !s.active && s.completed.None?
  {}

  // ----- the whole run ------------------------------------------------------------------------

  /** Active polls of one kind, and the online ones until the next outage. */
  datatype Outage = Outage(active: seq<Observation>, kind: BlackoutKind, online: seq<Observation>)

  ghost predicate Proper(x: Outage) {
    && x.active != [] && (forall i :: 0 <= i < |x.active| ==> ActiveStatus(x.active[i].status))
    && (x.kind == BlackoutReal || x.kind == BlackoutTest)
    && x.online != [] && AllOnline(x.online) && InOrder(x.online)
  }

  function Lived(d: Diary, xs: seq<Outage>): Diary {
    if xs == [] then d
    else
      var n := |xs| - 1;
      var x := xs[n];
      NotedAll(NotedAll(Lived(d, xs[..n]), x.active, x.kind), x.online, Online)
  }

  /** What is pending when the last outage is over. */
  function PendingAfter(pending: seq<Observation>, xs: seq<Outage>, window: Option<int>): seq<Observation> {
    if xs == [] then pending
    else
      var os := xs[|xs| - 1].online;
      if os == [] then [] else Window(os[TailLength(os, window)..], window)
  }

  function SeenAfter(seen: seq<Observation>, xs: seq<Outage>): seq<Observation> {
    if xs == [] then seen else SeenAfter(seen, xs[..|xs| - 1]) + xs[|xs| - 1].online
  }

  /** The rows of the last outage: the pending window, the outage, its tail. */
  function RowsOf(pending: seq<Observation>, x: Outage, window: Option<int>): seq<Row> {
    Samples(pending) + Samples(x.active)
    + Samples(if x.online == [] then [] else x.online[..TailLength(x.online, window)])
  }

  /** The rows of a run of outages, in this order. */
  function RowsOfAll(pending: seq<Observation>, xs: seq<Outage>, window: Option<int>): seq<Row> {
    if xs == [] then []
    else
      var n := |xs| - 1;
      RowsOfAll(pending, xs[..n], window) + RowsOf(PendingAfter(pending, xs[..n], window), xs[n], window)
  }

  /** The last episode: context, active rows, terminal row. */
  function EpisodeOf(seen: seq<Observation>, pending: seq<Observation>, x: Outage): seq<Row> {
    ContextRows(RememberedAll(seen), pending) + Samples(x.active)
    + (if x.online == [] then [] else [Sample(x.online[0])])
  }

  function EpisodesOfAll(seen: seq<Observation>, pending: seq<Observation>, xs: seq<Outage>, window: Option<int>)
    : seq<seq<Row>>
  {
    if xs == [] then []
    else
      var n := |xs| - 1;
      EpisodesOfAll(seen, pending, xs[..n], window)
      + [EpisodeOf(SeenAfter(seen, xs[..n]), PendingAfter(pending, xs[..n], window), xs[n])]
  }

  /** Every episode summarised, as what it was started as. */
  function SummarisedAll(history: Log<HistoryRow>, episodes: seq<seq<Row>>, xs: seq<Outage>): Log<HistoryRow>
    requires |episodes| == |xs|
  {
    if xs == [] then history
    else
      var n := |xs| - 1;
      AddEpisode(SummarisedAll(history, episodes[..n], xs[..n]), episodes[n], xs[n].kind).0
  }

  lemma {:induction false} AsManyEpisodes(seen: seq<Observation>, pending: seq<Observation>, xs: seq<Outage>,
        window: Option<int>)
    ensures |EpisodesOfAll(seen, pending, xs, window)| == |xs|
  {
    if xs != [] {
      AsManyEpisodes(seen, pending, xs[..|xs| - 1], window);
    }
  }

  lemma WindowInOrder(quiet: seq<Observation>, window: Option<int>)
    requires InOrder(quiet)
    ensures InOrder(Window(quiet, window))
  {
    if quiet != [] && window.Some? {
      CutInOrder(quiet, quiet[|quiet| - 1].micros - window.value);
    }
  }

  lemma {:induction false} CutInOrder(os: seq<Observation>, cutoff: int)
    requires InOrder(os)
    ensures InOrder(NotBefore(os, cutoff))
    ensures forall o :: o in NotBefore(os, cutoff) ==> o in os
  {
    if os != [] {
      var n := |os| - 1;
      assert os == os[..n] + [os[n]];
      CutInOrder(os[..n], cutoff);
      var kept := NotBefore(os[..n], cutoff);
      forall i | 0 <= i < |kept| ensures kept[i].micros <= os[n].micros {
        assert kept[i] in os[..n];
      }
    }
  }

  lemma PendingInOrder(pending: seq<Observation>, xs: seq<Outage>, window: Option<int>)
    requires InOrder(pending) && forall i :: 0 <= i < |xs| ==> Proper(xs[i])
    ensures InOrder(PendingAfter(pending, xs, window))
  {
    if xs != [] {
      var os := xs[|xs| - 1].online;
      assert Proper(xs[|xs| - 1]);
      WindowInOrder(os[TailLength(os, window)..], window);
    }
  }

  /** One outage and the online time after it. */
  lemma OneOutage(d: Diary, seen: seq<Observation>, pending: seq<Observation>, x: Outage)
    requires Quiet(d.writer, seen, pending) && InOrder(pending) && Proper(x)
    ensures var after, s := NotedAll(NotedAll(d, x.active, x.kind), x.online, Online), d.writer;
            && after.handed == d.handed + [EpisodeOf(seen, pending, x)] && after.writer.window == s.window
            && after.writer.history == AddEpisode(s.history, EpisodeOf(seen, pending, x), x.kind).0
            && after.writer.file == Log(s.file.rows + RowsOf(pending, x, s.window), [])
            && Quiet(after.writer, seen + x.online, Window(x.online[TailLength(x.online, s.window)..], s.window))
  {
    hide NotedAll, ContextRows, Samples, Sample, RememberedAll, InOrder, AllOnline, TailLength, Window, AddEpisode,
         InTail, PastTail;
    ActiveRun(d, seen, pending, x.active, x.kind);
    var inside, s := NotedAll(d, x.active, x.kind), d.writer;
    OnlineBlock(inside, seen, x.online);
    var tail := Samples(x.online[..TailLength(x.online, s.window)]);
    assert s.file.rows + Samples(pending) + Samples(x.active) + tail
        == s.file.rows + (Samples(pending) + Samples(x.active) + tail);
  }

  /** Over every run of outages in which nothing fails: the file gains, for each of
      them, the pending window before it, its active rows and its tail; handed out
      are its context, active rows and terminal row; and that is summarised as the
      kind the episode started as. */
  lemma {:induction false} RunIsDiary(d: Diary, seen: seq<Observation>, pending: seq<Observation>, xs: seq<Outage>)
    requires Quiet(d.writer, seen, pending) && InOrder(pending)
    requires forall i :: 0 <= i < |xs| ==> Proper(xs[i])
    ensures var after, s := Lived(d, xs), d.writer;
            var episodes := EpisodesOfAll(seen, pending, xs, s.window);
            && |episodes| == |xs| && after.handed == d.handed + episodes && after.writer.window == s.window
            && after.writer.history == SummarisedAll(s.history, episodes, xs)
            && after.writer.file == Log(s.file.rows + RowsOfAll(pending, xs, s.window), [])
            && Quiet(after.writer, SeenAfter(seen, xs), PendingAfter(pending, xs, s.window))
  {
    hide NotedAll, Quiet, RowsOf, EpisodeOf, InOrder, Window, TailLength, AddEpisode, Proper;
    var s := d.writer;
    AsManyEpisodes(seen, pending, xs, s.window);
    if xs == [] {
      assert Log(s.file.rows, []) == s.file by { FileOfQuiet(s, seen, pending); }
      assert d.handed + [] == d.handed && s.file.rows + [] == s.file.rows;
    } else {
      var n := |xs| - 1;
      var before, x := xs[..n], xs[n];
      RunIsDiary(d, seen, pending, before);
      PendingInOrder(pending, before, s.window);
      var inside := Lived(d, before);
      OneOutage(inside, SeenAfter(seen, before), PendingAfter(pending, before, s.window), x);
      AsManyEpisodes(seen, pending, before, s.window);
      var episodes := EpisodesOfAll(seen, pending, before, s.window);
      var last := EpisodeOf(SeenAfter(seen, before), PendingAfter(pending, before, s.window), x);
      assert (episodes + [last])[..n] == episodes;
      assert d.handed + episodes + [last] == d.handed + (episodes + [last]);
      assert s.file.rows + RowsOfAll(pending, before, s.window) + RowsOf(PendingAfter(pending, before, s.window), x,
             s.window)
          == s.file.rows + RowsOfAll(pending, xs, s.window);
      OnlineIsSome(x);
    }
  }

  lemma OnlineIsSome(x: Outage)
    requires Proper(x)
    ensures x.online != []
  {}

  lemma FileOfQuiet(s: WriterState, seen: seq<Observation>, pending: seq<Observation>)
    requires Quiet(s, seen, pending)
    ensures s.file == Log(s.file.rows, [])
  {}

  /** The same from a writer constructed on an empty file, after some quiet time. */
  lemma DiaryFromStart(history: Log<HistoryRow>, window: Option<int>, quiet: seq<Observation>, xs: seq<Outage>)
    requires history.outcomes == [] && AllOnline(quiet) && InOrder(quiet)
    requires forall i :: 0 <= i < |xs| ==> Proper(xs[i])
    ensures var start := Diary(Construct(Log([], []), history, window).0, []);
            var after, pending := Lived(NotedAll(start, quiet, Online), xs), Window(quiet, window);
            && after.handed == EpisodesOfAll(quiet, pending, xs, window)
            && after.writer.file.rows == RowsOfAll(pending, xs, window)
            && |after.handed| == |xs| && after.writer.history == SummarisedAll(history, after.handed, xs)
  {
    hide NotedAll, Lived, RowsOfAll, EpisodesOfAll, Window, InOrder, AllOnline, SummarisedAll, SeenAfter,
         PendingAfter, Proper;
    var start := Diary(Construct(Log([], []), history, window).0, []);
    assert InOrder([] + quiet) by { assert [] + quiet == quiet; }
    EmptyWindow(window);
    assert [] + quiet == quiet;
    QuietRun(start, [], [], quiet);
    var d := NotedAll(start, quiet, Online);
    WindowInOrder(quiet, window);
    RunIsDiary(d, quiet, Window(quiet, window), xs);
    assert [] + EpisodesOfAll(quiet, Window(quiet, window), xs, window)
           == EpisodesOfAll(quiet, Window(quiet, window), xs, window);
    assert [] + RowsOfAll(Window(quiet, window), xs, window) == RowsOfAll(Window(quiet, window), xs, window);
  }
}
