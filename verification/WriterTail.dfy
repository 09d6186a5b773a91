/** Which online observations after an episode reach the disk: the charge, and a
    window of full battery after it. */
module WriterTail {
  import opened Types
  import opened Storage
  import opened History
  import opened Writer

  /** Start of the block of observations not below full that ends at i. */
  function FullSince(os: seq<Observation>, i: nat): (a: nat)
    requires i < |os|
    ensures a <= i
    ensures !BelowFull(os[i]) ==> (forall m :: a <= m <= i ==> !BelowFull(os[m])) && (a > 0 ==> BelowFull(os[a - 1]))
  {
    if i > 0 && !BelowFull(os[i]) && !BelowFull(os[i - 1]) then FullSince(os, i - 1) else i
  }

  /** The tail does not reach observation i: its predecessor was not below full,
      and either there was no window to wait for (none configured, or the first of
      the full ones did not report exactly 100) or the observation is still not
      below full and later than the window. */
  predicate StopsAt(os: seq<Observation>, i: nat, window: Option<int>)
    requires i < |os|
  {
    && i > 0 && !BelowFull(os[i - 1])
    && var full := os[FullSince(os, i - 1)];
       || full.batteryPct != Some(100.0) || window.None?
       || (!BelowFull(os[i]) && os[i].micros > full.micros + window.value)
  }

  /** Polls that are all online, without failing appends. */
  function OnlineRun(s: WriterState, os: seq<Observation>): WriterState {
    if os == [] then s
    else
      var n := |os| - 1;
      WriteAndTake(OnlineRun(s, os[..n]), os[n], Online).0
  }

  lemma {:induction false} FullSinceOfPrefix(os: seq<Observation>, n: nat, i: nat)
    requires i < n <= |os|
    ensures FullSince(os[..n], i) == FullSince(os, i)
  {
    if i > 0 {
      FullSinceOfPrefix(os, n, i - 1);
    }
  }

  /** The writer's mode once everything so far was written: charging while the
      last observation is below full, else waiting for the end of the window. */
  ghost predicate InTail(s: WriterState, os: seq<Observation>) {
    && os != [] && !s.active && s.completed.None?
    && var last := |os| - 1;
       && s.recharging == BelowFull(os[last])
       && s.postFullUntil == (if BelowFull(os[last]) then None else Deadline(os[FullSince(os, last)], s.window))
  }

  ghost predicate PastTail(s: WriterState) {
    !s.active && !s.recharging && s.postFullUntil.None? && s.completed.None?
  }

  lemma ClosingStartsTail(s: WriterState, o: Observation)
    requires s.active && s.completed.None? && s.file.outcomes == [] && s.history.outcomes == []
             && OnlineStatus(o.status)
    ensures var t := WriteAndTake(s, o, Online).0;
            && InTail(t, [o]) && t.file == Log(s.file.rows + [Sample(o)], []) && t.window == s.window
  {
    hide Sample, Remembered, SummarizeEpisode;
  }

  lemma DeadlineMeaning(o: Observation, window: Option<int>)
    ensures Deadline(o, window).Some? ==> o.batteryPct == Some(100.0) && window.Some?
    ensures BelowFull(o) ==> Deadline(o, window).None?
  {}

  lemma OneMoreInTail(s: WriterState, os: seq<Observation>, o: Observation)
    requires InTail(s, os) && s.file.outcomes == [] && OnlineStatus(o.status)
    ensures var t, more := WriteAndTake(s, o, Online).0, os + [o];
            && t.window == s.window && t.file.outcomes == []
            && (StopsAt(more, |os|, s.window) ==> PastTail(t) && t.file == s.file)
            && (!StopsAt(more, |os|, s.window) ==> InTail(t, more) && t.file.rows == s.file.rows + [Sample(o)])
  {
    hide Sample, Remembered, NotBefore;
    var more := os + [o];
    assert more[..|os|] == os;
    FullSinceOfPrefix(more, |os|, |os| - 1);
    DeadlineMeaning(os[FullSince(os, |os| - 1)], s.window);
  }

  lemma StaysPastTail(s: WriterState, o: Observation)
    requires PastTail(s) && s.file.outcomes == [] && OnlineStatus(o.status)
    ensures var t := WriteAndTake(s, o, Online).0; PastTail(t) && t.file == s.file && t.window == s.window
  {
    hide Sample, Remembered, NotBefore;
  }

  /** From the observation that ends an episode on, exactly the observations before
      the first stop are written; everything later stays in memory. */
  lemma {:induction false} TailIsRecorded(s: WriterState, os: seq<Observation>) returns (n: nat)
    requires s.active && s.completed.None? && s.file.outcomes == [] && s.history.outcomes == []
    requires os != [] && forall i :: 0 <= i < |os| ==> OnlineStatus(os[i].status)
    ensures 1 <= n <= |os|
    ensures forall i :: 1 <= i < n ==> !StopsAt(os, i, s.window)
    ensures n < |os| ==> StopsAt(os, n, s.window)
    ensures var t := OnlineRun(s, os);
            && t.file == Log(s.file.rows + Samples(os[..n]), []) && t.window == s.window
            && (if n == |os| then InTail(t, os) else PastTail(t))
    decreases |os|
  {
    hide WriteAndTake, Sample, Samples, StopsAt, InTail, PastTail;
    var last := |os| - 1;
    var front := os[..last];
    assert os == front + [os[last]] && os[..|os|] == os;
    SamplesWithLast(front, os[last]);
    if last == 0 {
      n := 1;
      assert OnlineRun(s, front) == s && front == [] && os == [os[0]];
      ClosingStartsTail(s, os[0]);
    } else {
      var k := TailIsRecorded(s, front);
      assert front[..last] == front;
      StopsInFront(os, s.window);
      if k < last {
        n := k;
        StaysPastTail(OnlineRun(s, front), os[last]);
        assert os[..n] == front[..n];
      } else {
        OneMoreInTail(OnlineRun(s, front), front, os[last]);
        n := if StopsAt(os, last, s.window) then last else last + 1;
      }
    }
  }

  lemma SamplesWithLast(front: seq<Observation>, o: Observation)
    ensures Samples(front + [o]) == Samples(front) + [Sample(o)]
    ensures Samples([]) == []
  {}

  lemma StopsInFront(os: seq<Observation>, window: Option<int>)
    requires os != []
    ensures forall i :: 0 <= i < |os| - 1 ==> (StopsAt(os, i, window) <==> StopsAt(os[..|os| - 1], i, window))
  {
    forall i | 0 <= i < |os| - 1 ensures StopsAt(os, i, window) <==> StopsAt(os[..|os| - 1], i, window) {
      if i > 0 {
        FullSinceOfPrefix(os, |os| - 1, i - 1);
      }
    }
  }
}
