/** Battery episodes and self-tests over whole runs of the safety loop: which polls
    start an episode, which of those are self-tests, and when one is commanded. */
module SelfTests {
  import opened Types
  import opened Ema
  import opened Safety
  import opened Daemon
  import opened DaemonRuns

  // ----- self-test attribution -------------------------------------------------

  function TestEpisodes(r: seq<PollResult>): nat {
    if r == [] then 0
    else (if r[0].startedEpisode == Some(BlackoutTest) then 1 else 0) + TestEpisodes(r[1..])
  }

  function Commands(r: seq<PollResult>): nat {
    if r == [] then 0
    else (if r[0].selfTestCommandedAt.Some? then 1 else 0) + Commands(r[1..])
  }

  function LiveMarker(s: DaemonState): nat {
    if s.pendingSelfTestUntil.Some? then 1 else 0
  }

  /** Test episodes plus a live marker never outnumber successful commands. */
  lemma {:induction false} TestsBoundedByCommands(c: Config, s: DaemonState, polls: seq<Poll>)
    requires ValidRunConfig(c) && ValidPolls(polls)
    ensures var r := Run(c, s, polls);
            TestEpisodes(r) + LiveMarker(FinalState(c, s, polls)) <= Commands(r) + LiveMarker(s)
    decreases |polls|
  {
    if polls != [] {
      var (next, first) := PollOnce(c, s, polls[0]);
      TestsBoundedByCommands(c, next, polls[1..]);
      var r := Run(c, s, polls);
      assert r[1..] == Run(c, next, polls[1..]) && r[0] == first;
    }
  }

  /** Both clock readings of one poll, in order, and polls in order. */
  ghost predicate ClockInOrder(polls: seq<Poll>, start: real) {
    forall i :: 0 <= i < |polls| && polls[i].Reading? ==>
      && start <= polls[i].classifiedAt <= polls[i].commandedAt
      && forall j :: i < j < |polls| && polls[j].Reading? ==> polls[i].commandedAt <= polls[j].classifiedAt
  }

  ghost predicate CommandedWithin12s(r: seq<PollResult>, j: int, now: real) {
    exists i :: 0 <= i < j <= |r| && r[i].selfTestCommandedAt.Some?
                && r[i].selfTestCommandedAt.value <= now <= r[i].selfTestCommandedAt.value + ATTRIBUTION_WINDOW_S
  }

  function LaterStart(p: Poll, start: real): real {
    if p.Reading? then p.commandedAt else start
  }

  lemma ClockOfRest(polls: seq<Poll>, start: real)
    requires polls != [] && ClockInOrder(polls, start)
    ensures ClockInOrder(polls[1..], LaterStart(polls[0], start))
  {
    var rest := polls[1..];
    assert forall i :: 0 <= i < |rest| ==> rest[i] == polls[i + 1];
  }

  ghost predicate NoStartBetween(r: seq<PollResult>, i: int, j: int) {
    forall m :: i < m < j && 0 <= m < |r| ==> r[m].startedEpisode.None?
  }

  /** Command i was sent at most 12 s before `now`, and no episode started since. */
  ghost predicate TestDueFrom(r: seq<PollResult>, i: int, j: int, now: real)
    requires 0 <= i < |r|
  {
    && r[i].selfTestCommandedAt.Some? && NoStartBetween(r, i, j)
    && r[i].selfTestCommandedAt.value <= now <= r[i].selfTestCommandedAt.value + ATTRIBUTION_WINDOW_S
  }

  ghost predicate TestDue(r: seq<PollResult>, j: int, now: real) {
    exists i :: 0 <= i < j && i < |r| && TestDueFrom(r, i, j, now)
  }

  ghost predicate MarkerDue(s: DaemonState, r: seq<PollResult>, j: int, now: real) {
    s.pendingSelfTestUntil.Some? && now <= s.pendingSelfTestUntil.value && NoStartBetween(r, -1, j)
  }

  /** How one poll moves the marker, and what the marker makes of a start. */
  lemma MarkerExactly(c: Config, s: DaemonState, p: Poll)
    requires ValidRunConfig(c) && ValidPoll(p)
    ensures var (next, r) := PollOnce(c, s, p);
            && (r.startedEpisode.Some? || r.selfTestCommandedAt.Some? ==> p.Reading?)
            && (r.startedEpisode.Some? ==>
                  && r.selfTestCommandedAt.None? && next.pendingSelfTestUntil.None?
                  && (r.startedEpisode == Some(BlackoutTest) <==>
                        s.pendingSelfTestUntil.Some? && p.classifiedAt <= s.pendingSelfTestUntil.value))
            && (r.selfTestCommandedAt.Some? ==>
                  && r.selfTestCommandedAt == Some(p.commandedAt)
                  && next.pendingSelfTestUntil == Some(p.commandedAt + ATTRIBUTION_WINDOW_S))
            && (r.startedEpisode.None? && r.selfTestCommandedAt.None? ==>
                  || next.pendingSelfTestUntil == s.pendingSelfTestUntil
                  || (next.pendingSelfTestUntil.None? && p.Reading? && p.classifiedAt > s.pendingSelfTestUntil.value))
  {
    hide CalculateSafety, UpdateEma, CheckDue, HasRecentBatteryRow;
  }

  lemma ShiftTestDue(first: PollResult, t: seq<PollResult>, j: nat, now: real)
    requires j <= |t|
    ensures NoStartBetween([first] + t, -1, j + 1) <==> first.startedEpisode.None? && NoStartBetween(t, -1, j)
    ensures NoStartBetween([first] + t, 0, j + 1) <==> NoStartBetween(t, -1, j)
    ensures TestDue([first] + t, j + 1, now) <==> TestDue(t, j, now) || TestDueFrom([first] + t, 0, j + 1, now)
  {
    var r := [first] + t;
    assert r[0] == first && forall m :: 0 <= m < |t| ==> r[m + 1] == t[m];
    forall i | -1 <= i < j ensures NoStartBetween(r, i + 1, j + 1) <==> NoStartBetween(t, i, j) {
      if NoStartBetween(r, i + 1, j + 1) {
        forall m | i < m < j && 0 <= m < |t| ensures t[m].startedEpisode.None? { assert r[m + 1].startedEpisode.None?; }
      }
    }
    forall i | 0 <= i < j ensures TestDueFrom(r, i + 1, j + 1, now) <==> TestDueFrom(t, i, j, now) {
      assert r[i + 1] == t[i];
    }
    if TestDue(t, j, now) {
      var i :| 0 <= i < j && TestDueFrom(t, i, j, now);
      assert TestDueFrom(r, i + 1, j + 1, now);
    }
    if TestDue(r, j + 1, now) {
      var i :| 0 <= i < j + 1 && TestDueFrom(r, i, j + 1, now);
      if i > 0 {
        assert TestDueFrom(t, i - 1, j, now);
      }
    }
    assert NoStartBetween(r, -1, j + 1) <==> first.startedEpisode.None? && NoStartBetween(r, 0, j + 1) by {
      if NoStartBetween(r, -1, j + 1) {
        assert r[0].startedEpisode.None?;
      }
    }
  }

  lemma {:induction false} TestExactlyFrom(c: Config, s: DaemonState, polls: seq<Poll>, j: nat, start: real)
    requires ValidRunConfig(c) && ValidPolls(polls) && j < |polls| && ClockInOrder(polls, start)
    requires s.pendingSelfTestUntil.Some? ==> s.pendingSelfTestUntil.value - ATTRIBUTION_WINDOW_S <= start
    requires Run(c, s, polls)[j].startedEpisode.Some?
    ensures polls[j].Reading?
    ensures var r, now := Run(c, s, polls), polls[j].classifiedAt;
            r[j].startedEpisode == Some(BlackoutTest) <==> TestDue(r, j, now) || MarkerDue(s, r, j, now)
    decreases |polls|
  {
    hide PollOnce, TestDue;
    var (next, first) := PollOnce(c, s, polls[0]);
    var r, t := Run(c, s, polls), Run(c, next, polls[1..]);
    assert r == [first] + t;
    MarkerExactly(c, s, polls[0]);
    if j == 0 {
      NoneDueAtFirst(r, polls[0]);
    } else {
      assert polls[1..][j - 1] == polls[j] && t[j - 1] == r[j];
      ClockOfRest(polls, start);
      assert polls[0].Reading? ==> start <= polls[0].commandedAt;
      TestExactlyFrom(c, next, polls[1..], j - 1, LaterStart(polls[0], start));
      var now := polls[j].classifiedAt;
      assert polls[0].Reading? ==> polls[0].classifiedAt <= polls[0].commandedAt <= now;
      ShiftTestDue(first, t, j - 1, now);
    }
  }

  lemma NoneDueAtFirst(r: seq<PollResult>, p: Poll)
    requires p.Reading?
    ensures !TestDue(r, 0, p.classifiedAt) && NoStartBetween(r, -1, 0)
  {}

  /** A poll that starts an episode starts a self-test exactly when a successful
      command came at most 12 s before its clock reading and no episode started
      in between. */
  lemma TestExactly(c: Config, polls: seq<Poll>, j: nat, start: real)
    requires ValidRunConfig(c) && ValidPolls(polls) && j < |polls| && ClockInOrder(polls, start)
    requires Run(c, INITIAL_STATE, polls)[j].startedEpisode.Some?
    ensures polls[j].Reading?
    ensures Run(c, INITIAL_STATE, polls)[j].startedEpisode == Some(BlackoutTest) <==>
              TestDue(Run(c, INITIAL_STATE, polls), j, polls[j].classifiedAt)
  {
    TestExactlyFrom(c, INITIAL_STATE, polls, j, start);
  }

  /** The first active poll of every test episode comes at most 12 seconds after
      a successful command, and never before it. */
  lemma TestFollowsCommand(c: Config, polls: seq<Poll>, j: nat, start: real)
    requires ValidRunConfig(c) && ValidPolls(polls) && j < |polls| && ClockInOrder(polls, start)
    requires Run(c, INITIAL_STATE, polls)[j].startedEpisode == Some(BlackoutTest)
    ensures polls[j].Reading? && CommandedWithin12s(Run(c, INITIAL_STATE, polls), j, polls[j].classifiedAt)
  {
    TestExactly(c, polls, j, start);
    var r, now := Run(c, INITIAL_STATE, polls), polls[j].classifiedAt;
    var i :| 0 <= i < j && TestDueFrom(r, i, j, now);
    assert r[i].selfTestCommandedAt.Some?;
  }

  ghost predicate ActivePoll(p: Poll) { p.Reading? && ActiveStatus(p.observation.status) }

  /** A poll that ends the current episode: online and not active. */
  ghost predicate EndsEpisode(p: Poll) {
    p.Reading? && !ActiveStatus(p.observation.status) && OnlineStatus(p.observation.status)
  }

  lemma {:induction false} KindWhileOpen(c: Config, s: DaemonState, polls: seq<Poll>, j: nat)
    requires ValidRunConfig(c) && ValidPolls(polls) && j < |polls|
    requires s.episodeKind == Some(BlackoutTest) || s.episodeKind == Some(BlackoutReal)
    requires forall m :: 0 <= m < j ==> !EndsEpisode(polls[m])
    requires ActivePoll(polls[j]) && Run(c, s, polls)[j].physicalKind.Some?
    ensures Run(c, s, polls)[j].physicalKind == s.episodeKind && Run(c, s, polls)[j].startedEpisode == None
    decreases |polls|
  {
    if j > 0 {
      var next := PollOnce(c, s, polls[0]).0;
      assert !EndsEpisode(polls[0]);
      forall m | 0 <= m < j - 1 ensures !EndsEpisode(polls[1..][m]) { assert polls[1..][m] == polls[m + 1]; }
      assert polls[1..][j - 1] == polls[j];
      KindWhileOpen(c, next, polls[1..], j - 1);
    }
  }

  /** All active polls of one battery episode carry the same kind; only the
      first one starts an episode. */
  lemma {:induction false} KindConstantInEpisode(c: Config, s: DaemonState, polls: seq<Poll>, i: nat, j: nat)
    requires ValidRunConfig(c) && ValidPolls(polls) && i < j < |polls|
    requires s.episodeKind == None || s.episodeKind == Some(BlackoutTest) || s.episodeKind == Some(BlackoutReal)
    requires ActivePoll(polls[i]) && ActivePoll(polls[j])
    requires forall m :: i < m < j ==> !EndsEpisode(polls[m])
    requires Run(c, s, polls)[i].physicalKind.Some? && Run(c, s, polls)[j].physicalKind.Some?
    ensures Run(c, s, polls)[j].physicalKind == Run(c, s, polls)[i].physicalKind
    ensures Run(c, s, polls)[j].startedEpisode == None
    decreases |polls|
  {
    var next := PollOnce(c, s, polls[0]).0;
    assert polls[1..][j - 1] == polls[j];
    forall m | i <= m < j - 1 ensures !EndsEpisode(polls[1..][m]) { assert polls[1..][m] == polls[m + 1]; }
    if i == 0 {
      KindWhileOpen(c, next, polls[1..], j - 1);
    } else {
      assert polls[1..][i - 1] == polls[i];
      KindConstantInEpisode(c, next, polls[1..], i - 1, j - 1);
    }
  }

  ghost predicate EndsBetween(polls: seq<Poll>, i: int, j: int) {
    exists m :: i < m < j && 0 <= m < |polls| && EndsEpisode(polls[m])
  }

  /** Every active poll before j was followed by the end of its episode. */
  ghost predicate AllEnded(polls: seq<Poll>, j: int) {
    forall i :: 0 <= i < j && i < |polls| && ActivePoll(polls[i]) ==> EndsBetween(polls, i, j)
  }

  lemma ShiftEnds(polls: seq<Poll>, i: int, j: int)
    requires polls != [] && i >= -1
    ensures EndsBetween(polls, i + 1, j) <==> EndsBetween(polls[1..], i, j - 1)
  {
    var rest := polls[1..];
    if EndsBetween(polls, i + 1, j) {
      var m :| i + 1 < m < j && 0 <= m < |polls| && EndsEpisode(polls[m]);
      assert EndsEpisode(rest[m - 1]);
    }
    if EndsBetween(rest, i, j - 1) {
      var m :| i < m < j - 1 && 0 <= m < |rest| && EndsEpisode(rest[m]);
      assert EndsEpisode(polls[m + 1]);
    }
  }

  lemma EndsFromStart(polls: seq<Poll>, j: int)
    requires 0 < j < |polls|
    ensures EndsBetween(polls, -1, j) <==> EndsEpisode(polls[0]) || EndsBetween(polls, 0, j)
  {
    if EndsBetween(polls, -1, j) {
      var m :| -1 < m < j && EndsEpisode(polls[m]);
    }
  }

  lemma ShiftEnded(polls: seq<Poll>, j: nat)
    requires j < |polls|
    ensures EndsBetween(polls, -1, j) <==> j > 0 && (EndsEpisode(polls[0]) || EndsBetween(polls[1..], -1, j - 1))
    ensures AllEnded(polls, j) <==>
              j == 0 || (AllEnded(polls[1..], j - 1) && (ActivePoll(polls[0]) ==> EndsBetween(polls[1..], -1, j - 1)))
  {
    var rest := polls[1..];
    assert forall m :: 0 <= m < |rest| ==> rest[m] == polls[m + 1];
    if j > 0 {
      EndsFromStart(polls, j);
      ShiftEnds(polls, -1, j);
      if AllEnded(polls, j) {
        forall i | 0 <= i < j - 1 && i < |rest| && ActivePoll(rest[i]) ensures EndsBetween(rest, i, j - 1) {
          assert ActivePoll(polls[i + 1]);
          ShiftEnds(polls, i, j);
        }
        assert ActivePoll(polls[0]) ==> EndsBetween(polls, 0, j);
      }
      if AllEnded(rest, j - 1) && (ActivePoll(polls[0]) ==> EndsBetween(rest, -1, j - 1)) {
        forall i | 0 <= i < j && ActivePoll(polls[i]) ensures EndsBetween(polls, i, j) {
          ShiftEnds(polls, i - 1, j);
          assert i == 0 || ActivePoll(rest[i - 1]);
        }
      }
    }
  }

  lemma OpenExactly(c: Config, s: DaemonState, p: Poll)
    requires ValidRunConfig(c) && ValidPoll(p)
    ensures var (next, r) := PollOnce(c, s, p);
            && (r.physicalKind.Some? ==>
                  s.running && (r.startedEpisode.Some? <==> ActivePoll(p) && s.episodeKind.None?))
            && (!s.running ==> !next.running)
            && (s.running ==>
                  (next.episodeKind.Some? <==> !EndsEpisode(p) && (s.episodeKind.Some? || ActivePoll(p))))
  {
    hide CalculateSafety, UpdateEma, CheckDue, HasRecentBatteryRow;
  }

  lemma {:induction false} StartsExactlyFrom(c: Config, s: DaemonState, polls: seq<Poll>, j: nat)
    requires ValidRunConfig(c) && ValidPolls(polls) && j < |polls| && Run(c, s, polls)[j].physicalKind.Some?
    ensures s.running
    ensures Run(c, s, polls)[j].startedEpisode.Some? <==>
              ActivePoll(polls[j]) && AllEnded(polls, j) && (s.episodeKind.Some? ==> EndsBetween(polls, -1, j))
    decreases |polls|
  {
    hide PollOnce, AllEnded, EndsBetween;
    var (next, first) := PollOnce(c, s, polls[0]);
    OpenExactly(c, s, polls[0]);
    ShiftEnded(polls, j);
    if j > 0 {
      assert polls[1..][j - 1] == polls[j];
      StartsExactlyFrom(c, next, polls[1..], j - 1);
    }
  }

  /** A poll that is processed starts an episode exactly when it is active and every
      active poll before it was followed by an online one without OB or CAL. */
  lemma StartsExactly(c: Config, polls: seq<Poll>, j: nat)
    requires ValidRunConfig(c) && ValidPolls(polls) && j < |polls|
    requires Run(c, INITIAL_STATE, polls)[j].physicalKind.Some?
    ensures Run(c, INITIAL_STATE, polls)[j].startedEpisode.Some? <==> ActivePoll(polls[j]) && AllEnded(polls, j)
  {
    StartsExactlyFrom(c, INITIAL_STATE, polls, j);
  }

  function CheckDate(p: Poll): int requires p.Reading? { p.observation.micros / DAY_MICROS }

  lemma {:induction false} NoCommandOn(c: Config, s: DaemonState, polls: seq<Poll>, j: nat, day: int)
    requires ValidRunConfig(c) && ValidPolls(polls) && j < |polls|
    requires s.lastCheckDate == Some(day)
    requires forall m :: 0 <= m <= j && polls[m].Reading? ==> CheckDate(polls[m]) == day
    ensures Run(c, s, polls)[j].selfTestCommandedAt == None
    decreases |polls|
  {
    if j > 0 {
      forall m | 0 <= m <= j - 1 && polls[1..][m].Reading? ensures CheckDate(polls[1..][m]) == day {
        assert polls[1..][m] == polls[m + 1];
      }
      NoCommandOn(c, PollOnce(c, s, polls[0]).0, polls[1..], j - 1, day);
    }
  }

  /** At most one self-test command per UTC day, while wall time does not run
      backwards. */
  lemma {:induction false} OneCommandPerDay(c: Config, s: DaemonState, polls: seq<Poll>, i: nat, j: nat)
    requires ValidRunConfig(c) && ValidPolls(polls) && i < j < |polls|
    requires forall m, n :: 0 <= m < n < |polls| && polls[m].Reading? && polls[n].Reading? ==>
               CheckDate(polls[m]) <= CheckDate(polls[n])
    requires Run(c, s, polls)[i].selfTestCommandedAt.Some? && Run(c, s, polls)[j].selfTestCommandedAt.Some?
    ensures polls[i].Reading? && polls[j].Reading? && CheckDate(polls[i]) < CheckDate(polls[j])
    decreases |polls|
  {
    var next := PollOnce(c, s, polls[0]).0;
    assert forall m :: 0 <= m < |polls[1..]| ==> polls[1..][m] == polls[m + 1];
    CommandedPollIsReading(c, s, polls, j);
    if i == 0 {
      if CheckDate(polls[0]) == CheckDate(polls[j]) {
        NoCommandOn(c, next, polls[1..], j - 1, CheckDate(polls[0]));
      }
    } else {
      OneCommandPerDay(c, next, polls[1..], i - 1, j - 1);
    }
  }

  lemma {:induction false} CommandedPollIsReading(c: Config, s: DaemonState, polls: seq<Poll>, j: nat)
    requires ValidRunConfig(c) && ValidPolls(polls) && j < |polls|
    requires Run(c, s, polls)[j].selfTestCommandedAt.Some?
    ensures polls[j].Reading?
    decreases |polls|
  {
    if j > 0 {
      CommandedPollIsReading(c, PollOnce(c, s, polls[0]).0, polls[1..], j - 1);
    }
  }

  // ----- when a test is commanded ------------------------------------------------

  ghost predicate UsableReply(p: Poll) { p.Reading? && ValidObservation(p.observation) }

  /** Monotonic time of the first usable reply, unless there was one before. */
  ghost function FirstUsable(before: Option<int>, polls: seq<Poll>): Option<int>
    decreases |polls|
  {
    if before.Some? || polls == [] then before
    else FirstUsable(if UsableReply(polls[0]) then Some(polls[0].observation.monotonicNs) else None, polls[1..])
  }

  /** Poll j comes a whole averaging window after the first usable reply. */
  ghost predicate PastHorizon(c: Config, before: Option<int>, polls: seq<Poll>, j: nat)
    requires j < |polls|
  {
    var first := FirstUsable(before, polls[..j + 1]);
    && polls[j].Reading? && first.Some?
    && polls[j].observation.monotonicNs - first.value >= c.emaWindowSec * 1_000_000_000
  }

  /** Poll m published past the horizon: the check of its day is done. */
  ghost predicate ChecksDay(c: Config, before: Option<int>, polls: seq<Poll>, r: seq<PollResult>, m: nat, day: int)
    requires m < |polls| == |r|
  {
    r[m].publication.Some? && PastHorizon(c, before, polls, m) && CheckDate(polls[m]) == day
  }

  ghost predicate DayUnchecked(c: Config, before: Option<int>, polls: seq<Poll>, r: seq<PollResult>, j: nat, day: int)
    requires j <= |polls| == |r|
  {
    forall m :: 0 <= m < j ==> !ChecksDay(c, before, polls, r, m, day)
  }

  /** Online, full, no battery row within 14 days, and the command goes through. */
  ghost predicate TestPossible(p: Poll) {
    && p.Reading? && p.commandOk && p.observation.batteryPct == Some(100.0) && p.telemetry.Some?
    && OL in p.observation.status && OB !in p.observation.status && CAL !in p.observation.status
    && forall i :: 0 <= i < |p.telemetry.value| && ActiveRow(p.telemetry.value[i]) ==>
         p.telemetry.value[i].at * 1_000_000 < p.observation.micros - 14 * 86_400 * 1_000_000
  }

  lemma CommandOfPoll(c: Config, s: DaemonState, p: Poll)
    requires ValidRunConfig(c) && ValidPoll(p)
    ensures var (next, r) := PollOnce(c, s, p);
            var past := PastHorizon(c, s.firstValidNs, [p], 0);
            && (r.publication.Some? ==> s.running && p.Reading?)
            && (s.running ==> next.firstValidNs == FirstUsable(s.firstValidNs, [p]))
            && next.lastCheckDate ==
               (if r.publication.Some? && past then Some(CheckDate(p)) else s.lastCheckDate)
            && (r.selfTestCommandedAt.Some? <==>
                  r.publication.Some? && past && TestPossible(p) && s.lastCheckDate != Some(CheckDate(p)))
  {
    hide CalculateSafety, UpdateEma;
    assert [p][..1] == [p];
    if p.Reading? && p.telemetry.Some? {
      var rows, now := p.telemetry.value, p.observation.micros;
      assert HasRecentBatteryRow(rows, now) <==>
        exists i :: 0 <= i < |rows| && ActiveRow(rows[i]) && rows[i].at * MICROS >= now - COOLDOWN_MICROS;
    }
  }

  lemma HorizonShifts(c: Config, before: Option<int>, polls: seq<Poll>, j: nat)
    requires 0 < j < |polls|
    ensures PastHorizon(c, before, polls, j) <==>
              PastHorizon(c, FirstUsable(before, [polls[0]]), polls[1..], j - 1)
  {
    assert polls[..j + 1][0] == polls[0] && polls[..j + 1][1..] == polls[1..][..j];
    assert polls[1..][j - 1] == polls[j];
    assert [polls[0]][1..] == [];
  }

  lemma {:induction false} CommandsExactlyFrom(c: Config, s: DaemonState, polls: seq<Poll>, j: nat)
    requires ValidRunConfig(c) && ValidPolls(polls) && j < |polls| && DaysInOrder(polls)
    requires s.lastCheckDate.Some? ==> forall m :: 0 <= m < |polls| && polls[m].Reading? ==>
               s.lastCheckDate.value <= CheckDate(polls[m])
    ensures var r := Run(c, s, polls);
            && (r[j].publication.Some? ==> s.running && polls[j].Reading?)
            && (r[j].selfTestCommandedAt.Some? <==>
                  && r[j].publication.Some? && PastHorizon(c, s.firstValidNs, polls, j) && TestPossible(polls[j])
                  && DayUnchecked(c, s.firstValidNs, polls, r, j, CheckDate(polls[j]))
                  && s.lastCheckDate != Some(CheckDate(polls[j])))
    decreases |polls|
  {
    hide PollOnce, TestPossible, FirstUsable, PastHorizon;
    var (next, first) := PollOnce(c, s, polls[0]);
    var r, rest := Run(c, s, polls), polls[1..];
    CommandOfPoll(c, s, polls[0]);
    OpenExactly(c, s, polls[0]);
    HorizonOfFirst(c, s.firstValidNs, polls);
    if j > 0 {
      assert forall m :: 0 <= m < |rest| ==> rest[m] == polls[m + 1];
      CommandsExactlyFrom(c, next, rest, j - 1);
      if s.running {
        HorizonShifts(c, s.firstValidNs, polls, j);
        if r[j].publication.Some? {
          UncheckedShifts(c, s, polls, j, CheckDate(polls[j]));
        }
      }
    }
  }

  lemma HorizonOfFirst(c: Config, before: Option<int>, polls: seq<Poll>)
    requires polls != []
    ensures PastHorizon(c, before, polls, 0) <==> PastHorizon(c, before, [polls[0]], 0)
  {
    assert polls[..1] == [polls[0]] == [polls[0]][..1];
  }

  lemma UncheckedShifts(c: Config, s: DaemonState, polls: seq<Poll>, j: nat, day: int)
    requires ValidRunConfig(c) && ValidPolls(polls) && 0 < j < |polls| && s.running
    ensures var (next, first) := PollOnce(c, s, polls[0]);
            var first' := FirstUsable(s.firstValidNs, [polls[0]]);
            DayUnchecked(c, s.firstValidNs, polls, Run(c, s, polls), j, day) <==>
              && DayUnchecked(c, first', polls[1..], Run(c, next, polls[1..]), j - 1, day)
              && !ChecksDay(c, s.firstValidNs, polls, Run(c, s, polls), 0, day)
  {
    hide PollOnce, FirstUsable, PastHorizon;
    var next := PollOnce(c, s, polls[0]).0;
    var r, t, rest := Run(c, s, polls), Run(c, next, polls[1..]), polls[1..];
    var first' := FirstUsable(s.firstValidNs, [polls[0]]);
    forall m | 0 < m < j
      ensures ChecksDay(c, s.firstValidNs, polls, r, m, day) <==> ChecksDay(c, first', rest, t, m - 1, day)
    {
      HorizonShifts(c, s.firstValidNs, polls, m);
      assert rest[m - 1] == polls[m] && t[m - 1] == r[m];
    }
    hide ChecksDay;
    if DayUnchecked(c, s.firstValidNs, polls, r, j, day) {
      forall m | 0 <= m < j - 1 ensures !ChecksDay(c, first', rest, t, m, day) {
        assert !ChecksDay(c, s.firstValidNs, polls, r, m + 1, day);
      }
    }
    if DayUnchecked(c, first', rest, t, j - 1, day) && !ChecksDay(c, s.firstValidNs, polls, r, 0, day) {
      forall m | 0 <= m < j ensures !ChecksDay(c, s.firstValidNs, polls, r, m, day) {
        assert m == 0 || !ChecksDay(c, first', rest, t, m - 1, day);
      }
    }
  }

  ghost predicate DaysInOrder(polls: seq<Poll>) {
    forall m, n :: 0 <= m < n < |polls| && polls[m].Reading? && polls[n].Reading? ==>
      CheckDate(polls[m]) <= CheckDate(polls[n])
  }

  /** While wall time does not run backwards: a test is commanded at a poll exactly
      when it publishes, a whole averaging window after the first usable reply, as
      the first such poll of its UTC day, online, full, with no battery row within
      14 days, and the command goes through. */
  lemma CommandsExactly(c: Config, polls: seq<Poll>, j: nat)
    requires ValidRunConfig(c) && ValidPolls(polls) && j < |polls| && DaysInOrder(polls)
    ensures var r := Run(c, INITIAL_STATE, polls);
            && (r[j].publication.Some? ==> polls[j].Reading?)
            && (r[j].selfTestCommandedAt.Some? <==>
                  && r[j].publication.Some? && PastHorizon(c, None, polls, j) && TestPossible(polls[j])
                  && DayUnchecked(c, None, polls, r, j, CheckDate(polls[j])))
  {
    CommandsExactlyFrom(c, INITIAL_STATE, polls, j);
  }
}
