/** What the virtual UPS file can hold over every sequence of exporter calls. */
module FreshnessRuns {
  import opened Types
  import opened Freshness
  import opened Storage

  /** The state after a sequence of calls. */
  function After(e: Exporter, ops: seq<Operation>): Exporter {
    if ops == [] then e else Step(After(e, ops[..|ops| - 1]), ops[|ops| - 1]).0
  }

  /** Whether call i of the sequence returned instead of raising. */
  predicate Returned(e: Exporter, ops: seq<Operation>, i: nat)
    requires i < |ops|
  {
    Step(After(e, ops[..i]), ops[i]).1
  }

  predicate Success(e: Exporter, ops: seq<Operation>, i: nat)
    requires i < |ops|
  {
    ops[i].Publish? && Returned(e, ops, i)
  }

  lemma AfterStep(e: Exporter, ops: seq<Operation>, i: nat)
    requires i < |ops|
    ensures After(e, ops[..i + 1]) == Step(After(e, ops[..i]), ops[i]).0
  {
    assert ops[..i + 1][..i] == ops[..i];
  }

  // ----- invariants over every run ---------------------------------------------

  ghost predicate Consistent(e: Exporter) {
    && (e.hasCurrent ==> e.tracker.hasPriorPublication)
    && (e.tracker.hasPriorPublication <==> e.tracker.lastSuccess.Some? || e.tracker.initialFileAgeS.Some?)
    && (e.hasCurrent <==> e.tracker.lastSuccess.Some?)
    && (e.tracker.state == Fresh ==> e.hasCurrent)
    && (e.tracker.failSafeActive ==> e.tracker.state == StaleFailed && (e.file == FailSafe || e.file == Absent))
    && (!e.tracker.hasPriorPublication ==> e.file == Absent || e.file.Published?)
  }

  /** In every reachable state an active fail-safe means STALE_FAILED and a file
      that holds the fail-safe or is missing, and FRESH means this process has
      published; and without any publication, earlier or current, the fail-safe
      is never on disk. */
  lemma {:induction false} ReachableConsistent(start: real, age: Option<real>, maxAge: real, ops: seq<Operation>)
    ensures Consistent(After(NewExporter(start, age, maxAge), ops))
    decreases |ops|
  {
    if ops != [] {
      var before := ops[..|ops| - 1];
      ReachableConsistent(start, age, maxAge, before);
      ConsistentStep(After(NewExporter(start, age, maxAge), before), ops[|ops| - 1]);
    }
  }

  lemma ConsistentStep(e: Exporter, op: Operation)
    requires Consistent(e)
    ensures Consistent(Step(e, op).0)
  {}

  /** Only a successful publication leaves STALE_FAILED, and only it makes the
      watchdog healthy again. */
  lemma OnlySuccessLeavesStale(e: Exporter, op: Operation)
    requires e.tracker.state == StaleFailed && Step(e, op).0.tracker.state != StaleFailed
    ensures op.Publish? && Step(e, op).1 && Step(e, op).0.file == Published(op.status)
    ensures Step(e, op).0.tracker.state == Fresh
  {}

  // ----- the state over every run ------------------------------------------------

  /** Clock reading of the last successful publication of the run. */
  function LastPublished(e: Exporter, ops: seq<Operation>): Option<real> {
    if ops == [] then None
    else
      var n := |ops| - 1;
      if Success(e, ops, n) then Some(ops[n].now) else LastPublished(e, ops[..n])
  }

  /** What is on offer is too old: the last publication of this process, else the
      file found at start, else the start itself. */
  predicate TooOld(start: real, age: Option<real>, maxAge: real, last: Option<real>, now: real) {
    match last
    case Some(published) => now - published > maxAge
    case None => if age.Some? then age.value + now - start > maxAge else now - start >= maxAge
  }

  /** Call j is a staged publication that fails, or looks at the clock too late. */
  ghost predicate Spoils(start: real, age: Option<real>, maxAge: real, ops: seq<Operation>, j: nat)
    requires j < |ops|
  {
    var e := NewExporter(start, age, maxAge);
    match ops[j]
    case Publish(_, _, _, _, _) => After(e, ops[..j]).staged && !Returned(e, ops, j)
    case PollFailure(now, _, _) => TooOld(start, age, maxAge, LastPublished(e, ops[..j]), now)
    case Query(now) => TooOld(start, age, maxAge, LastPublished(e, ops[..j]), now)
    case _ => false
  }

  ghost predicate NoSuccessAfter(e: Exporter, ops: seq<Operation>, i: int) {
    forall j :: i < j < |ops| && 0 <= j ==> !Success(e, ops, j)
  }

  /** Some call since the last success spoils the channel, or nothing was published
      and the file found at start was too old already. */
  ghost predicate Spoiled(start: real, age: Option<real>, maxAge: real, ops: seq<Operation>) {
    var e := NewExporter(start, age, maxAge);
    || (exists j :: 0 <= j < |ops| && Spoils(start, age, maxAge, ops, j) && NoSuccessAfter(e, ops, j))
    || (age.Some? && age.value > maxAge && NoSuccessAfter(e, ops, -1))
  }

  /** Call i succeeded, and no call after it failed a poll or spoiled the channel. */
  ghost predicate HealthySince(start: real, age: Option<real>, maxAge: real, ops: seq<Operation>, i: nat)
    requires i < |ops|
  {
    && Success(NewExporter(start, age, maxAge), ops, i)
    && forall j :: i < j < |ops| ==> !ops[j].PollFailure? && !Spoils(start, age, maxAge, ops, j)
  }

  ghost predicate Healthy(start: real, age: Option<real>, maxAge: real, ops: seq<Operation>) {
    exists i :: 0 <= i < |ops| && HealthySince(start, age, maxAge, ops, i)
  }

  ghost predicate Remembers(start: real, age: Option<real>, maxAge: real, e: Exporter, last: Option<real>) {
    && e.tracker.lastSuccess == last && e.hasCurrent == last.Some?
    && e.tracker.hasPriorPublication == (last.Some? || age.Some?)
    && e.tracker.initialFileAgeS == (if last.Some? then None else age)
    && e.tracker.initialMonotonic == start && e.tracker.maxAgeS == maxAge
  }

  lemma {:induction false} TrackerRemembers(start: real, age: Option<real>, maxAge: real, ops: seq<Operation>)
    ensures var e := NewExporter(start, age, maxAge);
            Remembers(start, age, maxAge, After(e, ops), LastPublished(e, ops))
    decreases |ops|
  {
    if ops != [] {
      var e, n := NewExporter(start, age, maxAge), |ops| - 1;
      TrackerRemembers(start, age, maxAge, ops[..n]);
      StepRemembers(start, age, maxAge, After(e, ops[..n]), LastPublished(e, ops[..n]), ops[n]);
    }
  }

  lemma StepRemembers(start: real, age: Option<real>, maxAge: real, e: Exporter, last: Option<real>, op: Operation)
    requires Remembers(start, age, maxAge, e, last)
    ensures Remembers(start, age, maxAge, Step(e, op).0, if op.Publish? && Step(e, op).1 then Some(op.now) else last)
  {}

  /** What one call does to the state. */
  lemma StateStep(start: real, age: Option<real>, maxAge: real, e: Exporter, last: Option<real>, op: Operation)
    requires maxAge >= 0.0 && Remembers(start, age, maxAge, e, last)
    ensures var (next, ok) := Step(e, op);
            var spoils := match op
              case Publish(_, _, _, _, _) => e.staged && !ok
              case PollFailure(now, _, _) => TooOld(start, age, maxAge, last, now)
              case Query(now) => TooOld(start, age, maxAge, last, now)
              case _ => false;
            && (op.Publish? && ok ==> next.tracker.state == Fresh)
            && (!(op.Publish? && ok) ==>
                  && (next.tracker.state == StaleFailed <==> e.tracker.state == StaleFailed || spoils)
                  && (next.tracker.state == Fresh <==> e.tracker.state == Fresh && !spoils && !op.PollFailure?))
  {}

  lemma PrefixCalls(e: Exporter, ops: seq<Operation>, j: nat)
    requires j < |ops| - 1
    ensures var before := ops[..|ops| - 1];
            && before[j] == ops[j] && before[..j] == ops[..j]
            && Success(e, before, j) == Success(e, ops, j) && Returned(e, before, j) == Returned(e, ops, j)
  {
    assert ops[..|ops| - 1][..j] == ops[..j];
  }

  lemma SpoiledByLast(start: real, age: Option<real>, maxAge: real, ops: seq<Operation>)
    requires ops != []
    ensures var e, n := NewExporter(start, age, maxAge), |ops| - 1;
            Spoiled(start, age, maxAge, ops) <==>
              !Success(e, ops, n) && (Spoiled(start, age, maxAge, ops[..n]) || Spoils(start, age, maxAge, ops, n))
  {
    hide After, Step, LastPublished, TooOld, NewExporter;
    var e, n := NewExporter(start, age, maxAge), |ops| - 1;
    var before := ops[..n];
    forall j | 0 <= j < n
      ensures Success(e, before, j) == Success(e, ops, j)
      ensures Spoils(start, age, maxAge, before, j) == Spoils(start, age, maxAge, ops, j)
    {
      PrefixCalls(e, ops, j);
    }
    forall i | -1 <= i < n
      ensures NoSuccessAfter(e, ops, i) <==> NoSuccessAfter(e, before, i) && !Success(e, ops, n)
    {
      if NoSuccessAfter(e, ops, i) {
        assert !Success(e, ops, n);
        forall j | i < j < n && 0 <= j ensures !Success(e, before, j) {
          assert !Success(e, ops, j);
        }
      }
    }
    if Spoils(start, age, maxAge, ops, n) {
      assert NoSuccessAfter(e, ops, n);
    }
    if Spoiled(start, age, maxAge, before) && !Success(e, ops, n) {
      if j :| 0 <= j < n && Spoils(start, age, maxAge, before, j) && NoSuccessAfter(e, before, j) {
        assert Spoils(start, age, maxAge, ops, j) && NoSuccessAfter(e, ops, j);
      }
    }
    if Spoiled(start, age, maxAge, ops) {
      if j :| 0 <= j < |ops| && Spoils(start, age, maxAge, ops, j) && NoSuccessAfter(e, ops, j) {
        SpoilIsNoSuccess(start, age, maxAge, ops, j);
        if j < n {
          assert Spoils(start, age, maxAge, before, j) && NoSuccessAfter(e, before, j);
        }
      }
    }
  }

  lemma SpoilIsNoSuccess(start: real, age: Option<real>, maxAge: real, ops: seq<Operation>, j: nat)
    requires j < |ops| && Spoils(start, age, maxAge, ops, j)
    ensures !Success(NewExporter(start, age, maxAge), ops, j)
  {
    hide After, Step, LastPublished, TooOld;
  }

  lemma HealthyByLast(start: real, age: Option<real>, maxAge: real, ops: seq<Operation>)
    requires ops != []
    ensures var e, n := NewExporter(start, age, maxAge), |ops| - 1;
            Healthy(start, age, maxAge, ops) <==>
              || Success(e, ops, n)
              || (Healthy(start, age, maxAge, ops[..n])
                  && !ops[n].PollFailure? && !Spoils(start, age, maxAge, ops, n))
  {
    hide After, Step, LastPublished, TooOld, NewExporter;
    var e, n := NewExporter(start, age, maxAge), |ops| - 1;
    var before := ops[..n];
    forall j | 0 <= j < n
      ensures before[j] == ops[j] && Success(e, before, j) == Success(e, ops, j)
      ensures Spoils(start, age, maxAge, before, j) == Spoils(start, age, maxAge, ops, j)
    {
      PrefixCalls(e, ops, j);
    }
    hide Success, Spoils;
    forall i | 0 <= i < n
      ensures HealthySince(start, age, maxAge, ops, i) <==>
                && HealthySince(start, age, maxAge, before, i)
                && !ops[n].PollFailure? && !Spoils(start, age, maxAge, ops, n)
    {}
    if Success(e, ops, n) {
      assert HealthySince(start, age, maxAge, ops, n);
    }
    if Healthy(start, age, maxAge, before) && !ops[n].PollFailure? && !Spoils(start, age, maxAge, ops, n) {
      var i :| 0 <= i < n && HealthySince(start, age, maxAge, before, i);
      assert HealthySince(start, age, maxAge, ops, i);
    }
  }

  /** The state after every run, from the calls alone.  FRESH, and with it a healthy
      watchdog: some publication succeeded, and since then no poll failed, no staged
      publication failed and no query came beyond the maximum age.  STALE_FAILED:
      since the last success a staged publication failed, or a failed poll or a
      query came when the publication, the file found at start or the start itself
      was too old.  Otherwise TEMPORARILY_UNAVAILABLE. */
  lemma {:induction false} StateExactly(start: real, age: Option<real>, maxAge: real, ops: seq<Operation>)
    requires maxAge >= 0.0 && (age.Some? ==> age.value >= 0.0)
    ensures var state := After(NewExporter(start, age, maxAge), ops).tracker.state;
            && (state == Fresh <==> Healthy(start, age, maxAge, ops))
            && (state == StaleFailed <==> Spoiled(start, age, maxAge, ops))
    decreases |ops|
  {
    hide Step, Spoils, Success, TooOld, NoSuccessAfter, HealthySince;
    var e := NewExporter(start, age, maxAge);
    if ops == [] {
      NothingHappened(start, age, maxAge);
    } else {
      var n := |ops| - 1;
      StateExactly(start, age, maxAge, ops[..n]);
      TrackerRemembers(start, age, maxAge, ops[..n]);
      StateStep(start, age, maxAge, After(e, ops[..n]), LastPublished(e, ops[..n]), ops[n]);
      SpoiledByLast(start, age, maxAge, ops);
      HealthyByLast(start, age, maxAge, ops);
      LastCall(start, age, maxAge, ops);
    }
  }

  lemma NothingHappened(start: real, age: Option<real>, maxAge: real)
    ensures && (Spoiled(start, age, maxAge, []) <==> age.Some? && age.value > maxAge)
            && !Healthy(start, age, maxAge, [])
  {
    assert NoSuccessAfter(NewExporter(start, age, maxAge), [], -1);
  }

  lemma LastCall(start: real, age: Option<real>, maxAge: real, ops: seq<Operation>)
    requires ops != []
    ensures var e, n := NewExporter(start, age, maxAge), |ops| - 1;
            var (next, ok) := Step(After(e, ops[..n]), ops[n]);
            && After(e, ops) == next && (Success(e, ops, n) <==> ops[n].Publish? && ok)
            && (Spoils(start, age, maxAge, ops, n) <==>
                  match ops[n]
                  case Publish(_, _, _, _, _) => After(e, ops[..n]).staged && !ok
                  case PollFailure(now, _, _) => TooOld(start, age, maxAge, LastPublished(e, ops[..n]), now)
                  case Query(now) => TooOld(start, age, maxAge, LastPublished(e, ops[..n]), now)
                  case _ => false)
  {
    hide Step, TooOld, LastPublished;
  }

  /** Every success makes the channel FRESH, from whatever state. */
  lemma SuccessIsHealthy(start: real, age: Option<real>, maxAge: real, ops: seq<Operation>)
    requires maxAge >= 0.0 && (age.Some? ==> age.value >= 0.0)
    requires ops != [] && Success(NewExporter(start, age, maxAge), ops, |ops| - 1)
    ensures After(NewExporter(start, age, maxAge), ops).tracker.state == Fresh
  {
    hide After, Step, Success, Spoiled, Healthy;
    StateExactly(start, age, maxAge, ops);
    HealthyByLast(start, age, maxAge, ops);
  }

  /** With no earlier file and no successful publication, poll failures, queries
      and invalidations never create the output file. */
  lemma {:induction false} NoFileFromFailures(start: real, maxAge: real, ops: seq<Operation>)
    requires forall i :: 0 <= i < |ops| ==> !ops[i].Publish?
    ensures var e := After(NewExporter(start, None, maxAge), ops);
            e.file == Absent && !e.tracker.hasPriorPublication && !e.hasCurrent
    decreases |ops|
  {
    if ops != [] {
      NoFileFromFailures(start, maxAge, ops[..|ops| - 1]);
    }
  }

  /** A failed publication leaves the channel stale and the file gone, unless the
      removal was refused too; then the file is the old or the new text. */
  lemma FailedPublicationInvalidates(e: Exporter, op: Operation)
    requires op.Publish? && e.staged && !Step(e, op).1
    ensures var next := Step(e, op).0;
            && next.tracker.state == StaleFailed && !next.tracker.failSafeActive
            && (op.remove != RemoveRefused ==> next.file == Absent)
            && (next.file != Absent ==> next.file == e.file || next.file == Published(op.status))
  {}

  // ----- no stale output survives ----------------------------------------------

  /** A failed poll that returns normally, later than the maximum age after the
      last success (or past the age of the file found at start), leaves the
      low-battery fail-safe on disk. */
  lemma OverdueFailureWritesFailSafe(e: Exporter, op: Operation)
    requires Consistent(e) && op.PollFailure? && Step(e, op).1
    requires Overdue(e.tracker, op.now)
    ensures Step(e, op).0.file == FailSafe && Step(e, op).0.tracker.failSafeActive
  {}

  lemma StepEffect(e: Exporter, op: Operation)
    ensures Step(e, op).0.tracker.maxAgeS == e.tracker.maxAgeS
    ensures Step(e, op).0.tracker.lastSuccess ==
            if op.Publish? && Step(e, op).1 then Some(op.now) else e.tracker.lastSuccess
  {}

  lemma {:induction false} LastSuccessKept(e: Exporter, ops: seq<Operation>, i: nat, j: nat)
    requires i < j <= |ops| && Success(e, ops, i)
    requires forall m :: i < m < j ==> !Success(e, ops, m)
    ensures After(e, ops[..j]).tracker.lastSuccess == Some(ops[i].now)
    decreases j
  {
    hide After, Step;
    AfterStep(e, ops, j - 1);
    StepEffect(After(e, ops[..j - 1]), ops[j - 1]);
    if i < j - 1 {
      LastSuccessKept(e, ops, i, j - 1);
      assert !Success(e, ops, j - 1);
    }
  }

  lemma {:induction false} MaxAgeConstant(e: Exporter, ops: seq<Operation>)
    ensures After(e, ops).tracker.maxAgeS == e.tracker.maxAgeS
    decreases |ops|
  {
    hide Step;
    if ops != [] {
      MaxAgeConstant(e, ops[..|ops| - 1]);
      StepEffect(After(e, ops[..|ops| - 1]), ops[|ops| - 1]);
    }
  }

  /** Over a run: a poll failure at ops[j] that returns normally more than the
      maximum age after the last success at ops[i] leaves the fail-safe. */
  lemma NoStaleOutput(start: real, age: Option<real>, maxAge: real, ops: seq<Operation>, i: nat, j: nat)
    requires i < j < |ops| && maxAge > 0.0
    requires var e := NewExporter(start, age, maxAge);
             && Success(e, ops, i) && (forall m :: i < m < j ==> !Success(e, ops, m))
             && ops[j].PollFailure? && Returned(e, ops, j)
    requires ops[j].now - ops[i].now > maxAge
    ensures After(NewExporter(start, age, maxAge), ops[..j + 1]).file == FailSafe
  {
    hide After, Consistent;
    var e := NewExporter(start, age, maxAge);
    LastSuccessKept(e, ops, i, j);
    MaxAgeConstant(e, ops[..j]);
    ReachableConsistent(start, age, maxAge, ops[..j]);
    OverdueFailureWritesFailSafe(After(e, ops[..j]), ops[j]);
    AfterStep(e, ops, j);
  }

  /** Clock readings of the calls after ops[i] grow by at most `gap` each. */
  ghost predicate GapsAtMost(ops: seq<Operation>, i: nat, gap: real) {
    && (forall m :: i <= m < |ops| ==> ops[m].PollFailure? || ops[m].Publish?)
    && forall m {:trigger ops[m - 1]} :: i < m < |ops| ==> ops[m - 1].now <= ops[m].now <= ops[m - 1].now + gap
  }

  /** All calls after the success at ops[i] are poll failures that return
      normally, at most `gap` apart. */
  ghost predicate FailingSince(e: Exporter, ops: seq<Operation>, i: nat, gap: real)
    requires i < |ops|
  {
    && Success(e, ops, i) && GapsAtMost(ops, i, gap)
    && (forall m :: i < m < |ops| ==> ops[m].PollFailure? && Returned(e, ops, m))
  }

  lemma {:induction false} FirstOverdue(ops: seq<Operation>, i: nat, gap: real, limit: real, last: nat)
    returns (m: nat)
    requires i < last < |ops| && GapsAtMost(ops, i, gap)
    requires ops[i].now <= limit < ops[last].now
    ensures i < m <= last && limit < ops[m].now <= limit + gap
    decreases last
  {
    assert ops[last - 1].now <= ops[last].now <= ops[last - 1].now + gap;
    if ops[last - 1].now <= limit {
      m := last;
    } else {
      m := FirstOverdue(ops, i, gap, limit, last - 1);
    }
  }

  lemma {:induction false} TimesGrow(ops: seq<Operation>, i: nat, gap: real, m: nat, n: nat)
    requires i <= m <= n < |ops| && GapsAtMost(ops, i, gap)
    ensures ops[m].now <= ops[n].now
    decreases n
  {
    if m < n {
      TimesGrow(ops, i, gap, m, n - 1);
      assert ops[n - 1].now <= ops[n].now;
    }
  }

  ghost predicate FailSafeAfter(e: Exporter, ops: seq<Operation>, n: nat) {
    n < |ops| && After(e, ops[..n + 1]).file == FailSafe
  }

  /** When poll failures keep coming at most `gap` apart, an old publication is
      replaced by the fail-safe no later than maxAge + gap after the last
      success, and it does not come back. */
  lemma OldOutputSurvivesAtMost(start: real, age: Option<real>, maxAge: real, ops: seq<Operation>, i: nat, gap: real)
    returns (m: nat)
    requires i < |ops| && maxAge > 0.0 && FailingSince(NewExporter(start, age, maxAge), ops, i, gap)
    requires ops[|ops| - 1].now > ops[i].now + maxAge
    ensures i < m < |ops| && ops[m].now <= ops[i].now + maxAge + gap
    ensures forall n :: m <= n < |ops| ==> FailSafeAfter(NewExporter(start, age, maxAge), ops, n)
  {
    hide After, Returned, NewExporter;
    var e := NewExporter(start, age, maxAge);
    m := FirstOverdue(ops, i, gap, ops[i].now + maxAge, |ops| - 1);
    forall n | m <= n < |ops| ensures FailSafeAfter(e, ops, n) {
      TimesGrow(ops, i, gap, m, n);
      NoStaleOutput(start, age, maxAge, ops, i, n);
    }
  }

  // ----- no fail-safe too early ------------------------------------------------

  function Clock(op: Operation): Option<real> {
    match op
    case Publish(_, _, _, _, now) => Some(now)
    case PollFailure(now, _, _) => Some(now)
    case Query(now) => Some(now)
    case _ => None
  }

  /** Clock readings from `start` on never run backwards. */
  ghost predicate ClockInOrder(start: real, ops: seq<Operation>) {
    forall i :: 0 <= i < |ops| && Clock(ops[i]).Some? ==>
      && start <= Clock(ops[i]).value
      && forall j :: i < j < |ops| && Clock(ops[j]).Some? ==> Clock(ops[i]).value <= Clock(ops[j]).value
  }

  /** Every publication of the run was consistent and written, and every poll
      failure that wanted to write could. */
  ghost predicate NoWriteFailed(ops: seq<Operation>) {
    forall i :: 0 <= i < |ops| ==>
      && (ops[i].Publish? ==> ops[i].consistent && ops[i].write == Replaced)
      && (ops[i].PollFailure? ==> ops[i].write == Replaced)
  }

  ghost predicate StaleOnlyByAge(e: Exporter, now: real) {
    && (e.tracker.state == StaleFailed && e.tracker.hasPriorPublication ==> Overdue(e.tracker, now))
    && (e.tracker.lastSuccess.Some? ==> e.tracker.lastSuccess.value <= now)
    && e.tracker.initialMonotonic <= now
    && (e.file == FailSafe ==> e.tracker.state == StaleFailed && e.tracker.hasPriorPublication)
  }

  lemma OverdueLater(t: Tracker, now: real, later: real)
    requires Overdue(t, now) && now <= later && t.maxAgeS > 0.0
    ensures Overdue(t, later)
  {}

  lemma StaleByAgeStep(e: Exporter, op: Operation, now: real, later: real)
    requires Consistent(e) && StaleOnlyByAge(e, now) && e.tracker.maxAgeS > 0.0 && now <= later
    requires Clock(op).Some? ==> now == Clock(op).value
    requires NoWriteFailed([op])
    ensures StaleOnlyByAge(Step(e, op).0, later)
  {
    assert [op][0] == op;
    var next := Step(e, op).0;
    if next.tracker.state == StaleFailed && next.tracker.hasPriorPublication {
      OverdueLater(next.tracker, now, later);
    }
  }

  lemma {:induction false} StaleByAge(start: real, age: Option<real>, maxAge: real, ops: seq<Operation>, now: real)
    requires maxAge > 0.0 && (age.Some? ==> 0.0 <= age.value <= maxAge)
    requires ClockInOrder(start, ops) && NoWriteFailed(ops) && start <= now
    requires forall i :: 0 <= i < |ops| && Clock(ops[i]).Some? ==> Clock(ops[i]).value <= now
    ensures StaleOnlyByAge(After(NewExporter(start, age, maxAge), ops), now)
    decreases |ops|
  {
    if ops != [] {
      var e := NewExporter(start, age, maxAge);
      var n := |ops| - 1;
      var before, op := ops[..n], ops[n];
      assert forall i :: 0 <= i < n ==> before[i] == ops[i];
      ReachableConsistent(start, age, maxAge, before);
      MaxAgeConstant(e, before);
      var at := if Clock(op).Some? then Clock(op).value else now;
      StaleByAge(start, age, maxAge, before, at);
      StaleByAgeStep(After(e, before), op, at, now);
    }
  }

  /** With a clock that does not run backwards, no failed write and no stale file
      at start, a poll failure leaves the fail-safe exactly when something was
      published and its age exceeds the limit. */
  lemma FailSafeExactlyWhenOverdue(start: real, age: Option<real>, maxAge: real, ops: seq<Operation>, op: Operation)
    requires maxAge > 0.0 && (age.Some? ==> 0.0 <= age.value <= maxAge)
    requires op.PollFailure? && ClockInOrder(start, ops + [op]) && NoWriteFailed(ops + [op])
    ensures var before := After(NewExporter(start, age, maxAge), ops);
            && Step(before, op).1
            && (Step(before, op).0.file == FailSafe <==>
                 before.tracker.hasPriorPublication && Overdue(before.tracker, op.now))
            && before.tracker.maxAgeS == maxAge
  {
    var all := ops + [op];
    assert all[|ops|] == op && forall i :: 0 <= i < |ops| ==> all[i] == ops[i];
    ReachableConsistent(start, age, maxAge, ops);
    MaxAgeConstant(NewExporter(start, age, maxAge), ops);
    StaleByAge(start, age, maxAge, ops, op.now);
  }
}
