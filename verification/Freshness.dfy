/** Freshness of the virtual UPS file: the tracker
    (src/application/publication_freshness.py) and the exporter that drives it
    (src/virtual_ups_exporter/__init__.py). */
module Freshness {
  import opened Types
  import opened Safety
  import opened Storage

  // ----- grace ----------------------------------------------------------------

  function Max(a: real, b: real): real { if a >= b then a else b }
  function Min(a: real, b: real): real { if a <= b then a else b }

  /** telemetry_loss_grace_s; None stands for its ValueError. */
  function TelemetryLossGrace(shutdownMinutes: int, nutTimeoutS: real, pollingIntervalS: real): Option<real> {
    if shutdownMinutes <= 2 || nutTimeoutS <= 0.0 || pollingIntervalS <= 0.0 then None
    else
      var reserve := Max(1.0, (shutdownMinutes as real - SAFETY_LB_FLOOR_MINUTES) * 60.0);
      var transport := 5.0 * nutTimeoutS + 2.0 * pollingIntervalS;
      Some(Min(Max(30.0, transport), reserve))
  }

  /** The grace never consumes the two-minute floor below the threshold, covers
      the transport budget whenever that fits, is never under 30 seconds, and
      exceeds 30 seconds only as far as the transport needs. */
  lemma GraceBounds(shutdownMinutes: int, nutTimeoutS: real, pollingIntervalS: real)
    ensures var g := TelemetryLossGrace(shutdownMinutes, nutTimeoutS, pollingIntervalS);
            && (g.Some? <==> shutdownMinutes > 2 && nutTimeoutS > 0.0 && pollingIntervalS > 0.0)
            && (g.Some? ==>
                 var reserve := (shutdownMinutes as real - 2.0) * 60.0;
                 && 30.0 <= g.value <= reserve
                 && (g.value < 5.0 * nutTimeoutS + 2.0 * pollingIntervalS ==> g.value == reserve)
                 && (g.value > 30.0 ==> g.value <= 5.0 * nutTimeoutS + 2.0 * pollingIntervalS))
  {
    if shutdownMinutes > 2 {
      assert shutdownMinutes as real >= 3.0;
    }
  }

  // ----- tracker --------------------------------------------------------------

  datatype FreshnessState = Fresh | TemporarilyUnavailable | StaleFailed

  datatype Tracker = Tracker(
    initialMonotonic: real,
    initialFileAgeS: Option<real>,
    maxAgeS: real,
    lastSuccess: Option<real>,
    hasPriorPublication: bool,
    state: FreshnessState,
    failSafeActive: bool)

  datatype PublicationFreshness = PublicationFreshness(state: FreshnessState, ageS: Option<real>, failSafeActive: bool)

  function NewTracker(initialMonotonic: real, initialFileAgeS: Option<real>, maxAgeS: real): Tracker {
    Tracker(initialMonotonic, initialFileAgeS, maxAgeS, None, initialFileAgeS.Some?,
            if initialFileAgeS.Some? && initialFileAgeS.value > maxAgeS then StaleFailed else TemporarilyUnavailable,
            false)
  }

  function AgeS(t: Tracker, now: real): Option<real> {
    if t.lastSuccess.Some? then Some(Max(0.0, now - t.lastSuccess.value))
    else if t.initialFileAgeS.None? then None
    else Some(Max(0.0, t.initialFileAgeS.value + now - t.initialMonotonic))
  }

  /** The last publication is older than the limit. */
  predicate Overdue(t: Tracker, now: real) {
    AgeS(t, now).Some? && AgeS(t, now).value > t.maxAgeS
  }

  function EvaluatedState(t: Tracker, now: real, hasCurrent: bool): FreshnessState {
    if t.state == StaleFailed then StaleFailed
    else if !t.hasPriorPublication && !hasCurrent then
      if now < t.initialMonotonic + t.maxAgeS then t.state else StaleFailed
    else if AgeS(t, now).Some? && AgeS(t, now).value <= t.maxAgeS then t.state
    else StaleFailed
  }

  function Evaluated(t: Tracker, now: real, hasCurrent: bool): Tracker {
    t.(state := EvaluatedState(t, now, hasCurrent))
  }

  function Succeeded(t: Tracker, now: real): Tracker {
    t.(lastSuccess := Some(now), initialFileAgeS := None, hasPriorPublication := true,
       state := Fresh, failSafeActive := false)
  }

  class PublicationFreshnessTracker {
    const initialMonotonic: real
    const maxAgeS: real
    const coldStartDeadline: real
    var initialFileAgeS: Option<real>
    var lastSuccess: Option<real>
    var hasPriorPublication: bool
    var state: FreshnessState
    var failSafeActive: bool

    ghost predicate Valid() { coldStartDeadline == initialMonotonic + maxAgeS }

    ghost function Abstract(): Tracker
      reads this
    {
      Tracker(initialMonotonic, initialFileAgeS, maxAgeS, lastSuccess, hasPriorPublication, state, failSafeActive)
    }

    constructor (initialMonotonic: real, initialFileAgeS: Option<real>, maxAgeS: real)
      ensures Valid() && Abstract() == NewTracker(initialMonotonic, initialFileAgeS, maxAgeS)
    {
      this.initialMonotonic, this.initialFileAgeS, this.maxAgeS := initialMonotonic, initialFileAgeS, maxAgeS;
      coldStartDeadline := initialMonotonic + maxAgeS;
      lastSuccess, hasPriorPublication, failSafeActive := None, initialFileAgeS.Some?, false;
      state := if initialFileAgeS.Some? && initialFileAgeS.value > maxAgeS then StaleFailed else TemporarilyUnavailable;
    }

    method RecordSuccess(now: real)
      requires Valid()
      modifies this
      ensures Valid() && Abstract() == Succeeded(old(Abstract()), now)
    {
      lastSuccess, initialFileAgeS, hasPriorPublication := Some(now), None, true;
      state, failSafeActive := Fresh, false;
    }

    method MarkTemporarilyUnavailable()
      requires Valid()
      modifies this
      ensures Valid() && Abstract() == old(Abstract()).(state := TemporarilyUnavailable)
    {
      state := TemporarilyUnavailable;
    }

    method MarkStale(active: bool)
      requires Valid()
      modifies this
      ensures Valid() && Abstract() == old(Abstract()).(state := StaleFailed, failSafeActive := active)
    {
      state, failSafeActive := StaleFailed, active;
    }

    method Evaluate(now: real, hasCurrent: bool) returns (f: PublicationFreshness)
      requires Valid()
      modifies this
      ensures Valid() && Abstract() == Evaluated(old(Abstract()), now, hasCurrent)
      ensures f == PublicationFreshness(state, AgeS(Abstract(), now), failSafeActive)
    {
      var age: Option<real> :=
        if lastSuccess.Some? then Some(Max(0.0, now - lastSuccess.value))
        else if initialFileAgeS.None? then None
        else Some(Max(0.0, initialFileAgeS.value + now - initialMonotonic));
      if state != StaleFailed {
        if !hasPriorPublication && !hasCurrent {
          if now >= coldStartDeadline {
            state := StaleFailed;
          }
        } else if age.None? || age.value > maxAgeS {
          state := StaleFailed;
        }
      }
      f := PublicationFreshness(state, age, failSafeActive);
    }
  }

  // ----- exporter -------------------------------------------------------------

  /** The virtual UPS file: missing, left by an earlier process, a publication of
      this process, or the low-battery fail-safe text. */
  datatype OutputFile = Absent | Earlier | Published(status: VirtualStatus) | FailSafe

  datatype RemoveOutcome = Removed | RemoveRefused | RemovedThenRaised

  datatype Exporter = Exporter(tracker: Tracker, hasCurrent: bool, staged: bool, file: OutputFile)

  datatype Operation =
    | Stage
    | Publish(status: VirtualStatus, consistent: bool, write: ReplaceOutcome, remove: RemoveOutcome, now: real)
    | PollFailure(now: real, write: ReplaceOutcome, remove: RemoveOutcome)
    | Query(now: real)
    | Invalidate(remove: RemoveOutcome)

  function NewExporter(initialMonotonic: real, initialFileAgeS: Option<real>, maxAgeS: real): Exporter {
    Exporter(NewTracker(initialMonotonic, initialFileAgeS, maxAgeS), false, false,
             if initialFileAgeS.Some? then Earlier else Absent)
  }

  function AfterWrite(file: OutputFile, next: OutputFile, write: ReplaceOutcome): OutputFile {
    if write == Refused then file else next
  }

  function AfterRemove(file: OutputFile, remove: RemoveOutcome): OutputFile {
    if remove == RemoveRefused then file else Absent
  }

  /** State after _mark_publication_failed. */
  function Failed(e: Exporter, remove: RemoveOutcome): Exporter {
    e.(tracker := e.tracker.(state := StaleFailed, failSafeActive := false), staged := false,
       file := AfterRemove(e.file, remove))
  }

  /** State after one call, and whether it returned instead of raising. */
  function Step(e: Exporter, op: Operation): (Exporter, bool) {
    match op
    case Stage => (e.(staged := true), true)
    case Publish(status, consistent, write, remove, now) =>
      if !e.staged then (e, false)
      else if !consistent then (Failed(e, remove), false)
      else if write != Replaced then (Failed(e.(file := AfterWrite(e.file, Published(status), write)), remove), false)
      else (Exporter(Succeeded(e.tracker, now), true, false, Published(status)), true)
    case PollFailure(now, write, remove) =>
      var t := Evaluated(e.tracker, now, e.hasCurrent);
      if t.state != StaleFailed then (e.(tracker := t.(state := TemporarilyUnavailable)), true)
      else if !t.hasPriorPublication && !e.hasCurrent then
        (e.(tracker := t.(failSafeActive := false), staged := false), true)
      else if write != Replaced then
        (Failed(e.(tracker := t, file := AfterWrite(e.file, FailSafe, write)), remove), false)
      else (e.(tracker := t.(failSafeActive := true), staged := false, file := FailSafe), true)
    case Query(now) => (e.(tracker := Evaluated(e.tracker, now, e.hasCurrent)), true)
    case Invalidate(remove) => (e.(file := AfterRemove(e.file, remove)), remove == Removed)
  }

  class VirtualUpsExporter {
    const tracker: PublicationFreshnessTracker
    var hasCurrent: bool
    var staged: bool
    var file: OutputFile

    ghost predicate Valid()
      reads this
    {
      tracker.Valid()
    }

    ghost function Abstract(): Exporter
      reads this, tracker
    {
      Exporter(tracker.Abstract(), hasCurrent, staged, file)
    }

    constructor (initialMonotonic: real, initialFileAgeS: Option<real>, maxAgeS: real)
      ensures Valid() && fresh(tracker) && Abstract() == NewExporter(initialMonotonic, initialFileAgeS, maxAgeS)
    {
      tracker := new PublicationFreshnessTracker(initialMonotonic, initialFileAgeS, maxAgeS);
      hasCurrent, staged := false, false;
      file := if initialFileAgeS.Some? then Earlier else Absent;
    }

    method StageContext()
      requires Valid()
      modifies this
      ensures Valid() && Abstract() == Step(old(Abstract()), Stage).0
    {
      staged := true;
    }

    method MarkPublicationFailed(remove: RemoveOutcome)
      requires Valid()
      modifies this, tracker
      ensures Valid() && Abstract() == Failed(old(Abstract()), remove)
    {
      tracker.MarkStale(false);
      staged := false;
      if remove != RemoveRefused {
        file := Absent;
      }
    }

    method PublishOutput(status: VirtualStatus, consistent: bool, write: ReplaceOutcome, remove: RemoveOutcome,
          now: real)
      returns (ok: bool)
      requires Valid()
      modifies this, tracker
      ensures Valid()
      ensures (Abstract(), ok) == Step(old(Abstract()), Publish(status, consistent, write, remove, now))
    {
      if !staged {
        return false;
      }
      if consistent && write != Refused {
        file := Published(status);
      }
      if !consistent || write != Replaced {
        MarkPublicationFailed(remove);
        return false;
      }
      hasCurrent := true;
      tracker.RecordSuccess(now);
      staged := false;
      ok := true;
    }

    method HandlePollFailure(now: real, write: ReplaceOutcome, remove: RemoveOutcome) returns (ok: bool)
      requires Valid()
      modifies this, tracker
      ensures Valid()
      ensures (Abstract(), ok) == Step(old(Abstract()), PollFailure(now, write, remove))
    {
      var f := tracker.Evaluate(now, hasCurrent);
      if f.state == Fresh {
        tracker.MarkTemporarilyUnavailable();
      }
      if f.state != StaleFailed {
        return true;
      }
      if !tracker.hasPriorPublication && !hasCurrent {
        tracker.MarkStale(false);
        staged := false;
        return true;
      }
      if write != Refused {
        file := FailSafe;
      }
      if write != Replaced {
        MarkPublicationFailed(remove);
        return false;
      }
      tracker.MarkStale(true);
      staged := false;
      ok := true;
    }

    method InvalidateOutput(remove: RemoveOutcome) returns (ok: bool)
      requires Valid()
      modifies this
      ensures Valid() && (Abstract(), ok) == Step(old(Abstract()), Invalidate(remove))
    {
      if remove != RemoveRefused {
        file := Absent;
      }
      ok := remove == Removed;
    }

    function WatchdogHealthy(): (healthy: bool)
      reads this, tracker
      ensures healthy <==> Abstract().tracker.state == Fresh
    {
      tracker.state == Fresh
    }
  }
}
