/** The daemon with its output file: what a reader of the virtual UPS file finds
    over a run of polls, silences, failing writes and restarts (src/monitor.py,
    _run_poll_iteration and its error handlers). */
module Service {
  import opened Types
  import opened Storage
  import opened Safety
  import opened Freshness
  import opened Daemon
  import opened DaemonRuns
  import opened WriterEpisodes
  import opened Station
  import opened System

  /** The NUT reply of a poll and what the poll reads after it. */
  datatype Reply = Reply(heard: Observation, classifiedAt: real, commandOk: bool, commandedAt: real)

  /** An iteration of the loop, with the fate of the file operations it may try:
      write, its cleanup, and the cleanup while stopping; or a new process that
      finds the file of the given age. */
  datatype Happening =
    | Iteration(reply: Option<Reply>, now: real, write: ReplaceOutcome, remove: RemoveOutcome, cleanup: RemoveOutcome)
    | Reopened(start: real, fileAge: real, modelOutcomes: seq<ReplaceOutcome>, fileOutcomes: seq<bool>,
        historyOutcomes: seq<bool>)

  /** The event inside the daemon, when a publication fares as given. */
  function EventOf(h: Happening, publishOk: bool): Event {
    match h
    case Reopened(_, _, m, f, history) => Restarted(m, f, history)
    case Iteration(None, _, _, _, _) => Silence
    case Iteration(Some(r), _, _, _, _) => Heard(r.heard, r.classifiedAt, publishOk, r.commandOk, r.commandedAt)
  }

  /** The event as it happens: a publication succeeds exactly when its write does. */
  function Actual(h: Happening): Event {
    EventOf(h, h.Iteration? && h.write == Replaced)
  }

  /** The status a poll tries to publish. */
  function Offer(r: PollResult): Option<VirtualStatus> {
    if r.publication.Some? then Some(r.publication.value.status) else None
  }

  /** The exporter after an iteration, and whether the loop goes on: a publication,
      or the handling of a failed poll; then, if that failed, the last cleanup. */
  function Exported(x: Exporter, h: Happening, offer: Option<VirtualStatus>): (Exporter, bool)
    requires h.Iteration?
  {
    var (next, ok) := match offer
      case Some(status) => Step(Step(x, Stage).0, Publish(status, true, h.write, h.remove, h.now))
      case None => Step(x, PollFailure(h.now, h.write, h.remove));
    (if ok then next else Step(next, Invalidate(h.cleanup)).0, ok)
  }

  /** The exporter of a new process on the file that is there. */
  function ReopenedExporter(file: OutputFile, start: real, fileAge: real, maxAge: real): Exporter {
    NewExporter(start, if file == Absent then None else Some(fileAge), maxAge).(file := file)
  }

  datatype ServiceState = ServiceState(system: SystemState, exporter: Exporter)

  function Serve(c: Config, base: Snapshot, s: ServiceState, h: Happening): (ServiceState, PollResult)
    requires ValidRunConfig(c) && ValidSnapshot(base)
  {
    var (system, result) := Happens(c, base, s.system, Actual(h));
    if h.Reopened? then
      (ServiceState(system, ReopenedExporter(s.exporter.file, h.start, h.fileAge, s.exporter.tracker.maxAgeS)), result)
    else if !s.system.daemon.running then (s, NO_RESULT)
    else
      var offer := Offer(Happens(c, base, s.system, EventOf(h, true)).1);
      var (exporter, ok) := Exported(s.exporter, h, offer);
      (ServiceState(system.(daemon := system.daemon.(running := ok)), exporter), result)
  }

  function ServiceAfter(c: Config, base: Snapshot, s: ServiceState, hs: seq<Happening>): ServiceState
    requires ValidRunConfig(c) && ValidSnapshot(base)
    decreases |hs|
  {
    if hs == [] then s else Serve(c, base, ServiceAfter(c, base, s, hs[..|hs| - 1]), hs[|hs| - 1]).0
  }

  // ----- the same without learning ------------------------------------------------------

  datatype FrozenService = FrozenService(system: FrozenState, exporter: Exporter)

  function ServeFrozen(c: Config, base: Snapshot, s: FrozenService, h: Happening): (FrozenService, PollResult)
    requires ValidRunConfig(c) && ValidSnapshot(base)
  {
    var (system, result) := HappensFrozen(c, base, s.system, Actual(h));
    if h.Reopened? then
      (FrozenService(system, ReopenedExporter(s.exporter.file, h.start, h.fileAge, s.exporter.tracker.maxAgeS)), result)
    else if !s.system.daemon.running then (s, NO_RESULT)
    else
      var offer := Offer(HappensFrozen(c, base, s.system, EventOf(h, true)).1);
      var (exporter, ok) := Exported(s.exporter, h, offer);
      (FrozenService(system.(daemon := system.daemon.(running := ok)), exporter), result)
  }

  function FrozenAfter(c: Config, base: Snapshot, s: FrozenService, hs: seq<Happening>): FrozenService
    requires ValidRunConfig(c) && ValidSnapshot(base)
    decreases |hs|
  {
    if hs == [] then s else ServeFrozen(c, base, FrozenAfter(c, base, s, hs[..|hs| - 1]), hs[|hs| - 1]).0
  }

  // ----- a publication succeeds exactly when its write does -------------------------------

  /** The loop goes on after a publication exactly when the daemon took it as made,
      and what it published is what it offered. */
  lemma OfferedIsPublished(c: Config, base: Snapshot, s: SystemState, x: Exporter, h: Happening)
    requires ValidRunConfig(c) && ValidSnapshot(base) && h.Iteration? && s.daemon.running
    ensures var offer := Offer(Happens(c, base, s, EventOf(h, true)).1);
            var (system, result) := Happens(c, base, s, Actual(h));
            && Offer(result) == (if h.write == Replaced then offer else None)
            && (offer.Some? ==> system.daemon.running == Exported(x, h, offer).1)
            && (offer.None? ==> system.daemon.running)
  {
    hide PollStation, CheckDue, CommandSent, PollCalculation;
  }

  // ----- learning never makes the file less cautious ----------------------------------------

  /** A reader of the second file is told LB wherever one of the first is. */
  ghost predicate FileAtLeastAsCautious(f: OutputFile, g: OutputFile) {
    && (f == g || (f.Published? && g.Published?))
    && (f == Published(StatusLowBattery) ==> g == Published(StatusLowBattery))
    && (f == Published(StatusOnline) <==> g == Published(StatusOnline))
  }

  ghost predicate ExporterAtLeastAsCautious(x: Exporter, y: Exporter) {
    y == x.(file := y.file) && FileAtLeastAsCautious(x.file, y.file)
  }

  ghost predicate OfferAtLeastAsCautious(a: Option<VirtualStatus>, b: Option<VirtualStatus>) {
    && a.Some? == b.Some?
    && (a.Some? ==> FileAtLeastAsCautious(Published(a.value), Published(b.value)))
  }

  lemma ExportedBelow(x: Exporter, y: Exporter, h: Happening, a: Option<VirtualStatus>, b: Option<VirtualStatus>)
    requires h.Iteration? && ExporterAtLeastAsCautious(x, y) && OfferAtLeastAsCautious(a, b)
    ensures ExporterAtLeastAsCautious(Exported(x, h, a).0, Exported(y, h, b).0)
    ensures Exported(x, h, a).1 == Exported(y, h, b).1
  {}

  ghost predicate ServiceBelow(s: FrozenService, t: ServiceState, k: real) {
    Below(s.system, t.system, k) && ExporterAtLeastAsCautious(s.exporter, t.exporter)
  }

  lemma RunningBelow(s: FrozenState, t: SystemState, k: real, running: bool)
    requires Below(s, t, k)
    ensures s.daemon.running == t.daemon.running
    ensures Below(s.(daemon := s.daemon.(running := running)), t.(daemon := t.daemon.(running := running)), k)
  {
    hide SameCourse;
  }

  lemma OfferBelow(r: PollResult, r': PollResult)
    requires AtLeastAsCautious(r, r')
    ensures OfferAtLeastAsCautious(Offer(r), Offer(r'))
  {}

  lemma ServeBelow(c: Config, base: Snapshot, s: FrozenService, t: ServiceState, h: Happening)
    requires ValidRunConfig(c) && ValidSnapshot(base) && base.irReferenceLoadPercent == 0.0
    requires ServiceBelow(s, t, base.irK)
    ensures ServiceBelow(ServeFrozen(c, base, s, h).0, Serve(c, base, t, h).0, base.irK)
    ensures AtLeastAsCautious(ServeFrozen(c, base, s, h).1, Serve(c, base, t, h).1)
  {
    hide Below, Happens, HappensFrozen, Exported, Offer, AtLeastAsCautious, OfferAtLeastAsCautious, ValidSnapshot;
    HappensBelow(c, base, s.system, t.system, Actual(h));
    RunningBelow(s.system, t.system, base.irK, true);
    if h.Iteration? {
      HappensBelow(c, base, s.system, t.system, EventOf(h, true));
      var a, b := HappensFrozen(c, base, s.system, EventOf(h, true)).1, Happens(c, base, t.system, EventOf(h, true)).1;
      OfferBelow(a, b);
      ExportedBelow(s.exporter, t.exporter, h, Offer(a), Offer(b));
      var ok := Exported(s.exporter, h, Offer(a)).1;
      RunningBelow(HappensFrozen(c, base, s.system, Actual(h)).0, Happens(c, base, t.system, Actual(h)).0, base.irK,
          ok);
      NothingIsCautious();
    }
  }

  lemma NothingIsCautious()
    ensures AtLeastAsCautious(NO_RESULT, NO_RESULT)
  {}

  lemma {:induction false} StaysBelow(c: Config, base: Snapshot, s: FrozenService, t: ServiceState, hs: seq<Happening>)
    requires ValidRunConfig(c) && ValidSnapshot(base) && base.irReferenceLoadPercent == 0.0
    requires ServiceBelow(s, t, base.irK)
    ensures ServiceBelow(FrozenAfter(c, base, s, hs), ServiceAfter(c, base, t, hs), base.irK)
    decreases |hs|
  {
    hide ServiceBelow, Serve, ServeFrozen, ValidSnapshot;
    if hs != [] {
      var n := |hs| - 1;
      StaysBelow(c, base, s, t, hs[..n]);
      ServeBelow(c, base, FrozenAfter(c, base, s, hs[..n]), ServiceAfter(c, base, t, hs[..n]), hs[n]);
    }
  }

  /** At every event of every run, restarts and failing writes included: the learning
      daemon and the frozen one stop together and leave a file together, and a reader
      of the first finds LB wherever a reader of the second does. */
  lemma ReaderAtLeastAsCautious(c: Config, base: Snapshot, s: FrozenService, t: ServiceState, hs: seq<Happening>,
        h: Happening)
    requires ValidRunConfig(c) && ValidSnapshot(base) && base.irReferenceLoadPercent == 0.0
    requires ServiceBelow(s, t, base.irK)
    ensures var (s', r) := ServeFrozen(c, base, FrozenAfter(c, base, s, hs), h);
            var (t', r') := Serve(c, base, ServiceAfter(c, base, t, hs), h);
            && AtLeastAsCautious(r, r') && t'.system.daemon.running == s'.system.daemon.running
            && FileAtLeastAsCautious(s'.exporter.file, t'.exporter.file)
  {
    hide Below, AtLeastAsCautious, Serve, ServeFrozen, ValidSnapshot, FrozenAfter, ServiceAfter;
    StaysBelow(c, base, s, t, hs);
    var before, before' := FrozenAfter(c, base, s, hs), ServiceAfter(c, base, t, hs);
    ServeBelow(c, base, before, before', h);
    RunningBelow(ServeFrozen(c, base, before, h).0.system, Serve(c, base, before', h).0.system, base.irK, true);
  }

  // ----- what a reader finds ---------------------------------------------------------------------

  /** Some poll was more than the maximum age after `from`. */
  ghost predicate LatePoll(hs: seq<Happening>, from: real, maxAge: real) {
    exists i :: 0 <= i < |hs| && hs[i].Iteration? && hs[i].now - from > maxAge
  }

  /** The poll gets a reply it can publish from. */
  predicate Usable(h: Happening) {
    h.Iteration? && h.reply.Some? && ValidObservation(h.reply.value.heard)
  }

  ghost predicate AllUnusable(hs: seq<Happening>) {
    forall i :: 0 <= i < |hs| ==> hs[i].Iteration? && !Usable(hs[i])
  }

  /** The exporter after failed polls that followed a publication of `status`. */
  ghost predicate Tells(x: Exporter, status: VirtualStatus, from: real, late: bool) {
    && x.hasCurrent && x.tracker.hasPriorPublication && x.tracker.lastSuccess == Some(from)
    && (x.tracker.state == StaleFailed <==> late)
    && x.file == (if late then FailSafe else Published(status))
  }

  lemma FailedPollTells(x: Exporter, h: Happening, status: VirtualStatus, from: real, late: bool)
    requires h.Iteration? && Tells(x, status, from, late) && x.tracker.maxAgeS >= 0.0 && Exported(x, h, None).1
    ensures Tells(Exported(x, h, None).0, status, from, late || h.now - from > x.tracker.maxAgeS)
    ensures Exported(x, h, None).0.tracker.maxAgeS == x.tracker.maxAgeS
  {}

  lemma NothingOffered(c: Config, base: Snapshot, s: ServiceState, h: Happening)
    requires ValidRunConfig(c) && ValidSnapshot(base) && h.Iteration? && !Usable(h)
    requires Serve(c, base, s, h).0.system.daemon.running
    ensures s.system.daemon.running && Exported(s.exporter, h, None).1
    ensures Serve(c, base, s, h).0.exporter == Exported(s.exporter, h, None).0
  {
    hide Happens, Exported, Offer;
    OfferExactly(c, base, s.system, h);
  }

  /** A running daemon offers a status exactly for a usable reply. */
  lemma OfferExactly(c: Config, base: Snapshot, s: SystemState, h: Happening)
    requires ValidRunConfig(c) && ValidSnapshot(base) && h.Iteration?
    ensures Offer(Happens(c, base, s, EventOf(h, true)).1).Some? <==>
            s.daemon.running && Usable(h)
  {
    hide PollStation, SelfTested, CommandSent, PollCalculation, Sampled;
  }

  lemma PublicationTells(c: Config, base: Snapshot, s: ServiceState, h: Happening)
    requires ValidRunConfig(c) && ValidSnapshot(base) && h.Iteration? && Serve(c, base, s, h).1.publication.Some?
    ensures var (next, result) := Serve(c, base, s, h);
            && Tells(next.exporter, result.publication.value.status, h.now, false)
            && next.exporter.tracker.maxAgeS == s.exporter.tracker.maxAgeS
  {
    hide Happens;
    OfferedIsPublished(c, base, s.system, s.exporter, h);
  }

  /** The watchdog is fed after an iteration exactly when that iteration published. */
  lemma WatchdogFedExactly(c: Config, base: Snapshot, s: ServiceState, h: Happening)
    requires ValidRunConfig(c) && ValidSnapshot(base) && h.Iteration? && s.system.daemon.running
    ensures var (next, result) := Serve(c, base, s, h);
            next.system.daemon.running && next.exporter.tracker.state == Fresh <==> result.publication.Some?
  {
    hide Happens;
    OfferedIsPublished(c, base, s.system, s.exporter, h);
  }

  lemma LateExtends(hs: seq<Happening>, from: real, maxAge: real)
    requires hs != [] && hs[|hs| - 1].Iteration?
    ensures LatePoll(hs, from, maxAge) <==>
            LatePoll(hs[..|hs| - 1], from, maxAge) || hs[|hs| - 1].now - from > maxAge
  {
    var before := hs[..|hs| - 1];
    assert forall i :: 0 <= i < |before| ==> before[i] == hs[i];
  }

  /** After a publication followed by polls that publish nothing, while the daemon
      still runs: a reader finds that publication or, exactly if some of those polls
      came more than the maximum age after it, the low-battery fail-safe. */
  lemma {:induction false} ReaderFinds(c: Config, base: Snapshot, s: ServiceState, h: Happening, failed: seq<Happening>)
    requires ValidRunConfig(c) && ValidSnapshot(base) && s.exporter.tracker.maxAgeS >= 0.0
    requires h.Iteration? && Serve(c, base, s, h).1.publication.Some? && AllUnusable(failed)
    requires ServiceAfter(c, base, Serve(c, base, s, h).0, failed).system.daemon.running
    ensures var (published, result) := Serve(c, base, s, h);
            var late := LatePoll(failed, h.now, s.exporter.tracker.maxAgeS);
            var exporter := ServiceAfter(c, base, published, failed).exporter;
            && Tells(exporter, result.publication.value.status, h.now, late)
            && exporter.tracker.maxAgeS == s.exporter.tracker.maxAgeS
    decreases |failed|
  {
    hide Serve, Exported, Tells, LatePoll, ValidSnapshot;
    PublicationTells(c, base, s, h);
    if failed == [] {
      assert !LatePoll(failed, h.now, s.exporter.tracker.maxAgeS) by { NotLate(h.now, s.exporter.tracker.maxAgeS); }
    } else {
      var n := |failed| - 1;
      var before := ServiceAfter(c, base, Serve(c, base, s, h).0, failed[..n]);
      NothingOffered(c, base, before, failed[n]);
      ReaderFinds(c, base, s, h, failed[..n]);
      LateExtends(failed, h.now, s.exporter.tracker.maxAgeS);
      FailedPollTells(before.exporter, failed[n], Serve(c, base, s, h).1.publication.value.status, h.now,
                      LatePoll(failed[..n], h.now, s.exporter.tracker.maxAgeS));
    }
  }

  lemma NotLate(from: real, maxAge: real)
    ensures !LatePoll([], from, maxAge)
  {}

  /** An iteration stops the daemon exactly when it tried to write the file and
      failed; it then leaves no file, unless both removals were refused. */
  lemma StoppedExactly(c: Config, base: Snapshot, s: ServiceState, h: Happening)
    requires ValidRunConfig(c) && ValidSnapshot(base) && h.Iteration? && s.system.daemon.running
    ensures var next := Serve(c, base, s, h).0;
            var t := Evaluated(s.exporter.tracker, h.now, s.exporter.hasCurrent);
            var failSafeDue := t.state == StaleFailed && (t.hasPriorPublication || s.exporter.hasCurrent);
            && (!next.system.daemon.running <==> h.write != Replaced && (Usable(h) || failSafeDue))
            && (!next.system.daemon.running && (h.remove != RemoveRefused || h.cleanup != RemoveRefused) ==>
                 next.exporter.file == Absent)
  {
    hide Happens, Offer;
    OfferExactly(c, base, s.system, h);
  }
}
