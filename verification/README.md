# A verified model of the UPS safety daemon

The daemon polls a UPS once a second, publishes a virtual UPS whose low-battery
(LB) flag comes from a battery model, records battery episodes, and slowly lowers
one coefficient of that model (`k`, volts per percent of load) from what real
blackouts show. This project models its four state machines and the arithmetic
that feeds them in Dafny 4.11, and proves what each step keeps and what holds over
whole runs. `dafny verify dfyconfig.toml` checks all of it.

## The parts

- `Types`, `Storage`, `Sorting`, `Arith`: statuses as sets of words,
  observations and rows, and files. A file is a sequence of rows or one content.
  Each append or replace is all-or-nothing, and a list of outcomes says which of
  the next ones fail. A failed operation also stands for a crash just before it,
  so a crash between any two durable writes is a failed write followed by a
  restart. A replace can also fail behind its rename.
- `Lut`, `Peukert`, `Ema`, `Safety`, `Daemon`, `DaemonRuns`, `SelfTests`: one
  poll from voltage and load to a published status with a latched LB, self-test
  attribution, and theorems about whole runs and pairs of runs.
- `Freshness`, `FreshnessRuns`, `Timer`: the age of the virtual UPS file and its
  low-battery fail-safe; the arithmetic that restores an outer timer.
- `IrEstimator`, `IrExact`, `IrMeaning`, `Cohort`: from a blackout to one
  least-squares observation of `k`, and from observations to one bounded
  proposal. Standard deviations are compared as variances (at most 4 for at most
  2).
- `History`, `ModelStore`, `Feedback`, `FeedbackRuns`, `FeedbackQuiet`,
  `Summaries`, `Replays`, `TestEvents`: the derived history, the model file with
  the receipt of its last update, and the learning loop between them as an
  outbox.
- `Segments`, `Writer`, `WriterPending`, `WriterMemory`, `WriterTail`,
  `WriterEpisodes`, `WriterDiary`, `Reconciliation`: three ways to cut a
  telemetry file into episodes, and the streaming recorder with its pending
  buffer and its recovery from the file.
- `Station`, `System`, `Service`: writer and learning loop poll by poll, the
  whole daemon, and the daemon with its output file.
- `Blackouts`, `Ledger`, `StationRuns`, `Counterexamples`: concrete runs of the
  station from empty files, put together from one blackout.

Objects whose methods change fields are classes (`TelemetryJsonlWriter`,
`BatteryHistory`, `ModelOwner`, `FeedbackMonitor`, `MonitorDaemon`, `MetricEma`,
`PublicationFreshnessTracker`, `VirtualUpsExporter`, and `Monitor`, which joins
the parts of the monitor). Each method is proved to do what a function of the old
state says, and the theorems are about those functions and the runs they generate.

## Where the code does less than it seems to

Each of these is proved, next to the exact condition under which the code does
meet the property:

- Evidence can be used twice after a crash: a replay keys its update to the
  earliest event, and younger observations stay unconsumed
  (`EvidenceReusedAfterCrash`; exactly when: `ConsumedExactly`, `ReplayAfterCrash`).
- Startup reconciliation can miss the latest closed episode for ever, when an older
  one lies within 31 rows before it (`LatestNotRecovered`; exactly when:
  `LatestRecovered`).
- Startup reconciliation can record an episode that never happened: once feedback
  rows follow a summary, the event no longer counts as recorded, and a slice that
  begins inside an older episode is summarised under a key of its own
  (`RestartInventsBlackout`; exactly when: `InventedExactly`, `InventedNeverHappened`).
  It takes no evidence with it (`ReconcileKeepsQuiet`).
- The streaming recorder hands out no episode whose summary append failed, although
  its terminal row is on disk; exactly then (`PollStreams`, `StreamingEqualsBatch`).
- A summary that lands after the feedback rows of its event makes the event look
  unprocessed, and a receipt for an event that has an update row is dropped
  (`UpdateLostFromTrail`; exactly when: `TrailExtendsIffEventNew`). It takes a lost
  summary (`OutboxOverPolls`).
- A model write that fails behind its rename leaves the file one update ahead of
  memory until the next start adopts it (`MemoryAndFile`, `ReloadKeepsOutbox`).

## Model

| member | source | states |
|---|---|---|
| System.LearningIsConservative | src/monitor.py:191-243 | over every run of the whole daemon (silent polls, failing writes, learned updates, restarts) the learning daemon publishes at each event no more runtime than a twin whose coefficient never changes, and LB wherever the twin does; the twin runs no feedback, and the load reference is 0 as the model owner sets it |
| System.HappensBelow | src/monitor.py:195-243 | one poll or restart keeps the learning daemon at or below the frozen one: same telemetry, same memory except a latch set at least as often, coefficient not above the snapshot's |
| System.CourseOfPoll | src/adapters/telemetry_jsonl.py:126-195 | what goes to the telemetry file does not depend on the history, on the context remembered or on the provenance of the open episode |
| System.StartedBelow | src/monitor.py:181-189 | two daemons started on the same files are so related, whatever the learned coefficient is, if it is not above the frozen one |
| System.Monitor.PollOnce | src/monitor.py:191-243 | one poll of the object: publish, then write telemetry, take the completed episode, run feedback, check the self-test, all with the model snapshot from before the poll; it does what the event function says to every part of the state |
| System.Monitor.RecordAndLearn | src/monitor.py:240-241 | telemetry write and feedback of one published poll change files, writer, model and replay flag as the station function says |
| System.Monitor.WriteTelemetry | src/monitor.py:304-315 | the completed episode is handed over exactly when the write did not raise |
| Service.ReaderAtLeastAsCautious | src/monitor.py:417-482 | over every run of the loop with its output file (silent and unusable polls, failing writes and removals, restarts) the learning daemon and its frozen twin stop together and leave a file together, and a reader of the first is told LB wherever a reader of the second is |
| Service.ReaderFinds | src/monitor.py:417-447 | after a publication and any polls that publish nothing, while the daemon runs, the file is that publication or, exactly if some of those polls came more than the maximum age after it, the low-battery fail-safe |
| Service.WatchdogFedExactly | src/monitor.py:401-407 | the watchdog is fed after an iteration of a running daemon if and only if that iteration published |
| Service.StoppedExactly | src/monitor.py:435-482 | an iteration stops the daemon exactly when a publication or a due fail-safe could not be written, and then no file is left unless both removals were refused |
| Service.OfferedIsPublished | src/monitor.py:417-433 | the daemon counts a publication as made exactly when the write went through, and what it reports is what it offered |
| Service.ServeBelow | src/monitor.py:417-482 | one iteration or restart keeps the learning daemon and its exporter at least as cautious as the frozen ones |
| Station.EvidenceOnceOverPolls | src/monitor.py:317-370 | over every run without failing writes whose events come in order of time, with restarts at any point and whatever they reconcile, all evidence of an update is younger than all evidence of the updates before it, and feedback over every closed episode on disk would change nothing |
| Station.OutboxOverPolls | src/monitor.py:317-378 | over every run of polls and restarts in which no summary is lost, whatever other writes fail, the update rows are a chain of bounded steps from k0 that lacks at most the receipt of the last update |
| Station.StepKeepsKeyed | src/adapters/telemetry_jsonl.py:126-201 | as long as no summary is lost, every closed episode on disk and every event with feedback rows or a receipt has its summary |
| Station.OneClosed | src/monitor.py:240-241 | a poll that closes an episode is exactly one closing step of the chronicle: summary of context and episode, then feedback over it or over all closed episodes |
| Station.NothingClosed | src/monitor.py:317-329 | a poll that closes nothing leaves model, history and the closed episodes as they are, even when it replays all of them |
| Station.StepNeverRaises | src/monitor.py:331-378 | no poll, restart, failing write or replay ever raises the coefficient, in memory or by adopting the file |
| Station.WriteWithoutFailure | src/adapters/telemetry_jsonl.py:126-184 | without failing writes nothing is handed out except at the online poll that ends an open episode, and then the history holds its summary |
| Station.OpenKeyAfter | src/adapters/telemetry_jsonl.py:126-154 | the first active row of the open episode never changes until the episode ends |
| Station.RunStaysHealthy | src/monitor.py:240-241 | writer, file, history and model stay in agreement over every such run, reconciling restarts included |
| Station.FreshStationHealthy | src/monitor.py:150-189 | a daemon with empty files starts in that agreement |
| WriterEpisodes.StreamingEqualsBatch | src/monitor.py:616-630 | over every run of polls, failing appends, unknown statuses and restarts, the episodes handed out, without their context, are exactly those the batch segmentation finds in the file beyond the initial ones, if and only if no summary append failed after its terminal row was written; lost ones make up the difference |
| WriterEpisodes.PollStreams | src/adapters/telemetry_jsonl.py:126-201 | one poll hands out the episode the file gains, nothing when it gains none, and loses exactly the one whose summary append failed |
| WriterEpisodes.FlushStreams | src/adapters/telemetry_jsonl.py:227-230 | a flush of pending rows, complete or cut short, opens and closes no episode |
| WriterEpisodes.ContextIsQuiet | src/adapters/telemetry_jsonl.py:251-254 | no active row ever gets into the context of an episode |
| WriterEpisodes.RestoreSyncs | src/adapters/telemetry_jsonl.py:53-98 | a rebuilt writer has an episode open exactly when the file has an open tail, and holds exactly that tail after some online context |
| WriterEpisodes.RestartIsTransparent | src/adapters/telemetry_jsonl.py:53-81 | kill the daemon anywhere inside an episode and rebuild it: under the same later polls the file stays the same for ever, and every episode handed out has the same active rows, terminal row, key and IR observation |
| WriterEpisodes.TwinsPoll | src/adapters/telemetry_jsonl.py:126-195 | two writers of one file that differ in context and provenance stay in step through any poll and hand out the same event |
| WriterEpisodes.StrippedDecides | src/domain/model_feedback.py:197-215 | event key and IR observation depend only on the rows from the first active one on |
| WriterEpisodes.AddedSummary | src/adapters/battery_history.py:64-74 | a summary is keyed by the first active row, is appended unless that key has one, and changes no other key |
| WriterPending.EpisodeStartFlushesAll | src/adapters/telemetry_jsonl.py:137-151 | when an episode's first row is on disk, everything pending was written before it, oldest first, and nothing is pending; when an append failed, a prefix is on disk and exactly the rest is still pending |
| WriterPending.FlushWritesPrefix | src/adapters/telemetry_jsonl.py:227-230 | a flush writes a prefix as long as the appends succeed, and forgets exactly that prefix |
| WriterPending.WriteConserves | src/adapters/telemetry_jsonl.py:126-195 | one write adds at most its own observation to the rows on disk and pending, counted with multiplicity |
| WriterPending.NothingWrittenTwice | src/adapters/telemetry_jsonl.py:126-195 | over every run, with any failing appends and restarts, the file only grows and holds no row more often than it was observed |
| WriterPending.PendingOnlyWhenSilent | src/adapters/telemetry_jsonl.py:156-184 | over every run the modes exclude each other, and only the silent one has anything pending |
| WriterPending.FileStaysInOrder | src/adapters/telemetry_jsonl.py:227-249 | if observations arrive in order of time, the file stays in order of time through every pattern of failed appends and restarts |
| WriterPending.SilentExtends | src/adapters/telemetry_jsonl.py:232-249 | remembering one more online observation keeps the pending list in order and after the end of the file |
| WriterDiary.RunIsDiary | src/adapters/telemetry_jsonl.py:126-254 | over every run of outages in which nothing fails, from the observations alone: the file gains, for each outage, the quiet window before it, its active rows and its tail; handed out are its context, active rows and terminal row; and each is summarised as the kind it started as |
| WriterDiary.DiaryFromStart | src/adapters/telemetry_jsonl.py:31-51 | the same from a writer constructed on an empty file, after any quiet time |
| WriterDiary.QuietRun | src/adapters/telemetry_jsonl.py:183-184 | in quiet time nothing is written, pending are exactly the observations not older than the last one minus the window, and recent is the longest one-second run of all online ones |
| WriterDiary.ActiveRun | src/adapters/telemetry_jsonl.py:126-154 | the first active poll writes exactly the pending observations, oldest first, and its own row, each later one its own row; the episode is context and active rows, of the kind it started as |
| WriterDiary.OnlineBlock | src/adapters/telemetry_jsonl.py:156-195 | the poll that ends an episode hands it out and summarises it; the tail is written, and what is quiet after it is pending as far as the window reaches |
| WriterEpisodes.UnknownIgnored | src/adapters/telemetry_jsonl.py:126-154 | a poll that is neither active nor online changes nothing |
| WriterMemory.RecentIsLongestRun | src/adapters/telemetry_jsonl.py:232-243 | the recent observations are the longest run of at most 31 at the end with exactly one second between neighbours |
| WriterMemory.PendingIsWindow | src/adapters/telemetry_jsonl.py:244-249 | exactly the pending observations not older than the cutoff are kept, with their multiplicity |
| WriterMemory.SilentKeepsWindow | src/adapters/telemetry_jsonl.py:244-249 | after an online observation in silent mode, pending are it and the earlier ones at most a window older |
| WriterMemory.ContextExactly | src/adapters/telemetry_jsonl.py:251-254 | the context is one observation per moment that is pending or recent, the pending one where both exist, strictly in order of time |
| WriterMemory.SummaryOfClosed | src/adapters/battery_history.py:217-240 | the summary of a closed episode spans its active rows and the terminal row, is keyed by the first active row, and is a self-test only with explicit provenance |
| WriterMemory.ChargeResumed | src/adapters/telemetry_jsonl.py:83-98 | a restart after an online row resumes charging exactly when that row reports a charge below full, with the first row of the uninterrupted charge at the end of the file |
| WriterMemory.RestoredContextExactly | src/adapters/telemetry_jsonl.py:66-72 | the context restored with an open episode is all online rows directly before it, at most five |
| WriterMemory.RestoredEpisodeExactly | src/adapters/telemetry_jsonl.py:53-81 | a writer rebuilt on an open episode holds it with its context, remembers the last of that context one second apart, and takes it for a real blackout |
| WriterMemory.RestoredRecentExactly | src/adapters/telemetry_jsonl.py:256-266 | a restart remembers the longest run of at most 31 online rows at the end of the file with one second between neighbours |
| WriterTail.TailIsRecorded | src/adapters/telemetry_jsonl.py:156-195 | from the observation that ends an episode on, exactly the observations before the first stop are written: the whole charge, then full ones up to a window after the first full one, again charge if it falls below full |
| WriterTail.OneMoreInTail | src/adapters/telemetry_jsonl.py:171-184 | one more online observation is written unless it stops the tail |
| Reconciliation.ReconcileExactly | src/adapters/telemetry_jsonl.py:100-124 | construction adds one summary at most, and exactly when no last-row summary is as young as the latest closed episode and the first active row of the 31-row slice has none; that row's time is its key |
| Reconciliation.LatestRecovered | src/adapters/telemetry_jsonl.py:100-124 | the latest closed episode is recorded afterwards if and only if it was before, or nothing as young is and the slice's first active row carries its key |
| Reconciliation.SliceHasActive | src/adapters/telemetry_jsonl.py:120-124 | with no older active row in the 31 rows before it, the slice's first active row is the start of the latest closed episode |
| Reconciliation.InventedExactly | src/adapters/telemetry_jsonl.py:100-124 | reconciliation adds a summary that starts no run of active rows if and only if it adds one and its slice begins between two active rows |
| Reconciliation.InventedNeverHappened | src/adapters/telemetry_jsonl.py:113-124 | on rows in order of time, the reconciled key is the start of no closed episode if and only if the slice begins inside one |
| Reconciliation.IndexStartsRun | src/adapters/telemetry_jsonl.py:342-355 | the key of the slice is that of a row at or before the latest closed episode, and that row starts a run unless the slice begins inside one |
| Reconciliation.ReconcileKeepsQuiet | src/adapters/telemetry_jsonl.py:100-124 | once every closed episode has its summary, whatever a restart reconciles is of no closed episode and disturbs no evidence |
| Counterexamples.LatestNotRecovered | src/adapters/telemetry_jsonl.py:120-124 | from empty files: the summary of the second blackout is lost, and after any number of restarts it is still missing |
| Counterexamples.RestartInventsBlackout | src/adapters/telemetry_jsonl.py:113-124 | from empty files and without any failure: a restart records a blackout at a second where none began |
| Reconciliation.ConstructTwice | src/adapters/telemetry_jsonl.py:50-51 | constructing the writer again on the files the first construction left changes nothing |
| Writer.TelemetryJsonlWriter.WriteSample | src/adapters/telemetry_jsonl.py:126-154 | the dispatch of one observation updates files and fields as the state machine says, failing appends included |
| Writer.TelemetryJsonlWriter.Start | src/adapters/telemetry_jsonl.py:137-151 | episode start: context taken before the flush, pending rows flushed, first row appended, every field set only after both |
| Writer.TelemetryJsonlWriter.WriteOnlineSample | src/adapters/telemetry_jsonl.py:156-184 | an online observation is handled by mode: closing, charging, full tail or silent |
| Writer.TelemetryJsonlWriter.Close | src/adapters/telemetry_jsonl.py:157-170 | closing keeps the order terminal row, fields, summary; a failing summary leaves the episode closed but not handed out |
| Writer.TelemetryJsonlWriter.WriteRecharge | src/adapters/telemetry_jsonl.py:186-195 | a charging observation is written and decides whether charging goes on |
| Writer.TelemetryJsonlWriter.FlushSilentObservations | src/adapters/telemetry_jsonl.py:227-230 | the loop writes and forgets pending observations one by one, stopping at the first failure |
| Writer.TelemetryJsonlWriter.RememberRecentObservation | src/adapters/telemetry_jsonl.py:232-249 | recent and pending observations after one more, or none after a status without OL |
| Writer.TelemetryJsonlWriter.EventContextRows | src/adapters/telemetry_jsonl.py:251-254 | the two dict updates and the sort yield the context rows |
| Writer.TelemetryJsonlWriter.RestoreActiveEpisode | src/adapters/telemetry_jsonl.py:53-81 | the open active run with up to five online rows before it, or the online tail, is restored from the file |
| Writer.TelemetryJsonlWriter.FindOpenEpisode | src/adapters/telemetry_jsonl.py:62-72 | the loops find the start of the trailing active run and of its context |
| Writer.TelemetryJsonlWriter.RestoreRecentOnline | src/adapters/telemetry_jsonl.py:256-266 | recent observations after reading back the last 31 rows |
| Writer.TelemetryJsonlWriter.RestoreOnlineTailOf | src/adapters/telemetry_jsonl.py:83-98 | an explicit charge below full is resumed with its first charging row |
| Writer.TelemetryJsonlWriter.ReconcileClosedEpisodes | src/adapters/telemetry_jsonl.py:100-124 | the history after reconciliation and whether its append failed |
| Writer.TelemetryJsonlWriter.TakeCompletedEpisode | src/adapters/telemetry_jsonl.py:197-201 | the completed episode is returned once |
| Writer.NewWriter | src/adapters/telemetry_jsonl.py:31-51 | construction restores from the file and then reconciles the history |
| Segments.FindClosedEpisodes | src/monitor.py:616-630 | the loop finds the closed episodes of a file, each with its terminal online row |
| Segments.ClosedEpisodeShape | src/monitor.py:616-630 | every closed episode is one or more active rows and one online row that is not active |
| Segments.EpisodesCoverActive | src/monitor.py:616-630 | closed episodes and the open one hold the active rows of the file, each once and in file order |
| Segments.ReportExactly | scripts/blackout-history.py:59-82 | an episode is reported if and only if it starts in the period and is not a recorded self-test, with its start and its terminal row |
| Segments.FindBlackouts | scripts/blackout-history.py:59-82 | the report lists exactly the monitor's closed episodes, and the open one, that start in the period and are not recorded self-tests |
| Segments.FindLatestClosedEpisode | src/adapters/telemetry_jsonl.py:342-355 | the backward scan finds the last active run if the file goes on after it |
| Segments.LatestIsLastClosed | src/adapters/telemetry_jsonl.py:342-355 | on active and online rows with a closed tail, the latest closed episode is the last one the monitor's segmentation finds, and there is one in the one sense exactly when there is in the other |
| Segments.OpenTailIsRun | src/monitor.py:620-629 | on active and online rows the open episode is the trailing run of active rows |
| FeedbackRuns.OutboxOverRun | src/monitor.py:317-378 | over every interleaving of feedback, summaries, failed writes, crashes and restarts, the update rows form a chain of bounded steps from k0, at most one receipt is missing and it is the one in the model file, and the model never goes up |
| FeedbackRuns.RecoveredTrailEndsAtModel | src/monitor.py:372-378 | once a recovery goes through after any such run, the last `to` of the trail is the model's coefficient |
| FeedbackRuns.RecoverKeepsOutbox | src/monitor.py:372-378 | recovery puts the missing receipt at the end of the chain and nothing else anywhere |
| FeedbackRuns.ReloadKeepsOutbox | src/adapters/model_owner.py:81-127 | a new process finds the model of the old one, or the one update that reached the file only, whose receipt is then the missing one |
| FeedbackRuns.TurnKeepsOutbox | src/monitor.py:333-370 | one episode's feedback, stopped at any durable write, keeps the chain and leaves at most its own receipt missing |
| FeedbackRuns.LearningTerminates | src/domain/model_feedback.py:114-138 | over every run, whatever fails and in whatever order rows land, each update put into force, counted when applied or when a restart finds it in the file, costs between 0.001 and 0.002 and leaves k at 0.005 or more, so at most (k0 - 0.005) / 0.001 are ever made |
| FeedbackRuns.AtMostTenUpdates | src/adapters/model_owner.py:81-127 | from the default 0.015 at most ten updates are ever put into force |
| FeedbackRuns.TrailExtendsIffEventNew | src/adapters/battery_history.py:145-156 | an applied update extends the trail if and only if its event has no update row yet; otherwise its receipt is dropped |
| FeedbackRuns.AppendedRow | src/adapters/battery_history.py:158-177 | the kind of an event is that of its last row, and a row counts for its own event and record kind only |
| Replays.TurnApplies | src/monitor.py:347-370 | a turn that goes through, of an episode that was or can be observed: if and only if the evidence recorded by then yields a proposal, the model file holds it with the event's receipt and the history has its row |
| Replays.FeedbackDone | src/monitor.py:317-370 | from any state a crash can leave, feedback that goes through leaves every one of its episodes observed, updated, a self-test or without anything to observe, and the receipt recorded |
| Replays.ReplayCatchesUp | src/monitor.py:317-329 | the poll after which no replay is due any more leaves every episode closed on disk done |
| TestEvents.TestsTeachNothing | src/monitor.py:338-339 | a self-test that is closed and summarised yields no observation and no update in any run after it, whatever fails, is replayed or reconciled |
| TestEvents.TestIsRecorded | src/adapters/telemetry_jsonl.py:157-170 | the poll that closes an episode started as a self-test records it as one, and the feedback of the same poll leaves it alone |
| Counterexamples.UpdateLostFromTrail | src/adapters/battery_history.py:145-156 | from empty files through a lost summary, a late one and a replay: the trail ends at 0.009, the model holds 0.007, and recovery adds nothing |
| Summaries.FeedbackKeepsKeyed | src/monitor.py:331-370 | a pass over summarised episodes, stopped anywhere, gives feedback rows and receipts only to events with a summary |
| FeedbackQuiet.RunStaysQuiet | src/monitor.py:331-370 | over every uninterrupted run in order of time the cohort left after each pass proposes nothing and every closed episode is done |
| FeedbackQuiet.EvidenceUsedOnce | src/adapters/battery_history.py:119-143 | in such a run no event contributes to two updates |
| FeedbackQuiet.ReplayAfterRunIsNoOp | src/monitor.py:321-325 | after such a run a restart that replays all closed episodes changes neither model nor history, whatever the storage does |
| FeedbackQuiet.ReplayIsNoOp | src/monitor.py:317-370 | with the receipt recorded, no proposal pending and every episode done, feedback is a no-op |
| FeedbackQuiet.FeedbackIgnoresContext | src/monitor.py:331-347 | feedback treats an episode the same with and without its online context |
| FeedbackQuiet.ConsumedExactly | src/adapters/battery_history.py:119-143 | an update keyed K consumes all evidence if and only if no recorded observation is younger than K; left are exactly the younger ones |
| FeedbackQuiet.ReplayAfterCrash | src/monitor.py:333-366 | after a crash between recording and applying, the replay keys the update to the first observed episode it meets, and the evidence is consumed exactly when nothing recorded is younger than that |
| Counterexamples.EvidenceReusedAfterCrash | src/monitor.py:317-366 | from empty files with one refused model write and a restart: two observations are in the cohorts of two updates |
| Blackouts.BlackoutIsSeen | src/domain/model_feedback.py:63-97 | the blackout these runs are made of, rows of 12.5 V at 5 percent and 12.25 V at 45, yields an observation of 0.00625 |
| Feedback.FeedbackMonitor.RunModelFeedback | src/monitor.py:317-329 | recovery first, then a replay of all closed episodes until one goes through, afterwards only the completed one |
| Feedback.FeedbackMonitor.Apply | src/monitor.py:331-370 | the loop stops at the first failed durable write and otherwise does every episode in order |
| Feedback.FeedbackMonitor.ProcessEpisode | src/monitor.py:333-347 | skip, re-propose or observe, by the last recorded kind of the event |
| Feedback.FeedbackMonitor.Propose | src/monitor.py:347-370 | from the cohort on disk to the updated model and its history row |
| Feedback.FeedbackMonitor.RecoverModelUpdate | src/monitor.py:372-378 | the receipt in the model file is put into the history unless it is there |
| ModelStore.ModelOwner.ApplyFeedback | src/adapters/model_owner.py:81-127 | memory and file after a call whose replace may fail before or behind its rename, and what it reports |
| ModelStore.MemoryAndFile | src/adapters/model_owner.py:81-127 | an update is applied if and only if its event is not that of the last receipt, it changes the coefficient and the replace goes through; memory and file change together, or neither does, or, only when the replace fails behind its rename, the file is one update ahead |
| History.KeysStayUnique | src/adapters/battery_history.py:64-156 | over every sequence of calls, failing appends included, there is at most one summary, one observation and one update per event, and rows are only added at the end |
| History.RepeatedCallIsNoOp | src/adapters/battery_history.py:64-156 | a call whose append did not fail adds nothing when repeated |
| History.BatteryHistory.AddEpisodeSummary | src/adapters/battery_history.py:64-74 | one summary per event, none without an active row |
| History.BatteryHistory.RecordIrObservation | src/adapters/battery_history.py:94-117 | one observation per event |
| History.BatteryHistory.UpsertModelUpdate | src/adapters/battery_history.py:145-156 | one update per event |
| History.BatteryHistory.IrObservations | src/adapters/battery_history.py:119-143 | the first observation of each event newer than the last update in file order |
| History.BatteryHistory.ReadEventKinds | src/adapters/battery_history.py:158-177 | the kind of the last row of each event |
| FeedbackQuiet.NewerThanEvents | src/adapters/battery_history.py:138-143 | an event is pending exactly when it was observed and is newer than the last update |
| FeedbackQuiet.PendingIsFirst | src/adapters/battery_history.py:138-143 | each pending observation is the first one of its event |
| FeedbackQuiet.AppendedPending | src/adapters/battery_history.py:119-143 | the last update in file order decides what is newer, and observations stay in file order |
| Cohort.ProposalExactly | src/domain/model_feedback.py:100-138 | a proposal exists if and only if k is in range, at least three distinct events agree within 0.0015 with uncertainty at most 0.0035, and k exceeds their median by at least 0.001 |
| Cohort.ProposalBounds | src/domain/model_feedback.py:114-138 | a proposal lowers k by between 0.001 and 0.002, not below 0.005, not below the cohort median, reaches the median unless the cap stops it, and carries the latest evidence time of the cohort |
| Cohort.MedianInCohort | src/domain/model_feedback.py:122-126 | the median lies between the cohort's smallest and largest estimate |
| Cohort.ProposalIgnoresOrder | src/domain/model_feedback.py:100-151 | distinct events may come in any order |
| Cohort.ProposalIgnoresReplays | src/domain/model_feedback.py:141-151 | replays of events already represented change nothing |
| Cohort.UniqueIsSound | src/domain/model_feedback.py:141-151 | one acceptable candidate per event, and every event with an acceptable candidate is represented |
| Cohort.UniqueIsFirst | src/domain/model_feedback.py:141-151 | each kept candidate is the first acceptable one of its event |
| Sorting.MedianExactly | src/domain/model_feedback.py:122-126 | the median is the middle one of the estimates in order, or half the sum of the two middle ones |
| Cohort.ExtractedIsCohortReady | src/domain/model_feedback.py:154-194 | every extracted observation is accepted into a cohort and never trips the uncertainty guard |
| Cohort.UniqueObservations | src/domain/model_feedback.py:141-151 | the loop keeps the first acceptable candidate of each event |
| Cohort.ProposeIrCohortFeedback | src/domain/model_feedback.py:100-138 | the sequence of guards yields the proposal of the unique candidates |
| IrExact.ScanIsExact | src/domain/model_feedback.py:218-244 | if an event's voltage is V0 + s t - k load with one load step, the scan over all transitions returns exactly k at the true transition when the step is observable, and nothing otherwise, at any cadence |
| IrMeaning.StepExactly | src/domain/model_feedback.py:218-289 | in any event, quantised and noisy ones included, a transition yields a candidate if and only if its windows are plateaus and load and voltage step between their best-fit lines; the estimate is the coefficient under which, with the sag of the median loads taken out, both lines meet |
| IrMeaning.ScanFindsFirst | src/domain/model_feedback.py:218-244 | the scan returns the candidate of the first transition that has one, if any has |
| IrMeaning.LeastSquares | src/domain/model_feedback.py:277-289 | for any points no line has a smaller sum of squared residuals than the computed one: another line's sum is larger by exactly its squared distance from it at the points |
| IrMeaning.LineIsBestFit | src/domain/model_feedback.py:277-289 | the residuals of the computed line sum to zero, also weighted by time; with a single time it is flat |
| IrMeaning.VarianceOfPairs | src/domain/model_feedback.py:264-274 | the scatter of a window is half the mean squared difference of all its pairs of loads |
| IrExact.ExtractionIsExact | src/domain/model_feedback.py:63-97 | the same from the rows of a closed natural blackout |
| IrExact.WrongTransitionFails | src/domain/model_feedback.py:218-274 | a transition placed anywhere but at the step yields nothing |
| IrExact.MixedWindowHidesStep | src/domain/model_feedback.py:264-274 | a window of at most 21 readings that mixes two levels either exceeds the variance guard or its median hides the step |
| IrExact.LineExact | src/domain/model_feedback.py:277-289 | least squares recovers a line it is given exactly, with its value at the transition |
| IrExact.NaturalEventExactly | src/domain/model_feedback.py:197-215 | the first on-battery run is a natural event exactly when an online row ends it, no row is a calibration, every row without firmware LB is usable and at least three are |
| IrExact.ParsedExactly | src/domain/model_feedback.py:292-302 | parsing succeeds exactly when all rows without firmware LB are usable, and yields one point for each of them |
| IrExact.OneMoreParsed | src/domain/model_feedback.py:292-302 | one more row is skipped when firmware reports LB, spoils the event when its voltage is not within 8 to 15 V or its load not within 0 to 100, and otherwise adds the last point |
| IrExact.ExtractedObservationBounds | src/domain/model_feedback.py:218-244 | whatever the rows, an extracted estimate is in [0.005, 0.040] and its uncertainty is positive and at most 0.05/15 |
| IrExact.ExtractionIgnoresContext | src/domain/model_feedback.py:197-215 | rows before the first on-battery row change nothing |
| IrEstimator.ExtractIrObservation | src/domain/model_feedback.py:63-97 | event, then scan, then one observation with the given key |
| IrEstimator.FindLoadStep | src/domain/model_feedback.py:218-244 | the scan returns the candidate of the first transition that passes every guard |
| IrEstimator.FindNaturalEvent | src/domain/model_feedback.py:197-215 | the on-battery run, its end, the calibration check and the parse |
| IrEstimator.FindEventRows | src/domain/model_feedback.py:197-204 | the loops find the first on-battery run and its end |
| IrEstimator.FindPreWindow | src/domain/model_feedback.py:247-261 | the last samples back to the first one at least 20 s before the transition |
| IrEstimator.FindPostWindow | src/domain/model_feedback.py:247-261 | the first samples up to the first one at least 20 s after the transition |
| DaemonRuns.LowerCoefficientRun | src/application/safety.py:87-127 | two runs over the same observations, the second with coefficients never larger: at every poll the second has no more runtime and LB wherever the first has it, latch included |
| DaemonRuns.LbExactlySinceCall | src/application/safety.py:147-181 | over every run a publication is LB exactly when some published runtime called for LB and no ONLINE was published since |
| DaemonRuns.LbStaysUntilOnline | src/application/safety.py:147-181 | once LB is published, every later publication is LB until an ONLINE one, with failed and invalid polls in between |
| DaemonRuns.FirmwareLbRun | src/monitor.py:191-243 | two runs whose statuses differ only in the LB flag publish the same statuses and runtimes |
| DaemonRuns.RuntimeOfReadings | src/monitor.py:207-233 | over every run at one load, whatever polls fail in between, each published runtime lies between those the tables give for the lowest and the highest voltage read |
| DaemonRuns.EqualReadings | src/monitor.py:207-233 | equal readings publish exactly the runtime their voltage and load give |
| DaemonRuns.PublishesExactly | src/monitor.py:191-239 | a running daemon publishes if and only if a usable reply came and the file could be written; ONLINE is published if and only if the status has OL without OB and CAL; and it stops exactly when a publication fails |
| SelfTests.TestExactly | src/monitor.py:281-302 | over every run, a poll that starts an episode starts a self-test if and only if a successful command came at most 12 s before its clock reading and no episode started in between |
| SelfTests.StartsExactly | src/monitor.py:281-302 | a processed poll starts an episode if and only if it is active and every active poll before it was followed by an online one without OB or CAL |
| SelfTests.CommandsExactly | src/monitor.py:245-279 | while wall time does not run backwards, a test is commanded at a poll if and only if it publishes, a whole averaging window after the first usable reply, as the first such poll of its UTC day, online, full, with no battery row within 14 days, and the command goes through |
| SelfTests.TestsBoundedByCommands | src/monitor.py:245-302 | in every run, test episodes plus a live marker never outnumber successful commands |
| SelfTests.TestFollowsCommand | src/monitor.py:281-302 | the first active poll of every test episode comes at most 12 s after a successful command |
| SelfTests.KindConstantInEpisode | src/monitor.py:281-302 | all active polls of one battery episode carry the same kind, and only the first one starts it |
| SelfTests.OneCommandPerDay | src/monitor.py:245-272 | at most one command is sent per UTC day |
| Daemon.MonitorDaemon.PublishSafety | src/monitor.py:191-239 | classification, validation, averages, calculation, publication and latch of one poll, with the state left behind by every early exit |
| Daemon.MonitorDaemon.Poll | src/monitor.py:191-243 | publication and self-test check together |
| Daemon.MonitorDaemon.ClassifyPhysicalObservation | src/monitor.py:281-302 | the kind of a poll, with a marker consumed by the first active poll and one kind kept per episode |
| Daemon.MonitorDaemon.MaybeRunQuickSelfTest | src/monitor.py:245-272 | the check is made once a day after the horizon, and commands only when online, full and with no recent battery row |
| Daemon.MonitorDaemon.HasRecentQuickTestOrBlackout | src/monitor.py:648-663 | some active row is not older than the cooldown |
| Safety.LowerCoefficientIsConservative | src/application/safety.py:87-127 | a lower coefficient lowers SoC and runtime and publishes LB at least as often, also through the latch |
| Safety.AtReferenceLoad | src/application/safety.py:97-100 | at the reference load the table is read at the measured voltage itself |
| Safety.SagIsCompensated | src/application/safety.py:97-100 | a voltage higher by k times some load reads like that much more load |
| Safety.HigherVoltage | src/application/safety.py:87-127 | at one load a higher voltage never means less SoC or runtime, nor LB where the lower one has none, also through the latch |
| Safety.DecisionMeaning | src/application/safety.py:147-181 | LB exactly when the event is not online and it was latched, below the two-minute floor, or not a test and below the threshold; exactly when the next latch is set; and a new latch names the floor before the threshold as its source |
| Lut.SocMonotone | src/battery_math/lut.py:22-67 | a lower voltage never yields a higher state of charge, across boundaries, exact-match bands and segments, points closer than a band included |
| Lut.SocInRange | src/battery_math/lut.py:22-67 | for a valid table the 0.5 fallback is never reached and the result is in [0, 1] |
| Lut.SocExactly | src/battery_math/lut.py:22-67 | 1 above the table, 0 below it; inside, the SoC of the highest point within 10 mV, and otherwise the straight line between the neighbouring points |
| Peukert.RuntimeMonotone | src/battery_math/peukert.py:50-81 | at a fixed load more charge never means less runtime, and runtime is never negative |
| Peukert.PeukertsLaw | src/battery_math/peukert.py:21-47 | twenty hours at the rated load, and at a load r times larger the power of r times less, for a power that is multiplicative |
| Peukert.MoreLoadLessRuntime | src/battery_math/peukert.py:50-81 | more load never means more runtime, for a power that increases |
| Peukert.RuntimeHoursPositive | src/battery_math/peukert.py:21-47 | a rated battery has some runtime at any load |
| Ema.UpdateStaysBetween | src/ema_filter.py:39-56 | the average never leaves an interval that holds it and the new sample |
| Ema.UpdateApproaches | src/ema_filter.py:39-56 | a deviation of at least the sensitivity is taken over at once, any other shrinks by at least the base weight |
| Ema.UpdateExactly | src/ema_filter.py:39-56 | below the sensitivity the remaining error falls linearly from the base share to nothing as the deviation grows |
| FreshnessRuns.NoStaleOutput | src/virtual_ups_exporter/__init__.py:170-216 | over every run, a failed poll that returns normally more than the maximum age after the last success leaves the LB fail-safe on disk |
| FreshnessRuns.OldOutputSurvivesAtMost | src/virtual_ups_exporter/__init__.py:170-216 | if failed polls are at most D apart, an old publication is replaced no later than the maximum age plus D after the last success, and does not come back |
| FreshnessRuns.FailSafeExactlyWhenOverdue | src/application/publication_freshness.py:116-146 | without failed writes and without a stale file at start, a poll failure leaves the fail-safe if and only if something was published and its age exceeds the limit |
| FreshnessRuns.ReachableConsistent | src/virtual_ups_exporter/__init__.py:137-227 | in every reachable state an active fail-safe means STALE_FAILED and a file that is the fail-safe or absent |
| FreshnessRuns.OnlySuccessLeavesStale | src/application/publication_freshness.py:102-136 | only a successful publication leaves STALE_FAILED, and it makes the state FRESH |
| FreshnessRuns.StateExactly | src/application/publication_freshness.py:102-146 | the state after every run, from the calls alone: FRESH, and with it a healthy watchdog, if and only if some publication succeeded and since then no poll failed, no staged publication failed and no query came beyond the maximum age; STALE_FAILED if and only if since the last success a staged publication failed, or a failed poll or a query came when the publication, the file found at start with its age, or the start itself was too old |
| FreshnessRuns.SuccessIsHealthy | src/virtual_ups_exporter/__init__.py:162-168 | every successful publication makes the watchdog healthy, from whatever state |
| FreshnessRuns.NoFileFromFailures | src/virtual_ups_exporter/__init__.py:191-198 | with no initial file and no publication, no sequence of failures, queries and invalidations creates a file |
| FreshnessRuns.FailedPublicationInvalidates | src/virtual_ups_exporter/__init__.py:317-330 | a failed publication leaves the channel stale and the file gone unless the removal was refused too |
| Freshness.GraceBounds | src/application/publication_freshness.py:19-54 | the grace is at least 30 s, at most (shutdown_minutes - 2) 60 s, covers the transport budget whenever that fits and exceeds 30 s no further than that; it exists exactly for valid arguments |
| Freshness.VirtualUpsExporter.PublishOutput | src/virtual_ups_exporter/__init__.py:137-168 | a publication of the staged context, failing before, in or after the write |
| Freshness.VirtualUpsExporter.HandlePollFailure | src/virtual_ups_exporter/__init__.py:170-216 | grace, cold start, fail-safe, or a failed fail-safe |
| Freshness.VirtualUpsExporter.MarkPublicationFailed | src/virtual_ups_exporter/__init__.py:317-361 | stale, nothing staged, and the file removed unless that is refused |
| Freshness.VirtualUpsExporter.InvalidateOutput | src/virtual_ups_exporter/__init__.py:250-257 | the file after a removal that may fail |
| Freshness.PublicationFreshnessTracker.Evaluate | src/application/publication_freshness.py:116-146 | the state after looking at the clock, with the age it used |
| Freshness.PublicationFreshnessTracker.RecordSuccess | src/application/publication_freshness.py:102-107 | a success forgets the initial file and any fail-safe |
| Timer.AdjustComposes | src/virtual_ups_exporter/__init__.py:550-570 | adjusting by e1 and then e2 is adjusting by e1 + e2, and a one-shot's expiry is reported exactly once |
| Timer.PeriodicResumes | src/virtual_ups_exporter/__init__.py:550-570 | a periodic timer resumes at its least original tick strictly after the elapsed time, with its period |
| Timer.OneShotExactly | src/virtual_ups_exporter/__init__.py:550-570 | a one-shot fires when it would have, unless that is past: then it is reported and nothing is left; a timer that was off stays off |
| Types.SampleRoundTrip | src/adapters/telemetry_jsonl.py:269-296 | a recorded row read back and recorded again is the same row |

## Left out

- NUT sockets, systemd notification, logging, the `upscmd` subprocess and its credentials: a poll has a reply or none, a command succeeds or fails.
- JSON text, file permissions, symlink checks, fsync, flock and temporary files: every append and replace is all-or-nothing and may fail; a torn last line and the corruption errors of readers are not modelled.
- The writer lock and the reading of `model.json` at start (`ModelOwner.open_runtime`, validators): the model file holds a coefficient and an optional receipt.
- Signal handlers and masks of `_run_with_deadline`: only the timer arithmetic is modelled; a publication may fail before, in or after the replace.
- Configuration, argument parsing, display text, MOTD and quality scripts.
- Response metrics, depth, equivalent cycles and sag deltas of summaries: key, provenance and duration are kept.
- `RechargeEtaEstimator`, the error-channel texts and the metrics text of the exporter.
- Rounding to 12 digits, NaN and infinities: quantities are exact reals. The base weight of the average is a parameter in (0, 1), and the real power of the runtime formula a positive function.
- Sub-second timestamps of rows written by other tools: recorded rows carry whole seconds, observations microseconds.
- Errors other than failed writes inside feedback (`ValueError`, `TypeError`): histories hold well-formed rows.
- The forward loop of `_latest_closed_episode`, which can never advance because the scan stopped at the last active row.
- Files other than `telemetry.jsonl`, `history.jsonl`, `model.json` and the virtual UPS file.
- FeedbackRuns.OutboxOverRun: ranges over runs in which no summary lands after feedback rows of its event; `OutboxOverPolls` derives that for the daemon from no summary being lost, and `UpdateLostFromTrail` is what happens otherwise.
- Station.OutboxOverPolls: assumes that no summary is lost, and no status with OL together with OB or CAL on disk at a restart.
- WriterEpisodes.RestartIsTransparent: assumes that no status carries OL together with OB or CAL, and says nothing about the kind of the summary: an open self-test is a real blackout after a restart.
- WriterEpisodes.StreamingEqualsBatch: a restart inside the run needs the same assumption on the rows on disk at that point.
- Station.EvidenceOnceOverPolls: covers runs without failing writes whose events are in order of time, with the same assumption on the rows at a restart; `EvidenceReusedAfterCrash` and `ReplayAfterCrash` say what a failed model write does.
- WriterDiary.RunIsDiary: covers runs without failing appends and restarts; under failures `NothingWrittenTwice` and `EpisodeStartFlushesAll` bound what is on disk, and `RestartIsTransparent` says what a restart changes.
- DaemonRuns.RuntimeOfReadings: covers runs at one load; when the load changes, its adaptive average decides between sag and discharge.
- SelfTests.TestExactly: assumes that the monotonic clock does not run backwards.
- SelfTests.CommandsExactly: assumes that UTC dates do not run backwards, as `OneCommandPerDay` does.
- Service.ReaderFinds: starts at a publication of the running process; the file an earlier process left is covered by `FailSafeExactlyWhenOverdue`.
- Service.ServeBelow: the loop around the poll is a function of its state, not a class; poll and exporter are classes.
