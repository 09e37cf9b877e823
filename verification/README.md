# BatCave core, modelled and verified in Dafny

BatCave is a desktop monitor whose Rust core is a set of small concurrent protocols,
with a Python script that unpacks its macOS updates. This project models the parts
where a mistake would show only in some interleaving, fault or odd input, and proves
what they promise over every run.

- **Refresh and scheduling** (`collector_engine.rs`): `RefreshGate` holds the critical
  sections of the shared gate, `CollectorProtocol` interleaves callers, control channel,
  worker, panics and shutdown, `CollectorAnswers` traces every answer to the actions of
  the run, `AbsoluteScheduler` and `TimedWindows` are the deadline grid and its sliding
  windows.
- **Persistence** (`background_persistence.rs`, `persistence.rs`): `WriterQueue` is the
  coalescing queue, `PersistenceCoordinator` the health bookkeeping around root outages,
  `BackgroundWriter` both together with worker and files, `WriterRefinement` the
  comparison with a plain queue, `WriterAnswers` what flush, submit and health answer,
  stated over submissions and jobs, `DiagnosticLog` the rotating log and its breaker.
- **macOS attribution** (`macos_network.rs`): `NStatEngine`, `NStatSession` (queries,
  events and pruning) and `NStatLedger` (what was billed, and to whom).
- **Linux attribution** (`linux_network.rs`): `LinuxProtocol` and `LinuxText` (the line
  protocol, typed and at character level), `LinuxIntervals` (reader, quarantine and
  sampling), `LinuxRetry` (the restart budget).
- **Updater archive** (`extract-macos-updater-archive.py`): `ArchivePaths`,
  `ArchivePreflight`, `ArchiveExtraction`.
- **Smaller protocols**: `AtomicWrite` (`atomic_json.rs`), `NetworkBinder`
  (`network_attribution.rs`), `DesktopProbe` (`desktop_probe.rs`).

Objects that the source updates in place are classes whose methods are proved against
functions on values; the table below lists the results about those functions and the
methods with loops, not the methods that perform one locked section each. A protocol is a
state machine: one action for each stretch of code that runs under one lock or makes one
system call, so that the interleavings of the source are runs of the model. Clocks,
storage results, collection outcomes, panics, timeouts and the order in which hash maps
are visited are choices of the environment, quantified over in every theorem.

Three readings of the source are worth knowing. A panic of the worker while it collects
leaves the gate open until the handler closes it, so `CollectorProtocol.WaiterAccounted`
speaks of the time before the panic and `NoCallerStranded` covers it: the caller is then
answered with the fatal error. And in `atomic_json.rs` cleanup after a failed directory
sync removes a name that no longer exists; `AtomicWrite` shows that this never removes
another writer's file, because names are never issued twice by one process.
Last, a restart of the macOS session clears bytes that were billed but not yet sampled;
`NStatLedger.RestartLosesNothing` says exactly when that costs nothing.

`dafny verify dfyconfig.toml` checks the whole project.

## Model

| member | source | states |
|---|---|---|
| CollectorProtocol.NoCallerStranded | src/BatCave.App/src-tauri/src/collector_engine.rs:128-165 | From every reachable state of the interleaved system, at most 33 steps that only finish work in progress (no newcomer, no timeout, no panic) bring a waiting refresh caller to a state in which its answer is there |
| CollectorProtocol.EveryScheduleAnswers | src/BatCave.App/src-tauri/src/collector_engine.rs:478-572 | Under every schedule: however the steps that wind the system down are ordered (finishing work, a shutdown proceeding, other callers polling, timing out and leaving), there are at most StepsLeft of them, and when none is left the waiting caller has its answer |
| CollectorProtocol.AnswerStays | src/BatCave.App/src-tauri/src/collector_engine.rs:656-713 | No winding-down step takes a waiting caller's answer away again |
| CollectorProtocol.WaiterAccounted | src/BatCave.App/src-tauri/src/collector_engine.rs:656-713 | While the gate is open, the worker alive and no shutdown asked for, a waiter whose generation is not complete has exactly that generation being served, or exactly one wake-up live (unsent, in the channel, or received), or a recorded failure that covers it; this survives failed sends racing with new callers |
| CollectorProtocol.WakeMeansOneToken | src/BatCave.App/src-tauri/src/collector_engine.rs:132-165 | While the gate is open and no shutdown is asked for, the wake flag is set exactly when one wake-up is on its way to the worker; there are never two |
| CollectorProtocol.RefreshIsFresh | src/BatCave.App/src-tauri/src/collector_engine.rs:669-703 | Over all interleavings, a publication returned to a refresh caller comes from a collection begun after that caller registered and is not a fatal or heartbeat one, and the branch that reports a missing result is never taken |
| CollectorAnswers.AnswerWasPublished | src/BatCave.App/src-tauri/src/collector_engine.rs:521-537 | Over every run: the publication a refresh call returns is exactly the snapshot some earlier action of the run published, with the event that collection ended with, the next revision and that collection's number |
| CollectorAnswers.ErrorIsExplained | src/BatCave.App/src-tauri/src/collector_engine.rs:128-165 | Over every run: a refresh call that fails timed out itself, or the run holds the reason it names: a fatal publication or panic, a shutdown that closed the gate, or a send that found the channel full or the worker gone |
| CollectorAnswers.SnapshotExact | src/BatCave.App/src-tauri/src/collector_engine.rs:574-634 | Over every run: the revision counts the publications, and the snapshot is the last one with the event of the action that published it |
| CollectorAnswers.CollectionsExact | src/BatCave.App/src-tauri/src/collector_engine.rs:478-572 | Collections are numbered 1, 2, 3, ... as deadlines, begun refreshes and resumes start them, and the one in progress is the last |
| CollectorAnswers.ShutdownExact | src/BatCave.App/src-tauri/src/collector_engine.rs:278-301 | Over every run: shutdown has got as far as its own steps took it, and the worker has stopped exactly if it once saw the flag between two pieces of work or took the shutdown control |
| CollectorAnswers.ShutdownCompletes | src/BatCave.App/src-tauri/src/collector_engine.rs:478-572 | From every reachable state with the flag raised, at most five steps of the worker itself bring it to its end |
| CollectorProtocol.LastLeaverClears | src/BatCave.App/src-tauri/src/collector_engine.rs:693-703 | In every reachable state, the last caller to leave clears the stored publication and failure; while others remain both stay |
| CollectorProtocol.RegistrationsCoalesce | src/BatCave.App/src-tauri/src/collector_engine.rs:138-151 | completed <= started <= requested <= started + 1 in every reachable state, and all callers that register during one collection wait for the same next generation, with no older failure visible to them |
| CollectorProtocol.RevisionsIncrease | src/BatCave.App/src-tauri/src/collector_engine.rs:574-634 | Along every run from a reachable state, a later publication that differs carries a strictly larger revision, and a publication is never withdrawn |
| CollectorProtocol.AnswerArrives | src/BatCave.App/src-tauri/src/collector_engine.rs:478-572 | The number of finishing steps still needed is bounded by a rank that each of them lowers, wherever the wake-up is |
| CollectorProtocol.StepKeepsInv | src/BatCave.App/src-tauri/src/collector_engine.rs:424-654 | Every step of callers, worker, panic handler and shutdown keeps the invariant behind these results |
| AbsoluteScheduler.GridAccounting | src/BatCave.App/src-tauri/src/collector_engine.rs:388-413 | From any state of the scheduler, through any calls up to the next re-anchoring: the deadline is the old one plus (collections + misses counted + positions passed while paused) * interval, strictly after every completion, and the deadlines no collection answered are exactly as many as the counted misses and paused positions |
| AbsoluteScheduler.GridFromAnchor | src/BatCave.App/src-tauri/src/collector_engine.rs:356-413 | Over every run, through any re-anchorings: the next deadline is a whole number of intervals along the grid laid down last, whose anchor is the time of the re-anchoring or one interval later, and at first the opening or one interval later when paused |
| AbsoluteScheduler.SkipPassed | src/BatCave.App/src-tauri/src/collector_engine.rs:388-408 | The loop of both completions moves to the first deadline strictly after the completion and counts the deadlines it passed |
| AbsoluteScheduler.CadenceExact | src/BatCave.App/src-tauri/src/collector_engine.rs:356-421 | After any run of collections, heartbeats, pauses, re-anchorings and reads on a non-decreasing clock, a reading has as total every miss counted since the start, as recent misses exactly those inside the metric window, no more than the total, and as lateness the 95th percentile of exactly the in-window ones of all starts |
| AbsoluteScheduler.OverrunExact | src/BatCave.App/src-tauri/src/collector_engine.rs:388-408 | The count the deadline loop reaches is the unique number of grid deadlines passed by the completion |
| AbsoluteScheduler.Scheduler.CompleteScheduledWork | src/BatCave.App/src-tauri/src/collector_engine.rs:388-400 | The in-place loop terminates for a positive interval, moves the deadline past the completion along the grid and counts exactly the deadlines it skips |
| AbsoluteScheduler.Scheduler.CompletePausedWork | src/BatCave.App/src-tauri/src/collector_engine.rs:402-408 | Completing while paused moves along the same grid without counting misses |
| TimedWindows.WindowIsFilteredHistory | src/BatCave.App/src-tauri/src/collector_engine.rs:756-832 | Under non-decreasing timestamps, pruning from the front equals filtering everything ever added by age |
| TimedWindows.NearestRank | src/BatCave.App/src-tauri/src/collector_engine.rs:808-821 | The element at the nearest-rank index of the sorted window is one of its values, at least 95% of the values do not exceed it, and it is the least such value |
| TimedWindows.P95At | src/BatCave.App/src-tauri/src/collector_engine.rs:808-821 | Pruning, sorting and indexing in place return that percentile, and 0 for an empty window |
| TimedWindows.CountAt | src/BatCave.App/src-tauri/src/collector_engine.rs:774-777 | The loop over the pruned window returns the sum of the in-window counts |
| BackgroundWriter.FlushIsTruthful | src/BatCave.App/src-tauri/src/background_persistence.rs:372-398 | In every reachable state of submitters, worker, coordinator and disk: if flush answers Ok then for settings and warm cache the last operation submitted was accepted and executed and the stored file is its effect; no rejection, disk failure, root outage or panic hides behind a later success |
| BackgroundWriter.HealthClaimsHold | src/BatCave.App/src-tauri/src/background_persistence.rs:177-218 | The same promise for health: a component it reports Healthy and not session-only has its last submission on disk, even while other work is queued or running |
| WriterAnswers.FlushExact | src/BatCave.App/src-tauri/src/background_persistence.rs:372-398 | Over every run, from the submissions and the jobs alone: flush waits while a job waits or runs; then it succeeds exactly when nobody closed the writer, it did not panic, and for every component no refusal is newer than its newest job that ended Healthy and its last job ended Healthy |
| WriterAnswers.AcceptedExactly | src/BatCave.App/src-tauri/src/background_persistence.rs:220-261 | Over every run: a submission is accepted exactly when the writer is open and fewer than 32 jobs wait, or it is a cache write that takes a waiting one's place |
| WriterAnswers.HealthExact | src/BatCave.App/src-tauri/src/background_persistence.rs:177-218 | Over every run without a panic: a component is reported Degraded with the queue's failure and the time of the refusal while one is outstanding, else as the coordinator last showed it; and session-only also while work for it waits or runs |
| WriterAnswers.PanicIsReported | src/BatCave.App/src-tauri/src/background_persistence.rs:117-138 | After a panic every component is reported Degraded, session-only and with the queue's failure, whatever is submitted later |
| WriterAnswers.FilesExact | src/BatCave.App/src-tauri/src/background_persistence.rs:263-330 | Over every run without a panic: each file is what the last job that changed it made of it, a failed job that left nothing behind changing nothing, and the log grew by the recorded events and the notes of stored settings, in order |
| WriterAnswers.StoredHealthExact | src/BatCave.App/src-tauri/src/background_persistence.rs:263-298 | Over every run without a panic, while the root is up: a file's health is durable at the time of the last write that worked, not applicable after a removal, Degraded and session-only after a failure |
| BackgroundWriter.QueueIsBounded | src/BatCave.App/src-tauri/src/background_persistence.rs:233-260 | Never more than 32 jobs wait, generations increase from front to back, and at most one of them is a cache write |
| BackgroundWriter.RefusalDropsNothing | src/BatCave.App/src-tauri/src/background_persistence.rs:220-261 | A refused submission leaves every pending job in place: a cache write is dropped only when its replacement is queued |
| BackgroundWriter.StepKeepsInv | src/BatCave.App/src-tauri/src/background_persistence.rs:108-155 | Every submission, take, execution, panic, completion and close keeps the invariant that ties queue, worker, coordinator and files together |
| WriterRefinement.CoalescingIsInvisible | src/BatCave.App/src-tauri/src/background_persistence.rs:233-260 | With working storage, every run that reaches an empty idle queue leaves the same files and log as executing every accepted job in submission order |
| WriterRefinement.InOrderExact | src/BatCave.App/src-tauri/src/background_persistence.rs:263-298 | Executing jobs in order leaves each file as its last write or removal says, and the log with all recorded events in order |
| WriterRefinement.WorkingWriterFlushes | src/BatCave.App/src-tauri/src/background_persistence.rs:372-398 | While storage works, nothing is refused and nobody closes the writer, flush never answers an error; WriterAnswers.FlushExact says when it does |
| WriterQueue.Queue.Coalesce | src/BatCave.App/src-tauri/src/background_persistence.rs:244-248 | The in-place removal keeps exactly the jobs that are not cache writes, in order |
| PersistenceCoordinator.HealthIsTruthful | src/BatCave.App/src-tauri/src/persistence.rs:1263-1362 | Over every run: a component is Healthy exactly when the root is up and its own most recent attempt, if any, succeeded, Degraded when that failed, and during an outage Unavailable or Degraded as the root's failure says; untouched components come out of an outage with their earlier durability and last success, attempted ones stay degraded until they succeed |
| PersistenceCoordinator.FailureExact | src/BatCave.App/src-tauri/src/persistence.rs:1263-1362 | Over every run, which failure a component shows and with which time: during an outage the root's latest failure at the latest look, afterwards that of the outage in which it was asked for, dated by the recovery, or that of its own last operation |
| PersistenceCoordinator.OperationKeepsTruth | src/BatCave.App/src-tauri/src/persistence.rs:1132-1218 | One load, write, remove or diagnostic call keeps the stored health equal to an independent record of each component's latest attempt |
| PersistenceCoordinator.OverallIsTruthful | src/BatCave.App/src-tauri/src/persistence.rs:1364-1400 | The summary state is what the root's failure says while the root is down (Unavailable if unverifiable, else Degraded), else Healthy exactly when no component's latest attempt failed, and Degraded if one did |
| PersistenceCoordinator.UnresolvedStaysDown | src/BatCave.App/src-tauri/src/persistence.rs:1087-1126 | A coordinator whose root could not be resolved stays Unavailable, unverifiable and session-only with that failure for every component, whatever is asked of it |
| PersistenceCoordinator.Coordinator.RevalidateRoot | src/BatCave.App/src-tauri/src/persistence.rs:1263-1308 | Masking on the first failure, recording attempts during the outage and restoring on recovery, field by field |
| DiagnosticLog.LogIsBoundedTail | src/BatCave.App/src-tauri/src/persistence.rs:934-1012 | From an in-bounds start, through any faults, partial appends and outages, live file and backup each stay within the size limit and backup followed by live file is a suffix of everything written |
| DiagnosticLog.RecordingExact | src/BatCave.App/src-tauri/src/persistence.rs:934-985 | One recording: suppressed exactly when the breaker is open; written exactly when the event is within both limits and no fault is met, and then the line stands at the end of the live file, rotated first if it would not fit; the breaker opens exactly at a fault that opens it |
| DiagnosticLog.BreakerExact | src/BatCave.App/src-tauri/src/persistence.rs:934-1012 | Over every run: the breaker is open exactly when some call met a fault that opens it and no retry with the root up came after |
| DiagnosticLog.WrittenIsStreamed | src/BatCave.App/src-tauri/src/persistence.rs:934-985 | A written event adds exactly its line to the stream, a suppressed one nothing, a failed one at most a prefix of its line |
| DiagnosticLog.OutageReportedOnce | src/BatCave.App/src-tauri/src/persistence.rs:1228-1255 | Over every run: while the root is down a diagnostic is answered with the root's failure the first time in the outage and suppressed every time after, and the log is not touched |
| DiagnosticLog.AnswerShowsInHealth | src/BatCave.App/src-tauri/src/persistence.rs:1228-1255 | With the root up, a written diagnostic leaves its component Healthy and durable as of now, a suppressed one changes nothing beyond a recovery, a failed one leaves it Degraded with that failure |
| DiagnosticLog.SuppressedCountIsExact | src/BatCave.App/src-tauri/src/persistence.rs:1228-1255 | The suppressed total reported is the number of calls that answered suppressed; no other call moves it |
| DiagnosticLog.BreakerHolds | src/BatCave.App/src-tauri/src/persistence.rs:934-1012 | Once the breaker is open nothing is written until a retry finds the root up |
| NStatSession.PruningIsInvisible | src/BatCave.App/src-tauri/src/macos_network.rs:222-321 | Over every run of query starts, events, answers, samples, failures and restarts, the engine that prunes tombstones has the same sources, interval bytes and loss flags as one that never forgets an order |
| NStatLedger.NewestEventDecides | src/BatCave.App/src-tauri/src/macos_network.rs:222-243 | After any run a source is there exactly if its highest-order committed event is an update that did not close it, with that update's process and counters, whatever order events were committed in |
| NStatLedger.OrdersAreDistinct | src/BatCave.App/src-tauri/src/macos_network.rs:159-188 | No two events committed in a session share an order, so the newest one is unique |
| NStatLedger.CommitsExact | src/BatCave.App/src-tauri/src/macos_network.rs:690-831 | Over every run: an unsolicited event is committed at once, the final answer of a query commits every event received for it in the order received, and nothing else commits anything |
| NStatLedger.CommitExact | src/BatCave.App/src-tauri/src/macos_network.rs:222-312 | Over every run, from the events committed before it alone: what an event bills (the growth of both counters of an open source, the whole counters of a new one once the baseline is there, nothing for a late event, a removal, another process or a fallen counter) and whether it loses data |
| NStatLedger.BaselineExact | src/BatCave.App/src-tauri/src/macos_network.rs:690-719 | The baseline is there exactly when an answer was qualified since the session began |
| NStatLedger.BillsNameTheirUpdate | src/BatCave.App/src-tauri/src/macos_network.rs:271-312 | Every bill of every run names the process and the source of the update that produced it, and its bytes are that update's counters less those the source had |
| NStatLedger.ChargedForOwnUpdates | src/BatCave.App/src-tauri/src/macos_network.rs:271-312 | Over every run, what a process is charged is exactly the bytes billed by the updates that name it |
| NStatLedger.SourceBytesTelescope | src/BatCave.App/src-tauri/src/macos_network.rs:245-312 | From any moment after the session's baseline, if every update applied to a source kept its identity and did not regress, the bytes billed for it since are its last applied counter minus its counter at that moment (zero if it was not there); losses on other sources do not matter; if a source is opened again after it went, its earlier openings are added |
| NStatLedger.ProcessBytesConserved | src/BatCave.App/src-tauri/src/macos_network.rs:383-432 | Over a whole run, through restarts: every byte charged to a process is in exactly one published sample, was discarded by a restart or at the end of a baseline, or is pending; and what is pending was charged since the interval was last emptied |
| NStatLedger.SampleContentsExact | src/BatCave.App/src-tauri/src/macos_network.rs:409-432 | Over every run, for every process and direction: a published sample holds exactly the bytes charged since the interval was last emptied, over exactly the time since then, as bytes per second rounded down and cut off at 64 bits |
| NStatLedger.SampleAnswerExact | src/BatCave.App/src-tauri/src/macos_network.rs:383-432 | Over every run: a sample fails while a failure is not followed by a restart, is pending until this session's baseline has ended, is held until a later query was answered since the interval was last emptied and time has passed, and is otherwise published, Ready exactly if no loss is outstanding |
| NStatLedger.FlagsExact | src/BatCave.App/src-tauri/src/macos_network.rs:690-719 | The three flags a sample reads are set exactly when the operation that sets each has happened with none that clears it since |
| NStatLedger.ReadyMeansNoLoss | src/BatCave.App/src-tauri/src/macos_network.rs:383-432 | A published sample is Ready only if no operation after the previous published sample dropped final counts, committed a discarded, identity-changing or regressing update, or restarted the session; it is Partial only if one did |
| NStatLedger.LossFlagExact | src/BatCave.App/src-tauri/src/macos_network.rs:817-831 | In every reachable state the loss flag is set exactly when some operation raised a loss and none after it published a sample |
| NStatLedger.RestartLosesNothing | src/BatCave.App/src-tauri/src/macos_network.rs:613-623 | A restart discards no byte exactly when every entry of the shared interval is zero, which is exactly when no commit has charged any byte since the interval was last published or thrown away |
| NStatLedger.RestartCanLose | src/BatCave.App/src-tauri/src/macos_network.rs:613-623 | A run in which five bytes billed after the baseline are cleared by a restart and reach no sample |
| NStatSession.BytesPerSecond | src/BatCave.App/src-tauri/src/macos_network.rs:1097-1104 | The rate is the quotient rounded down, cut off at the 64-bit maximum |
| NStatEngine.AttributionEngine.CommitEvents | src/BatCave.App/src-tauri/src/macos_network.rs:817-831 | The commit loop equals applying the events one by one, each against the newest order of its source |
| LinuxProtocol.TranscriptReadBack | src/BatCave.App/src-tauri/src/linux_network.rs:753-873 | Printing any well-formed intervals numbered from 1 and feeding the lines returns exactly their maps |
| LinuxProtocol.OnlyTranscriptsAccepted | src/BatCave.App/src-tauri/src/linux_network.rs:753-873 | Conversely every accepted sequence of lines is the header followed by well-formed intervals numbered 1, 2, 3, ..., fewer than 2^64 - 1 of them, whose maps match the declared counts and totals, and a prefix of one more |
| LinuxProtocol.TranscriptsAccepted | src/BatCave.App/src-tauri/src/linux_network.rs:753-873 | Every such sequence is accepted, in whatever stage it stops |
| LinuxProtocol.PrintedIntervalReadBack | src/BatCave.App/src-tauri/src/linux_network.rs:915-962 | One printed interval for the expected epoch comes back as exactly its two maps |
| LinuxProtocol.ProtocolAssembler.Ingest | src/BatCave.App/src-tauri/src/linux_network.rs:753-873 | The staged assembler updates its fields as specified, and refuses exactly the lines the specification refuses |
| LinuxText.LineRoundTrip | src/BatCave.App/src-tauri/src/linux_network.rs:754-812 | At character level, every line with in-range numbers is split and parsed back exactly as printed |
| LinuxText.DecodeExact | src/BatCave.App/src-tauri/src/linux_network.rs:754-873 | A list of fields is read as a line exactly when it is that line's keyword followed by numerals, as many as the line has, that say its numbers and are in range |
| LinuxText.FieldsLaws | src/BatCave.App/src-tauri/src/linux_network.rs:754-756 | White space separates fields wherever it stands, and text without any is one field |
| LinuxIntervals.QuarantineConserves | src/BatCave.App/src-tauri/src/linux_network.rs:420-472 | At every point of every run, accepted intervals are the published ones, then the accumulated ones, then the last one, which is in quarantine; each process's bytes divide the same way; interval k is published only after k + 1 completed |
| LinuxIntervals.SampleAverages | src/BatCave.App/src-tauri/src/linux_network.rs:545-587 | A Ready sample averages exactly the accepted intervals not yet published, all but the last: rate * n <= bytes < (rate + 1) * n for every process and direction, a process missing from the rates having rate zero |
| LinuxIntervals.SampleAnswerExact | src/BatCave.App/src-tauri/src/linux_network.rs:303-336 | Over every run: a sample fails exactly when the protocol has ended, the reader is reported finished, or more than 3000 ms passed since the read that accepted the last interval (10000 ms since the start if none was); otherwise it is Ready exactly when some accepted interval but the last is unpublished, and else Held |
| LinuxIntervals.ErrorIsFinal | src/BatCave.App/src-tauri/src/linux_network.rs:668-701 | After the first line the assembler refuses, read error or end of output, whatever is read or sampled later, nothing is accepted or published any more and every sample fails |
| LinuxIntervals.AcceptedIsTranscript | src/BatCave.App/src-tauri/src/linux_network.rs:668-701 | The intervals accepted from the raw lines of the reader are those of the assembler's transcript |
| LinuxIntervals.PrintedIntervalsAccepted | src/BatCave.App/src-tauri/src/linux_network.rs:668-701 | At character level, the reader given the printed lines of any well-formed intervals, with samples at any time in between, accepts exactly those intervals |
| LinuxIntervals.EveryMapListed | src/BatCave.App/src-tauri/src/linux_network.rs:753-873 | Every map of process ids to bytes has a listing without repetition, and it is well-formed exactly when the map's total, size and ids are in range |
| LinuxIntervals.ListingTotal | src/BatCave.App/src-tauri/src/linux_network.rs:915-941 | Every listing of a map has the map's total and size, so the count and total declared for a section depend on the map alone |
| LinuxIntervals.AnyMapsAccepted | src/BatCave.App/src-tauri/src/linux_network.rs:668-701 | Any sequence of maps in range has a printed text that every reader, with samples at any time in between, accepts as exactly those maps |
| LinuxIntervals.Average | src/BatCave.App/src-tauri/src/linux_network.rs:578-587 | The average rounds down: rate * n <= bytes < (rate + 1) * n |
| LinuxRetry.StartsAreBudgeted | src/BatCave.App/src-tauri/src/linux_network.rs:94-153 | Between two published samples the monitor is started at most three times, whatever fails in between |
| LinuxRetry.CallExact | src/BatCave.App/src-tauri/src/linux_network.rs:94-153 | Over every run: a call attempts a start exactly when the monitor has been down for the retry delay and fewer than three attempts are spent; it hands out rates exactly when a running monitor has some, and holds exactly when a running one has none or was just started |
| LinuxRetry.ExhaustionIsFinal | src/BatCave.App/src-tauri/src/linux_network.rs:175-191 | A spent budget stays spent: later calls fail without a start |
| LinuxRetry.StartsAreSpaced | src/BatCave.App/src-tauri/src/linux_network.rs:175-191 | After a failure no start happens before the retry delay has passed |
| ArchivePreflight.Preflight | scripts/extract-macos-updater-archive.py:129-217 | The incremental check over dictionaries and running totals accepts exactly the archives that satisfy a declarative predicate (canonical paths, limits, one root that is a directory, no nested app, collision keys injective on all prefixes, no file used as a directory, no duplicate), and returns their records |
| ArchivePreflight.OrderIrrelevant | scripts/extract-macos-updater-archive.py:129-217 | Shuffling the members changes no verdict |
| ArchivePreflight.MemberOkExactly | scripts/extract-macos-updater-archive.py:78-170 | A member passes on its own exactly when its name spells a plain path with no later component ending in .app, it is a directory or regular file, and its size is declared and within 256 MiB for a file |
| ArchivePreflight.EnterMember | scripts/extract-macos-updater-archive.py:172-201 | The prefix loop passes exactly when the archive's path sets stay consistent with the member added and the member is not listed already |
| ArchivePaths.CheckedPartsExact | scripts/extract-macos-updater-archive.py:78-100 | A name yields given components exactly when it is those components written with single slashes, within the limits, followed by any number of slashes |
| ArchiveExtraction.Extract | scripts/extract-macos-updater-archive.py:352-404 | On any file system that tells apart what the collision key tells apart, extraction succeeds exactly when the destination is new, the archive acceptable and the second pass matches; then the tree holds exactly the archive's paths, each file once with its bytes and mode, each listed directory with its mode |
| ArchiveExtraction.ExtractFiles | scripts/extract-macos-updater-archive.py:368-394 | With an accepted layout no parent creation or exclusive file creation ever conflicts and the byte budget never runs out: the pass fails only when the stream differs from the records |
| ArchiveExtraction.SetModes | scripts/extract-macos-updater-archive.py:396-399 | Changing directory modes deepest first never locks out a later change, and leaves every file as it was |
| ArchiveExtraction.CopyMember | scripts/extract-macos-updater-archive.py:319-337 | Whatever chunk sizes the stream returns, the copy is the whole data of exactly the declared size within the budget, or a refusal |
| ArchiveExtraction.SnapshotRepeats | scripts/extract-macos-updater-archive.py:340-349 | Two passes over the same snapshot always match, so extraction fails only where preflight does |
| ArchiveExtraction.MatchesExactly | scripts/extract-macos-updater-archive.py:340-349 | A second-pass member matches exactly when it repeats the name, the kind, the size and the permission bits |
| ArchiveExtraction.NothingOverwritten | scripts/extract-macos-updater-archive.py:368-394 | Whatever the tree and the record, placing a file replaces nothing |
| AtomicWrite.TargetIsWhole | src/BatCave.App/src-tauri/src/atomic_json.rs:163-222 | For any number of interleaved writers in any processes, stopped at any step, the target holds its initial bytes or one complete payload |
| AtomicWrite.TemporariesNotShared | src/BatCave.App/src-tauri/src/atomic_json.rs:269-299 | Two live writers never hold the same temporary, each finds in its own what it wrote, and files left over from earlier processes are never touched |
| AtomicWrite.NotCommittedIsTrue | src/BatCave.App/src-tauri/src/atomic_json.rs:163-222 | A call that answered NotCommitted changed the target at none of its steps |
| AtomicWrite.CommittedIsTrue | src/BatCave.App/src-tauri/src/atomic_json.rs:340-359 | A call that answered Ok, or that durability is uncertain, put exactly its payload in place at one of its steps |
| AtomicWrite.OutcomeExact | src/BatCave.App/src-tauri/src/atomic_json.rs:163-222 | A call that has returned answers NotCommitted exactly when one of its own calls before the rename failed or 128 names were taken, that durability is uncertain exactly when the directory sync failed after the rename, and Ok exactly when neither happened |
| AtomicWrite.CallReturns | src/BatCave.App/src-tauri/src/atomic_json.rs:163-222 | Every step of a live call brings it nearer its end: at most 262 steps more than its payload has bytes |
| AtomicWrite.NoLeftovers | src/BatCave.App/src-tauri/src/atomic_json.rs:163-222 | When no process died, no removal failed and every call has returned, the directory holds exactly the files it held before |
| AtomicWrite.StepKeepsInv | src/BatCave.App/src-tauri/src/atomic_json.rs:163-222 | Every step, including cleanup after a failed directory sync and the death of a process, keeps the invariant behind these results |
| AtomicWrite.Volume.CreateTemp | src/BatCave.App/src-tauri/src/atomic_json.rs:269-299 | The loop creates the first free one of the next 128 names, and fails exactly when there is none or an open fails for another reason |
| AtomicWrite.Volume.Write | src/BatCave.App/src-tauri/src/atomic_json.rs:163-222 | One call on its own: the target changes exactly when the answer says so, and at most its own temporary stays behind, only when removing it failed |
| NetworkBinder.ProvenExactly | src/BatCave.App/src-tauri/src/network_attribution.rs:119-187 | After any run, the next bind proves a (pid, start time) exactly when it is current, the operation just before held the same pair, and any platform generation seen now is unique and equals the one last recorded for that pid |
| NetworkBinder.PlatformMemory | src/BatCave.App/src-tauri/src/network_attribution.rs:146-165 | The remembered platform generation is the one some bind saw alone, with the process present and none seen at every operation since |
| NetworkBinder.LastRowWins | src/BatCave.App/src-tauri/src/network_attribution.rs:190-196 | The current generation of a process id is the one its last usable row says |
| NetworkBinder.CreditedOnce | src/BatCave.App/src-tauri/src/network_attribution.rs:170-183 | Proven generations belong to different processes and their rates never add up to more than was observed: no observation is credited twice |
| NetworkBinder.Binder.Bind | src/BatCave.App/src-tauri/src/network_attribution.rs:119-187 | Whatever order the hash maps are visited in, each proven generation gets the exact sum of the rates observed for its process (cut off at 64 bits), every other one nothing, and the two maps are replaced as specified |
| NetworkBinder.GroupByPid | src/BatCave.App/src-tauri/src/network_attribution.rs:126-132 | Grouping in any order keeps, per process, the exact sum and the set of platform generations |
| DesktopProbe.FooterExact | src/BatCave.App/src-tauri/src/desktop_probe.rs:172-224 | Under all interleavings, when the footer is written every accepted observation was written, counted as over the limit, or is covered by the failure flag; the footer's count is the number of refused calls plus those over the limit |
| DesktopProbe.AnswerExact | src/BatCave.App/src-tauri/src/desktop_probe.rs:136-169 | Over every run: a call is ignored exactly when either look at the clock was too late or admission is closed; otherwise an invalid observation is rejected, a valid one busy exactly when 256 accepted rows wait, and else accepted |
| DesktopProbe.ReceivingExact | src/BatCave.App/src-tauri/src/desktop_probe.rs:194-209 | Over every run the worker receives until the first deadline or failed write |
| DesktopProbe.NothingAfterFooter | src/BatCave.App/src-tauri/src/desktop_probe.rs:210-224 | After the footer's count is read no call is accepted or rejected and nothing changes |
| DesktopProbe.Recorder.Finish | src/BatCave.App/src-tauri/src/desktop_probe.rs:210-224 | Closing and draining handles every queued row exactly once, and without a failed write the rows within the limit are written in order |
| AbsoluteScheduler.Scheduler.Cadence | src/BatCave.App/src-tauri/src/collector_engine.rs:415-421 | Total misses, in-window misses and the 95th percentile of the in-window lateness, read together |
| TimedWindows.TimedWindow.Prune | src/BatCave.App/src-tauri/src/collector_engine.rs:779-786 | The in-place loop drops exactly the leading samples that are too old |
| PersistenceCoordinator.Coordinator.Perform | src/BatCave.App/src-tauri/src/persistence.rs:1132-1218 | A whole operation: root check, storage result, bookkeeping; it answers success exactly when both went well |
| NStatEngine.AttributionEngine.PruneTombstones | src/BatCave.App/src-tauri/src/macos_network.rs:318-321 | Pruning forgets the orders of sources that are gone and nothing else |
| LinuxIntervals.SharedIntervals.TakeRates | src/BatCave.App/src-tauri/src/linux_network.rs:545-569 | The accumulator is averaged and emptied; an empty one gives nothing |
| ArchivePreflight.CheckMember | scripts/extract-macos-updater-archive.py:141-170 | The member's own rules and the three running totals, in the source's order |
| ArchivePreflight.Scan | scripts/extract-macos-updater-archive.py:140-205 | The member loop runs through exactly when every member is valid and the archive as a whole stays within the limits and consistent |
| ArchiveExtraction.MakeListed | scripts/extract-macos-updater-archive.py:362-366 | Creating the listed directories never fails, and puts every prefix of each of them in place |
| NetworkBinder.CurrentByPid | src/BatCave.App/src-tauri/src/network_attribution.rs:190-196 | The last valid row of a process id wins |
| NetworkBinder.FoldRates | src/BatCave.App/src-tauri/src/network_attribution.rs:170-178 | The saturating fold equals the exact sum cut off at the end |

## Left out

- Integer width: counters are unbounded, so `saturating_add` on u64 generations, revisions and byte sums never saturates, except where the cut-off is stated (`NStatSession.BytesPerSecond`, `NetworkBinder.Binder.Bind`, the assembler's checked additions).
- Error texts: errors are enumerations or a single refusal; which of several violated archive rules is reported first is not modelled.
- Operating system calls: sockets, bpftrace processes, permissions, thread creation and the Windows file move are environment choices or absent; durability after power loss is not modelled.
- TimedWindows.P95At: uses the exact integer nearest rank where the source rounds 0.95 n as a float, and whole time units instead of milliseconds as floats.
- TimedWindows.NearestRank: the same integer rank.
- CollectorProtocol.NoCallerStranded: a timeout is a step a waiter may take at any time, `notify` is assumed not to panic, and a call made after shutdown began may still register before the gate closes.
- LinuxProtocol.ProtocolAssembler.Ingest: does not say what state a refused line leaves behind, because the reader never feeds another line.
- BackgroundWriter.FlushIsTruthful: whether the log breaker holds a diagnostic back is a choice of the environment; the breaker itself is in `DiagnosticLog`, and Windows migration jobs are absent.
- WriterAnswers.HealthExact: reports per component; the writer's downgrade of the summary state while a refusal is outstanding is not modelled, and its texts (closed, full, panicked) are one failure.
- PersistenceCoordinator.HealthIsTruthful: the map of components is a record with one field for each of the three.
- NStatSession.PruningIsInvisible: message parsing and process qualification are not modelled; qualification is a flag that comes with each answer, and dropped final counts may be noted at any time.
- ArchivePreflight.Preflight: Unicode normalization and case folding are parameters, and names that cannot be encoded cannot be expressed; gzip, tar and the snapshot digests are not modelled.
- ArchiveExtraction.Extract: removal of the destination after a failure is taken to succeed, and the owner bits of new directories are not masked.
- AtomicWrite.TargetIsWhole: one target name; two targets whose names are not valid text would share a temporary prefix, which is not modelled.
- NetworkBinder.Binder.Bind: parsing of the pid text is an input.
- DesktopProbe.FooterExact: a partly written line counts as lost; the header and the final file sync are not modelled.
- `runtime_store`, `protocol`, `telemetry`, `workload_history`, `contracts` serialization, CPU and memory sampling, icons, theming, the TypeScript front end and the build scripts: these would add easy members or floating-point formulas only.
