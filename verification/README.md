# The offline cleaning pipeline, modelled and verified

Probe-X cleans the events of every finished day, one slice - one session of one day - at a time. A master
pages through the event log, finds slices that are not complete, and sends cleaning tasks to compute nodes
over long-lived streams. A node claims the slice, reads its events, computes attributions, and writes two
ClickHouse tables whose inserts are not atomic. Nodes crash, replies get lost, streams are replaced, leases
expire, tasks are retried. This project models that pipeline in Dafny and proves what it is meant to
guarantee. `dafny verify dfyconfig.toml` checks all of it.

## How it is built

| files | what they model |
|---|---|
| `SliceCommit`, `SharedTaskIds`, `FinishedRuns` | the commit protocol of a Rust attempt as a state machine: every await is a step, commands may take effect late, twice or never; runs of it that break, and runs that carry chosen attempts through |
| `ExactlyOnce` | what leases add to it: one attempt at work on a slice at a time, and no row stored twice |
| `OutputTables`, `RetryConvergence`, `SliceWriter` | what repeated, partly failing attempts leave in the output tables; the write path as methods refining it |
| `EventStream`, `Batching`, `InsertWriter` | chunked response to lines to bounded batches; bounded lookups and inserts; the writer that merges inserts |
| `BacklogReader` | keyset paging and the filter for complete and incomplete slices |
| `TaskIds`, `Tasks` | deterministic ids, how they are read back, and when they are ambiguous |
| `Ledger`, `RunLaws` | the scheduler's books, the history of its steps, and laws over every history |
| `ScanPlan`, `SchedulerState`, `Scheduler` | the scan ranges, the whole state as a value, and the scheduler's class with its turns |
| `TurnLaws` | what those turns do to the nodes' slots, to slices a node holds, and to the demands of a page's rows |
| `NodeRegistry`, `ControlPlane` | the node registry's class, and the two together: frames, timers and settlements, turn by turn |
| `Pipeline` | the scheduler's history set against the runs of the commit protocol |
| `WorkerPool`, `NodeTasks`, `RustNode` | the schedulers inside a compute node |
| `MetricsBuffer`, `SpeedSamples`, `AttributionWeights` | conservation of telemetry counters, of credited progress, and of attribution credit |

Code that changes fields is modelled by classes whose methods are tied to functions of the old state; the
invariants are proved about those functions on plain values, and the classes carry them as `Valid`. Ghost
state records what cannot be seen in the fields: the scheduler's history (`trace`), which node will report a
task (`holder`), what was counted and where it went. What a method cannot know - whether a send or a worker's
start succeeds, what the reader sees - comes from a function given to the constructor or from a parameter.

The main theorems:

- `SliceCommit.CommitSafety` and `HiddenSliceIsComplete`: no unfinished slice is ever both written to and
  unmarked, so the reader never hides one. `SharedTaskIds.SafeExactlyWithoutSharedIds` shows that this holds
  exactly when no task id is shared by two slices.
- `ExactlyOnce.MutualExclusion` and `NoRowTwice`: while leases last, attempts at one slice exclude each other;
  while in addition no insert is carried out late or twice, no row is stored more often than the source asks for,
  so that a slice with rows and no marker holds its source exactly (`UnmarkedIsExact`).
- `RetryConvergence.RetryConverges`: retries converge to the exact rows if and only if event ids are distinct,
  each attribute of each event counted (`SuccessStoresAttributes`).
- `ControlPlane.Master.SentIsHeld` with `RunLaws.HeardExactlyOnce`: however a task leaves a node, the
  scheduler hears of it exactly once.
- `Pipeline.RecordedDayIsComplete`: what a recorded daily run stands for in the output tables. It joins the
  scheduler's history (`ControlPlane.FinishedSweepMeans`, `RunLaws.ResolvedMeans`) with the commit protocol,
  whose condition on ids `Pipeline.ScheduledIdsNotShared` discharges. `Pipeline.CompleteExactlyWhenProven` says
  exactly which slices a history proves complete.
- `ControlPlane.Master.AlwaysInOrder` and `RunLaws`: the load bound, the order of runs, slice exclusion and
  the retry bound over every history.
- `ControlPlane.Master.OnRegister` and `TurnLaws`: what a returning node reports is held from that turn on and
  not sent again, no node is filled above its capacity, and what a backlog row demands its dispatches meet
  (`RunLaws.RustDemandIsMet`).
- `Scheduler.CleaningScheduler.Drain` with `SchedulerState.DrainConserves`: dispatching is work-conserving. When
  time stands still and every send arrives, a drain ends with nothing dispatchable or after exactly a hundred
  sends, unless an id is read back wrongly.

## What the proofs brought to light

- An id does not always identify its slice. The first retry of session `x` and the first attempt of session
  `x:r1` have the same id (`TaskIds.CollisionExample`), and a first attempt of session `r5` is not restored
  at all (`TaskIds.LostSessionExample`): the separating colon counts as part of the retry suffix.
  `IdCollision`, `IdsIdentifySlices` and `RestoreRoundTrip` give the exact conditions. The control plane's
  theorems assume a log without such twins, which is `Tells` in `Tasks`; with twins, two nodes hold one id and a
  slice is stranded in flight (`ControlPlane.TwinsStrand`).
- A task whose id is read back wrongly can stop a drain: a node that reports such an id is not seen to hold the
  slice, so the task is tried there, refused and put back, and the tasks behind it wait for another drain
  (`SchedulerState.MisreadIdBlocks`, `LostSessionBlocks`). Nothing else does, without a fault (`DrainConserves`).
- When one id is submitted for two slices, a retry can clear the marker of a half-written slice
  (`SharedTaskIds.BrokenRun`).
- A lease guards a slice only while it lasts. When one expires under an insert in flight, a second attempt finds
  the row missing and stores it, and then the first insert does (`ExactlyOnce.LostLeaseStoresTwice`). No other
  step takes a lease from its holder (`OnlyExpiryTakesLeases`).
- Two events with one id: retries may leave a row missing for good (`RetryConvergence.RepeatedIdDiverges`).
- A register frame looks the node up under the id as sent and binds it under the trimmed id. An id with
  surrounding blanks therefore never ends the tasks its snapshot lacks (`NodeRegistry.BlankIdEndsNothing`,
  `SnapshotEnds`).
- A flush whose reply is lost counts its counters twice (`MetricsBuffer.LostReplyCountsTwice`); nothing else
  does (`MetricsBuffer.Metrics.Conserved`).
- A recorded day is not quite a day whose slices are all complete: `Pipeline.RecordedDayIsComplete` names the
  three exceptions, and `Pipeline.SweptButUnfinished` shows for each a history that sweeps a day and leaves its
  slice unfinished. A slice is complete for certain exactly when the history proves it
  (`Pipeline.CompleteExactlyWhenProven`, `ProvesUnlessExcused`).
- The reader must look for rows before markers; the other order can hide a half-written slice
  (`Pipeline.MarkersThenRows`).

## Model

| member | source | states |
|---|---|---|
| SliceCommit.CommitSafety | apps/final-data-cleaning-rust/src/state_store.rs:174-241 | In every reachable state of any number of interleaved attempts - crashes, lost or repeated commands, lost replies, expiring leases and done keys - each slice has no output rows, or carries the incomplete marker, or has every row it should have |
| SliceCommit.HiddenSliceIsComplete | apps/data-dashboard-api-service/src/api/compute-node/cleaning-backlog-reader.ts:136-161 | A reader that sees final rows first and no marker at a later look hides only a slice that is complete then and ever after |
| SliceCommit.DoneMeansComplete | apps/final-data-cleaning-rust/src/state_store.rs:253-257 | A task id recorded as done, or an attempt that skips or finishes, only ever speaks of a complete slice |
| SliceCommit.NextKeeps | apps/final-data-cleaning-rust/src/node.rs:281-352 | Every step of an attempt and of the environment keeps the invariant that an unfinished slice with any trace of output is marked and cannot be finished |
| SliceCommit.FinishMeansComplete | apps/final-data-cleaning-rust/src/node.rs:354-422 | An attempt that reaches the end of the stream with as many rows as the source counts has covered every event and attribution of the slice |
| SliceCommit.CommitKeeps | apps/final-data-cleaning-rust/src/state_store.rs:216-236 | Setting the done key and then clearing the marker, in that order and with replies lost at will, keeps the invariant when ids name one slice each |
| SliceCommit.RunGrows | apps/final-data-cleaning-rust/src/storage.rs:453-468 | Along any run both tables of a slice only gain rows |
| ExactlyOnce.MutualExclusion | apps/final-data-cleaning-rust/src/state_store.rs:184-216 | Along every run in which a lease goes only when its holder asked for that, at most one attempt of a slice is at once past asking and not yet done with its work, and it holds the lease |
| ExactlyOnce.OnlyExpiryTakesLeases | apps/final-data-cleaning-rust/src/state_store.rs:184-236 | No step takes a lease from its holder except its own release or the lease's expiry |
| ExactlyOnce.NoRowTwice | apps/final-data-cleaning-rust/src/node.rs:296-422 | While leases are kept and no insert is carried out late or twice, no event row or attribution row of any slice is ever stored more often than the source asks for, crashes, lost replies and retries included |
| ExactlyOnce.UnmarkedIsExact | apps/final-data-cleaning-rust/src/node.rs:296-422 | Under the same conditions, with distinct event ids, a slice that has rows and no marker holds exactly its source: every event once, and each attribution as often as the events list it |
| ExactlyOnce.UndisturbedRun | apps/final-data-cleaning-rust/src/node.rs:281-422 | A concrete run that meets those conditions: an undisturbed attempt stores its slice, is done with it, and leaves neither marker nor lease |
| ExactlyOnce.DoneTaskIsSkipped | apps/final-data-cleaning-rust/src/state_store.rs:184-216 | While its done key lasts, no attempt submitted after the task was done works on it again |
| ExactlyOnce.LostLeaseStoresTwice | apps/final-data-cleaning-rust/src/state_store.rs:184-241 | A concrete run: a lease expires under an insert in flight, a second attempt stores the row, and then the first insert does |
| SharedTaskIds.SafeExactlyWithoutSharedIds | apps/final-data-cleaning-rust/src/state_store.rs:174-236 | Commit safety holds for every event log and every run if and only if no task id is submitted for two slices |
| SharedTaskIds.BrokenRun | apps/final-data-cleaning-rust/src/state_store.rs:198-212 | A concrete run: one id for two slices makes a retry clear the marker of a half-written slice |
| FinishedRuns.CarriesAll | apps/final-data-cleaning-rust/src/node.rs:281-422 | Any attempts wanted, under ids of one slice each, are carried through by some run, which leaves their slices written, unmarked and done, and touches no other |
| FinishedRuns.UnusedStaysEmpty | apps/final-data-cleaning-rust/src/node.rs:281-352 | Along any run nothing is stored, sent or worked on for a slice no id was submitted for |
| RetryConvergence.RetryConverges | apps/final-data-cleaning-rust/src/storage.rs:323-449 | For every history of attempts, each persisting any part of its inserts and batching as it likes, the first success leaves exactly the source rows and attribution multisets - if and only if the event ids are distinct |
| RetryConvergence.SuccessStoresAttributes | apps/final-data-cleaning-rust/src/node.rs:424-450 | From the first success on, the stored count of every event id, key and value is the number of such attributes in the source's events, there are as many rows as attributes, and the events are the source's |
| RetryConvergence.AllTuplesCount | apps/final-data-cleaning-rust/src/node.rs:424-450 | What is wanted for a source has each attribution as often as its events list it, and no other row |
| OutputTables.TuplesAreAttributes | apps/final-data-cleaning-rust/src/node.rs:424-450 | An event has one attribution row per attribute, a repeated one repeated, and no other |
| RetryConvergence.AttemptCompletes | apps/final-data-cleaning-rust/src/node.rs:354-422 | A successful attempt covers every event whatever the tables held before, even when ids repeat |
| RetryConvergence.PartlyWrittenWithin | apps/final-data-cleaning-rust/src/storage.rs:323-377 | With distinct ids no write, complete or partial, stores a row twice |
| RetryConvergence.RepeatedIdDiverges | apps/final-data-cleaning-rust/src/storage.rs:323-377 | Two events with one id: a failed attempt over one and then a full success leave a row missing |
| OutputTables.WrittenTakesMaximum | apps/final-data-cleaning-rust/src/storage.rs:381-449 | Per attribution tuple a completed write leaves the larger of the old and the wanted count |
| OutputTables.PartlyWrittenBetween | apps/final-data-cleaning-rust/src/storage.rs:381-449 | A failed write leaves every count between the old one and that maximum |
| OutputTables.DeductBag | apps/final-data-cleaning-rust/src/storage.rs:425-447 | Filtering the rows against the observed counts keeps exactly the wanted multiplicity minus the observed one |
| SliceWriter.EventTimeBounds | apps/final-data-cleaning-rust/src/storage.rs:700-716 | The smallest and largest time of the batch, or none as soon as one time is not canonical or the batch is empty |
| SliceWriter.LookupEvents | apps/final-data-cleaning-rust/src/storage.rs:323-360 | Bounded requests narrowed to the time span together find exactly the ids of the batch already stored |
| SliceWriter.LookupTuples | apps/final-data-cleaning-rust/src/storage.rs:381-425 | Bounded requests together give the stored count of every tuple asked for |
| SliceWriter.DeductStored | apps/final-data-cleaning-rust/src/storage.rs:425-447 | The counting-down loop computes the specified deduction |
| SliceWriter.Cleaner.WriteEvents | apps/final-data-cleaning-rust/src/storage.rs:323-377 | Success stores exactly the missing rows; an error stores a part of them and nothing else |
| SliceWriter.Cleaner.WriteAttributions | apps/final-data-cleaning-rust/src/storage.rs:381-449 | The same for attribution rows, by count |
| SliceWriter.Cleaner.WriteBatch | apps/final-data-cleaning-rust/src/storage.rs:453-468 | Both writes settle before either result counts; success leaves of every attribution the larger of the stored number and the number listed by the batch, and anything less is a partial write |
| SliceWriter.Cleaner.Clean | apps/final-data-cleaning-rust/src/node.rs:354-422 | One attempt is a history of batch writes from fresh lookups, successful only when all batches are written and the row count is met |
| SliceWriter.Cleaner.CleanWithRetries | apps/final-data-cleaning-rust/src/node.rs:281-352 | Retrying until a success leaves exactly the source in both tables, each attribution as often as the source's events list it |
| Batching.ParameterBatches | apps/final-data-cleaning-rust/src/storage.rs:662-692 | Groups in order that together are the rows, each within the row limit and, unless a single row, within the byte limit, each closed only because the next row would not fit |
| Batching.PlanFits | apps/final-data-cleaning-rust/src/storage.rs:470-510 | Every insert chunk passes the writer's guard, and together the chunks are the rows in order |
| Batching.PlanIsTight | apps/final-data-cleaning-rust/src/storage.rs:470-510 | A chunk ends only because it is full or the next row would not fit |
| Batching.TableWriter.EnqueueInsert | apps/final-data-cleaning-rust/src/storage.rs:283-320 | An insert that fits the limits is handed to the writer, one that does not is refused unsent; an acknowledged insert is stored in full, otherwise any part of it may be |
| Batching.TableWriter.InsertRows | apps/final-data-cleaning-rust/src/storage.rs:470-510 | Success stores every row; an error stores the chunks before it whole and of one more at most a part, and it means that a row was too large or that the last chunk handed over was refused |
| InsertWriter.Collect | apps/final-data-cleaning-rust/src/storage.rs:515-560 | Jobs are taken in order of arrival up to a limit or the deadline; one is carried over only because it does not fit, only jobs whose caller is gone are dropped |
| InsertWriter.Turn | apps/final-data-cleaning-rust/src/storage.rs:515-568 | One turn makes one request of its live jobs, within both limits, and answers each with that request's own result |
| InsertWriter.RunInsertWriter | apps/final-data-cleaning-rust/src/storage.rs:515-568 | The turns split the arrivals into consecutive runs: no job is lost, doubled or overtaken, the carried-over one included |
| InsertWriter.LiveCaller | apps/final-data-cleaning-rust/src/storage.rs:515-568 | A caller still waiting is in exactly one INSERT, hears its result, and never the opposite |
| EventStream.EventBatches.ReadLine | apps/final-data-cleaning-rust/src/storage.rs:101-140 | The next line, or the error, is a function of the unread bytes and the way the response ends, not of chunk boundaries |
| EventStream.EventBatches.NextBatch | apps/final-data-cleaning-rust/src/storage.rs:142-172 | The next batch and what stays unread are a function of the unread bytes and the row kept back |
| EventStream.FillMovesRows | apps/final-data-cleaning-rust/src/storage.rs:142-172 | Filling a batch moves rows from the stream to the batch and loses none, the kept row included |
| EventStream.BatchesCoverRows | apps/final-data-cleaning-rust/src/storage.rs:142-172 | The batches concatenate to the parsed rows; each is non-empty and within both limits, and one with another behind it is full or the next row does not fit |
| EventStream.EncodedRowsReadBack | apps/final-data-cleaning-rust/src/storage.rs:101-172 | Rows written one per line read back as themselves, whether or not lines end in a carriage return as well |
| EventStream.BrokenIsError | apps/final-data-cleaning-rust/src/storage.rs:101-172 | A response that breaks off ends in an error, whatever came before |
| EventStream.ReadAll | apps/final-data-cleaning-rust/src/storage.rs:101-172 | All batches of a response, and the error that ends it, are a function of its bytes and of how it ends, however it is chunked |
| BacklogReader.SameKeySameSlice | apps/data-dashboard-api-service/src/api/compute-node/cleaning-backlog-reader.ts:75-135 | Rows that share the sort key belong to one slice, so skipping the rest of them skips no slice |
| BacklogReader.PageAdvances | apps/data-dashboard-api-service/src/api/compute-node/cleaning-backlog-reader.ts:75-135 | What was passed and what the page read never leaves the range, and after a short page it is the whole range |
| BacklogReader.PageMovesCursor | apps/data-dashboard-api-service/src/api/compute-node/cleaning-backlog-reader.ts:75-135 | A page moves the cursor over exactly the slices it read: rows that share the last sort key are skipped, no slice is |
| BacklogReader.Sweep | apps/data-dashboard-api-service/src/api/compute-node/cleaning-backlog-reader.ts:75-164 | Pages of any sizes of at least one row, from no cursor until done, end and find exactly the slices of the logged rows up to the range's last day, of its target day if it has one |
| BacklogReader.ReadIncomplete | apps/data-dashboard-api-service/src/api/compute-node/cleaning-backlog-reader.ts:46-68 | Either every candidate of every day was answered and the result is exactly the marked candidates, or the whole reading fails |
| BacklogReader.ReadPage | apps/data-dashboard-api-service/src/api/compute-node/cleaning-backlog-reader.ts:75-164 | A page leaves out a candidate only if it has final rows and no marker, requires a Rust node exactly for marked ones, and shows every slice once; it fails for want of markers exactly when a question about one of its own candidates goes unanswered |
| BacklogReader.PageStaysInside | apps/data-dashboard-api-service/src/api/compute-node/cleaning-backlog-reader.ts:75-164 | A page shows no more slices than rows were asked for, and each is that of a logged row of the range |
| TaskIds.RunDateField | apps/data-dashboard-api-service/src/api/compute-node/cleaning-scheduler.service.ts:50-53 | The second colon field of every id the scheduler builds is its run date |
| TaskIds.RestoreRoundTrip | apps/data-dashboard-api-service/src/api/compute-node/node-registry.service.ts:661-666 | An id read back gives its slice if and only if it is a retry or colon-plus-session does not end like a retry suffix |
| TaskIds.RestoreShortened | apps/data-dashboard-api-service/src/api/compute-node/node-registry.service.ts:661-666 | What is restored instead when the session's own tail is taken for a retry suffix |
| TaskIds.RestoredIsDated | apps/data-dashboard-api-service/src/api/compute-node/node-registry.service.ts:661-666 | Only ids of cleaning tasks are restored, and only to a slice whose date has the shape of one |
| TaskIds.IdCollision | apps/data-dashboard-api-service/src/api/compute-node/cleaning-scheduler.service.ts:50-53 | Exactly when two ids are the same string, for any runs, slices and attempts |
| TaskIds.IdsIdentifySlices | apps/data-dashboard-api-service/src/api/compute-node/cleaning-scheduler.service.ts:50-53 | The ids of one run tell the slices and attempts of a log apart if and only if no session is another one plus a retry suffix |
| TaskIds.CollisionExample | apps/data-dashboard-api-service/src/api/compute-node/cleaning-scheduler.service.ts:50-53 | A concrete collision: the first retry of session x and the first attempt of session x:r1 |
| TaskIds.LostSessionExample | apps/data-dashboard-api-service/src/api/compute-node/node-registry.service.ts:661-666 | A concrete first attempt that is not read back although its session alone does not end in a retry suffix |
| Tasks.CleaningIdsTell | apps/data-dashboard-api-service/src/api/compute-node/cleaning-scheduler.service.ts:50-53 | For a log without such twins the ids identify run, slice and attempt, which is what the scheduler and the registry rely on |
| Ledger.OfferKeeps | apps/data-dashboard-api-service/src/api/compute-node/cleaning-scheduler.service.ts:359-366 | Queueing or refusing a task keeps the books in order and every slice accounted for |
| Ledger.SendAllowed | apps/data-dashboard-api-service/src/api/compute-node/cleaning-scheduler.service.ts:389-442 | A queued task may always be sent: its slice has no task out, fewer than three failures, and a Rust-bound one goes to a Rust node |
| Ledger.DispatchKeeps | apps/data-dashboard-api-service/src/api/compute-node/cleaning-scheduler.service.ts:389-442 | Sending keeps the books in order: queue and in-flight slices stay disjoint and the load counts exact |
| Ledger.PutBackKeeps | apps/data-dashboard-api-service/src/api/compute-node/cleaning-scheduler.service.ts:425-441 | A refused send puts the task at the end of the queue with nothing else changed |
| Ledger.SettleKeeps | apps/data-dashboard-api-service/src/api/compute-node/cleaning-scheduler.service.ts:445-476 | However a task ends - success, retry, refused retry or third failure - the books stay in order and its slice stays accounted for |
| Ledger.SettleShrinks | apps/data-dashboard-api-service/src/api/compute-node/cleaning-scheduler.service.ts:445-476 | Settling never loads more than it unloads |
| RunLaws.HeardExactlyOnce | apps/data-dashboard-api-service/src/api/compute-node/cleaning-scheduler.service.ts:445-476 | Along every run every accepted task is heard of exactly once, unless it is still open, and nothing else is heard of |
| RunLaws.AtMostThreeFailures | apps/data-dashboard-api-service/src/api/compute-node/cleaning-scheduler.service.ts:459-470 | While a slice is not forgotten it gets at most three failed dispatches per run |
| RunLaws.GivenUpAfterThree | apps/data-dashboard-api-service/src/api/compute-node/cleaning-scheduler.service.ts:459-470 | A slice is given up only after exactly three failures |
| RunLaws.RetriesStayOnRust | apps/data-dashboard-api-service/src/api/compute-node/cleaning-scheduler.service.ts:405-420 | Once a slice went to a Rust node every later dispatch goes to a Rust node until it is offered anew |
| RunLaws.RustDemandIsMet | apps/data-dashboard-api-service/src/api/compute-node/cleaning-scheduler.service.ts:298-301 | From the offer of a slice whose backlog row demands a Rust node until it is offered anew, every dispatch of it goes to a Rust node |
| RunLaws.OneTaskPerSlice | apps/data-dashboard-api-service/src/api/compute-node/cleaning-scheduler.service.ts:359-366 | Between two dispatches of one slice the first is heard of |
| RunLaws.RunsDoNotOvertake | apps/data-dashboard-api-service/src/api/compute-node/cleaning-scheduler.service.ts:329-345 | A task of a newer run is sent only after every task sent for an older run was heard of |
| RunLaws.ResolvedMeans | apps/data-dashboard-api-service/src/api/compute-node/cleaning-scheduler.service.ts:445-483 | A slice counts as resolved in a run exactly when the history explains it: the reader's look found final rows and no marker, a node held it, a task sent for it succeeded, or exactly three had failed |
| RunLaws.ForgottenInTurn | apps/data-dashboard-api-service/src/api/compute-node/cleaning-scheduler.service.ts:478-483 | A recently settled slice is forgotten only when it was settled for another run as well, or more than ten thousand settlements, in order, followed its own |
| NodeRegistry.NodeRegistry.PickIdleNode | apps/data-dashboard-api-service/src/api/compute-node/node-registry.service.ts:363-370 | The first node in order of arrival that is alive, available, of the runtime asked for and holds no task or fewer than its capacity; none is found only if every other such node holds a task and at least as many as its capacity |
| NodeRegistry.NodeRegistry.DispatchTask | apps/data-dashboard-api-service/src/api/compute-node/node-registry.service.ts:323-358 | A task is accepted exactly when the node is idle for it, does not hold it and is reached, and then it is the node's only task or the node is within its capacity; a failed send leaves everything the node must report unchanged |
| NodeRegistry.NodeRegistry.ApplyRegister | apps/data-dashboard-api-service/src/api/compute-node/node-registry.service.ts:188-224 | A register frame binds the stream, takes over every reported unknown task of a node bound anew without waiting for it, and drops what a returning node no longer reports |
| NodeRegistry.NodeRegistry.ApplyProgress | apps/data-dashboard-api-service/src/api/compute-node/node-registry.service.ts:519-558 | Only a frame for an active task of the node registered on its stream counts; the last one releases that task alone and remembers it as finished |
| NodeRegistry.NodeRegistry.Detach | apps/data-dashboard-api-service/src/api/compute-node/node-registry.service.ts:165-180 | Only the stream the node is bound to takes it offline |
| NodeRegistry.NodeRegistry.Reconcile | apps/data-dashboard-api-service/src/api/compute-node/node-registry.service.ts:797-822 | Exactly a node found dead loses its tasks, all of them at once |
| NodeRegistry.RestoreAdds | apps/data-dashboard-api-service/src/api/compute-node/node-registry.service.ts:495-513 | After a snapshot the active tasks are exactly those active before and those reported that are neither empty nor lately finished; the former are unchanged, the latter carry the slice their id reads back to and are not waited for |
| NodeRegistry.RegisteredTakesOver | apps/data-dashboard-api-service/src/api/compute-node/node-registry.service.ts:183-224 | A frame that binds a node anew - an unknown one, or on another stream, or after a silence - leaves every task it reports in the node's active map with the slice its id reads back to, unless it is known to be active or lately finished; any other frame adds none. What the frame says of the node is noted |
| NodeRegistry.TakesHasRoom | apps/data-dashboard-api-service/src/api/compute-node/node-registry.service.ts:323-370 | A node that takes a task is live, available, of the runtime asked for and below its capacity or empty, and has one task more afterwards |
| NodeRegistry.ProgressEnds | apps/data-dashboard-api-service/src/api/compute-node/node-registry.service.ts:538-558 | The last frame of a task frees its slot, leaves every other task alone and remembers the id, dropping at most the oldest of a thousand |
| NodeRegistry.TrimIs | apps/data-dashboard-api-service/src/api/compute-node/node-registry.service.ts:189-192 | Trimming takes blanks from both ends and nothing else |
| NodeRegistry.SnapshotEnds | apps/data-dashboard-api-service/src/api/compute-node/node-registry.service.ts:189-214 | A returning node ends exactly the awaited tasks it does not name if its id carries no surrounding blanks, and none otherwise; the two agree if and only if the id is trimmed or nothing is owed |
| NodeRegistry.BlankIdEndsNothing | apps/data-dashboard-api-service/src/api/compute-node/node-registry.service.ts:189-214 | A concrete register frame with a blank before its id: the node is bound, its snapshot lacks the awaited task, and the task stays awaited |
| NodeRegistry.HeldExactlyOnce | apps/data-dashboard-api-service/src/api/compute-node/node-registry.service.ts:323-358 | The tasks the scheduler waits for are those the nodes will report, each held by exactly one node |
| NodeRegistry.LinkDrops | apps/data-dashboard-api-service/src/api/compute-node/node-registry.service.ts:797-808 | Releasing tasks of one node makes exactly those pending and leaves every other holder alone |
| NodeRegistry.LinkSends | apps/data-dashboard-api-service/src/api/compute-node/node-registry.service.ts:323-358 | A send makes exactly one node the holder of the new task |
| ScanPlan.FinishKeeps | apps/data-dashboard-api-service/src/api/compute-node/cleaning-scheduler.service.ts:300-321 | When a page is used up its scan moves on, waits or is done with, and no slice it passed is left unaccounted for |
| ScanPlan.ArriveKeeps | apps/data-dashboard-api-service/src/api/compute-node/cleaning-scheduler.service.ts:280-299 | A page that arrives still belongs to the scan of the oldest run |
| ScanPlan.OldestLeads | apps/data-dashboard-api-service/src/api/compute-node/cleaning-scheduler.service.ts:329-338 | The scan chosen has the oldest run of all that is registered or loaded, which is also the run of whatever is loaded |
| ScanPlan.RestartFromSweeps | apps/data-dashboard-api-service/src/api/compute-node/cleaning-scheduler.service.ts:248-257 | Starting waiting scans over keeps every sweep that is planned |
| ScanPlan.RestartFromStartsOver | apps/data-dashboard-api-service/src/api/compute-node/cleaning-scheduler.service.ts:248-257 | Starting over, exactly the waiting scans take up their next range from its start, and every other scan and the order stay |
| ScanPlan.NextKeeps | apps/data-dashboard-api-service/src/api/compute-node/cleaning-scheduler.service.ts:223-231 | A trigger on a later day plans another round without disturbing the current one |
| ScanPlan.ExtendKeeps | apps/data-dashboard-api-service/src/api/compute-node/cleaning-scheduler.service.ts:232-234 | A sweep extended by a day still covers all it passed |
| SchedulerState.MoveKeeps | apps/data-dashboard-api-service/src/api/compute-node/cleaning-scheduler.service.ts:389-442 | A dispatch or a task put back keeps the whole state in order, and shrinks the queue exactly for a dispatch |
| SchedulerState.SettledKeeps | apps/data-dashboard-api-service/src/api/compute-node/cleaning-scheduler.service.ts:445-476 | A settlement delivered for a released task keeps the whole state in order and is pending no longer |
| SchedulerState.PageUsedKeeps | apps/data-dashboard-api-service/src/api/compute-node/cleaning-scheduler.service.ts:290-321 | Using a buffered page keeps the load bound, the run order and the account of every slice |
| SchedulerState.UsedUpOrFull | apps/data-dashboard-api-service/src/api/compute-node/cleaning-scheduler.service.ts:294-321 | A page is used up and its scan moved on, unless there is no room for its next row |
| SchedulerState.IdleSweepIsFinished | apps/data-dashboard-api-service/src/api/compute-node/cleaning-scheduler.service.ts:348-357 | With no scan, no queue and nothing in flight, every slice up to the day before the one owed is resolved under one run |
| SchedulerState.DrainKeeps | apps/data-dashboard-api-service/src/api/compute-node/cleaning-scheduler.service.ts:389-442 | A whole drain with the asking behind it - any number of moves, scans started over, a day put down - keeps the state in order, the day put down being one that is swept |
| SchedulerState.SweepLasts | apps/data-dashboard-api-service/src/api/compute-node/cleaning-scheduler.service.ts:348-357 | A sweep once finished stays finished, whatever is resolved afterwards |
| SchedulerState.EnrolledPlan | apps/data-dashboard-api-service/src/api/compute-node/cleaning-scheduler.service.ts:214-238 | Registering a range keeps the plan in order, and without a date plans a sweep of every day up to yesterday |
| SchedulerState.EnrolledEnrols | apps/data-dashboard-api-service/src/api/compute-node/cleaning-scheduler.service.ts:214-238 | A date already covered by the sweep of every day gets no scan of its own; a new scan starts at the beginning; one of the same run is extended if it sweeps every day, one of an earlier run gets one round more; no other scan changes and the scan has not failed any more |
| Scheduler.CleaningScheduler.NextPendingTask | apps/data-dashboard-api-service/src/api/compute-node/cleaning-scheduler.service.ts:368-386 | The search with its persistent iterator finds the first eligible task behind where the last one stopped, and stops there; it finds none exactly when nothing queued is eligible |
| Scheduler.CleaningScheduler.EnqueueTask | apps/data-dashboard-api-service/src/api/compute-node/cleaning-scheduler.service.ts:359-366 | A task is queued unless its slice is queued, in flight, lately settled in the same run, or held by a node |
| Scheduler.CleaningScheduler.SettleTask | apps/data-dashboard-api-service/src/api/compute-node/cleaning-scheduler.service.ts:445-483 | Success ends a task; a failure is retried under the next id until three attempts have failed |
| Scheduler.CleaningScheduler.TryDispatch | apps/data-dashboard-api-service/src/api/compute-node/cleaning-scheduler.service.ts:400-441 | Some node had room, or nothing is left that could be sent; the task the search found is sent to a node picked for it, or put back because no node was left for it, the node picked could not take it any more, or the send to it failed - each at a time and send of this very attempt |
| Scheduler.CleaningScheduler.FillNodes | apps/data-dashboard-api-service/src/api/compute-node/cleaning-scheduler.service.ts:389-442 | A chain of dispatches that ends after exactly a hundred with tasks left, with a task that was found for a free slot and then turned away for a reason of its own, or with nothing dispatchable |
| Scheduler.CleaningScheduler.Drain | apps/data-dashboard-api-service/src/api/compute-node/cleaning-scheduler.service.ts:389-442 | Unless stopped it sends until nothing dispatchable is left, a task was turned away, or a hundred were sent with more queued; when the clock stood still and every send arrived, it is turned away only by a node that holds the id of a task whose id is read back wrongly. No node is lifted above its capacity, and no slice a node holds is sent. Then it asks for the next page, and the whole state stays in order |
| TurnLaws.PathFills | apps/data-dashboard-api-service/src/api/compute-node/node-registry.service.ts:323-370 | However many sends fill the nodes, each node keeps what it has and ends with what it had, with one task, or with no more tasks than the capacity it gave |
| TurnLaws.PathKeepsHeld | apps/data-dashboard-api-service/src/api/compute-node/cleaning-scheduler.service.ts:368-442 | While the nodes are filled a slice that a node holds goes on being held and is neither queued nor sent |
| TurnLaws.SettlingKeepsHeld | apps/data-dashboard-api-service/src/api/compute-node/cleaning-scheduler.service.ts:445-476 | A settlement queues no slice that a node holds |
| TurnLaws.PageCarries | apps/data-dashboard-api-service/src/api/compute-node/cleaning-scheduler.service.ts:294-321 | Every task that comes into the queue with a page is that of a row and demands a Rust node exactly if the row does, and the history says so |
| TurnLaws.EachRowCarried | apps/data-dashboard-api-service/src/api/compute-node/cleaning-scheduler.service.ts:294-321 | In a page that shows each slice once, a new task demands a Rust node whenever its slice's row does |
| SchedulerState.FaultlessDrain | apps/data-dashboard-api-service/src/api/compute-node/cleaning-scheduler.service.ts:400-441 | Without a fault only a node that already holds the id turns a task away |
| SchedulerState.DrainConserves | apps/data-dashboard-api-service/src/api/compute-node/cleaning-scheduler.service.ts:389-442 | Work conservation: with the clock standing still, every send arriving and the ids of the queue read back rightly, a drain ends after a hundred sends or with nothing dispatchable, never turned away |
| SchedulerState.MisreadIdBlocks | apps/data-dashboard-api-service/src/api/compute-node/cleaning-scheduler.service.ts:400-441 | Whatever id is read back wrongly, a node can hold it by its own report in a state that is in order, and a drain without any fault then halts although another task could be sent |
| SchedulerState.LostSessionBlocks | apps/data-dashboard-api-service/src/api/compute-node/cleaning-scheduler.service.ts:400-441 | That exception with the ids in use: a state in order in which session r5 is turned away, without any fault, ahead of a task that could be sent |
| Scheduler.CleaningScheduler.OnTaskSettled | apps/data-dashboard-api-service/src/api/compute-node/cleaning-scheduler.service.ts:445-476 | A dispatched task is heard of, once, its settlement is applied and the nodes are filled again; a notice for any other id changes nothing; no slice a node still holds is queued or sent |
| Scheduler.CleaningScheduler.NextReadyScan | apps/data-dashboard-api-service/src/api/compute-node/cleaning-scheduler.service.ts:329-338 | The first scan of the oldest run that neither failed nor waits, or proof that every scan failed, waits, or is behind an older scan or loaded task |
| Scheduler.CleaningScheduler.RequestScan | apps/data-dashboard-api-service/src/api/compute-node/cleaning-scheduler.service.ts:246-266 | Waiting scans start over exactly when nothing is loaded, and no scan changes otherwise; a day is put down exactly when its sweep is over, and a turn is asked for exactly when there is a page to use or read, room and an idle node |
| Scheduler.CleaningScheduler.LoadNextPage | apps/data-dashboard-api-service/src/api/compute-node/cleaning-scheduler.service.ts:268-322 | The turn goes on exactly with room and an idle node: with the page still buffered, whose rows' demands its tasks carry, or else by asking for a page of the first ready scan of the oldest run, no larger than the room left; no slice a node holds is queued or sent |
| Scheduler.CleaningScheduler.PageArrived | apps/data-dashboard-api-service/src/api/compute-node/cleaning-scheduler.service.ts:280-322 | After a page nothing is being read; its rows are offered in order while there is room, its scan moves on when it is used up, and the nodes are filled. Whatever task then waits for a slice whose row demands a Rust node, and did not wait before, demands one and was offered so; no slice a node holds is queued or sent |
| Scheduler.CleaningScheduler.PageFailed | apps/data-dashboard-api-service/src/api/compute-node/cleaning-scheduler.service.ts:268-322 | A failed page flags its scan and moves nothing, its cursor included; the nodes are filled |
| Scheduler.CleaningScheduler.EnqueueBacklog | apps/data-dashboard-api-service/src/api/compute-node/cleaning-scheduler.service.ts:214-238 | A range is registered, renewed for a later round, extended or revived, as the keys, ranges and rounds of the scans before and after say, unless stopped or there are too many; without a date a full sweep is planned |
| Scheduler.CleaningScheduler.CleanNow | apps/data-dashboard-api-service/src/api/compute-node/cleaning-scheduler.service.ts:157-180 | A day that is not over is refused and nothing changes; otherwise the range is registered, the nodes are filled, and the count returned is the number of tasks sent, at most a hundred |
| Scheduler.CleaningScheduler.TriggerDaily | apps/data-dashboard-api-service/src/api/compute-node/cleaning-scheduler.service.ts:182-196 | A due day not yet recorded or started is owed and its sweep registered from the state at the call, then the nodes are filled; if it cannot begin, exactly when stopped or without a range left, nothing but time has passed |
| Scheduler.CleaningScheduler.FinishDailyRun | apps/data-dashboard-api-service/src/api/compute-node/cleaning-scheduler.service.ts:348-357 | The day is put down for recording exactly when no scan, queue or flight is left and none is being recorded |
| Scheduler.CleaningScheduler.DayRecorded | apps/data-dashboard-api-service/src/api/compute-node/cleaning-scheduler.service.ts:348-357 | The day written is one whose sweep is over; it is forgotten once stored and kept when storing failed |
| Scheduler.CleaningScheduler.Stop | apps/data-dashboard-api-service/src/api/compute-node/cleaning-scheduler.service.ts:135-152 | After shutting down no scan or page is left |
| ControlPlane.Master.OnRegister | apps/data-dashboard-api-service/src/api/compute-node/node-registry.service.ts:183-224 | Every task a register frame ended is heard of as failed; a frame of a replaced stream changes nothing. What a node bound anew reports is held from then on: its slices are neither queued nor sent in this turn. If the node has room now and had none, the nodes are filled |
| ControlPlane.Master.OnProgress | apps/data-dashboard-api-service/src/api/compute-node/node-registry.service.ts:519-558 | The last frame of an awaited task is heard of with its outcome and the freed slot is filled; a stale or foreign frame changes nothing; every other slice held stays held and is neither queued nor sent |
| ControlPlane.Master.OnReconcile | apps/data-dashboard-api-service/src/api/compute-node/node-registry.service.ts:797-822 | Every awaited task of a node found dead is heard of as failed, and every slice held elsewhere stays held and is neither queued nor sent |
| ControlPlane.Master.OnClose | apps/data-dashboard-api-service/src/api/compute-node/node-registry.service.ts:165-180 | A stream that ends settles nothing and keeps the state in order |
| ControlPlane.Master.SentIsHeld | apps/data-dashboard-api-service/src/api/compute-node/node-registry.service.ts:323-358 | Between turns the dispatched ids are exactly the ids held to be reported, each by exactly one node |
| ControlPlane.TwinsStrand | apps/data-dashboard-api-service/src/api/compute-node/cleaning-scheduler.service.ts:389-476 | Two slices under one id: two nodes come to hold the id, the history is unlawful, and the first report settles the second task and leaves the first slice in flight with nobody to report it |
| ControlPlane.TwinTasks | apps/data-dashboard-api-service/src/api/compute-node/cleaning-scheduler.service.ts:50-53 | Session x's first retry and session x:r1's first attempt are two such tasks |
| ControlPlane.Master.AlwaysInOrder | apps/data-dashboard-api-service/src/api/compute-node/cleaning-scheduler.service.ts:329-345 | In every state reached: queue plus in flight within the bound, queued and in-flight slices disjoint, everything loaded and the page in hand of one run, counted exactly, named by every loaded id and no later than any registered scan's, and a lawful history |
| ControlPlane.FinishedSweepMeans | apps/data-dashboard-api-service/src/api/compute-node/cleaning-scheduler.service.ts:348-357 | When a sweep is over, under one run no older than its day every slice of the log up to the day before was seen with final rows and then no marker, was held by a node, had a task sent that succeeded, or failed three times |
| ControlPlane.Master.RecordedDayIsSwept | apps/data-dashboard-api-service/src/api/compute-node/cleaning-scheduler.service.ts:348-357 | Whenever a day is being recorded, on whatever turn, its sweep is over and the history lawful, its looks genuine and its ids those of attempts at the slices |
| Pipeline.RecordedDayIsComplete | apps/data-dashboard-api-service/src/api/compute-node/cleaning-scheduler.service.ts:348-357 | When a day is recorded, every slice of the log up to the day before is complete in the output tables - except those a node was already at work on, those a node of the other runtime reported as done, and those that failed three times |
| Pipeline.CompleteExactlyWhenProven | apps/data-dashboard-api-service/src/api/compute-node/cleaning-scheduler.service.ts:348-357 | For every history that some run of the commit protocol bears out, a slice is complete in all the runs that do if and only if a look of the history counted it as done or a Rust node reported it done |
| Pipeline.UnprovenMayBeUnfinished | apps/data-dashboard-api-service/src/api/compute-node/cleaning-scheduler.service.ts:348-357 | Whatever slice a history does not prove, some run of the commit protocol bears the history out and leaves that slice incomplete |
| Pipeline.ProvesUnlessExcused | apps/data-dashboard-api-service/src/api/compute-node/cleaning-scheduler.service.ts:348-357 | A step that explains a slice proves it if and only if it is not one of the three exceptions |
| Pipeline.SweptButUnfinished | apps/data-dashboard-api-service/src/api/compute-node/cleaning-scheduler.service.ts:348-357 | Every exception is real: with the ids in use and any one slice, a lawful history in which a node held it, another runtime reported it, or three attempts failed sweeps the day, and a run of the commit protocol that bears the history out leaves the slice incomplete |
| Pipeline.ScheduledIdsNotShared | apps/data-dashboard-api-service/src/api/compute-node/cleaning-scheduler.service.ts:50-53 | Ids built by the scheduler over a log they can tell apart are never used for two slices, which is the condition of the commit protocol |
| Pipeline.SentIdsAreScheduled | apps/data-dashboard-api-service/src/api/compute-node/cleaning-scheduler.service.ts:389-442 | Every task in a history of the scheduler was sent under such an id |
| Pipeline.RowsThenMarkers | apps/data-dashboard-api-service/src/api/compute-node/cleaning-backlog-reader.ts:136-161 | A reader that asks for rows first and markers second takes a look on which only complete slices are left out |
| Pipeline.MarkersThenRows | apps/data-dashboard-api-service/src/api/compute-node/cleaning-backlog-reader.ts:136-161 | In the other order it can leave out an unfinished slice: a concrete run without marker at the first look and with rows at the second |
| Pipeline.WorkedThroughIsComplete | apps/final-data-cleaning-rust/src/node.rs:281-352 | An attempt that got past its work, or found its task done, leaves its slice complete for good |
| WorkerPool.AttributionWorkerPool.Compute | apps/final-data-cleaning-service/src/lib/attribution-worker-pool.ts:59-89 | Nothing to compute and a closed pool change nothing; otherwise the computation is queued under a fresh id and work is handed out |
| WorkerPool.AttributionWorkerPool.Dispatch | apps/final-data-cleaning-service/src/lib/attribution-worker-pool.ts:109-134 | Work goes out in order; exactly one computation fails for each worker that cannot be created or reached, an unreachable worker goes, and afterwards a queued computation means that every slot is busy and the pool at full size |
| WorkerPool.AttributionWorkerPool.OnMessage | apps/final-data-cleaning-service/src/lib/attribution-worker-pool.ts:152-171 | Only a message for the slot's own computation counts: progress is recorded, a result resolves it unless a callback threw, a failure rejects it and removes the worker |
| WorkerPool.AttributionWorkerPool.ReportProgress | apps/final-data-cleaning-service/src/lib/attribution-worker-pool.ts:173-184 | A report that goes further is recorded, clamped to the total, and passed on; others, and any after a failure or shutdown, change nothing |
| WorkerPool.ProgressRises | apps/final-data-cleaning-service/src/lib/attribution-worker-pool.ts:173-184 | Whatever is reported in whatever order, progress never falls, never passes the total, ends no lower than any report while no callback throws, and stops after a failure |
| WorkerPool.AttributionWorkerPool.FinishComputation | apps/final-data-cleaning-service/src/lib/attribution-worker-pool.ts:195-202 | Resolved exactly when the worker succeeded and no callback threw, and then with full progress |
| WorkerPool.AttributionWorkerPool.OnWorkerFailure | apps/final-data-cleaning-service/src/lib/attribution-worker-pool.ts:186-193 | The failed slot is gone for good and its computation rejected |
| WorkerPool.AttributionWorkerPool.Destroy | apps/final-data-cleaning-service/src/lib/attribution-worker-pool.ts:91-107 | Shutting down settles everything and leaves no worker |
| WorkerPool.AttributionWorkerPool.OnePlace | apps/final-data-cleaning-service/src/lib/attribution-worker-pool.ts:59-217 | Each computation is in exactly one of queued, current of one slot, or settled, and settles at most once |
| NodeTasks.ComputeNodeService.ExecuteTask | apps/final-data-cleaning-service/src/service/node.service.ts:110-132 | A replayed id shares the promise of the run under way and starts nothing; any other id is accepted under a promise of its own |
| NodeTasks.ComputeNodeService.Join | apps/final-data-cleaning-service/src/service/node.service.ts:110-120 | A stream joins once, behind those already there; no other task, stream or last update changes, and an update already made is delivered to it at once if it is open |
| NodeTasks.ComputeNodeService.StartQueuedTasks | apps/final-data-cleaning-service/src/service/node.service.ts:134-159 | Afterwards capacity is left over only when every waiting task waits for its own slice |
| NodeTasks.ComputeNodeService.FinishTask | apps/final-data-cleaning-service/src/service/node.service.ts:161-172 | The promise is settled once whatever the listeners do, and every open stream up to the first whose listener throws gets the terminal update |
| NodeTasks.ComputeNodeService.SendProgress | apps/final-data-cleaning-service/src/service/node.service.ts:174-180 | Open streams get the update in the order they joined, exactly up to the first open one whose listener throws |
| NodeTasks.DeliveriesReach | apps/final-data-cleaning-service/src/service/node.service.ts:174-180 | A stream gets an update if and only if it joined and is not closed |
| NodeTasks.ComputeNodeService.SliceInOrder | apps/final-data-cleaning-service/src/service/node.service.ts:134-140 | Of two tasks of a slice the one accepted first starts first, and they never run together |
| NodeTasks.ComputeNodeService.OnePlace | apps/final-data-cleaning-service/src/service/node.service.ts:110-172 | A promise is settled at most once, exactly when its task no longer waits, runs or ends |
| NodeTasks.ComputeNodeService.AllSettled | apps/final-data-cleaning-service/src/service/node.service.ts:110-172 | With nothing running or ending nothing waits and every promise is settled |
| RustNode.ComputeNode.Submit | apps/final-data-cleaning-rust/src/node.rs:207-254 | A task under way or remembered is not started again; otherwise it starts exactly when there is a slot, and a refusal is itself an outcome |
| RustNode.ComputeNode.Terminal | apps/final-data-cleaning-rust/src/node.rs:193-205 | The outcome is remembered, each id once, and the last thousand outcomes are all remembered |
| RustNode.ForgetKeeps | apps/final-data-cleaning-rust/src/node.rs:193-205 | Only an outcome followed by a thousand others is ever forgotten |
| AttributionWeights.WeightsSumToOne | apps/data-dashboard-api-service/src/api/data-analysis/AttributionAnalysisSqlBuilder.ts:306-329 | For each of the five models and every non-empty prefix the weights sum to one |
| AttributionWeights.WeightsAreFair | apps/data-dashboard-api-service/src/api/data-analysis/AttributionAnalysisSqlBuilder.ts:306-329 | No weight is negative, and under time decay a later touch weighs no less than an earlier one |
| AttributionWeights.WeightsAre | apps/data-dashboard-api-service/src/api/data-analysis/AttributionAnalysisSqlBuilder.ts:306-329 | First and last touch take all, linear weights are equal, by position the ends get 0.4 each and the touches between equal parts, under time decay weights are in proportion to the decay over the seconds passed: with the sum this determines every weight |
| AttributionWeights.BeforeIsPrefix | apps/data-dashboard-api-service/src/api/data-analysis/AttributionAnalysisSqlBuilder.ts:541-549 | Filtering a time-sorted session by the conversion time yields a prefix of it |
| AttributionWeights.TouchedHasPrefix | apps/data-dashboard-api-service/src/api/data-analysis/AttributionAnalysisSqlBuilder.ts:507-549 | A conversion has a non-empty prefix exactly when its own non-empty session has a touch no later than it |
| AttributionWeights.GroupsKeepTotal | apps/data-dashboard-api-service/src/api/data-analysis/AttributionAnalysisSqlBuilder.ts:553-560 | Grouping neither adds nor loses credit |
| AttributionWeights.GroupIsKeyCredit | apps/data-dashboard-api-service/src/api/data-analysis/AttributionAnalysisSqlBuilder.ts:507-560 | A group's credit is the sum, over all conversions and the touches before them, of the weights of the touches with its key |
| AttributionWeights.CreditIsConversions | apps/data-dashboard-api-service/src/api/data-analysis/AttributionAnalysisSqlBuilder.ts:507-560 | The credit over all groups is the number of conversions with a touch before them |
| MetricsBuffer.Metrics.Day | apps/final-data-cleaning-rust/src/metrics.rs:84-109 | Only the latest day seen and the day before are kept; counters of a kept day survive |
| MetricsBuffer.DayAndMinute | apps/final-data-cleaning-rust/src/metrics.rs:84-126 | A moment lies within its minute of its day, days beginning at midnight in UTC+8 |
| MetricsBuffer.Metrics.Processed | apps/final-data-cleaning-rust/src/metrics.rs:110-126 | Work is added to the minute and day it was done on in UTC+8, with the earliest start |
| MetricsBuffer.Metrics.Drain | apps/final-data-cleaning-rust/src/metrics.rs:140-145 | Everything buffered is on its way to the store, day by day |
| MetricsBuffer.Metrics.FlushNext | apps/final-data-cleaning-rust/src/metrics.rs:220-243 | Whatever is not known to be stored is merged back into its day unless that is no longer kept; days no longer kept are dropped |
| MetricsBuffer.MergesBack | apps/final-data-cleaning-rust/src/metrics.rs:52-80 | A day sent in sparse form and put back merges as itself |
| MetricsBuffer.Metrics.Conserved | apps/final-data-cleaning-rust/src/metrics.rs:69-151 | For every day still kept, recorded plus doubled by lost replies equals stored plus on its way plus buffered, in every counter, minute and start; nothing is counted twice if and only if no counted work was flushed without a reply |
| MetricsBuffer.LostReplyCountsTwice | apps/final-data-cleaning-rust/src/metrics.rs:220-243 | A concrete run: work recorded, flushed without a reply, put back and flushed again ends stored twice |
| SpeedSamples.RollEnds | apps/data-dashboard-api-service/src/api/compute-node/node-registry.service.ts:603-610 | The day-roll loop ends, on the current day unless the sample started in the future |
| SpeedSamples.RollKeeps | apps/data-dashboard-api-service/src/api/compute-node/node-registry.service.ts:603-610 | Rolling loses no event and files none under another day |
| SpeedSamples.FinishKeeps | apps/data-dashboard-api-service/src/api/compute-node/node-registry.service.ts:641-647 | Ending a sample no sooner than the last sign of life loses nothing |
| SpeedSamples.CreditKeeps | apps/data-dashboard-api-service/src/api/compute-node/node-registry.service.ts:560-582 | Progress of a frame is collected under the day the frame arrived |
| SpeedSamples.RiseKeeps | apps/data-dashboard-api-service/src/api/compute-node/node-registry.service.ts:560-582 | What a task earns since its baseline is how far its reports rose above it |
| SpeedSamples.NodeSpeed.Frame | apps/data-dashboard-api-service/src/api/compute-node/node-registry.service.ts:519-582 | A frame of a running node counts once, at its time and in its round, what the report rises above all earlier ones; after an absence, or without a baseline, it only sets one, and a failed frame counts nothing |
| SpeedSamples.NodeSpeed.Register | apps/data-dashboard-api-service/src/api/compute-node/node-registry.service.ts:413-440 | After an absence, on another stream or a silent one, every baseline is forgotten and missing tasks leave; otherwise nothing credited changes |
| SpeedSamples.NodeSpeed.Tick | apps/data-dashboard-api-service/src/api/compute-node/node-registry.service.ts:626-639 | Sampling changes no credit; no sample it writes ends later than the last sign of life plus the time a node may be silent, and one silent for longer is sampled no further |
| SpeedSamples.NodeSpeed.Conserved | apps/data-dashboard-api-service/src/api/compute-node/node-registry.service.ts:560-647 | At any moment, by day what arrived is recorded under that day or waits to be; by task only what rose above a baseline counted; samples neither overlap nor span two days |

## Left out

- Transport and encodings: gRPC, HTTP, Redis and ClickHouse appear only as effects that may happen late, in part, repeatedly or not at all; rows are opaque values with a length, and JSON, gzip and SQL text are not modelled.
- `attribution.rs` and the TypeScript attribution engine: an opaque function from one event to its rows, which stay in one batch.
- Slices written by the TypeScript node: it sets no incomplete marker, so commit safety is stated for slices handled by Rust nodes.
- Pipeline.RecordedDayIsComplete: that the reader's looks were taken in its order and that Rust nodes report success only of attempts that got past their work are premises; the first is what `BacklogReader.ReadPage` does, the second what the commit protocol's steps do.
- Lease renewal: leases may expire at any step of the model, and commit safety does not rest on them, so a renewal that succeeds changes nothing it could break. What leases are for is stated of the runs in which none expires: that renewal comes in time, and that an attempt stops as soon as it does not, is not proved.
- ExactlyOnce.NoRowTwice: that no insert is carried out late or repeated is a premise on the output store; `LostLeaseStoresTwice` shows what becomes of a row without the lease.
- Batching.TableWriter: whether an insert is acknowledged, and how much of a refused one is stored, is given as a function of the number of the insert and chosen freely.
- Calendar dates: days are numbered, with a one-to-one rendering to text (`Tasks.IsCalendar`); malformed dates given by a caller are not modelled.
- Re-entrance: a send to a node is taken not to deliver frames back within the same call, so the guards `draining` and the like have nothing to do; progress listeners act in turns of their own.
- The order in which a node's released tasks are settled, and in which scans with the same run are kept in a JavaScript map beyond what the code observes, is arbitrary or that of the sequence.
- Ghost history: `trace` and `past` record steps as the methods take them; they are not fields of the program.
- ControlPlane.Master: log frames, node names, addresses, database status and capacity callbacks to others than the scheduler are not modelled.
- NodeRegistry.NodeRegistry: progress statistics of a node are not in this class but in `SpeedSamples`, which models the part of the frame handlers that credits and samples progress, without the six-second display window.
- Scheduler.CleaningScheduler: the map `attempts` keeps its entry for a retry that is refused at once; this is modelled as it is and affects no law.
- Scheduler.CleaningScheduler.CleanNow: only the number of tasks sent is returned, without the snapshot of pending work.
- Scheduler.CleaningScheduler.TriggerDaily: reading the configuration and the last-run day is replaced by parameters; their failure means the turn does not happen.
- BacklogReader.ReadPage: the two queries and the pipelines answer truthfully or fail; their text and limits are not modelled.
- InsertWriter.RunInsertWriter: the channel is the sequence of arrivals, and closing it ends the run; the bounded capacity that makes callers wait is not modelled.
- RustNode.ComputeNode.Submit: refusing a task is one step; the moment between giving up the lock and noting the refusal is not split, and progress values and shutdown's waiting are left out.
- NodeTasks.ComputeNodeService.FinishTask: how a run computes its outcome, its Redis key for replays included, is not modelled.
- NodeTasks.ComputeNodeService.SendProgress: whether a listener throws is given as a function of the number of the delivery.
- WorkerPool.AttributionWorkerPool: threads and message payloads are left out; whether a worker can be created or reached and whether a callback throws are given as functions of the number of the try.
- MetricsBuffer.Metrics: saturation at 64 bits, the shutdown deadline and the start time kept by the store, which is that of the first flush, are not modelled; the minutes of a day are a value replaced as a whole.
- SpeedSamples.NodeSpeed: progress numbers are integers, and a record handed to Redis may still fail to be written.
- AttributionWeights: weights are real numbers and the decay is any positive function; rounding, event statistics and the rate columns are not modelled.
- Host resources, health endpoint, topology, dashboards, alerts, authorisation and the web applications.
