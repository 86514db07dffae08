# RestoreGuard: a verified model of the recovery-drill core

RestoreGuard proves that backups can be restored: a drill stages a backup, restores it in a
throw-away Docker sandbox, checks the result, stores evidence and reports measured recovery
objectives. This project models the parts of it whose correctness is spread over several
functions and several concurrent actors, and proves what they promise together. The command
`dafny verify dfyconfig.toml` (Dafny 4.11) checks the whole project.

## How the project is organised

| files | what they hold |
|---|---|
| `Domain` | transition table, RPO/RTO measurement and policy, assessment |
| `Sandbox` | the Docker daemon, the executor's `Create` and `Destroy` |
| `Drills` | the drill protocol as a state machine over atomic steps of all actors |
| `DrillInvariant`, `DrillSteps` | the inductive invariant and its preservation by every action |
| `DrillSafety`, `DrillFrames`, `DrillDocker`, `DrillQueue`, `DrillTheorems`, `DrillHistories` | guarantees over every run of the protocol |
| `DrillProgress`, `DrillExits`, `DrillSuccess`, `DrillVerdicts`, `DrillFates` | how runs end: when a drill is closed, when it stays open, when it succeeds, and as what it ends |
| `DrillAccounts` | an account kept from clock readings, snapshots and payloads, with which every stored time, measurement and object agrees |
| `WorkerPool` | the control plane as a class whose methods are proved to perform protocol steps |
| `EventHub` | the publish/subscribe registry: interleaved sends, then the registry in memory |
| `Decimals`, `PdfContent`, `PdfFile`, `PdfReport` | the report writer, and a PDF reader that undoes it |
| `Paths`, `LocalStorage`, `LocalStorageTheorems`, `EvidenceKeys` | object keys, the local store, its refinement of a map, and the evidence keys of drills in it |

Pure code is modelled by functions; code that updates state by classes and methods with loops,
each proved against a specification function. A drill protocol run is `Replay(c, s, actions)`:
the actions are creating, submitting (also twice), cancelling the context, cancelling the row,
a drill timeout, a shutdown, a worker taking a job, and one step of a worker whose `Outcome`
decides every failure. All main results hold for every sequence of actions, that is for every
interleaving of any number of workers and requests with any failures. The program side takes its
environment as parameters (a daemon's answers, the outcomes of calls, the actions of others before
each call), so each method's contract determines what it does with them.

## Assumptions

- Each guarded SQL statement, and each transaction that locks the row first, is one atomic step;
  a commit that reports an error did not commit.
- A failed object `Put` or `docker network create` leaves nothing behind; the other Docker
  creations may leave their resource although they report an error.
- `Create` and `Destroy` are atomic in the protocol; their own steps are modelled in `Sandbox`.
- The process does not stop in the middle of a run. Organisation and drill ids contain no slash
  (they are UUIDs), and a sandbox name is never drawn twice.
- The object store holds no evidence objects before the first drill is created.
- SHA-256 is an uninterpreted function. Times are whole nanoseconds, with 0 for a missing time,
  and seconds are rounded down.
- The local store serves one call at a time; a character of a PDF file stands for one byte.

## What the proofs found

- A report's page does not always tell reports apart: a `(` in a measurement or a comma in a list
  element can be mistaken for the separators (`PdfReport.PagesAlike`); without them every field can
  be read off the page (`PageTells`).
- A pool without executor or object store ignores a failed claim and can write QUEUED to
  INCONCLUSIVE, which is not an edge of the transition table. This is the only such write.
- Cancelling a drill of another organisation ends its context before the row update is refused.
  What becomes of the drill depends on where its run stands, not on who cancelled: with its context
  ended and the database answering, a run returns without a terminal write exactly at six points
  (after a failed load, when it records the sandbox step, at the three later transitions and at the
  final transaction). A claimed drill whose run is over is open exactly when its run returned that
  way and its own organisation did not cancel it (`DrillExits.EndsExactly`). A context that ends
  while a backup is staged, a sandbox is made or stored, or `fail` is under way, closes the drill as
  CANCELLED (or FAILED, if that was chosen already), even when a foreign organisation asked
  (`ContextEndCloses`). One that ends before the load leaves it in PREPARING (`ContextEndAtLoad`).
- `docs/rpo-rto.md` lets the RTO end after all required validations; the code stops the clock
  after the connectivity check, the only one it performs (`DrillSuccess.ClockStops`). For a drill
  that succeeded the two agree exactly when no other check was required, that is exactly when the
  assessment is VERIFIED (`DrillTheorems.ClockAfterValidationsExactly`); `ClockStopsEarly` gives a
  drill that requires SCHEMA and succeeds with the clock stopped before that check.
- With `RESTOREGUARD_MAX_ARTIFACT_BYTES` equal to 2^63-1 the worker's limit wraps round: no backup
  with any bytes in it is accepted, so no drill of one ever succeeds
  (`DrillTheorems.BackupAcceptedExactly`, `SuccessRestedOnCheckedBackup`).
- Publications share a lock, so two of one drill may overlap, and then two subscribers can get them
  in opposite orders (`EventHub.OppositeOrders`). Order is guaranteed exactly for publications that
  do not overlap (`OrderExactly`).
- With `maxBytes` equal to 2^63-1 the limit of the local store wraps round: uploads that declare
  bytes are refused, and an upload that declares none is stored empty whatever was sent.
- An upload whose key ends in the very name drawn for its temporary file is reported as stored
  and then removed by the deferred cleanup (`LocalStorageTheorems.VanishedExample`). Exactly the
  keys whose last element is not `.upload-` and a numeral are safe from this (`AlwaysReadBack`).

## Model

| member | source | states |
|---|---|---|
| Domain.OnlyRouteToSucceeded | backend/internal/domain/recovery.go:9-21 | every table-legal path from QUEUED to SUCCEEDED is the one path through PREPARING, RESTORING, VALIDATING and FINALIZING |
| Domain.EdgesExactly | backend/internal/domain/recovery.go:9-14 | an edge leads one stage on, or out of an open drill to CANCELLED, or once it has left the queue to FAILED or INCONCLUSIVE, and there is no other |
| Domain.RPOVerdictExact | backend/internal/domain/recovery.go:22-42 | measuring the RPO and evaluating it is INCONCLUSIVE exactly for a missing or later snapshot or no target, and PASS exactly when the age is below the target plus one second |
| Domain.RTOVerdictExact | backend/internal/domain/recovery.go:28-42 | the same for the RTO: both times present and ordered, target positive, duration below target plus one second |
| Domain.ObjectivesMonotone | backend/internal/domain/recovery.go:22-42 | a fresher snapshot, an earlier readiness or a looser target never turns PASS into FAIL |
| Domain.Assess | backend/internal/domain/recovery.go:43-66 | the loop over outcomes returns the assessment defined by which outcomes occur, with the confidence that belongs to it |
| Domain.AssessedExactly | backend/internal/domain/recovery.go:43-66 | on the outcomes: FAILED exactly after a failed restore or a failed required check, UNKNOWN exactly without results, VERIFIED exactly when everything passed with integrity, so a warning, an inconclusive or a failed optional check leaves PARTIALLY_VERIFIED with medium confidence |
| Domain.AssessedByContents | backend/internal/domain/recovery.go:43-66 | the assessment does not depend on order or repetition of outcomes |
| Domain.AssessedConcat | backend/internal/domain/recovery.go:43-66 | on non-empty lists the assessment of a concatenation is the worse of the two |
| Domain.WorkerVerdict | backend/internal/drill/worker.go:189-204 | the inlined loop collects exactly the unsupported required checks in order, and the verdict and confidence that follow |
| Domain.VerdictExactly | backend/internal/drill/worker.go:189-204 | the worker's verdict is VERIFIED exactly when every required check is POSTGRES_CONNECTIVITY, and PARTIALLY_VERIFIED otherwise |
| Domain.VerdictIsAssessed | backend/internal/drill/worker.go:189-204 | the inlined verdict equals `Assess` on a passed connectivity check and one inconclusive outcome per other required check, for every list |
| Sandbox.CompactID | backend/internal/drill/worker.go:257-269 | the byte loop returns the first 18 letters and digits of the id |
| Sandbox.CompactAccepted | backend/internal/drill/docker.go:47-49 | a compacted id passes the executor's identifier check exactly when it is not empty |
| Sandbox.UuidCompact | backend/internal/drill/worker.go:257-269 | of a drill's UUID the first eighteen digits remain, in order and without hyphens |
| Sandbox.WorkerSpecAccepted | backend/internal/drill/worker.go:146 | the worker's specification, one CPU, 512 MiB and two minutes for a UUID, is accepted, waited for as long as it asks, and names its container after those digits |
| Sandbox.SpecBounds | backend/internal/drill/docker.go:47-49 | four CPUs and 128 MiB to 8 GiB are the bounds, both ends included |
| Sandbox.NamesInjective | backend/internal/drill/docker.go:50-54 | resources of different sandboxes never share a name |
| Sandbox.PurgeExact | backend/internal/drill/docker.go:108-128 | removing a sandbox touches nothing else, success means nothing of it is left, and without daemon faults it succeeds |
| Sandbox.CreatedExact | backend/internal/drill/docker.go:43-101 | success leaves the three resources wired together, failure with a working cleanup leaves the daemon exactly as it was |
| Sandbox.CreateDestroyRoundTrip | backend/internal/drill/docker.go:43-128 | creating and destroying without faults restores the daemon's state |
| Sandbox.OthersUntouched | backend/internal/drill/docker.go:102-128 | work on one sandbox leaves every other sandbox as it is |
| Sandbox.Executor.AwaitReady | backend/internal/drill/docker.go:77-100 | with the timeout itself as budget up to 300000 ms and 90000 ms otherwise: ready exactly when some poll that ends within the budget, before any cancel, finds the database up, then at the first such poll; at most floor(budget in seconds) + 1 polls |
| Sandbox.ReadyBudgetIs | backend/internal/drill/docker.go:77-80 | a timeout within five minutes is the budget in milliseconds, any other means 90000 |
| Sandbox.AwaitedExactly | backend/internal/drill/docker.go:77-100 | the same for every outcome the loop's specification allows, stated on the polls alone |
| Sandbox.FifthPoll | backend/internal/drill/docker.go:81-100 | a database that is up from the fifth poll of 100 ms on is met there, after 4500 ms of a two-minute budget |
| Sandbox.Executor.RemoveAll | backend/internal/drill/docker.go:108-127 | the removals in place equal the specified purge under the daemon's faults, success included |
| Sandbox.Executor.Create | backend/internal/drill/docker.go:43-101 | a bad specification touches nothing; otherwise the daemon ends up as specified for its answers, a handle is returned exactly on success, and a started container is waited for |
| Sandbox.Executor.Destroy | backend/internal/drill/docker.go:102-128 | refuses unmanaged names, otherwise performs the specified purge |
| Drills.EvidenceKeyInjective | backend/internal/drill/worker.go:206-207 | evidence keys of different organisations or drills differ |
| DrillSteps.Reachable | backend/internal/drill/worker.go:93-325 | the invariant holds in every state reachable by any actions of a configured pool |
| DrillSafety.TerminalRowsFrozen | backend/internal/drill/worker.go:240-244 | once a row is terminal none of the four differently guarded writers ever changes any column again, with or without executor |
| DrillSafety.EdgeExact | backend/internal/drill/worker.go:102-108 | a status change is an edge of the table exactly when it is not the unconfigured pool's write on a queued row |
| DrillSafety.StatusEdges | backend/internal/drill/worker.go:287-325 | in every reachable state every status change of a configured pool is an edge of the table |
| DrillSafety.UnconfiguredSkipsPreparing | backend/internal/drill/worker.go:102-106 | a concrete run of an unconfigured pool makes the illegal change |
| DrillTheorems.SucceededExactlyWithEvidence | backend/internal/drill/worker.go:206-254 | SUCCEEDED holds exactly when evidence, report and artifact rows exist, and then the stored object has the recorded size and hash |
| DrillTheorems.SucceededObjectSurvives | backend/internal/drill/worker.go:212-254 | no later action, in particular no compensating delete of any run, removes or changes a succeeded drill's object |
| DrillTheorems.EvidenceCompensated | backend/internal/drill/worker.go:207-255 | once no run holds an object, it exists exactly on success, and without success no artifact, evidence or report row is visible, unless the compensating delete failed |
| DrillHistories.CompensatedUnlessDeleteFailed | backend/internal/drill/worker.go:207-255 | in every reachable state in which no run holds the drill's object and no action failed to delete it, the object exists exactly on success, and without success no artifact, evidence or report row is visible |
| DrillTheorems.ColumnsAlwaysAgree | backend/internal/drill/worker.go:197-204 | completed_at, measurements, assessment, confidence and started_at agree with the status in every reachable state |
| DrillTheorems.ClaimedAtMostOnce | backend/internal/drill/worker.go:160-313 | at most one run ever claims a drill, even when it is submitted twice, and no ON CONFLICT branch of `drill_steps`, `recovery_sandboxes`, `evidence_artifacts`, `evidence` or `recovery_reports` is ever taken |
| DrillHistories.NoInsertConflicts | backend/internal/drill/worker.go:160-313 | in every reachable state the next insert of any run meets no row, so no ON CONFLICT clause of the worker decides anything |
| DrillTheorems.CancelledBeforeClaim | backend/internal/database/resources.go:192-198 | a cancellation that commits before the claim means no claim, step, milestone, sandbox or object ever |
| DrillTheorems.TimelineAndJourney | backend/internal/drill/worker.go:279-318 | recorded steps are always a prefix of the five-step timeline fitting the status; a success has FETCH_BACKUP, CREATE_SANDBOX, RESTORE_POSTGRES, POSTGRES_CONNECTIVITY and COLLECT_EVIDENCE as steps 1 to 5 and went through integrity check, sandbox, restore, connectivity, evidence, destroy and commit in order |
| DrillTheorems.BackupAcceptedExactly | backend/internal/drill/worker.go:133-145 | a backup passes the integrity check exactly when it matches its checksum, if it has one, and is within the limit; at a limit of 2^63-1 exactly when it is empty as well |
| DrillTheorems.HashMatchesExactly | backend/internal/drill/worker.go:270 | a checksum matches a lower-case hash exactly when it has its characters, capitals allowed: in lower case it is the hash, in upper case its capitals |
| DrillTheorems.CorruptBackupRefused | backend/internal/drill/worker.go:133-145 | with a checksum in one case of letters a backup is accepted exactly when the checksum is its hash in that case and it is within the configured limit, or 1 GiB without one |
| DrillTheorems.SuccessRestedOnCheckedBackup | backend/internal/drill/worker.go:120-145 | in every reachable state a succeeded drill restored bytes within the limit that matched their checksum, never any bytes at a limit of 2^63-1, and its stored RPO and RTO are the seconds measured from its own times |
| DrillTheorems.ClockAfterValidationsExactly | backend/internal/drill/worker.go:185-204 | for a succeeded drill the RTO clock stopped after every required validation exactly when none lacks a typed profile, exactly when the assessment is VERIFIED |
| DrillAccounts.SuccessAccounted | backend/internal/drill/worker.go:185-254 | in every reachable state a succeeded drill started at the clock reading of its claim and completed at that of its final transaction; its RTO and verdict are those from the claim to the reading after its connectivity check, its RPO those from the loaded snapshot to the claim; it is VERIFIED exactly when that snapshot's policy requires no other check; and the object, artifact row and evidence hash are those of the payload it wrote |
| DrillAccounts.SuccessMatchesChecksum | backend/internal/drill/worker.go:120-145 | in every reachable state the bytes staged for a succeeded drill hash to the loaded checksum, character by character in its case, and are within the limit |
| DrillFates.TerminalStamps | backend/internal/drill/worker.go:240-325 | an open row becomes terminal only by a cancel of its own organisation, a failed load, `fail`, a pool without executor or the final transaction, and each leaves exactly the row it should, completed at its own time |
| DrillSuccess.ClockStops | backend/internal/drill/worker.go:181-188 | a run's readiness time is set when the connectivity check has passed, after the first four milestones, and by no other step |
| DrillSuccess.ClockStopsEarly | backend/internal/drill/worker.go:185-204 | a concrete run of a drill that requires SCHEMA succeeds as PARTIALLY_VERIFIED with its clock stopped before that check |
| DrillTheorems.RouteToSuccess | backend/internal/drill/worker.go:107-255 | the statuses from queued to succeeded are the single legal path in any interleaving |
| DrillProgress.ClaimedDrillsEnd | backend/internal/drill/worker.go:93-278 | a claimed drill whose run is over is terminal, except after a database error, timeout, shutdown or foreign cancel, or while its own cancel is half-way |
| DrillExits.SilentExactly | backend/internal/drill/worker.go:116-254 | with its context ended and the database answering, the step of a run leaves without a terminal write exactly at the six silent points |
| DrillExits.EndsExactly | backend/internal/drill/worker.go:93-278 | in every reachable state a claimed drill whose run is over, and whose database calls were answered, is terminal exactly when its run did not return silently or its own organisation cancelled it |
| DrillExits.ContextEndCloses | backend/internal/drill/worker.go:120-164 | in every continuation a context that ended at a closing point closes the drill, whoever ended it: as CANCELLED, or FAILED where `fail` had chosen that |
| DrillExits.ContextEndAtLoad | backend/internal/drill/worker.go:110-119 | in every continuation a context that ended before the load leaves the row as it is until its own organisation cancels it |
| DrillVerdicts.SucceedsExactly | backend/internal/drill/worker.go:107-255 | in every reachable state a claimed drill whose run is over has SUCCEEDED exactly when its run passed every guard: calls answered, context alive where it matters, backup acceptable, sandbox made and destroyed, row not cancelled before a transition |
| DrillFates.EndStatusExactly | backend/internal/drill/worker.go:107-278 | in every reachable state a claimed drill whose run is over, whose database calls were answered and whose own organisation did not cancel it has the status its run decided on: SUCCEEDED by the final transaction, INCONCLUSIVE by a failed load with a live context, FAILED or CANCELLED by a failed call with a live or an ended context, and without a decision it is open |
| DrillFates.NothingWonAfterShutdown | backend/internal/drill/worker.go:70-92 | after a shutdown, in every continuation, no drill is claimed and none becomes a success, with or without executor |
| DrillSuccess.UndisturbedRunSucceeds | backend/internal/drill/worker.go:93-255 | from every reachable state a run that claims a queued drill with an acceptable backup, meets no failure and is not interfered with, takes it to SUCCEEDED on that snapshot and those bytes in fourteen steps, started at the first clock reading, completed at the last, with an RTO in whole seconds from the first to the tenth and the RPO from the snapshot to the first |
| DrillProgress.CancelledAtLoad | backend/internal/httpapi/handlers.go:244-255 | a witness: one run whose context is cancelled between claim and load ends terminal exactly when the cancel comes from the drill's own organisation |
| DrillDocker.NothingLeaks | backend/internal/drill/worker.go:146-159 | while removals of unused resources succeed, every resource made for a drill belongs to a run in flight that still has to destroy it |
| DrillDocker.LeaksRecorded | backend/internal/drill/worker.go:212-220 | after faults, whatever nobody is responsible for is what a failed removal left |
| DrillHistories.LeftoversFromFaults | backend/internal/drill/worker.go:146-220 | in every reachable state every resource that was not there at the start belongs to a run that still has to destroy it, or to a sandbox one of whose removals failed in an action of the run |
| DrillQueue.OneDrillPerKey | backend/internal/database/resources.go:168-179 | one organisation and idempotency key yield one drill id, and exactly one response says created, with or without executor and whatever the store holds |
| DrillQueue.SameDrillExactly | backend/internal/database/resources.go:168-179 | two answered create requests, anywhere in a run, get the same drill exactly when they share organisation and key, the key being the caller's header or else a fresh UUID; the later one then adds no row and is told so |
| DrillQueue.AnsweredExactly | backend/internal/database/resources.go:173-179 | a create request is answered exactly when its key is taken or its asset exists, and otherwise changes nothing |
| DrillQueue.FirstInFirstOut | backend/internal/drill/worker.go:54-92 | the runs started so far and the waiting jobs are together exactly the accepted submissions in their order, of which at most 100 wait |
| DrillQueue.RegistryMirrorsRuns | backend/internal/drill/worker.go:42-101 | the running map holds exactly the runs in flight, one each, never more than the workers, and the queue never exceeds 100, with or without executor |
| WorkerPool.ControlPlane.CreateDrill | backend/internal/database/resources.go:168-179 | insert, or read of the row that has the key, as the protocol step; created means a new row, and the answer is recorded under the header, or the UUID where there is none |
| WorkerPool.ControlPlane.Submit | backend/internal/drill/worker.go:54-61 | enqueues, refused exactly when 100 jobs wait |
| WorkerPool.ControlPlane.Drills | backend/internal/httpapi/handlers.go:200-234 | performs one create and then a submit exactly when a row was created; queued exactly when there was room |
| WorkerPool.ControlPlane.Cancel | backend/internal/drill/worker.go:62-69 | ends the registered context whoever asks |
| WorkerPool.ControlPlane.CancelDrill | backend/internal/database/resources.go:192-198 | the guarded update as the protocol step: found means the row is now CANCELLED, not found means no row changed |
| WorkerPool.ControlPlane.UpdateStatus | backend/internal/drill/worker.go:287-318 | locked read, table check, update and step insert equal the protocol's transition; it reports failure exactly when the transition was refused |
| WorkerPool.ControlPlane.CommitRows | backend/internal/drill/worker.go:197-249 | artifact, evidence, drill and report rows with the run's own measurements and verdict |
| WorkerPool.ControlPlane.Fail | backend/internal/drill/worker.go:271-278 | CANCELLED or FAILED by the state of the context, then the terminal write, in two protocol turns |
| WorkerPool.ControlPlane.Run | backend/internal/drill/worker.go:93-255 | for every schedule of others' actions and every outcome of its calls a run performs exactly the protocol's turns until its worker is free, keeps every invariant, and leaves a drill it claimed finished: terminal or excused, no sandbox, object exactly on success |
| WorkerPool.ControlPlane.RunWithoutExecutor | backend/internal/drill/worker.go:102-106 | the branch without executor performs three turns, and its terminal write, once it reaches a row, stays |
| EventHub.NeverPanics | backend/internal/drill/hub.go:20-59 | over every interleaving no channel is closed twice or sent to after closing, and a channel is registered under exactly its drill exactly while open |
| EventHub.UnsubscribeOnce | backend/internal/drill/hub.go:28-35 | once closed a channel stays closed and unsubscribing again, also after `Close`, changes nothing |
| EventHub.StreamExact | backend/internal/drill/hub.go:37-49 | a subscriber gets exactly its own drill's publications that began during its life, each unless it met 32 waiting events |
| EventHub.StreamOrder | backend/internal/drill/hub.go:37-49 | nothing is received twice, and never after a publication that began when it was over |
| EventHub.SerialOrder | backend/internal/drill/hub.go:37-49 | when a drill's events are published one after another its streams are order-preserving subsequences |
| EventHub.OppositeOrders | backend/internal/drill/hub.go:37-49 | two overlapping publications of one drill reach two subscribers in opposite orders |
| EventHub.OrderExactly | backend/internal/drill/hub.go:37-49 | a timing of publications keeps every stream of a drill in order, in all interleavings of the sends and for all subscribers, exactly when no two publications of the drill overlap |
| EventHub.PublishedInAnyOrder | backend/internal/drill/hub.go:44-49 | a publication that runs alone has one outcome in whatever order it visits its subscribers |
| EventHub.Registry.Subscribe | backend/internal/drill/hub.go:20-27 | opens a new channel registered under the drill |
| EventHub.Registry.Unsubscribe | backend/internal/drill/hub.go:28-35 | the closure in place equals the specified step and leaves the channel closed |
| EventHub.Registry.Publish | backend/internal/drill/hub.go:37-49 | the loop over subscribers equals one publication |
| EventHub.Registry.Close | backend/internal/drill/hub.go:50-59 | the nested loops close every channel once and empty the registry |
| Decimals.PaddedWidth | backend/internal/report/pdf.go:39-41 | a ten-digit numeral has its nominal width exactly when the number is below 10^10 |
| PdfFile.WriteFile | backend/internal/report/pdf.go:30-43 | the object loop, table loop and trailer produce the specified file |
| PdfFile.EntriesBack | backend/internal/report/pdf.go:37-41 | a reader of 20-byte table entries gets the offsets back exactly when all are below 10^10 |
| PdfFile.FileRoundTrip | backend/internal/report/pdf.go:29-43 | following startxref, table, trailer and offsets recovers the root's number and exactly the list of object bodies, for every list whose last object starts below 10^10; every other file is rejected |
| PdfFile.StreamBack | backend/internal/report/pdf.go:29 | the declared Length is the number of bytes between the stream markers, whatever the content |
| PdfContent.LiteralBack | backend/internal/report/pdf.go:45-53 | the literal-string scanner of section 7.3.4.2 of ISO 32000-1:2008 stops at exactly the writer's parenthesis and returns the text |
| PdfContent.WriteContent | backend/internal/report/pdf.go:19-28 | the line loop produces the specified content stream |
| PdfContent.ContentShows | backend/internal/report/pdf.go:19-28 | for every list of lines a viewer shows exactly the sanitised lines in order, with their sizes and positions |
| PdfContent.ContentPrintable | backend/internal/report/pdf.go:45-53 | the content is printable ASCII whatever the lines hold |
| PdfReport.ObjectsFit | backend/internal/report/pdf.go:29 | no offset of a report depends on its fields, so none ever overflows |
| PdfReport.GeneratePDF | backend/internal/report/pdf.go:17-44 | every report, of any size and content, is read back from /Root over /Pages, /Kids, /Parent, /Font and /Contents as a page that shows each field, unprintable characters as spaces, after its own label in its own place |
| PdfReport.PageTells | backend/internal/report/pdf.go:18 | one page is the page of one report: with printable fields, no `(` in a measurement and no comma in a list element, whichever field differs, the page does |
| PdfReport.JoinInjective | backend/internal/report/pdf.go:18 | a joined list gives its elements back in order when none contains a comma |
| PdfReport.PagesAlike | backend/internal/report/pdf.go:18 | inputs where a parenthesis or a comma makes two reports show one page |
| Paths.KeysStayBelow | backend/internal/storage/local.go:36-46 | a key is located exactly when it is accepted, strictly below the root: the escape check never fires |
| Paths.NormalKeysDistinct | backend/internal/storage/local.go:36-46 | keys in normal form that resolve to the same place are equal |
| Paths.PlainKeys | backend/internal/storage/local.go:36-39 | a key of letters, digits, `_`, `-` and inner slashes is accepted exactly up to 500 characters |
| EvidenceKeys.KeyAccepted | backend/internal/drill/worker.go:206 | the evidence key of two UUIDs is accepted, in normal form, free of temporary names, and 103 characters long |
| EvidenceKeys.EvidenceKeySpace | backend/internal/storage/local.go:36-107 | the evidence keys of any set of drills are a key space on which the local store behaves like a map |
| LocalStorage.NewLocal | backend/internal/storage/local.go:23-35 | a store is made exactly for a positive limit and a root that can be created |
| LocalStorage.Local.Copy | backend/internal/storage/local.go:64-67 | chunk by chunk through the limit gives the same bytes and outcome as the whole stream at once |
| LocalStorage.Local.Put | backend/internal/storage/local.go:47-81 | temp file, copy, checks, rename and deferred removal equal the specified outcome |
| LocalStorage.Local.Get | backend/internal/storage/local.go:82-97 | opens what is at the key's place, directories included |
| LocalStorage.Local.Delete | backend/internal/storage/local.go:98-107 | removes a file or empty directory, and a missing one counts as removed |
| LocalStorageTheorems.PutAllOrNothing | backend/internal/storage/local.go:47-81 | an upload stores exactly the retained stream under its key with its size and hash, or changes no file, whatever fails; a failed removal leaves at most the temporary file |
| LocalStorageTheorems.SizeHonest | backend/internal/storage/local.go:65-76 | a successful upload always had its declared size exactly when the limit is below 2^63-1 |
| LocalStorageTheorems.ErrorsExactly | backend/internal/storage/local.go:47-107 | a size out of range is reported exactly so and first, an unaccepted key exactly so by all three operations |
| LocalStorageTheorems.MismatchExactly | backend/internal/storage/local.go:64-76 | where nothing else fails, a length mismatch is reported exactly when the stream is not as long as declared |
| LocalStorageTheorems.EmptiedUpload | backend/internal/storage/local.go:65-76 | at 2^63-1 one byte sent as an empty object is stored empty |
| LocalStorageTheorems.NothingFits | backend/internal/storage/local.go:65-76 | at 2^63-1 every upload that declares bytes is refused |
| LocalStorageTheorems.ReadBack | backend/internal/storage/local.go:58-97 | a successful upload is read back exactly when its key does not end in the drawn temporary name or the deferred removal failed |
| LocalStorageTheorems.AlwaysReadBack | backend/internal/storage/local.go:58-97 | for every disk, stream, draw and failure, each successful upload under a key is read back exactly when the key's last element is not `.upload-` and a numeral |
| LocalStorageTheorems.VanishedExample | backend/internal/storage/local.go:58-81 | an upload under a/.upload-0 that draws 0 succeeds and cannot be read back |
| LocalStorageTheorems.PutRefines | backend/internal/storage/local.go:47-81 | on a prefix-free set of normal keys an upload updates the map with the whole declared stream or changes nothing, whatever fails, and with no failure and a free temporary name is refused only for its size |
| LocalStorageTheorems.DeleteRefines | backend/internal/storage/local.go:98-107 | a delete removes the key from the map, or changes nothing and reports an error |
| LocalStorageTheorems.GetRefines | backend/internal/storage/local.go:82-97 | a read answers from the map and never meets a directory |
| LocalStorageTheorems.AlwaysTree | backend/internal/storage/local.go:47-107 | over every sequence of uploads and deletes, with any keys and any failures, the disk stays a tree: no file loses its directory and none lies where a directory is |
| LocalStorageTheorems.BehavesLikeMap | backend/internal/storage/local.go:47-107 | over every sequence of calls, with any failures, the store holds what a map holds after the successful ones, and reads answer from it |

## Left out

- Frontend, HTTP routing, sessions, headers, JSON encoding, authentication and RBAC: plumbing
  without shared state.
- S3 adapter, notifier, audit log, configuration, migrations runner, bootstrap: calls into other
  systems.
- Scheduler: its lease has no consumer.
- `ValidationEngine` and the local backup provider: single checks that the worker does not use.
- List, overview and `GetDrill` queries: read-only SQL.
- The `recovery_sandboxes` status column: claims are made about Docker's own state instead.
- Completion events of failed or cancelled drills: they are published even when the guarded update
  changed nothing, so they are not tied to the row.
- Summaries and `updated_at` texts of rows; float rounding in `Duration.Seconds`.
- The executor's docker arguments (labels, limits, mounts) beyond which resources they use.
- PDF syntax that the writer never emits: the reader rejects it.
- DrillProgress.ClaimedDrillsEnd: excuses every foreign cancel, timeout and shutdown, because it
  reads the excuse off the state; `DrillExits.EndsExactly` states the exact condition.
- LocalStorageTheorems.BehavesLikeMap: keys are accepted, in normal form, prefix-free, with no
  element starting with `.upload-`, and the limit is below 2^63-1; `SizeHonest` and
  `VanishedExample` show inputs outside these conditions that no map accounts for.
- `Health` of the local store: writes and removes one temporary file.
