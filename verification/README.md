# go-sync: a verified model of its replication pipeline

go-sync moves row and file changes from source databases to PostgreSQL targets:
source log, decoder and batcher, a durable local queue, a pull/acknowledge
stream, a server that applies each message in one database transaction, and a
reconciliation loop on top. No single file guarantees that rows are neither lost,
nor duplicated, nor half applied. This project models the components that give
the guarantee together and proves it over every run, with crashes, stream
breaks, reconnects and replays at any point.

`dafny verify dfyconfig.toml` checks everything.

## How it is organised

| part | modules |
|---|---|
| wire format, small facts | `Event`, `Collections`, `Arithmetic` |
| durable queue | `Queue` (operations as functions, invariant, published log), `QueueStore` (the store with its loops) |
| server store | `Staging`, `Target` (one message, one transaction), `TargetRun` (invariant), `TargetStore` (paged loops and the database object), `Replay` (the reference fold it computes), `Files`, `Barrier` (schema barrier and admission), `Activation` (which columns it knows) |
| both parties | `System` (state machine of collector, server and the frames in flight), `SystemInv` (its invariant), `Guarantees`, `Progress`, `Witnesses`, `Units`, `Quiescence`, `CaptureControl` |
| PostgreSQL source | `Batching`, `Changes`, `PgRows`, `Capture` (stream), `CaptureDecoder` (the decoder object, the waiting append), `CaptureStream`, `Mirror`, `Versions` (schema versions of a log), `PgSnapshot`, `PgCollector` (snapshot and stream from an empty queue), `Admission` (when a server stores it) |
| other sources | `CdcRows`, `CdcStream`, `CdcPoll`, `CdcRun`, `LegacyOutbox`, `LegacyRows`, `FileCapture` |
| everything together | `Pipeline` (both parties with a PostgreSQL collector inside), `Collectors` (any of the collectors) |
| reconciliation digests | `Encoding`, `Digest`, `Reconcile` |

The strongest single statement is `Pipeline.TargetMirrorsSource`: in every run of
the pipeline, from a new collector and a new server on, with snapshots, crashes,
stream breaks, replays, schema refreshes and repairs at any point, each captured
table of the target holds exactly the rows the source had after a whole number of
committed transactions, as soon as the target has applied anything. It asks for
what the source's log and exported snapshots promise (`PgCollector.Truthful`,
`PgCollector.Shows`) and nothing of the state of the target's tables.

## Modelling choices

- A database or bbolt transaction is one atomic step that may fail. A crash loses
  memory and keeps what was committed. Steps that are not enabled change nothing,
  so a run is any sequence of steps.
- A message stands for its own JSON; encoded sizes, hashes, base64, the type
  allowlist, LSN formatting, value normalization, the library sort and the row
  that `LIMIT 1` returns are function-valued parameters. Where a result needs a
  property of one of them (`PickWorks`, `FaithfulLsn`, `FaithfulHash`, `Faithful`,
  `Proper`) it says so.
- A target row is a map from column name to text with SQL NULL absent; a table is
  a multiset of rows.
- Generations are fresh tokens; clocks, free disk space and page sizes are
  parameters.
- Byte counts and sequence numbers are unbounded except where the code's width
  shows: the bigint check of `store`, the 64-bit row counters and length prefixes
  and the 256-bit sums of the digest.

## What the code does not guarantee

These are properties one might expect. Each is refuted, by a run from the initial
state or by an input, and the exact condition under which the code does meet it is
proved beside it.

- Acknowledgement progress: the acknowledged mark of a generation is stranded by
  exactly two kinds of step, the collector losing its stream (break or crash) with
  an acknowledgement in flight, and the server committing an event whose sender has
  already lost the stream (`Progress.StrandsExactly`, and over runs
  `Progress.StuckNeedsStrand`). Then it stays for the rest of the generation
  (`Guarantees.StuckForever`). `Witnesses.StuckReachable` is such a run. The data is
  safe either way.
- Repair: the authorization is spent when the new generation connects. From then on
  the repair is stranded by exactly the steps that end the session, until its first
  message is stored, which completes it (`Progress.RepairSessionStep`,
  `Progress.FirstMessageCompletes`, `Progress.BreakStrandsRepair`); once stranded no
  later step ever changes the server again (`Guarantees.StrandedForever`).
  `Witnesses.StrandedReachable` is such a run.
- One capture at a time: it holds in every run in which no stop returns before its
  capture has exited (`Quiescence.OneCaptureAtATime`); an early return followed by a
  break of the stream leaves two alive exactly if the first had not exited
  (`Quiescence.ImpatientStop`). `Witnesses.TwoCapturesReachable` is such a run.
- Admission: not everything a PostgreSQL collector publishes is stored. A server that
  has the tables and can take the announced schemas stores all of it if and only if
  three things do not occur (`Admission.TruthfulIsStored`, over every run
  `Pipeline.PublishedIsStored`): a transaction without captured rows, whose lone end
  marker is always refused (`Barrier.LoneEndRefused`, `Admission.LoneEndsAreEmpty`); an
  update of a table without a primary key that sends no column
  (`PgRows.SilentUpdateRefused`, `PgRows.ConvertedChangeApplies`); and a snapshot row
  with a column that the same snapshot adds, because the rows are checked against the
  columns of before (`Activation.AddedColumnRefused`, `Admission.SnapshotApplies`).
  What the target holds is right in each case.

## Model

| member | source | states |
|---|---|---|
| `Queue.StepValid` | internal/queue/queue.go:140-376 | every operation, failed or not, keeps delivered <= ready <= next, the items exactly the window from earliest to next under canonical envelopes, and both byte accounts equal to the summed sizes |
| `Queue.TraceStepValid` | internal/queue/queue.go:219-376 | no operation rewrites a published message or drops one outside a restart: what is still stored equals the published log, which only grows |
| `Queue.RunKeepsQueue` | internal/queue/queue.go:140-490 | the same over every sequence of operations and crashes |
| `Queue.FreshQueueValid` | internal/queue/queue.go:56-85 | a new queue satisfies the invariant with an empty log |
| `Queue.StepWithinCapacity` | internal/queue/queue.go:219-258 | pending bytes stay within the configured capacity |
| `Queue.FirstKeptIsFirst` | internal/queue/queue.go:462-483 | eviction stops at the first acknowledged item that is young enough and from which everything fits the replay budget, and passes over nothing worth keeping |
| `Queue.AckEvictsOldest` | internal/queue/queue.go:438-490 | an acknowledgement removes only the oldest acknowledged items and ends within the replay budget, also for upgraded states with earliest = 0 |
| `Queue.GetReadsPublished` | internal/queue/queue.go:377-422 | exactly the published messages in the window can be read, unchanged; peeking returns the next undelivered one |
| `Queue.AppendStages` | internal/queue/queue.go:219-258 | an append adds one stamped message to the invisible ones |
| `Queue.RecoverDiscardsStaged` | internal/queue/queue.go:322-338 | recovery discards exactly the invisible messages: every published item still stored stays, unchanged |
| `Queue.PublishExposesStaged` | internal/queue/queue.go:261-303 | a publication moves exactly the invisible messages to the end of the log |
| `QueueStore.RewriteBoundary` | internal/queue/queue.go:188-212 | the rewrite loop relabels every invisible snapshot message with its new size, or refuses exactly when the new total exceeds the capacity |
| `QueueStore.DropUnpublished` | internal/queue/queue.go:322-338 | the loop removes exactly the items past ready and returns their total size |
| `QueueStore.Evict` | internal/queue/queue.go:462-483 | the eviction loop terminates at the first item worth keeping, with the archive account exact |
| `QueueStore.Store.constructor` | internal/queue/queue.go:56-85 | an empty valid store |
| `QueueStore.Store.Initialize` | internal/queue/queue.go:140-163 | refused in phase stream, otherwise an empty snapshot-phase queue of the given state; the invariant is kept |
| `QueueStore.Store.FinalizeSnapshotLsn` | internal/queue/queue.go:179-217 | relabels an unpublished snapshot or fails without change |
| `QueueStore.Store.Append` | internal/queue/queue.go:219-258 | stamps and stores the message, or reports a full queue without change |
| `QueueStore.Store.PublishSource` | internal/queue/queue.go:286-303 | advances ready to next with position and cleanup token; sealing only from phase snapshot |
| `QueueStore.Store.PublishSchema` | internal/queue/queue.go:267-284 | publishes under a new schema hash, only in phase stream with non-empty arguments |
| `QueueStore.Store.ClearSourceCleanup` | internal/queue/queue.go:307-320 | clears the token only if it is the expected one |
| `QueueStore.Store.Recover` | internal/queue/queue.go:322-338 | drops what was never published |
| `QueueStore.Store.ResetForSnapshot` | internal/queue/queue.go:344-375 | resets only a drained queue in phase stream |
| `QueueStore.Store.Ack` | internal/queue/queue.go:438-490 | acknowledges only the next published message under its own id, then evicts |
| `QueueStore.Store.Get` | internal/queue/queue.go:399-422 | succeeds exactly inside the window, gaps never occur |
| `Staging.SelectPage` | internal/server/target.go:505-537 | a keyset page after a given (seq, ordinal) cursor holds the next rows in that order, up to the page size |
| `TargetStore.PublishTransaction` | internal/server/target.go:554-611 | for any staged chunks and any page size >= 1 the loop terminates and applies each row of the transaction exactly once in order, although it deletes while it pages, and empties the inbox of that transaction; or fails exactly when one ordered pass fails |
| `TargetStore.PublishSnapshot` | internal/server/target.go:505-547 | the same for staged snapshot rows, inserted in order |
| `TargetStore.ActivateStaged` | internal/server/schema.go:51-107 | the loop over staged schemas adds exactly the missing columns, or fails exactly when the set is incomplete or a column cannot be added |
| `TargetStore.TargetDatabase.Store` | internal/server/target.go:245-390 | the stored state after a message is the one the transaction function gives, and a refused message changes nothing |
| `TargetStore.TargetDatabase.ApplyMessage` | internal/server/target.go:423-640 | the per-kind effect, component by component |
| `TargetRun.StoreInv` | internal/server/target.go:245-390 | for every message, well formed or not, an accepted one keeps: applied <= received, hashes for exactly 1..received, inbox entries of the current generation and open transaction, inbox empty iff no transaction is open, a pending schema only in phase stream with no transaction open |
| `TargetRun.ReplayIsHarmless` | internal/server/target.go:288-298 | a replayed sequence changes nothing, or is refused exactly when its payload hash differs |
| `TargetRun.SwitchClears` | internal/server/target.go:264-287 | a message of another generation is accepted only as sequence 1 snapshot_begin; staging and hashes start empty, tables and files stay |
| `Replay.RunRefines` | internal/server/target.go:245-640 | for every sequence of offered messages the store equals one plain fold over the accepted log: each unit takes effect whole, once, at its closing message |
| `Replay.EffectStopsAtClosing` | internal/server/target.go:367-384 | messages after the last closing one have no effect |
| `Replay.SnapshotForgetsPast` | internal/server/target.go:473-547 | once a snapshot covering a table is published the table depends on the log alone, whatever the target held before |
| `Replay.ReplayNeedsSamePayload` | internal/server/target.go:288-298 | replaying a stored log message leaves the store as it is |
| `Replay.ClosedLogIsQuiescent` | internal/server/target.go:338-384 | a stored log that ends with a closing message leaves applied = received, no open transaction and no pending schema |
| `Barrier.ActivationIsComplete` | internal/server/schema.go:34-79 | a version is activated only when the staged set is exactly the configured tables, by counting distinct configured tables |
| `Barrier.NextAdmitted` | internal/server/target.go:299-363 | a message a collector publishes next, tables announced in any order, passes the version, phase, contiguity, open-transaction and barrier checks unless it is a lone end marker, which never does; only rows the data does not admit or an incomplete file can fail otherwise |
| `Barrier.FirstAdmitted` | internal/server/target.go:264-298 | the first message of a fresh generation, listing any configured tables, is always stored |
| `Barrier.LoneEndRefused` | internal/server/target.go:338-341 | an end marker without a chunk before it is always refused |
| `Barrier.StreamAdmitted` | internal/server/target.go:245-390 | the whole of any published stream of snapshot, transactions, refreshes and files is admitted, failing at most on data or on a lone end marker; with one it always fails |
| `Files.Reassemble` | internal/server/target.go:642-722 | succeeds exactly when the batch has one begin and the announced contiguous chunks, total size and digest, and returns their concatenation |
| `FileCapture.PublishFile` | internal/filewatch/collector.go:297-351 | begin, numbered chunks and end of a file become visible together exactly when it could be read, fits the queue and is still as recorded; otherwise nothing becomes visible and nothing invisible is left |
| `Files.FileRoundTrip` | internal/filewatch/collector.go:297-351 | for every content and positive chunk size the emitted batch is complete and reassembles to the same bytes |
| `Files.BatchCompletes` | internal/server/target.go:642-722 | the batch that publishing a file produces meets every check of the reassembly |
| `SystemInv.StepGood` | internal/server/server.go:186-330 | every step of either party, break, crash or lost frame keeps the pipeline invariant |
| `SystemInv.RunGood` | internal/delivery/grpc.go:73-245 | so does every run |
| `Guarantees.EndToEnd` | internal/server/server.go:211-330 | in every run the stored log is a prefix of the log published for that generation, and the target tables are one fold of its complete units up to applied, each whole and once |
| `Guarantees.ReplayAlwaysAvailable` | internal/delivery/grpc.go:213-222 | no run ever answers that replay history is unavailable |
| `Guarantees.CountersOrdered` | internal/delivery/grpc.go:189-206 | delivered <= received <= ready within a shared generation |
| `Guarantees.AlignedAccepts` | internal/delivery/grpc.go:189-201 | an aligned session accepts every acknowledgement and the gap stays at most one |
| `Guarantees.StepCarries` | internal/server/server.go:292-330 | an aligned session stays aligned until the stream breaks on the collector's side; once the server is ahead nothing of that generation is acknowledged again |
| `Guarantees.AlwaysLevel` | internal/delivery/grpc.go:189-201 | every reachable state is at rest, aligned or stuck |
| `Progress.StrandsExactly` | internal/server/server.go:300-314 | in every reachable state in which the acknowledged mark is not stranded, a step strands it if and only if the collector drops a stream with an acknowledgement in flight or the server commits an event whose sender is gone |
| `Progress.StuckNeedsStrand` | internal/delivery/grpc.go:189-201 | over every run a stranded mark goes back to such a step |
| `Witnesses.StuckReachable` | internal/delivery/grpc.go:189-201 | every configuration with room for an empty snapshot has a run from the initial state that strands the mark |
| `Guarantees.StuckForever` | internal/server/server.go:216-216 | after that no run of the generation moves it |
| `Guarantees.SwitchesAreAuthorized` | internal/server/server.go:215-226 | over every run the stored generation changes at most as often as repairs were authorized |
| `Guarantees.SwitchStartsOver` | internal/server/target.go:264-287 | each change stores sequence 1 snapshot_begin with emptied inbox, stage and hashes and leaves tables and files |
| `Progress.BreakStrandsRepair` | internal/server/server.go:217-226 | the end of a session strands a repair if and only if its authorization is spent and the stored generation is not the collector's |
| `Progress.RepairSessionStep` | internal/server/server.go:217-226 | a repair session that has stored nothing is stranded exactly by the steps that end it; otherwise it goes on, is authorized again or has stored its first message |
| `Progress.FirstMessageCompletes` | internal/server/target.go:264-287 | storing its first message completes a repair |
| `Witnesses.StrandedReachable` | internal/server/server.go:217-226 | there is a run from the initial state through a granted repair that strands it |
| `Guarantees.StrandedForever` | internal/server/target.go:215-231 | no run ever changes the server again after that |
| `Quiescence.StepKeepsController` | internal/app/reconcile.go:36-121 | every step but an early stop keeps at most the controller's own capture alive |
| `Quiescence.OneCaptureAtATime` | internal/app/reconcile.go:36-121 | if every stop waits for its capture no run has two captures alive |
| `Quiescence.ImpatientStop` | internal/app/reconcile.go:52-66 | a stop that returns on its context, followed by a break of the stream, leaves two captures alive exactly if the first had not exited |
| `Witnesses.TwoCapturesReachable` | internal/app/reconcile.go:52-66 | there is a run from the initial state to two captures alive |
| `Quiescence.OnlyPauserResumes` | internal/app/reconcile.go:69-121 | a pause ends only by a crash, the break of the stream that carried its request, the frame resuming or repairing that request, or the answer that the queue is not drained |
| `Quiescence.RepairResetsDrained` | internal/app/reconcile.go:107-121 | the queue is reset only for the pausing request, with no capture alive and everything published acknowledged and stored |
| `Units.StepTidy` | internal/queue/queue.go:286-303 | operations that publish at unit ends keep the published log ending with a closed unit and beginning with its snapshot |
| `CaptureStream.CaptureDisciplined` | internal/capture/decode.go:86-113 | every append and publication of the streaming PostgreSQL capture is such an operation |
| `PgCollector.ActDisciplined` | internal/capture/capture.go:253-386 | so is every operation of the PostgreSQL collector, snapshot included |
| `LegacyOutbox.StepDisciplined` | internal/sqlserverlegacy/stream.go:37-78 | so is every operation of the outbox collector |
| `Collectors.WorkDisciplined` | internal/sqlserver/snapshot.go:74-126 | so is whatever any collector does next: PostgreSQL, SQL Server, outbox and file snapshots and streams |
| `Collectors.SnapshotDraftsFit` | internal/sqlserver/snapshot.go:74-113 | the messages of a snapshot of a SQL Server, outbox or file collector begin with the scope and have their only end marker last |
| `Collectors.ScanIsAlwaysQuiescent` | internal/app/reconcile.go:69-91 | in every run whose captures are these collectors and whose stops wait: whenever the source scan runs no capture is alive and, if anything was published, the server has received = applied = ready, no open transaction and no pending schema |
| `Pipeline.ScanFindsServerLevel` | internal/app/reconcile.go:69-91 | the same for every run of the pipeline with a PostgreSQL collector, without a condition on its captures |
| `Quiescence.StoreHeldUntilDecision` | internal/server/reconcile.go:140-209 | over every run from the scan until and including the decision about it the server's store does not move |
| `CaptureControl.CaptureController.constructor` | internal/app/reconcile.go:30-34 | starts with one capture alive and no pause |
| `CaptureControl.CaptureController.OneAlive` | internal/app/reconcile.go:36-121 | at most one capture is alive in every state of the object, unless a stop was given up with its capture alive |
| `CaptureControl.CaptureController.Start` | internal/app/reconcile.go:36-50 | one new capture beside those still alive, of which there are none unless a stop was given up |
| `CaptureControl.CaptureController.Pause` | internal/app/reconcile.go:52-81 | claims the controller unless another request holds it and tells the capture to stop; if it need not wait no capture is alive |
| `CaptureControl.CaptureController.GiveUp` | internal/app/reconcile.go:61-63 | a stop that returns on its context gives the exclusion up exactly if its capture is alive |
| `CaptureControl.CaptureController.Settle` | internal/app/reconcile.go:82-91 | scans exactly a drained queue, and then no capture is alive; otherwise the pause is over and a capture runs |
| `CaptureControl.CaptureController.Resume` | internal/app/reconcile.go:94-105 | ends the pause of this request and no other; afterwards a capture runs, the earlier one if it had not been told to stop, otherwise a new one; the count of captures alive grows by exactly that |
| `CaptureControl.CaptureController.Repair` | internal/app/reconcile.go:107-121 | only for the pausing request, with the capture told to stop and a drained stream queue, and then no capture is alive; otherwise nothing changes |
| `CaptureControl.CallsAreTransitions` | internal/app/reconcile.go:36-105 | starting and resuming are the transitions of the two-party state machine |
| `Batching.AddAllFilling` | internal/capture/batch.go:60-94 | chunks and batch hold exactly the rows added, in order, under the limits |
| `Batching.EncodeChunks` | internal/capture/batch.go:60-94 | a transaction's chunks concatenate to its rows, keep the row and byte limits unless single-row, are numbered 0..n-1, and the end marker carries n |
| `PgRows.DecodeColumns` | internal/capture/decode.go:150-171 | the decoding loop against its specification, with the first error reported |
| `PgRows.FullRowKeys` | internal/capture/decode.go:188-215 | the full-row identity loop: old values for missing ones in updates, a schema mismatch for inserts |
| `PgRows.PrimaryKeys` | internal/capture/decode.go:217-238 | the primary-key loop: every key value present and not NULL |
| `PgRows.Convert` | internal/capture/decode.go:143-243 | the conversion as a whole |
| `PgRows.EnoughIsAll` | internal/capture/decode.go:190-194 | as many distinct known columns as the table has are all of them, so a full identity misses none |
| `PgRows.ConvertedChangeApplies` | internal/capture/decode.go:143-243 | for a configured table whose target columns include the source's, applying the converted record is refused exactly for an update that sends no column, and otherwise yields the true new row although unchanged TOAST values were omitted, for every choice of LIMIT 1 |
| `PgRows.SilentUpdateRefused` | internal/server/target.go:766-801 | a concrete record the converter accepts and the server refuses |
| `Changes.DescribedChangeApplies` | internal/server/target.go:751-817 | a truthful row event about a configured table makes exactly the described change, whichever matching row LIMIT 1 picks, and is refused exactly if it is an update that sends no column |
| `Changes.FullIdentityPins` | internal/server/target.go:766-817 | on a table without further columns a full identity leaves no choice between different rows |
| `Changes.UpdateKeepsForeignColumns` | internal/server/target.go:766-801 | an update leaves every column it does not send as it was, target-only ones included, and brings the source's columns to their new values |
| `CaptureDecoder.Decoder.Flush` | internal/capture/batch.go:83-94 | gives up a non-empty batch as the next numbered chunk |
| `CaptureDecoder.Decoder.Add` | internal/capture/batch.go:60-82 | adds a row, flushing before it when it would overflow and after it when the batch is full |
| `CaptureDecoder.Decoder.Record` | internal/capture/decode.go:74-141 | the transaction automaton on every record, malformed ones included; a refused record hands nothing to the queue |
| `CaptureDecoder.AppendWaiting` | internal/capture/batch.go:27-58 | waiting for room publishes and discards nothing: the stage has exactly the new message more, or is as it was, and nothing but appends of it and acknowledgements happened |
| `Capture.StepOk` | internal/capture/capture.go:178-213 | attaching, receiving, appending, publishing, refreshing, delivering and crashing keep: exactly the source transactions up to the durable position are published |
| `Capture.ExactlyOnce` | internal/capture/decode.go:74-141 | over every schedule of crashes and reconnects replaying from at or before the durable position, the published transactions are those of the source past the snapshot, in commit order, each whole and once |
| `CaptureStream.PublishedLogSpeaks` | internal/capture/capture.go:534-570 | from a sealed snapshot on the published log stays such a stream: whole transactions, empty ones included, whole schema refreshes, consistent versions |
| `PgSnapshot.ScanRow` | internal/capture/capture.go:333-361 | the loop over a row's columns reads the row with its identity |
| `PgSnapshot.ReadRowTells` | internal/capture/capture.go:333-361 | what is read describes the row it was read from |
| `PgSnapshot.ShotSpeaks` | internal/capture/capture.go:299-386 | a sealed snapshot (scope, one schema per table, batched rows, end) brings a stream from nothing to rest |
| `PgSnapshot.ShotEffect` | internal/server/target.go:473-547 | applying a stored snapshot leaves in every captured table exactly the rows read, whatever the target held before |
| `PgCollector.SealedOk` | internal/capture/capture.go:374-386 | sealing a snapshot reaches the state streaming starts from |
| `PgCollector.ActOk` | internal/capture/capture.go:178-386 | recovering, initializing, recording the point, appending, sealing, attaching, decoding, publishing and refreshing keep the account of what each generation was published from, crashes and new generations included |
| `Mirror.SnapshotLoads` | internal/server/target.go:473-547 | a snapshot leaves in each table of its scope exactly the images read from the source |
| `Mirror.TxnMirrors` | internal/capture/decode.go:143-243 | a truthfully logged transaction, converted and applied, repeats what happened at the source |
| `PgCollector.ReplicaMirrorsSource` | internal/capture/capture.go:215-532 | every prefix of a published log that covers its snapshot, applied to any target with the captured tables, gives them as the source had them after the snapshot's transactions and as many as the prefix contains |
| `Pipeline.MoveKeeps` | internal/capture/capture.go:178-213 | every move of capture, collector, server and network keeps the pipeline's invariant |
| `Pipeline.RunIsOrderly` | internal/capture/capture.go:178-213 | every run of the pipeline is a run of the two-party state machine whose captures publish whole units |
| `Pipeline.PublishedIsAdmitted` | internal/server/target.go:245-390 | in every run, whatever was published for a generation is admitted by every server that has not seen it, failing at most on data or on a transaction without rows; with one it always fails |
| `Admission.TruthfulIsStored` | internal/server/target.go:245-390 | a server that has the captured tables and can take the announced schemas stores the whole of a truthfully logged stream if and only if every transaction in it has a row, every update sends a column and the columns of the snapshot's rows were there before; its tables are then the fold of the log |
| `Pipeline.PublishedIsStored` | internal/server/target.go:245-390 | in every run of the pipeline with a truthful source such a server stores all that was published for a generation under exactly that condition |
| `Admission.LoneEndsAreEmpty` | internal/capture/decode.go:90-112 | the published log has an end marker with no chunk open exactly if a transaction without rows was published |
| `Admission.TransactionApplies` | internal/server/target.go:554-611 | where the server stands at the end of a published transaction, its rows are admitted if and only if none of its updates sends no column: their columns were announced and activated before |
| `Admission.SnapshotApplies` | internal/server/target.go:473-547 | where it stands at the end of the snapshot, its rows are admitted if and only if each table that has rows had all its columns before |
| `Activation.LearnedNext` | internal/server/schema.go:51-107 | every stored message keeps: the stage holds exactly the schemas announced since the last snapshot or refresh was closed, and the columns are those of before and all that were closed |
| `Activation.AddedColumnRefused` | internal/server/target.go:863-892 | a concrete snapshot whose end adds a column when it has no rows, and is refused when a row uses that column |
| `Versions.StepDated` | internal/capture/capture.go:186-203 | every step of the capture keeps: each snapshot and refresh is closed under the hash of the schemas it announced, and each published transaction was converted with a catalog that has the hash its messages carry |
| `Pipeline.TargetMirrorsSource` | internal/server/target.go:245-390 | in every run of the whole pipeline each captured table of the target is the source's after a whole number of committed transactions, as soon as anything is applied |
| `CdcRows.MaskBit` | internal/sqlserver/rows.go:96-102 | the mask test reads bit ordinal - 1 of the mask as a big-endian number, and refuses ordinals outside it |
| `CdcRows.ToColumns` | internal/sqlserver/rows.go:67-80 | the column loop against its specification |
| `CdcRows.RowKey` | internal/sqlserver/rows.go:82-94 | the key loop; NULL in a primary key is refused |
| `CdcRows.Reconstruct` | internal/sqlserver/rows.go:137-154 | the update loop: sent values and rebuilt before image |
| `CdcRows.ConvertChange` | internal/sqlserver/rows.go:113-161 | the conversion as a whole |
| `CdcRows.ConvertedChangeApplies` | internal/sqlserver/rows.go:113-161 | for a configured table whose target columns include the source's, every converted change is admitted and yields the true new row although unchanged MAX and legacy large-object values were suppressed |
| `CdcStream.ReadChanges` | internal/sqlserver/stream.go:184-245 | reads all rows exactly when they are well paired, unambiguous and convertible; what it emits expands to its input, rows are numbered 1..n, and otherwise it stops at the first row that fails |
| `CdcStream.PairComplete` | internal/sqlserver/stream.go:184-245 | every valid arrangement of changes is read back exactly, so the arrangement is unique |
| `CdcStream.PairDecides` | internal/sqlserver/stream.go:211-226 | reading decides validity |
| `CdcPoll.Poll` | internal/sqlserver/stream.go:34-145 | publishes the next transaction whole with its encoded chunks, or moves the position over an empty range, or leaves the published log as it was with at most a part of the chunks invisible; every operation publishes whole units only |
| `CdcPoll.CheckRetention` | internal/sqlserver/stream.go:24-32 | the loop over capture instances finds exactly whether all changes past the position are retained |
| `CdcRun.CdcExactlyOnce` | internal/sqlserver/stream.go:34-145 | over every sequence of recoveries, polls, deliveries and crashes the published transactions are those of the change tables between the snapshot and the durable position, in order, each whole and once |
| `LegacyOutbox.StepOk` | internal/sqlserverlegacy/stream.go:12-126 | every commit, collector step, delivery and crash keeps: the log carries exactly the messages of the published statements, each once and whole; every other committed statement is whole in the outbox; published ones are at or before the durable position |
| `LegacyOutbox.SnapshottedOk` | internal/sqlserverlegacy/collector.go:193-280 | conservation holds when the snapshot is sealed |
| `LegacyOutbox.NothingLostNothingTwice` | internal/sqlserverlegacy/stream.go:37-126 | over every run the log's transaction messages are the units of the published statements, each once, in order, with all rows of the statement; each statement past the boundary is published or whole in the outbox; only the one named by the durable token is in both places, none while polling; no statement or token is ever found missing |
| `LegacyOutbox.MessagesWhole` | internal/sqlserverlegacy/stream.go:37-62 | a statement's unit is numbered chunks that concatenate to all its rows and an end marker with their number, under its name and position |
| `LegacyOutbox.OnlyCommittedPublished` | internal/sqlserverlegacy/stream.go:37-78 | only committed statements are published |
| `LegacyOutbox.DiscardOk` | internal/sqlserverlegacy/stream.go:154-173 | discarding removes only changes the snapshot covers; every statement committed past it stays whole |
| `LegacyOutbox.CleanOk` | internal/sqlserverlegacy/stream.go:107-126 | a restart deletes the published statement the token names, completely, and nothing else |
| `LegacyRows.ScanValues` | internal/sqlserverlegacy/rows.go:170-203 | the loop over stored values reads columns exactly if they are numbered without gaps and can be rendered |
| `LegacyRows.ReadEvent` | internal/sqlserverlegacy/rows.go:159-220 | the reading of one change as a whole |
| `LegacyRows.ReadsBack` | internal/sqlserverlegacy/rows.go:159-220 | what a trigger recorded of an inserted or deleted row is read back as an event that describes it, exactly if no primary key value is NULL, although large objects of deleted rows are recorded as NULL |
| `LegacyRows.StatementTold` | internal/sqlserverlegacy/rows.go:222-270 | a recorded statement is read whole, and its rows tell what it did, row by row |
| `LegacyRows.PublishedStatementMirrors` | internal/sqlserverlegacy/stream.go:37-62 | what is published for a statement, applied to tables as they were before it, repeats what the statement did |
| `Encoding.PartsRoundTrip` | internal/reconcile/reconcile.go:182-191 | length-prefixed parts with an all-ones length for NULL are read back exactly |
| `Encoding.RowBytesInjective` | internal/reconcile/reconcile.go:106-124 | equal row preimages come from equal schema, table and columns, with NULL, empty and absent told apart |
| `Encoding.CellBytesInjective` | internal/reconcile/reconcile.go:126-142 | the same for identity columns |
| `Digest.Accumulator.constructor` | internal/reconcile/reconcile.go:25-29 | the zero accumulator |
| `Digest.Accumulator.Add` | internal/reconcile/reconcile.go:86-94 | the byte-wise carry loop adds modulo 2^256, XORs in place and counts modulo 2^64 |
| `Digest.AccumulateCommutes` | internal/reconcile/reconcile.go:86-94 | adding two hashes in either order gives the same state |
| `Reconcile.ColumnOrderFree` | internal/reconcile/reconcile.go:126-142 | permuting distinctly named columns changes no hash |
| `Reconcile.RowOrderFree` | internal/reconcile/reconcile.go:58-124 | nor does it change a row's hash or bucket |
| `Reconcile.RowOrderIndependent` | internal/reconcile/reconcile.go:73-84 | the bucket states depend only on the multiset of rows |
| `Reconcile.CountsSum` | internal/reconcile/reconcile.go:41-56 | bucket counts sum to the number of rows while that fits 64 bits |
| `Reconcile.NewBuilder` | internal/reconcile/reconcile.go:34-39 | empty buckets in separate memory; zero buckets are refused |
| `Reconcile.Builder.Add` | internal/reconcile/reconcile.go:41-48 | a row changes the state of its own bucket and nothing else; one without identity is refused |

## Left out

- MySQL binlog streaming, HTTP delivery, hot reload, metrics, TLS, tokens and the command line: they would add only easy members.
- Catalog inspection, snapshot locking and SQL text: foreign calls. What the catalogs guarantee is written as `WellFormed` and `CatalogOf`.
- Slot creation and replacement, and the check of the slot's position when streaming starts: foreign calls. That the exported snapshot shows the tables at its consistent point is `PgCollector.Shows`.
- The sources of SQL Server and file collectors have no counterpart of `Pipeline.TargetMirrorsSource`: for them the model goes from change-table rows, outbox statements and file contents to the published log, and from there to the target.
- File columns embedded in rows, file manifests and directory diffs.
- Value normalization of floats, decimals, bits, JSON and dates: a parameter.
- The reconciliation schedule and the comparison of digest lists: a nondeterministic decision of the server in `System`.
- `System` models both stream loops as steps of one state machine, not as methods with loops, because their interleaving is the point; heartbeats and metrics frames are not modelled, and the collector connects only when no session is open, as the server's lease enforces.
- How the rows of a SQL Server or outbox snapshot are read; their values in the change tables and the outbox are modelled (`CdcRows`, `LegacyRows`).
- Digest.Accumulator.Add: SHA-256 itself and the final hexadecimal digest are not modelled.
