# A verified model of the market-data pipeline

The repository collects market records, buffers them per market and table, encodes them into
uniquely named Parquet segments, uploads the segments to S3, deletes them locally once they are
uploaded, and later compacts each hourly partition in S3. This project models that pipeline in
Dafny and proves what every run of it keeps, including runs whose requests fail part-way.
`dafny verify dfyconfig.toml` checks everything.

How the model is laid out:

- **Compaction.** `Compaction` is one attempt on one partition as the sequence of S3 requests the
  compactor issues; any request may fail, with or without effect. `Bucket` is the shared bucket: any
  number of runs, the lock object, the producer. An event is one request, so a sequence of events is
  an interleaving; `BucketRows` proves what its runs keep, `PlanProgress` that a plan is carried out,
  `LockSafety` when the lock excludes, and `LostRow` what a broken lock can cost. `CompactionTask` is the same attempt as the program with its
  loops, and it follows the attempt machine step by step. `Merge` is the batch-wise merge.
- **Writer.** `WriterThread` is one market's worker as a class with the source's loops. `WriterSystem`
  interleaves three workers, the encoder and the callers of `flush` as atomic steps. `WriterStreams`,
  `WriterHours`, `WriterGauge`, `FlushBarrier`, `WriterProgress` and `FlushAnswers` prove conservation,
  the hours of the records, the byte gauge, the flush guarantee, that the writer comes to rest and that
  every answer arrives, over all its runs; `OverlappingFlush` is a run that shows where the guarantee ends.
- **Archiver and the joins.** `Archive` is the uploader with its clean-up. `Durability` joins it to
  the bucket, and `Pipeline` joins the writer to both: a successful encoder write is the publication
  of a segment file under the path that module `Naming` gives it.
- **Independent parts.** `Limiter` and `Scheduler` (snapshot requests), `Connections` and `Shards`
  (WebSocket streams), `Options` (lists and buffer sizes), `Decimal`, `Naming` and `Schema` (exact
  text functions), over `Text`, `Rows`, `Numbers`, `Sequences`, `Markets` and `Wrappers`.

A claim about runs speaks of every finite sequence of states and events that starts in an initial
state and takes only enabled steps. A claim about rows is stated for one arbitrary row and counts its
copies. A reader of a partition sees the live segments and, if the success marker exists, the output.

## What turned out to be false

- *Exactly-once* fails when the deletions fail after the marker was put: `Compaction.LateFailureDoubles`
  gives the run. `BucketRows.ExactlyTheTidyRuns` says exactly when the code meets it, event by event:
  no attempt ends with a nonempty source both live and in the visible output, and no nonempty
  compacted segment is put again. `BucketRows.ExactlyOnce` says it for one row.
- *Lock safety* fails in two ways. A run that outlives the 12-hour limit is joined by another one
  (`LockSafety.SlowRunIsJoined`); and two runs that recover from the same crash collide, because the
  later one deletes the fresh lock of the earlier (`LockSafety.RemoversCollide`). `LockSafety.TakeoverExact`
  says exactly which runs are safe: those in which no lock is deleted as stale while a run is at work.
  `LockSafety.TimelyRunsAreSafe` says what to check for it: every run ends within the limit, and every
  deletion removes the lock object that was found stale. `LostRow.LockLossLosesRow` is a run of the first
  kind that loses a row.
- *A flush that succeeds leaves no write failure that was not reported before it began* fails when
  flushes overlap: `OverlappingFlush.OverlapHidesFailure` gives the run, `FlushBarrier.FlushGuarantee` the
  exact condition, that no other flush was answered with an error while this one was under way.
- *At most the stream limit per connection* fails: `Shards.LimitExceeded` gives 1026 streams against a
  limit of 1024; `Shards.PeakLoad` gives the exact load, for every count of connections.
- *Segments are compacted in flush order* fails when sequence numbers differ in printed width:
  `Naming.OutOfOrder`, for every width, and exactly, `Naming.KeyOrder`.
- *An upload that did everything it had to succeeds* fails when the clean-up has already removed the
  segment whose size the closing log line asks for: `Archive.Archiver.Upload` says exactly when.
- *A printed table is read back* fails when the last column is a decimal: `Schema.TableReadBack`.

## Model

| member | source | states |
|---|---|---|
| `Compaction.AdvanceKeeps` | src/compactor.rs:434-486 | every successful request of an attempt (marker probe, merge, upload, retain, verify, marker, delete) keeps the accounting invariant of every row |
| `Compaction.PutKeeps` | src/archive.rs:152-185 | segments that arrive while an attempt runs keep it; a forced second put of a compacted segment costs exactly its rows |
| `Compaction.EndKeeps` | src/compactor.rs:434-486 | an attempt may fail at any request, applied or not; the visible surplus grows by exactly the rows of the sources left both live and in the output |
| `Compaction.VisibleAccount` | src/compactor.rs:440-483 | what a reader sees equals what was put plus the sources being deleted plus the surplus |
| `Compaction.SpillCovers` | src/compactor.rs:456-481 | an unanswered write may have done just what a granted one does, an unanswered deletion any part of it |
| `Compaction.LateFailureDoubles` | src/compactor.rs:471-481 | exactly-once is false without a premise: a concrete run after which a row is visible twice |
| `CompactionTask.Compactor.Compact` | src/compactor.rs:434-486 | takes the sources in key order; success leaves every row as visible as before, marker put, sources checked and deleted, and an output that holds the batches of the old output and of the sources in this order, each batch reordered, by exactly the requests it takes; a failure has one of the listed causes and, before the output is visible, changes no visibility |
| `CompactionTask.Compactor.RetainSources` | src/compactor.rs:556-595 | copies and then size-checks every source in turn, and stops only at a refused request or a copy that is missing or of another size |
| `CompactionTask.Compactor.DeleteSources` | src/compactor.rs:597-617 | deletes all sources by the least number of requests of at most 1000 names, and stops at the first that is refused |
| `CompactionTask.Compactor.MergeNext` | src/compactor.rs:494-522 | reads one input, the old output first when the marker exists, and appends its batches, each reordered; fails exactly when the request is refused, the input is not there or its schema differs from the earlier ones |
| `CompactionTask.Compactor.MergeAll` | src/compactor.rs:488-525 | merges the old output and then every source in order, batch by batch, under their one schema; on an error it has stopped at the input that is refused, missing or of another schema, and there is nothing to merge exactly without sources and marker |
| `CompactionTask.Compactor.Exists` | src/compactor.rs:440-455 | the old output is read again if and only if the marker exists |
| `CompactionTask.EarlyFailure` | src/compactor.rs:440-467 | an attempt that fails before its output is visible leaves every count as it was |
| `CompactionTask.Completed` | src/compactor.rs:471-481 | a finished attempt leaves no surplus and no source |
| `Bucket.MutualExclusion` | src/compactor.rs:146-154 | at most one run is between acquire and release, over any number of concurrent runs with crashes and failed acquires |
| `Bucket.LockKept` | src/compactor.rs:252-302 | every event keeps the lock's invariant provided a lock is removed as stale only while no run is at work |
| `LockSafety.AcquireExactly` | src/compactor.rs:252-291 | with its requests granted a new run comes to work if and only if there is no lock object, or it learns of one and finds it more than 12 hours old |
| `LockSafety.TakeoverExact` | src/compactor.rs:257-302 | mutual exclusion, exactly: no lock was deleted from under a run at work if and only if no state of the run can go on, without another takeover, to two runs at work |
| `LockSafety.TimelyRunsAreSafe` | src/compactor.rs:257-302 | safe, crashes and recoveries included, when every run ends within the staleness limit and every takeover deletes the very lock object its run inspected |
| `LockSafety.NeverStaleIsSafe` | src/compactor.rs:266-279 | safe also when no inspected lock object is older than the staleness limit |
| `LockSafety.SlowRunIsJoined` | src/compactor.rs:266-279 | a run that outlives the limit is joined although the takeover deletes what it saw: a concrete run |
| `LockSafety.RemoversCollide` | src/compactor.rs:257-280 | two runs that recover from one crash are both at work although every run is young: a concrete run in which the second deletes the fresh lock of the first |
| `LostRow.LockLossLosesRow` | src/compactor.rs:257-280 | without safe takeovers a row can be lost: two first compactions overlap, and a row that was put ends in no live segment and not in the marked output |
| `BucketRows.Accounting` | src/compactor.rs:434-486 | after every event of every run, the visible copies of a row are its puts, plus committed sources not yet deleted, plus the surplus of earlier events |
| `BucketRows.NoRowLost` | src/compactor.rs:434-486 | every row ever put is in a live segment or in the marked output, after every event of every run |
| `BucketRows.ExactlyOnce` | src/compactor.rs:440-483 | at a quiescent point every row is visible exactly once per put if and only if no event had a cost |
| `BucketRows.ExactlyTheTidyRuns` | src/compactor.rs:440-483 | all rows of a partition are visible exactly once per put if and only if no attempt ended with a nonempty source both live and in the visible output, and no nonempty compacted segment was put again |
| `BucketRows.TidyCostsNothing` | src/compactor.rs:460-483 | which is, event by event, when nothing is left behind |
| `BucketRows.CleanRunsAreExact` | src/compactor.rs:440-483 | without late failures and forced re-puts every row is visible exactly once per put, also after failed attempts |
| `BucketRows.DeletedOnlyWhenSecured` | src/compactor.rs:460-481 | a segment disappears only after its copy was checked and the marker put |
| `BucketRows.CheckedMeansCopied` | src/compactor.rs:572-592 | a checked copy is the file that was put, with the listed size |
| `BucketRows.MarkedHasOutput` | src/compactor.rs:441-449 | a marked partition always has its output, so the re-merge finds it |
| `BucketRows.PlanKept` | src/compactor.rs:180-200 | the partitions a run has yet to compact are distinct and keep all their listed segments |
| `PlanProgress.PlanCarriedOut` | src/compactor.rs:180-200 | over all interleavings: a run that was neither refused nor interrupted since its scan and has reached its end has finished exactly the partitions of its plan, in this order |
| `PlanProgress.FinishedIsCompacted` | src/compactor.rs:434-486 | when it finishes a partition, that is the next of the plan, its marker and output are there, every planned source is checked, and none is live unless it was put again since the scan |
| `PlanProgress.StopsAfterSetback` | src/compactor.rs:180-202 | after its first failed request a run does no more work |
| `PlanProgress.FailedWorkReleases` | src/compactor.rs:146-154 | a run whose work failed still gives up the lock |
| `Merge.LexsortToIndices` | src/compactor.rs:682 | the indices are a permutation of the rows in lexicographic order of the key columns |
| `Merge.ReorderBatch` | src/compactor.rs:665-689 | a batch becomes a permutation sorted by symbol, then by the time columns it has; without a symbol column it is unchanged |
| `Merge.Merge` | src/compactor.rs:488-525 | the output is the concatenation of the reordered batches; exact error cases and the saturating row count |
| `Merge.BlockwiseKeeps` | src/compactor.rs:515-520 | the merged file has exactly the rows of its sources |
| `Merge.MergedRows` | src/compactor.rs:691-698 | the rows are those of all sources, and the row-count check passes exactly while the count fits the counter |
| `Merge.ChunksJoin` | src/compactor.rs:514-520 | the batches of a source put together are the source, each nonempty and, but for the last, of exactly the batch size |
| `Merge.OrderMeans` | src/compactor.rs:665-681 | of two rows of a reordered batch the earlier one has the smaller cell in the first of symbol, event_time, observed_at and received_at in which they differ |
| `Merge.CellOrderMeans` | src/compactor.rs:669-682 | nulls come first, numbers grow and texts are in lexicographic order |
| `Buffering.HandOverKeepsStream` | src/writer.rs:427-452 | handing a buffer to the encoder changes no table's stream |
| `Buffering.AcceptAppends` | src/writer.rs:333-354 | accepting a record appends it, under the current hour, to its own table's stream only |
| `Buffering.AcceptValid` | src/writer.rs:333-354 | even with saturating sums the worker's total never exceeds the sum of its tables' counts |
| `Buffering.HandOverValid` | src/writer.rs:427-452 | the same for handing over |
| `WriterThread.WriterThread.FlushTable` | src/writer.rs:427-452 | at most one job, with the next sequence number and the buffer's records; every stream unchanged |
| `WriterThread.WriterThread.FlushAll` | src/writer.rs:419-425 | empties every table in any order and changes no stream |
| `WriterThread.WriterThread.FlushLargest` | src/writer.rs:394-404 | removes one table with the largest byte count, so the eviction loop ends |
| `WriterThread.WriterThread.FlushExpired` | src/writer.rs:406-417 | removes exactly the tables older than the interval |
| `WriterThread.WriterThread.AcceptRecord` | src/writer.rs:334-354 | adds to the worker's total, the shared gauge and the record's table |
| `WriterThread.WriterThread.HandleRecords` | src/writer.rs:332-367 | afterwards the total is below the buffer size and every table below the segment size, the records are appended to their streams, what stays is no larger than what was evicted, no more was evicted than it took, and only full tables go while the total fits |
| `WriterThread.WriterThread.EvictLargest` | src/writer.rs:364-366 | the eviction loop ends below the buffer size, and would not have been there without the last and smallest table that went |
| `WriterThread.WriterThread.RollOver` | src/writer.rs:325-329 | a later clock hour drains the worker before the hour moves on |
| `WriterThread.WriterThread.FlushThrough` | src/writer.rs:369-388 | a flush empties the worker and then sends its barrier |
| `WriterThread.WriterThread.Handle` | src/writer.rs:324-389 | records restore the bounds, a tick leaves exactly the tables younger than the interval, a flush leaves none and puts its barrier last |
| `WriterThread.WriterThread.Run` | src/writer.rs:317-392 | for every command sequence, clock and map order: a table's jobs carry its records in arrival order, each under the largest clock hour seen when it was accepted, nothing is left behind, and what is buffered in between is dated by the instants of acceptance and rid of old tables by every tick |
| `WriterThread.WriterThread.YoungAfterTick` | src/writer.rs:406-417 | after a tick no record is buffered that was accepted the flush interval or more before the age of its table was read |
| `WriterThread.HandOverSound` | src/writer.rs:438-448 | jobs are numbered consecutively with wrap-around and their hours never decrease |
| `WriterStreams.ConservedHolds` | src/writer.rs:241-392 | over all interleavings, per market and table: written, in hand, queued, buffered and waiting records are, in this order, exactly what was submitted |
| `WriterStreams.AllJobsStep` | src/writer.rs:241-286 | the encoder moves jobs along in order; only a hand-over adds one |
| `WriterHours.FiledUnderHour` | src/writer.rs:324-354 | over all interleavings every record is handed over under the largest clock hour its worker had seen when it accepted it, in the order of acceptance |
| `FlushAnswers.AnswersArrive` | src/writer.rs:165-177 | where the writer can go no further every answer has reached the flush that asked for it, and a flush has failed if and only if it was answered with an error |
| `WriterProgress.StepsBounded` | src/writer.rs:241-392 | the workers and the encoder can take only so many steps before they need new commands, whatever they do first |
| `WriterProgress.NoDeadlock` | src/writer.rs:241-392 | as long as anything is under way some step of theirs is possible |
| `WriterProgress.StuckIsAtRest` | src/writer.rs:165-177 | where they can go no further everything is written or buffered and no caller of a flush waits |
| `WriterGauge.GaugeIsExact` | src/writer.rs:244-256 | while the totals fit 64 bits, the shared gauge equals the bytes buffered, queued and in the encoder's hand |
| `WriterGauge.GaugeNeverUnderflows` | src/writer.rs:254-256 | the encoder's subtraction never goes below zero |
| `WriterGauge.WrittenIsPublished` | src/writer.rs:258-262 | the written-records counter counts the records of the successful writes, except those still in hand |
| `WriterSystem.AnswerInvKept` | src/writer.rs:241-286 | the pending error is set exactly when a write failed since the last answer |
| `WriterSystem.BarrierAnswer` | src/writer.rs:278-284 | a barrier is answered Ok exactly when every write since the previous answer succeeded |
| `WriterSystem.FailingMeans` | src/writer.rs:272-283 | what the pending error stands for, in terms of the log |
| `FlushBarrier.FlushGuarantee` | src/writer.rs:165-177 | a flush that returned Ok: everything any market was given before is written and every failed write among it was reported; to a call before this one if and only if no other flush was told of an error meanwhile |
| `FlushBarrier.AloneIsUndisturbed` | src/writer.rs:165-177 | which is the case for a flush that overlaps no other |
| `OverlappingFlush.OverlapHidesFailure` | src/writer.rs:165-177 | an overlapping flush returns Ok over a failed write that was not reported before it began: a concrete run |
| `FlushBarrier.FailureReported` | src/writer.rs:272-283 | a failed write is reported by an answer no later than the next one |
| `FlushBarrier.InvKept` | src/writer.rs:165-177 | every step keeps that a flush token, wherever it is, stands behind all records submitted before it |
| `Archive.Archiver.Upload` | src/archive.rs:152-185 | the marker is written only after the put; a marked segment is sent again only by force; nothing leaves the disk that S3 does not have; every error exactly, also the one after a clean-up that removed the segment itself |
| `Archive.Archiver.CleanUp` | src/archive.rs:200-224 | removes exactly the marked files whose hour and retention, the shorter one when the disk is short, have passed the current hour; a failure half-way has removed none but these |
| `Archive.Archiver.CleanUpIfDue` | src/archive.rs:226-237 | does so at most once a minute, and again at once after a failure |
| `Archive.Archiver.constructor` | src/archive.rs:60-78 | keeps the retention settings and makes the first clean-up due at once |
| `Numbers.FloorHour` | src/writer.rs:454-460 | the start of the hour of a clock reading |
| `Durability.InvKept` | src/archive.rs:152-224 | every step of archiver and bucket keeps: published segments are on disk or in S3, marked ones are in S3, S3 holds only published segments |
| `Durability.BucketRun` | src/archive.rs:152-185 | seen from S3, a run of the pipeline is a run of the bucket: a name is only ever put with one file |
| `Durability.UploadCompletes` | src/archive.rs:152-185 | with its requests granted an upload makes the segment live in S3 and marks it, from every state |
| `Durability.RemovedOnlyWhenUploaded` | src/archive.rs:215-222 | the clean-up never removes a file whose put did not complete |
| `Durability.EndToEnd` | src/archive.rs:152-224 | every row of a published segment is in its local file, in a live S3 segment or in the marked output, over all interleavings with crashes |
| `Durability.EndToEndCount` | src/archive.rs:152-224 | segments that never reached S3 are on disk, and together with what a reader finds they account for every published copy |
| `Durability.EndToEndExactly` | src/archive.rs:152-224 | exactly once from end to end: while no attempt is under way, the copies on disk that never reached S3 and the visible ones are together the published ones, for every row, if and only if every request so far was tidy |
| `Pipeline.LayoutSeparates` | src/parquet_store.rs:47-61 | jobs with different numbers or of different markets have different paths |
| `Pipeline.NumberedKept` | src/writer.rs:438-448 | over all interleavings every worker's jobs are numbered consecutively |
| `Pipeline.PathIsFresh` | src/parquet_store.rs:69-70 | the publishing rename never replaces a segment in the first 2 to the 64 jobs |
| `Pipeline.WorldRun` | src/writer.rs:257-268 | seen from archiver and bucket, the writer only ever publishes fresh segments |
| `Pipeline.PublishedRowKept` | src/writer.rs:257-268 | a record of a successful write can be read ever after |
| `Pipeline.FlushIsDurable` | src/writer.rs:165-177 | a record submitted before a successful flush can be read from its local segment, from S3 or from the marked output, or its write failed and some flush was told so; an earlier one if no other flush was told of an error meanwhile |
| `Limiter.WindowBound` | src/snapshot.rs:55-99 | over any run of calls the weight admitted in a window is at most the capacity plus what the window refills |
| `Limiter.AlwaysValid` | src/snapshot.rs:67-99 | tokens stay within zero and the capacity |
| `Limiter.PauseHolds` | src/snapshot.rs:76-93 | over any ordered calls nothing is admitted before the deadline of the latest pause, and the wait a refused request is told ends there |
| `Limiter.WaitIsLeast` | src/snapshot.rs:82-88 | a refused request is granted after a delay exactly when the delay is at least the returned wait and the weight fits the capacity |
| `Limiter.WeightedLimiter.WaitFor` | src/snapshot.rs:67-89 | the method computes the transition that these claims are about |
| `Limiter.WeightedLimiter.Pause` | src/snapshot.rs:91-93 | overwrites the deadline |
| `Limiter.WeightedLimiter.ObserveUsedWeight` | src/snapshot.rs:95-98 | lowers the tokens to what the exchange says is left |
| `Limiter.ObserveExactly` | src/snapshot.rs:95-98 | right after a report a request is granted exactly if it was before and the capacity covers both |
| `Limiter.ObservedBound` | src/snapshot.rs:95-98 | after a report of used weight no more is granted than the rest of the capacity and the refill |
| `Limiter.WeightedLimiter.constructor` | src/snapshot.rs:56-65 | starts full, with 80 percent of the weight per minute |
| `Scheduler.LaunchKeeps` | src/snapshot.rs:155-175 | starting a due and admitted job keeps all the invariants |
| `Scheduler.FinishKeeps` | src/snapshot.rs:176-200 | so does the end of any request, successful or not |
| `Scheduler.SortKeeps` | src/snapshot.rs:153-154 | so does any reordering of the queue |
| `Scheduler.RequestRate` | src/snapshot.rs:160-169 | the weight of the requests started in any window obeys the token bucket |
| `Scheduler.OneAtATime` | src/snapshot.rs:149-175 | queued and in-flight symbols together are exactly the configured ones; none is in flight twice |
| `Scheduler.NoEarlyRestart` | src/snapshot.rs:183-185 | after a success a symbol does not start again within the interval, and no job starts before it is due |
| `Scheduler.NoEarlyRetry` | src/snapshot.rs:189-199 | after a failure a symbol does not start again before its retry time, at most 300 seconds |
| `Scheduler.FailurePauses` | src/snapshot.rs:189-200 | after a failure nothing at all starts before the retry time, at most 60 seconds, unless another failure sets it anew |
| `Scheduler.WeightTiers` | src/snapshot.rs:324-341 | the request weights are the exchange's tiers; a limit of zero costs the most on the spot market |
| `Scheduler.WaitSuffices` | src/snapshot.rs:316-343 | every request weight fits its market's budget, so the returned wait always suffices |
| `Scheduler.Staggered` | src/snapshot.rs:219-231 | the first jobs are spread strictly over one interval |
| `Scheduler.Evenly` | src/snapshot.rs:219-231 | the same time after each other |
| `Scheduler.SnapshotScheduler.Rest` | src/snapshot.rs:206-214 | the idle scheduler sleeps until the first of the due time, the limiter's wait and 5 seconds, and only does not sleep when neither is ahead |
| `Scheduler.SnapshotScheduler.LaunchDue` | src/snapshot.rs:155-175 | starts a prefix of the sorted queue in its order and records these starts, none of them due after a job that stays; it stops only at the limit, a job that is not due or a refusal |
| `Scheduler.SnapshotScheduler.Finish` | src/snapshot.rs:176-200 | any request in flight may end; success waits an interval, failure waits and pauses |
| `Scheduler.SnapshotScheduler.Round` | src/snapshot.rs:152-217 | starts due jobs in the order of their due times, at least one when the earliest is due, has room and is admitted, and stops only at the limit, a job that is not due or a refusal; then ends one request in flight and queues it again, or rests until a job is due or 5 seconds are over |
| `Scheduler.SnapshotScheduler.Run` | src/snapshot.rs:146-217 | every one of any number of rounds does this, and all the invariants are kept |
| `Connections.ConnectionCounts` | src/config.rs:330-352 | each count is between its required count and the symbol count, the total is exactly what was asked for within those bounds, and the allocation is fair |
| `Connections.Lightest` | src/config.rs:339-347 | picks the first group with the smallest key among those that may grow |
| `Connections.Allocate` | src/config.rs:336-351 | the greedy loop, for any monotone key |
| `Connections.MaxMin` | src/config.rs:336-351 | no other allocation of the same total has a larger smallest key |
| `Connections.RequiredLeast` | src/config.rs:312-324 | the required count is the least that holds all streams, or one connection per symbol |
| `Connections.HeadroomLeast` | src/config.rs:343-346 | the key is the least multiple of the group's streams that its connections cannot exceed |
| `Connections.GlobalsExactly` | src/config.rs:315-318 | the streams that begin with an exclamation mark are the global ones, the others those per symbol |
| `Shards.Deal` | src/config.rs:430-445 | global streams are dealt round robin, all streams of a symbol go to one connection, in order |
| `Shards.EveryStreamOnce` | src/config.rs:430-445 | every global stream and every pair of symbol and stream is on exactly one connection |
| `Shards.PeakLoad` | src/config.rs:430-445 | no connection carries more than the first, whose load is given exactly |
| `Shards.PeakBound` | src/config.rs:312-324 | with enough connections for the total the fullest exceeds the limit by at most one symbol's streams |
| `Shards.PeakWithin` | src/config.rs:312-324 | and not at all without per-symbol streams, or without global ones when they divide the limit |
| `Shards.AllocationFits` | src/config.rs:312-352 | so it is for the counts the allocation hands out, unless more connections than symbols are needed |
| `Shards.AllocationOverflows` | src/config.rs:312-352 | in which case the first connection exceeds the limit whatever the count |
| `Shards.LimitExceeded` | src/config.rs:302-324 | the limit itself is not always kept |
| `Options.BufferSizes` | src/config.rs:197-216 | the automatic buffer is 30 percent of the memory for each market and the automatic segment half of it, both within their bounds; sizes are positive and the segment within the buffer; an error exactly when the given sizes conflict |
| `Options.Csv` | src/config.rs:470-487 | the trimmed nonempty values, each where it first occurs |
| `Options.CsvClean` | src/config.rs:470-487 | values are trimmed, nonempty, free of commas and distinct |
| `Options.CsvComplete` | src/config.rs:470-487 | and exactly those of the nonblank pieces |
| `Text.TrimCuts` | src/config.rs:472-474 | trimming takes off white space on both sides and nothing else |
| `Options.CsvRoundTrip` | src/config.rs:470-487 | writing a parsed list out and parsing it again changes nothing |
| `Decimal.ParseDecimal` | src/model.rs:58-95 | computes the exact value of the text's parts, with the overflow checks of a signed 128-bit integer |
| `Decimal.AcceptedExactly` | src/model.rs:58-95 | a text is accepted with a value exactly when it is an optional minus, digits and 18 inspected fraction digits of that value, not both empty and within the maximum |
| `Decimal.RoundTrip` | src/model.rs:58-95 | parsing inverts printing with 18 places for every representable magnitude and no other |
| `Decimal.TailIgnored` | src/model.rs:79-86 | what follows the 18th fraction digit is not looked at |
| `Naming.PathInjective` | src/parquet_store.rs:47-61 | equal paths come from the same market, table, hour and number |
| `Naming.NeverOverwritten` | src/writer.rs:438-448 | different jobs are published under different paths |
| `Naming.PathReadBack` | src/archive.rs:278-284 | the hour and the partition are read back from every written path in the years up to 9999 and in no later one |
| `Naming.SourceKeys` | src/compactor.rs:700-706 | segments are sources; the compacted output, the marker and upload marks are not |
| `Naming.KeyOrder` | src/compactor.rs:435-437 | key order is number order when the printed widths agree; for a number printed shorter, exactly when it times the missing powers of ten is at most the other |
| `Naming.OutOfOrder` | src/compactor.rs:435-437 | for every width from 10 digits on, the last number of the width and its successor come in the wrong order |
| `Schema.SplitColumns` | src/parquet_store.rs:119-136 | the loop computes the cuts at the commas outside parentheses |
| `Schema.ColumnsCut` | src/parquet_store.rs:119-136 | joining the pieces gives the text back and no piece has a comma outside parentheses |
| `Schema.ColumnsUnique` | src/parquet_store.rs:119-136 | a comma-join of balanced pieces without such commas splits into just these pieces |
| `Schema.TableReadBack` | src/parquet_store.rs:96-117 | a printed table is read back exactly when its last type does not end in a parenthesis |
| `Schema.FileReadBack` | src/parquet_store.rs:96-117 | so does a whole printed file, statement by statement |
| `Schema.ParseSchemas` | src/parquet_store.rs:96-117 | each table gets the columns of its last statement; an error exactly when some statement has an unreadable column |

## Left out

- Runs of the bucket in which a lock is removed from under a run at work: the row theorems take as premise that there is none; `LostRow.LockLossLosesRow` shows that they need it, `LockSafety` when it holds.
- In-flight requests of a crashed run that S3 applies long after the crash: an unanswered request is applied at the crash or never.
- `PartitionCheckpoint::matches`, settling, lookback and minimum-file filters: a scan yields any plan of distinct partitions and live segments, so the row theorems hold for every filter.
- The retention prefix is taken to be disjoint from the data prefix, and copies are kept per partition under their source's name.
- The row-count check of the encoded output inside `CompactionTask`: `Merge.MergedRows` says exactly when it passes.
- Forced re-uploads are events of the model; they cost in exactly-once and nothing in the other theorems.
- A send to a stopped encoder or worker: the modelled run ends there. Bounded queues: unbounded ones cover every capacity.
- A restart of the whole process inside `Pipeline`: the archiver's restarts are events, the writer's life is one run; that a later process starts its numbers above the earlier ones rests on its clock.
- Float and Duration rounding in the limiter and the scheduler: time and tokens are reals, so a wait below one nanosecond is a wait.
- Arrow, Parquet and ZSTD encoding: a file is a schema, rows and a size; `lexsort_to_indices` and `take` are a sorting permutation and a gather; numeric row widths and memory estimates are any non-negative weight.
- `upload_pending` and its retries, the directory walk of `parquet_files`, and `Value::estimated_bytes`: they would add easy members.
- Calendar arithmetic: hours are civil fields or seconds; the text reader of hours takes digits and separators and leaves out the signs and blanks that the date library also accepts.
- Naming.PathReadBack: paths are taken as the writer joins them, so relative components and repeated slashes do not occur.
- Case conversion beyond ASCII in symbols and stream names.
- Overflow of the connection arithmetic beyond 64 bits, and reading the memory limit from `/proc`: the memory limit is an input.
- Branches for the exchanges that `validate` rejects, `resolve_symbols`, HTTP, WebSocket, Telegram, the API handlers and the deployment scripts.
