# Model of the Polymarket event indexer

The indexer copies the events of ten kinds from a blockchain into Parquet files, in two ways.
*Backfill* fetches a block range over HTTP, cut into chunks that run concurrently under a rate limit.
*Frontfill* streams logs over a WebSocket that is reconnected for ever, and rotates its files by block number.
Both use one decoder, and frontfill keeps counters and sliding-window rates.
This project models these parts and proves what holds of every run of them.

## What is modelled

| file | what it models |
|---|---|
| `Base.dfy` | u64 and u32, saturating arithmetic, sums |
| `Decode.dfy`, `Rows.dfy`, `LabelledCounts.dfy` | `decode_log` as a routing table with three outcomes; the row and the columns a decoded log becomes; counts by event type |
| `Parquet.dfy` | record batches under a schema, and reading them by column name |
| `StableSort.dfy` | the sort by (block number, log index) |
| `ChunkRanges.dfy`, `RateLimiter.dfy`, `ChunkTask.dfy` | the parts of a backfill: the chunk loop, the token bucket, the work of one chunk task as a class that owns the output directory and the failure list |
| `Backfill.dfy` | a whole backfill as a system of atomic steps, taken in any order |
| `BackfillSetup.dfy`, `BackfillChunk.dfy` | from a configuration to such a system; its steps against the sequential chunk task |
| `BackfillData.dfy`, `BackfillDirectory.dfy`, `BackfillOutcome.dfy`, `BackfillFailures.dfy`, `BackfillDecoding.dfy` | what is on disk, under the names of a run's chunks and in the whole directory; when a run returns Ok, and which failures it reports; logs that fail to decode |
| `BackfillSteps.dfy`, `BackfillProgress.dfy`, `BackfillTermination.dfy` | which steps a run can take; rate, fan-out, absence of deadlock; termination under every fair schedule |
| `Storage.dfy` | `ParquetStorage` as a class, with what it does to its state as functions |
| `Frontfill.dfy` | `run` as a state changed by events, and as nested loops proved to compute it |
| `FrontfillRuns.dfy`, `FrontfillResults.dfy`, `FrontfillFiles.dfy`, `FrontfillOrder.dfy`, `FrontfillCounters.dfy` | the invariants of all frontfill runs, and what follows for rows, files read by column name, sets, counters and back-off |
| `FrontfillExits.dfy` | which event ends a run in which way, and where every other event leads |
| `Rates.dfy`, `RateResults.dfy`, `RateEmbedding.dfy` | the rate state as a class, the observer and the ticker as a step system, the published rates as recounts, and the observer as a frontfill run |
| `Agreement.dfy` | the two modes against each other |

A backfill is a system because its chunk tasks interleave.
Each chunk task moves through start, permit, fetch, process, one write for each event type in any order, and finish; the refill task reads the available permits in one step and adds the missing ones in another.
A run begins with whatever the output directory holds, and a failing write leaves the file that was there or a torn one, depending on where it fails.
A frontfill run is a sequence of events: a connection or a subscription fails or succeeds, a log arrives, the stream ends, Ctrl-C is pressed.
An arriving log brings along what the file system will do, and a close brings along the order in which the hash map is drained and the writers that fail to close; all statements hold for every choice of these.
The rates are a system of three clients of one mutex: the caller's two observations, which read the clock before they lock, and the ticker.

Some state is history that the program does not keep, so that properties can be stated:
the closed and dropped files of a sink and its number of completed rotations (`epoch`), the block that opened each file set, the accepted rows with their set, and the observations that the rates have seen.

## Assumptions

- The provider answers a range query with the logs of those blocks in the order of one fixed chain, or with an error; a block number that a log reports is the real one.
- The ten event signature hashes are distinct. A topic is one of them or some other hash.
- ABI decoding and rendering are functions of the log: a log carries, for each event type whose layout fits, the column values that can be rendered.
- Termination of a backfill needs that the refill task goes on for ever and that the chunk tasks, taken together, are not passed over for ever while one of them can move. Nothing else depends on scheduling.
- Taking a semaphore permit is atomic, and so is each critical section under a mutex. The monotonic clock never runs back.

## Findings

- A rotation target saturates at `u64::MAX`. Two rows at that block are in different sets, the gap between openers is lost, and every further log there rotates again. `FrontfillOrder.StraddlingExactly` and `FrontfillResults.OpenersApart` say that this is the only exception, `FrontfillResults.RotationsBounded` counts what it costs in any run, and `FrontfillOrder.MaxBlockStraddles` gives runs in which it happens.
- One file per event type and set id is a property of how `run` uses the sink, not of the sink: `Storage.WriteAfterCloseSharesSet` says exactly when a write after a close breaks it.
- The per-type rates can sum to one more than the total rate, in exactly the states that `RateResults.TypesExceedTotalByAtMostOne` describes.
- A backfill over logs without metadata returns an error, but its files are complete all the same: see `BackfillFailures.FaultFreeRefinesSequentialSort`.
- A log that fails to decode ends a frontfill, but leaves no trace in a backfill, not even in the failure list: see `BackfillDecoding.DecodeErrorsAreSilent`.
- A backfill neither lists nor clears its output directory. Repeating it over the same chunks is safe after any earlier run, also one that failed half-way (`BackfillData.RepeatingIsSafe`); with other chunk boundaries it duplicates rows, and all of them if no chunk is the same (`BackfillDirectory.OtherChunksDuplicate`), and a file of a chunk and a type that has no rows any more stays (`BackfillData.BackfillRefinesSequentialSort` makes this an exact condition; `BackfillData.HistoryDoesNotMatter` shows that it needs something other than backfills of the same chain).
- On the three exits taken by `?` (a failing rotation, a failing close, a failing signal handler) the connection gauge stays at 1 and no error counter moves; `FrontfillCounters.CountersConserved` states this exactly.
- The additions in `chunk_ranges` overflow exactly when the last chunk would end beyond `u64::MAX` if it were full, even if the range itself ends before: see `ChunkRanges.ChunkRanges`.
- `spec/CODE_REVIEW_20260216.md:168-180` says that frontfill does not reconnect and that a backfill with failed chunks returns Ok. The code does reconnect and does return an error; the model follows the code.

## Model

| member | source | states |
|---|---|---|
| `Decode.DecodeLogRouting` | src/decode.rs:28-199 | The whole table, both ways: a log is an event exactly when its first topic is a known signature and all specified columns can be rendered; its columns are the specified ones in the specified order with their own values; no topic or an unknown one is ignored; what remains is an error |
| `Decode.RenderCorrect` | src/decode.rs:33-46 | The first value that cannot be rendered fails the decoding, and otherwise names and values keep their order |
| `Decode.DecodeLogByTable` | spec/0001_topic0-schema-parquet.md:15-80 | The chain of conditionals agrees with the specified table of columns for each of the ten events |
| `Rows.RowPartExactly` | src/backfill.rs:256-305 | A log gives a type a row, and only one, exactly if its first topic is the type's signature, its three metadata fields are there and all of the type's columns can be rendered; the row has the log's block number, transaction hash and log index, and in the place of each column the log's own value for that column |
| `Rows.RowsRectangular` | src/backfill.rs:282-304 | Every row has exactly one value for each column of its event type |
| `Parquet.SchemaDistinct` | src/storage.rs:66-83 | No column of any event has the name of another of its columns or of event_type, block_number, transaction_hash or log_index, so reading by name is unambiguous |
| `Parquet.LaidOutShows` | src/backfill.rs:128-156 | Read by column name, row n of a batch laid out under the schema is its n-th row, with its event type, metadata and every value under its own column |
| `StableSort.SortRowsCorrect` | src/backfill.rs:308-312 | The sorted rows ascend by block number, and within a block by log index, are a permutation of the rows, and rows of equal key keep their order |
| `StableSort.StableSortUnique` | src/backfill.rs:308-312 | There is only one stable arrangement, so any stable sort with this comparison returns the modelled one; keys need not be unique |
| `ChunkRanges.ChunkRanges` | src/backfill.rs:162-174 | The loop computes the chunks, and its u64 additions overflow exactly if start + count * size exceeds u64::MAX |
| `ChunkRanges.ChunksPartition` | src/backfill.rs:162-174 | There are (end - start) / size + 1 chunks, contiguous and covering [start, end]; block b lies in chunk (b - start) / size and in no other; all but the last are full |
| `ChunkRanges.PartitionFind` | src/backfill.rs:162-174 | In any partition each block lies in exactly one range |
| `RateLimiting.RateLimiter.constructor` | src/backfill.rs:24-29 | The bucket starts full |
| `RateLimiting.RateLimiter.PollAcquire` | src/backfill.rs:31-34 | An acquire succeeds exactly if a permit is there, and then forgets it |
| `RateLimiting.RateLimiter.RefillRead` | src/backfill.rs:41 | First half of a refill: the available permits are read |
| `RateLimiting.RateLimiter.RefillAdd` | src/backfill.rs:42-44 | Second half: what was missing at the time of the reading is added |
| `RateLimiting.BucketConserved` | src/backfill.rs:23-48 | With acquires anywhere between the two halves of a refill, permits never exceed the maximum, and grants + permits = maximum + added |
| `RateLimiting.GrantsPerSegment` | src/backfill.rs:36-47 | Any stretch of a run with k refills grants at most max * (k + 1) fetches |
| `RateLimiting.SegmentBoundIsTight` | src/backfill.rs:36-47 | That bound is reached for every max and every k |
| `ChunkTask.ProcessLogs` | src/backfill.rs:256-305 | The loop over the fetched logs leaves, for each type that has a row and for no other, the specified columns and its rows in arrival order, and counts the logs that decode to an event and lack metadata, up to 2^64 - 1 |
| `ChunkTask.BuildFile` | src/backfill.rs:97-160 | `row.values[col_index]` is out of bounds exactly if some row is shorter than the columns; otherwise the schema is event_type, block_number, transaction_hash, log_index and then the columns, the event_type column has the type in every row, and the others have the rows' fields and values in row order |
| `ChunkTask.FileRoundTrip` | src/backfill.rs:111-156 | Turning rows into columns loses nothing: the file reads back as the rows |
| `ChunkTask.ChunkFileRows` | src/backfill.rs:307-321 | The file of a type reads back as the sorted rows of the type; its schema is the four base columns and then the type's, and its event_type column has the type of the file's name once for each row |
| `ChunkTask.Output.WriteParquetFile` | src/backfill.rs:97-160 | Exactly one name changes: not at all if nothing could be created, to a torn file after any later failure or panic, and otherwise to the complete file; and which of the three outcomes it is |
| `ChunkTask.Output.WriteGroups` | src/backfill.rs:307-333 | In whatever order the map is visited and wherever each write fails, every type leaves its file, a torn one or the earlier one, and each failing type is reported once |
| `ChunkTask.Output.RunChunk` | src/backfill.rs:244-348 | The whole effect of a chunk task on directory and failure list: one report for a failed fetch, otherwise the files, the torn files, the write reports and at most one metadata report |
| `BackfillSetup.SetUp` | src/backfill.rs:176-221 | Which of the four checks rejects a configuration, and, field by field, the run that one which passes starts: its range, chunks, parallelism, rate, chain and directory |
| `BackfillSetup.RunnableIsValid` | src/backfill.rs:176-221 | A configuration that passes the checks meets all hypotheses of the theorems about runs |
| `BackfillSetup.ConfiguredLimits` | src/backfill.rs:201-228 | In every state of every run of a configuration at most its `parallelism` chunks are under way, and at most its rate limit * (refills + 1) fetches have started |
| `BackfillSetup.ConfigurationsAgree` | src/backfill.rs:176-333 | Two backfills of the same blocks without a failed fetch, or a failed write of a type, leave the same rows of the type in the same order, whatever their chunk sizes, parallelism, rates, interleavings and map orders, each in any directory without stale rows, and whether or not logs lack metadata |
| `BackfillChunk.ChunkStepsAreRunChunk` | src/backfill.rs:244-348 | From every reachable state the steps of one chunk, taken together, have exactly the effect of the sequential chunk task, for every assignment of faults to types |
| `Backfill.RunKeepsFiles` | src/backfill.rs:227-350 | In every reachable state, from any initial directory, a file is what it was until its write is over, and then the right one or, exactly if its write was reported as failed, the earlier one or a torn one; names of no chunk are untouched; no task has panicked |
| `Backfill.WriteEffect` | src/backfill.rs:307-321 | A write step always stores the sorted rows of its chunk and type |
| `BackfillData.BackfillRefinesSequentialSort` | src/backfill.rs:223-350 | Main theorem: for every interleaving, parallelism, rate, chunking, map order and initial directory, and for every finished run in which no fetch and no write of the type failed, also one that returns an error for logs without metadata, the files of the type in chunk order are one stable sort of all complete decoded logs of the range if and only if the directory had no rows under the name of a chunk and a type without rows |
| `BackfillData.OkRefinesSequentialSort` | src/backfill.rs:352-363 | In particular for every run that returns Ok |
| `BackfillFailures.FaultFreeRefinesSequentialSort` | src/backfill.rs:269-345 | In particular for every finished run without a failing fetch or write, with no assumption on the logs |
| `BackfillData.SettingsDoNotMatter` | src/backfill.rs:223-350 | Any two finished runs over the same range and chain without a failed fetch or a failed write of the type hold the same data, each in any directory without stale rows |
| `BackfillData.EveryFileIsRight` | src/backfill.rs:97-160 | In every state of every run, also a failing one, each file was there before, or is torn and reported, or is the whole sorted file of one chunk: the four base columns and the type's, in this order, and the type of its name in every row of the event_type column |
| `BackfillData.OthersUntouched` | src/backfill.rs:122-126 | No state of any run has changed, created or removed a file other than those of its chunks and their types |
| `BackfillData.CleanOverwrites` | src/backfill.rs:122-126 | After a run without a failed fetch or a failed write of the type, each of those files is the right one, whatever was there before |
| `BackfillData.OwnNamesDoNotMatter` | src/backfill.rs:122-126 | What the directory holds under the names of a run's own files, torn ones included, makes no difference to its data |
| `BackfillData.RepeatingIsSafe` | src/backfill.rs:352-359 | After any earlier run of the same chunks, in whatever state it stopped, a run without a failed fetch or a failed write of the type has the right data exactly if the earlier one could have had it |
| `BackfillData.RunKeepsHonest` | src/backfill.rs:122-158 | If every file of the directory reads as nothing or as the sorted rows its name stands for, then so it is in every state of every run, whatever its settings and failures |
| `BackfillData.HistoryDoesNotMatter` | src/backfill.rs:122-158 | In a directory that only backfills of this chain have written, with any ranges, settings, failures and stops, a run without a failed fetch or a failed write of the type has the right data: stale rows cannot occur |
| `BackfillData.SortSplit` | src/backfill.rs:308-312 | Sorting two adjacent block ranges apart and concatenating is sorting them together |
| `BackfillOutcome.FailureCount` | src/backfill.rs:244-345 | The length of the failure list is the number of failed fetches, failed writes and finished chunks with missing metadata |
| `BackfillFailures.FailuresExactly` | src/backfill.rs:244-345 | In every state the list has an entry for each fetch that failed, for each chunk and type whose write failed and for each finished chunk with the number of its logs that decode to an event and lack metadata, no other entry, and none twice |
| `BackfillFailures.CleanExactly` | src/backfill.rs:244-345 | A finished run has no failed fetch or write on its list if and only if none has happened |
| `BackfillFailures.FailedWriteLeaves` | src/backfill.rs:122-158 | From the step of a failing write on, its file is as it was before the run if it could not be created, and torn otherwise |
| `BackfillOutcome.OkExactly` | src/backfill.rs:352-363 | A finished run returns Ok if and only if no fetch failed, no write failed and every log of the range that decodes to an event has its metadata |
| `BackfillOutcome.CleanPlacesEveryLog` | src/backfill.rs:256-321 | After a run without a failed fetch or a failed write of the type, every complete log of the type has its row in the file of its chunk; another file of the type has the row exactly if the run does not own that file and it had the row before |
| `BackfillOutcome.CleanShowsEveryLog` | src/backfill.rs:97-160 | After such a run, the file of the chunk and type has a row that, read by column name, shows the log: its event type, block number, transaction hash, log index, and under each column the log's own value |
| `BackfillOutcome.FilesShowLogs` | src/backfill.rs:97-160 | And every row of each of the run's files, read by column name, shows some log of the chunk |
| `BackfillOutcome.OkPlacesEveryLog` | src/backfill.rs:256-321 | On Ok that is every log of the range that decodes to an event |
| `BackfillDirectory.CleanConservesRows` | src/backfill.rs:256-321 | After a run without a failed fetch or a failed write of the type, its rows over the whole directory are the complete ones of the range, each as often as the chain has it, plus those of the files the run does not own; so nothing else is on disk exactly if these have no rows |
| `BackfillDirectory.OtherChunksDuplicate` | src/backfill.rs:122-126 | A second backfill of the same blocks into the directory of a first one, with no chunk in common, stores every row twice |
| `BackfillDecoding.DecodeErrorsAreSilent` | src/backfill.rs:260-267 | Over the chain without the logs that fail to decode the same steps are a run, with the same files and the same failure list |
| `BackfillProgress.LimiterEmbedded` | src/backfill.rs:236 | The limiter of a backfill run is a run of the limiter alone, with one grant for each fetch that starts |
| `BackfillProgress.FetchRate` | src/backfill.rs:36-47 | After any number of steps, the rest of a run starts at most rate * (refills + 1) fetches |
| `BackfillProgress.BoundedFanOut` | src/backfill.rs:227-236 | Never are more than `parallelism` chunks neither waiting nor done, and every grant belongs to one chunk |
| `BackfillSteps.StepsExactly` | src/backfill.rs:227-348 | A run can be extended by exactly these steps: the start of the first waiting chunk while fewer than `parallelism` are under way, a grant while a permit is there, success or failure of any fetch that is out, any of the writes that a chunk has left, with any outcome, the end of a chunk without writes left, and the next half of a refill |
| `BackfillSteps.StartExtends` | src/backfill.rs:227-228 | From every reachable state with fewer than `parallelism` chunks under way and one that waits, some chunk can be started |
| `BackfillSteps.FullFanOut` | src/backfill.rs:227-228 | Every backfill has a run with as many chunks under way at once as `parallelism` and the number of chunks allow |
| `BackfillProgress.RefillsNeeded` | src/backfill.rs:31-47 | n completed chunks need n <= rate * (refills + 1), that is at least n / rate - 1 refills rounded up |
| `BackfillProgress.FetchedOnce` | src/backfill.rs:236-254 | Each chunk is fetched at most once, and once when the run is over |
| `BackfillProgress.BoundedWork` | src/backfill.rs:227-350 | Every run has a bounded number of steps other than refills: an explicit measure falls with each |
| `BackfillProgress.NeverPanics` | src/backfill.rs:148-154 | No reachable state has a task that indexed out of bounds |
| `BackfillProgress.NeverStuck` | src/backfill.rs:31-47 | No deadlock: an unfinished run can take a step, and if no chunk can move then the bucket is empty |
| `BackfillProgress.RefillsUnblock` | src/backfill.rs:36-47 | After two refills in a row, the first perhaps acting on a stale reading, some chunk of an unfinished run can move, and without failing |
| `BackfillProgress.CanFinish` | src/backfill.rs:223-350 | From every reachable state the backfill can be completed without any further failure |
| `BackfillTermination.Terminates` | src/backfill.rs:36-47 | Under every schedule in which refills recur and the chunk tasks are not starved, every backfill finishes; it has a clean list of fetches and writes if and only if no step up to then failed, and returns Ok if and only if, besides, all logs have their metadata |
| `BackfillTermination.TerminatesFrom` | src/backfill.rs:223-350 | The same from any point of such a schedule |
| `BackfillTermination.FairScheduleExists` | src/backfill.rs:36-47 | Every backfill has such a schedule |
| `BackfillTermination.CanSucceed` | src/backfill.rs:352-363 | A run without failures over complete logs can be completed to one that returns Ok |
| `Storage.ParquetStorage.constructor` | src/storage.rs:48-55 | An empty sink with file set 0 |
| `Storage.ParquetStorage.GetOrCreateSchema` | src/storage.rs:57-104 | It fails exactly if the type is cached with another schema than event_type, block_number, transaction_hash, log_index and the given columns, and otherwise returns and caches that one |
| `Storage.ParquetStorage.WriteEvent` | src/storage.rs:121-173 | The new state and the result for every point at which the file system can fail; when the event is accepted, the writer's last batch has the type, the metadata and each of the event's values in its own column |
| `Storage.ParquetStorage.BuildArrays` | src/storage.rs:151-165 | The arrays of a batch in the order of the schema: type, block number, transaction hash, log index, then the values |
| `Storage.WriteExactly` | src/storage.rs:121-173 | A write is a mismatch exactly if another schema is cached, and accepted exactly if besides neither the directory, nor a file that is needed, nor the batch fails; schema and writer stay also when the batch fails, and only the writer of the type changes |
| `Storage.ParquetStorage.CloseWriters` | src/storage.rs:106-112 | The new state for every drain order and every set of writers that fail to close |
| `Storage.ParquetStorage.RotateWriters` | src/storage.rs:114-119 | The set id moves on, saturating, only if every writer was closed |
| `Storage.WriteKeepsLive` | src/storage.rs:121-173 | However a write goes, every open writer keeps a cached schema and belongs to the current set, and closed files keep theirs |
| `Storage.CloseCorrect` | src/storage.rs:106-112 | A close succeeds exactly if none of the open writers fails, hands each writer over to a closed file or drops it, and loses or repeats no row |
| `Storage.CloseStopsAtFirstFailure` | src/storage.rs:106-112 | A writer is dropped exactly if it or one drained before it fails to close, and otherwise it becomes a closed file |
| `Storage.RotateKeepsLive` | src/storage.rs:114-119 | After a completed rotation nothing is open, the next set begins, and the files hold the same rows |
| `Storage.WriteAfterCloseSharesSet` | src/storage.rs:106-149 | For a live sink, a successful close and agreeing columns, the next write of a type shares its set with a closed file of the type if and only if the type had a writer open |
| `Frontfill.HandleLog` | src/frontfill.rs:221-341 | The body of the inner loop does to sink, target and counters what the event does to the state |
| `Frontfill.HandleInterrupt` | src/frontfill.rs:204-218 | The Ctrl-C branch does to sink and counters what the event does to the state |
| `Frontfill.Listen` | src/frontfill.rs:196-342 | The inner loop follows the events up to the end of the stream, of the run or of the script |
| `Frontfill.Session` | src/frontfill.rs:156-352 | One turn of the outer loop, with its back-off |
| `Frontfill.Run` | src/frontfill.rs:130-353 | The nested loops end in the state that the events lead to, with the same exit, sink, counters and total sleep; zero flush_blocks is rejected first |
| `FrontfillExits.RunsExtend` | src/frontfill.rs:153-353 | Any event can come next: connection events while the run connects, all others while it listens, and none after its end |
| `FrontfillExits.ConnectionExactly` | src/frontfill.rs:155-187 | A subscription makes the run listen and clears the attempts; a failing connection, a failing subscription and the end of a stream leave sink and target alone, sleep 1, 2, 4, 8, 16 or 32 seconds by the number of attempts, and connect again |
| `FrontfillExits.InterruptExactly` | src/frontfill.rs:204-218 | Ctrl-C always ends a listening run: as a shutdown if and only if the signal handler works and no open writer fails to close, and then every row of every log is in a closed file; as a signal error if and only if the handler fails, with the sink as it was; and otherwise as a close failure; after a close nothing stays open |
| `FrontfillExits.LogExactly` | src/frontfill.rs:221-341 | A log ends the run exactly if, in this order, metadata is missing, a rotation is due and an open writer fails to close, it fails to decode, or it is an event and its write fails, each with its own exit; the first complete log and each that reaches the target set the target to its block plus flush_blocks, saturating, and only the latter rotate |
| `FrontfillExits.MetricsDoNotMatter` | src/frontfill.rs:260-341 | With and without metrics the same events are a run and lead to the same exit, sink, target, back-off and rows; without them no counter moves |
| `FrontfillRuns.RunInv` | src/frontfill.rs:153-353 | Sink, sets, files and rows are as they should be in every state of every run, whatever fails |
| `FrontfillRuns.NoMismatch` | src/storage.rs:85-94 | The decoder's columns are always those of the cached schema |
| `FrontfillResults.RunningKeepsEveryRow` | src/frontfill.rs:196-342 | Across any reconnects and rotations, the files of a type in closing order followed by its open writer are the rows of the arrived logs of the type in arrival order: none lost, repeated or moved |
| `FrontfillResults.ShutdownKeepsEveryRow` | src/frontfill.rs:204-218 | After a successful Ctrl-C all of them are in closed files |
| `FrontfillResults.ExitsKeepAcceptedRows` | src/frontfill.rs:204-341 | On every exit the accepted rows are those of all logs before the end, and each is in a closed file, an open writer or a dropped writer |
| `FrontfillResults.FilesHoldTheirSet` | src/frontfill.rs:272-283 | Each file holds exactly the rows accepted for its type in its set, all below the set's opener plus flush_blocks, even with blocks out of order |
| `FrontfillResults.UnclosedRowsAreOfTheCurrentSet` | src/frontfill.rs:221-341 | What is not in a closed file at any exit belongs to the current set and is below its opener plus flush_blocks |
| `FrontfillResults.FilesHaveTheirSchema` | src/storage.rs:66-104 | All files of a type have the schema event_type, block_number, transaction_hash, log_index and the specified columns, over all rotations |
| `FrontfillFiles.FilesShowLogs` | src/storage.rs:151-173 | In every state of every run, each row of each closed file, read by column name, shows some log that has arrived: its event type, block number, transaction hash, log index, and under each column the log's own value |
| `FrontfillFiles.ShutdownShowsEveryLog` | src/frontfill.rs:204-218 | After a shutdown every log that has a row of a type is shown in this way by a closed file of the type |
| `FrontfillResults.SchemaMismatchUnreachable` | src/storage.rs:89-91 | No run ends in the schema-mismatch error |
| `FrontfillResults.OneFilePerTypeAndSet` | src/storage.rs:106-149 | No two files of a type share a set, open and dropped ones included; files of a type are closed in ascending set order; below 2^64 rotations the number in the name is the set |
| `FrontfillResults.OpenersApart` | src/frontfill.rs:272-283 | Successive openers are at least flush_blocks apart if and only if the first plus flush_blocks does not exceed u64::MAX |
| `FrontfillResults.OpenersAreBlocks` | src/frontfill.rs:272-283 | Every opener is the block of a complete log that arrived, the first one of the first such log, and none is above the largest |
| `FrontfillResults.RotationsBounded` | src/frontfill.rs:272-283 | In every run, rotations * flush_blocks is at most the largest block minus the first plus flush_blocks for each log at u64::MAX; with no such log, rotations are at most the span divided by flush_blocks |
| `FrontfillResults.MaxBlockAlwaysRotates` | src/frontfill.rs:272-283 | In every run, once the target is u64::MAX it stays there, and the openers from then on are exactly the later logs at that block, one fewer if the last of them failed to rotate |
| `FrontfillResults.OpenersAtMaxAreLogs` | src/frontfill.rs:272-283 | No more sets are opened at u64::MAX than logs arrive there |
| `FrontfillResults.ClosedFilesStayForever` | src/storage.rs:106-119 | No event ever changes or removes a closed file |
| `FrontfillResults.RotationMakesDurable` | src/frontfill.rs:272-283 | Each row accepted before the last completed rotation is in a closed file, at every exit |
| `FrontfillOrder.BlocksShareSets` | src/frontfill.rs:272-283 | With blocks ascending, over any reconnects, two rows of one block are in different sets if and only if the block is u64::MAX, and rows of different sets climb with the set |
| `FrontfillOrder.StraddlingExactly` | src/frontfill.rs:272-283 | A block straddles two sets if and only if two rows are at u64::MAX |
| `FrontfillOrder.SetsHoldDisjointBlocks` | src/storage.rs:114-149 | Distinct file sets hold disjoint, increasing block ranges, the last block number apart |
| `FrontfillOrder.MaxBlockStraddles` | src/frontfill.rs:279 | Runs in which nothing fails and the exception happens, for every flush_blocks and every decodable log at u64::MAX |
| `FrontfillCounters.CountersConserved` | src/frontfill.rs:221-341 | At every log boundary logs_total is the ignored logs plus the typed ones plus the one that ended the run; the typed ones are the accepted rows plus a failed write; the error counters say which error ended the run, so they sum to at most 1; and when the gauge says connected |
| `FrontfillCounters.TypesConserved` | src/metrics.rs:192-195 | Type by type, logs_by_type_total counts the accepted rows |
| `FrontfillCounters.RotateTotalIsFileSetId` | src/storage.rs:114-119 | rotate_total is the sink's file set id while that has not saturated |
| `FrontfillCounters.AttemptIsStreak` | src/frontfill.rs:155-187 | The attempt counter is the number of retries since the last successful subscription, so a stream end begins a new streak |
| `FrontfillCounters.BackOff` | src/frontfill.rs:51-54 | n consecutive retries sleep 2^n - 1 seconds for n up to 6 and 63 + 32 * (n - 6) beyond, whatever came before |
| `Rates.RateTracker.PruneOldEntries` | src/metrics.rs:252-271 | All deques lose exactly the entries at the front that are older than 60 seconds |
| `Rates.RateTracker.PublishRates` | src/metrics.rs:243-249 | The total gauge and the gauge of each known type are set to the deque lengths; no gauge is removed |
| `Rates.RateTracker.ObserveLog` | src/metrics.rs:180-190 | A log's stamp, read before the lock, joins the total deque, which is then pruned and published |
| `Rates.RateTracker.ObserveDecodedType` | src/metrics.rs:192-205 | The same for the deque of a type, which is created if need be |
| `Rates.RateTracker.Tick` | src/metrics.rs:216-226 | One tick of the background updater |
| `RateResults.PopIsFilter` | src/metrics.rs:252-271 | On ascending stamps, popping from the front is filtering |
| `RateResults.PruneIsRecount` | src/metrics.rs:252-271 | Incremental pruning refines a recount: pruning a window with new stamps appended gives the window of the longer history |
| `RateResults.RunInv` | src/metrics.rs:180-271 | In every state, with ticker prunes anywhere, each deque is the window of its complete history, and each gauge is its length |
| `RateResults.PublishedRatesAreRecounts` | src/metrics.rs:241-271 | After every prune the gauges are recounts of the full history over the 60,000,000,000 nanoseconds before the clock reading of that prune, and a type has a gauge exactly if it was ever observed, also when the count is 0 |
| `RateResults.RatesCountReadings` | src/metrics.rs:180-271 | In terms of a run's clock readings alone: the total gauge counts the readings that stamped a log and lie at most 60 seconds before the last prune, the gauge of a type those that stamped the type; a reading whose observer still waits for the lock is not yet among them |
| `RateResults.TypesExceedTotalByAtMostOne` | src/metrics.rs:216-226 | At every publication the type gauges plus the untyped logs of the window equal the total gauge plus the logs that straddle the cutoff, of which there is at most one; the sum exceeds the total by at most 1, exactly when one straddles and none is untyped |
| `RateResults.ExcessIsReached` | src/metrics.rs:180-205 | A run in which the sum is 1 and the total is 0 |
| `RateEmbedding.RunsAreSerial` | src/metrics.rs:180-226 | The runs of the rate system are exactly the interleavings of a ticker with a serial caller on a clock that does not run back |
| `RateEmbedding.FrontfillEmbedded` | src/frontfill.rs:266-306 | A frontfill run interleaved with the ticker in any way is such a run, and its histories have one stamp for each counted log and each counted typed log |
| `RateEmbedding.RatesWithinCounters` | src/metrics.rs:180-205 | After every prune of a frontfill run a type has a rate exactly if its counter is positive, and no rate exceeds its counter |
| `Agreement.ModesAgreeExactly` | src/storage.rs:121-173 | On the same logs, a frontfill that was shut down and a backfill without a failed fetch or a failed write of the type, in any directory, hold the same rows of the type in the same order if and only if these arrived in key order and the directory had no stale rows of the type |
| `Agreement.ModesAgree` | src/backfill.rs:282-312 | In particular on logs that arrive in (block number, log index) order |
| `Agreement.SchemasAgree` | src/storage.rs:66-104 | The files of a type have the same columns in both modes, event_type, block_number, transaction_hash, log_index and then the specified ones, in any two runs, for all files that the backfill completed |

## Left out

- The Kafka sink: its rotation and close do nothing, and the rest is library calls.
- WebSocket, HTTP, TLS, authentication and filter building: a connection, a subscription or a fetch has an outcome that the environment chooses.
- A URL, filter or header that cannot be built, which ends `run` at once, and a Ctrl-C that comes while `run` is not listening: before the first subscription it ends the process without a close, and later, when the signal handler is in place, it is lost.
- ABI decoding and value rendering, which are library code; event types and column names are enumerations in place of strings.
- Parquet bytes, row groups and directories: an operation takes effect or fails. A torn file has no content, a write that is under way is not visible, and the time stamp in a frontfill file name is not modelled.
- Prometheus registration, the HTTP endpoints, the health check, the write histogram and floating-point gauges: counters and gauges are integers, the clock is an integer number of nanoseconds.
- Command lines and tracing.
- Task scheduling beyond the fairness that termination assumes: any enabled step can come next. Waiting for the failure-list lock is part of the step that reports.
- Concurrency is modelled as a system on values, so that aliasing between tasks is not; the classes model the same operations one at a time.
- The wrap-around of `chunk_ranges` in a build without overflow checks: the model has checked arithmetic.
- RateLimiting.RateLimiter.PollAcquire: does not model in which order waiting tasks are served.
- Frontfill.Run: takes the events as a given script and adds up the delays instead of sleeping.
- `slice::sort_by` is not modelled as an algorithm but by its unique stable result.
