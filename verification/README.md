# Verified models of the home services

Dafny models of the stateful parts of these services, with proofs about all their runs. `dafny verify dfyconfig.toml`
checks everything.

## What is modelled

* **Batched writes to PostgreSQL** (`tables.dfy`, `batchprotocol.dfy`, `batchwriter.dfy`). A record table is a map
  from (tag, timestamp) in which the first writer wins. `BatchProtocol` is the batch writer as a protocol of threads
  over its two mutexes, one program counter per thread, a step being one thread's next action between lock operations;
  every schedule is a run. `BatchWriting` is the same object as a class with fields, and lemmas tie an uninterrupted
  call of the protocol to the method.
* **Worker pool, tag cache and tags table** (`decimal.dfy`, `tagcache.dfy`, `ingest.dfy`, `tagtypes.dfy`,
  `readings.dfy`, `progress.dfy`). `Ingest` puts the channel, the workers, the cache, the upserted table and the batch
  protocol into one machine, from submitted messages to rows; `TagTypes`, `Readings` and `PoolProgress` hold further
  results about it.
* **Smart-event archive** (`archive.dfy` and the other `archive*.dfy` files). `Archive` is the session machine:
  messages, appearing frames, expiry ticks, closing ticks, over a model of the source and archive directories and of
  the watcher. `ArchiveEffects` describes what each step leaves behind; `ArchiveSessions`, `ArchiveClosing`,
  `ArchiveDisk`, `ArchiveLosses` and `ArchiveWatch` hold the results; `ArchiveService` is the service as a class whose
  methods are proved against the machine.
* **MJPEG splitter** (`frames.dfy`). The incremental parser, a one-shot split of a whole stream, and what connects
  them. Markers are those of Table B.1, section B.1.1.3 of ITU-T T.81.
* **Rate limiter and backfill** (`ratelimit.dfy`, `fetchworkers.dfy`, `hourlycalls.dfy`, `pacedcalls.dfy`,
  `windows.dfy`, `dedup.dfy`, `duplicates.dfy`). The token bucket over real-valued time, as a value and as a class;
  workers sharing one limiter; how many calls they make in an hour; the 24-hour windows; workers sharing one cache of
  known keys, and when a key is published twice.

Clocks, outcomes of I/O and the order in which a map is walked are inputs. A theorem about a run quantifies over all
of them. Fields marked as history in the models (committed logs, merged messages, fates of fields, times of grants)
record what happened and influence nothing.

## Where the code does less than one might expect

Each of these is proved, most of them as one half of an if-and-only-if.

* A frame that outgrows 2 MiB is lost when its SOI stands at the front of the buffer, since the trim looks for an
  index greater than 0; a trim at a later SOI truncates the frame; a trim of a buffer without SOI that ends in 0xFF
  loses half a marker. `Frames.TrimSafe` is the exact condition under which a trim is invisible. The comment at
  services/unifi-video-jpg/stream/runner.go:148-149 speaks of buffers that have no SOI; the code trims all large ones,
  and the model follows the code.
* A failed flush drops its batch (`BatchProtocol.Conservation` accounts for it).
* A tag first seen as null rejects every later value but null. Two workers that create one tag from values of
  different types can leave cache and database with different data types (`TagTypes.TypesAgreeIff`).
* `hourlyLimit` is described as requests per hour (services/weatherlink-kafka/service/ratelimit.go:32); only
  successful requests are counted, and retries take no new token. The model follows the code; `HourlyCalls` says
  exactly which configurations can make more calls than the limit if the pauses between attempts are left open, and
  `PacedCalls` that the pauses do not prevent it. The default of 8 per second, 1000 per hour and 4 workers can, pauses
  and all, with 334 windows or more.
* A key that lies in two backfill windows can be published twice, by two workers, and only so.
* The archive's README says that an event without an end within the timeout is not archived. A second start-only
  message for the camera and type leaves a session that never expires; so does the event that opened it, seen under
  another type or camera, when it opens a second session there or brings its end there. A start that is merged into a
  session there does the first no harm. `ArchiveSessions.NeverStuckIff` is exact for whole runs. Nor does a later message
  restart the timeout. It also says that overlapping or adjacent events are coalesced; the code coalesces whatever
  arrives while the session is active.
* Moving a session's start to an earlier second deletes the frames archived so far and leaves them marked as copied.
* An event that takes over the directory of a finished one, being of the same camera, type and second, deletes it when
  it expires, and also when an event with a start in an earlier second is merged into it; nothing else deletes a
  directory.
* A session whose last second is already marked is closed without a catch-up, so frames the watcher missed stay
  missing (`ArchiveClosing.ClosedDirectoryIff`).
* A failed `watcher.Add` makes the reference count fall behind the number of sessions.

## Model

| member | source | states |
|---|---|---|
| `Tables.InsertAllMeaning` | services/weatherlink-sql/repository/records.go:23-30 | inserting rows one at a time keeps every old row and gives each new key the first value that came for it |
| `Tables.InsertAllAppend` | services/weatherlink-sql/repository/records.go:23-30 | inserting two lists in turn is inserting their concatenation |
| `Tables.OrderDoesNotMatter` | services/weatherlink-sql/repository/records.go:23-30 | rows of which equal keys carry equal values may be inserted in any order |
| `Tables.OrderFreeIff` | services/weatherlink-sql/repository/records.go:23-30 | the order of insertion is immaterial if and only if equal keys carry equal values |
| `BatchProtocol.InitInv` | services/weatherlink-sql/repository/batch_writer.go:54-71 | a writer just made satisfies the invariant of locks, accounts, sizes and closing |
| `BatchProtocol.StepKeepsInv` | services/weatherlink-sql/repository/batch_writer.go:74-253 | every step of every thread (adders, ticker, Close) keeps that invariant, failed flushes included |
| `BatchProtocol.ExecKeepsInv` | services/weatherlink-sql/repository/batch_writer.go:74-253 | so does every schedule |
| `BatchProtocol.MutualExclusion` | services/weatherlink-sql/repository/batch_writer.go:180-185 | in every run at most one thread is in a critical section and at most one in a transaction, and none that holds or waits for one mutex holds the other |
| `BatchProtocol.SizesBounded` | services/weatherlink-sql/repository/batch_writer.go:84-87 | in every run no batch exceeds flushSize, and whenever the buffer mutex is free every buffer is below it |
| `BatchProtocol.Conservation` | services/weatherlink-sql/repository/batch_writer.go:172-197 | in every run and for every record: given = with a thread + buffered + committed + dropped; the table is the committed records inserted one at a time; the counters never run ahead |
| `BatchProtocol.Progress` | services/weatherlink-sql/repository/batch_writer.go:146-197 | no deadlock: unless everything is quiet some thread can go on, and no flush need fail for it |
| `BatchProtocol.WorkFalls` | services/weatherlink-sql/repository/batch_writer.go:146-197 | every step that goes on with a call lowers a measure, so only so many can be taken before a new call is made |
| `BatchProtocol.QuietReachable` | services/weatherlink-sql/repository/batch_writer.go:146-197 | from every reachable state a quiet one is reached by finishing the calls under way, none of which need fail |
| `BatchProtocol.CloseGoesOn` | services/weatherlink-sql/repository/batch_writer.go:396-403 | Close, once begun, has returned or some thread can go on; with the falling measure it returns under every schedule |
| `BatchProtocol.CloseReturns` | services/weatherlink-sql/repository/batch_writer.go:396-403 | whenever Close may be called, calling it and finishing leads to its return, no record being given or dropped on the way |
| `BatchProtocol.QuietAccounts` | services/weatherlink-sql/repository/batch_writer.go:172-197 | at quiescence every record given is buffered, committed or dropped, and the insert counters equal what was committed |
| `BatchProtocol.CloseLeavesNothing` | services/weatherlink-sql/repository/batch_writer.go:396-403 | once Close has returned the buffers are empty, every record given was committed or dropped, and the insert counters equal what was committed |
| `BatchProtocol.Confluence` | services/weatherlink-sql/repository/batch_writer.go:396-403 | for every interleaving and every batch boundary, with no failed flush: the final table has the old keys and exactly those added, each new value was added for its key, and if equal keys carry equal values the table is that of one-at-a-time insertion in any order |
| `BatchWriting.AddRefinesInsert` | services/weatherlink-sql/repository/batch_writer.go:74-90 | a single-threaded writer is, up to what is still buffered, one that inserts each record at once |
| `BatchWriting.FlushAllSettles` | services/weatherlink-sql/repository/batch_writer.go:146-169 | FlushAll empties the buffers and makes the tables what plain insertion would have made them |
| `BatchWriting.BatchWriter.constructor` | services/weatherlink-sql/repository/batch_writer.go:54-71 | starts with empty buffers and zero counters over the given tables |
| `BatchWriting.BatchWriter.CopyRecords` | services/weatherlink-sql/repository/batch_writer.go:256-300 | one transaction: all rows inserted with first writer winning, or none |
| `BatchWriting.BatchWriter.FlushLocked` | services/weatherlink-sql/repository/batch_writer.go:172-197 | takes the buffer, commits it and counts it; a failed commit drops it |
| `BatchWriting.BatchWriter.AddRecord` | services/weatherlink-sql/repository/batch_writer.go:74-90 | appends, and flushes when the buffer has reached flushSize; fails only if that flush does |
| `BatchWriting.BatchWriter.FlushEverything` | services/weatherlink-sql/repository/batch_writer.go:146-169 | flushes the three kinds in turn, going on after a failure, and fails exactly if a buffer that held something could not be committed |
| `BatchWriting.SoloAdd` | services/weatherlink-sql/repository/batch_writer.go:74-90 | an uninterrupted Add of the protocol does what the method does |
| `BatchWriting.SoloFlushAll` | services/weatherlink-sql/repository/batch_writer.go:130-169 | an uninterrupted FlushAll of the protocol, or the flusher's at a tick, does what the method does |
| `BatchWriting.SoloClose` | services/weatherlink-sql/repository/batch_writer.go:396-403 | an uninterrupted Close stops the flusher, flushes as FlushAll does, and is over |
| `Keys.DecimalRoundTrip` | services/weatherlink-sql/cache/cache.go:45-45 | parsing the decimal text of a number gives the number back; the text is digits without leading zeros, after a minus sign if negative |
| `Keys.TagKeyInjective` | services/weatherlink-sql/cache/cache.go:45-45 | the text "%d:%s" determines device and tag name |
| `Keys.RecordKeyText` | services/weatherlink-kafka/service/backfill.go:216-216 | the key is the decimal text of the sensor, a colon, and that of the timestamp |
| `Keys.RecordKeyInjective` | services/weatherlink-kafka/service/backfill.go:216-216 | the text lsid:timestamp determines both |
| `Keys.CameraKeyInjective` | services/unifi-smart-archive/service/service.go:354-356 | camera|type determines both when camera names hold no separator |
| `TagCache.FindAfterStoreTag` | services/weatherlink-sql/cache/cache.go:42-55 | the text-keyed tag map behaves as a map from (device, name) |
| `TagCache.FindAfterStoreMeta` | services/weatherlink-sql/cache/cache.go:58-84 | the nested catalog behaves as a flat map in which an entry is found exactly under the number whose canonical decimal text it was stored under |
| `TagCache.Cache.GetTag` | services/weatherlink-sql/cache/cache.go:42-47 | returns the tag last stored for the device and name, or none |
| `TagCache.Cache.SetTag` | services/weatherlink-sql/cache/cache.go:50-55 | changes the entry of that device and name and no other |
| `TagCache.Cache.GetCatalogMetadata` | services/weatherlink-sql/cache/cache.go:58-69 | returns the entry of the three keys, or none |
| `TagCache.Cache.SetCatalogMetadata` | services/weatherlink-sql/cache/cache.go:72-84 | changes exactly the entry found under those keys, creating the inner maps as needed |
| `TagCache.UpsertKeepsIds` | services/weatherlink-sql/repository/tags.go:51-76 | an upsert returns the id of the one row for (device, name), the old one or the next of the sequence, which moves on in any case, gives it the new data type, keeps ids unique and moves no other row |
| `TagCache.UpsertKeepsAgreement` | services/weatherlink-sql/repository/tags.go:51-76 | an upsert leaves every cached id correct |
| `TagCache.StoreKeepsAgreement` | services/weatherlink-sql/cache/cache.go:50-55 | so does caching an id the database returned |
| `TagCache.LoadAllAgrees` | services/weatherlink-sql-backfill/service/backfill.go:97-103 | so does loading all rows at start, in any order |
| `TagCache.LoadAllLoads` | services/weatherlink-sql-backfill/service/backfill.go:97-103 | after loading, the cache has each row with its id and data type, and is otherwise as before |
| `TagTypes.TypesAgreeIff` | services/weatherlink-sql-backfill/service/worker_pool.go:163-211 | over all runs of the pool: the data type of a cached tag is sure to be that of its row if and only if the tag is cached at the start, or there is one worker, or the values messages may carry for it are of one determined type (or none can make it) |
| `Ingest.RouteMeaning` | services/weatherlink-sql-backfill/service/worker_pool.go:222-256 | a value is refused exactly if its tag's data type does not take it: numbers fit numeric, float and integer, text fits text and string, null fits all, nothing else fits any; what is accepted goes unaltered to the records of its own kind |
| `Ingest.OwnTypeAccepts` | services/weatherlink-sql-backfill/service/worker_pool.go:293-308 | a field is stored under the type determined from itself exactly if it is null, a number or a string |
| `Ingest.NullFirstRejects` | services/weatherlink-sql-backfill/service/worker_pool.go:252-253 | a tag first seen as null accepts nothing but null |
| `Ingest.StepKeepsAll` | services/weatherlink-sql-backfill/service/worker_pool.go:69-220 | every step of the pool and of the writer keeps the system invariant (messages, fields, tags, records) |
| `Ingest.RunKeepsInv` | services/weatherlink-sql-backfill/service/worker_pool.go:69-220 | so does every run |
| `Ingest.CacheAgreesWithDatabase` | services/weatherlink-sql-backfill/service/worker_pool.go:163-211 | under every interleaving of workers each cached id is that of the one row for its device and tag name |
| `Ingest.EverythingHandled` | services/weatherlink-sql-backfill/service/worker_pool.go:258-269 | after shutdown and Close nothing is left in the channel, processed + errors = submitted, and every field of every opened message has met its fate |
| `Ingest.OnlyBadMessagesFail` | services/weatherlink-sql-backfill/service/worker_pool.go:127-154 | in every run a message counts as an error only for want of a sensor, a device or a readable body; in the live service not for want of a device if orphans could be saved |
| `Ingest.FieldsAreStored` | services/weatherlink-sql-backfill/service/worker_pool.go:157-256 | in every run in which no upsert fails, each field dealt with is the timestamp, or is refused, exactly if its tag's data type does not take it, or went with its own value, under its tag's id and its message's timestamp, to the records of its own kind |
| `PoolProgress.GoingOnIsLess` | services/weatherlink-sql-backfill/service/worker_pool.go:69-98 | every effective step of a worker or inside the writer lowers a measure of what is left |
| `PoolProgress.SomebodyGoesOn` | services/weatherlink-sql-backfill/service/worker_pool.go:69-98 | until the workers rest, having nothing to do, or after Shutdown having left, some such step is possible, and none need fail |
| `PoolProgress.WorkersRest` | services/weatherlink-sql-backfill/service/worker_pool.go:69-98 | from every reachable state such steps alone lead to one in which the workers rest |
| `PoolProgress.WorkersLeave` | services/weatherlink-sql-backfill/service/worker_pool.go:258-269 | after Shutdown such steps alone lead to a state in which all workers have left |
| `PoolProgress.ShutdownCompletes` | services/weatherlink-sql-backfill/service/backfill.go:177-201 | from every state after Shutdown some run has the workers leave and Close return, without a failed flush |
| `PoolProgress.EveryLoadDrains` | services/weatherlink-sql-backfill/service/backfill.go:156-201 | whatever messages are to be submitted, some run submits exactly those and ends with the writer closed and nothing dropped, as the results about drained runs ask for |
| `Ingest.Drained` | services/weatherlink-sql-backfill/service/backfill.go:156-201 | end to end: each submitted message was handled exactly once, and the table has its old keys and exactly those of the records that fields came to |
| `Ingest.DrainRefinesInsertion` | services/weatherlink-sql-backfill/service/backfill.go:370-381 | end to end: the table is the one made by inserting the stored records one at a time in some order, and in any order when equal keys carry equal values |
| `Readings.RowsAreReadings` | services/weatherlink-sql-backfill/service/worker_pool.go:156-256 | in every run, at any time, a new row of the numeric table holds the number that a field of a submitted message carries for that device, tag and timestamp, and likewise for text and null |
| `Readings.TagTypesComeFromValues` | services/weatherlink-sql-backfill/service/worker_pool.go:163-211 | in every run a tag has a data type it had at the start or that some value submitted for it gives: null for null, numeric for numbers and booleans, text for the rest |
| `Readings.NoReadingIsLost` | services/weatherlink-sql-backfill/service/worker_pool.go:156-256 | end to end: if the values submitted for a device and name fit the types they give its tag and those it had at the start, then after a shutdown without failed upsert or flush each of them has its row |
| `ArchiveEffects.SecondsTruncate` | services/unifi-smart-archive/service/service.go:223-223 | milliseconds become seconds by dropping what is left over, toward zero |
| `ArchiveEffects.MessageEffect` | services/unifi-smart-archive/service/service.go:145-219 | a message is ignored, merged into the one session at its key, or opens one there; nothing else changes but files |
| `ArchiveEffects.FileAllMeaning` | services/unifi-smart-archive/service/service.go:307-331 | a frame that appears is copied to and marked by exactly the sessions of its camera whose window it is in and that lack it |
| `ArchiveEffects.MergeLocal` | services/unifi-smart-archive/service/service.go:160-187 | a merge changes only its session and the archive |
| `ArchiveEffects.OpenLocal` | services/unifi-smart-archive/service/service.go:190-216 | an opening without a directory does nothing; any other adds the session, counts its directory and waits for a missing end |
| `ArchiveEffects.ExpireAllMeaning` | services/unifi-smart-archive/service/service.go:390-411 | an expiry pass removes exactly the sessions of a single overdue start, with their directories, and exactly the overdue waiting events, in whatever order the map is walked |
| `ArchiveEffects.CloseCheckEffect` | services/unifi-smart-archive/service/service.go:430-451 | the decision to close is: an end, the time come, and the last frame copied, copyable or absent |
| `ArchiveEffects.CloseAllMeaning` | services/unifi-smart-archive/service/service.go:426-467 | a closing pass takes away exactly the due sessions, puts exactly their ids into the done set, and otherwise only copies, in whatever order the map is walked |
| `ArchiveEffects.CloseListsOnce` | services/unifi-smart-archive/service/service.go:429-456 | one closing pass removes each session at most once |
| `ArchiveSessions.NewSessionHull` | services/unifi-smart-archive/service/service.go:195-204 | a new session is the hull of its message, in the directory named by its type, its camera and its first second |
| `ArchiveSessions.MergedHull` | services/unifi-smart-archive/service/service.go:162-182 | a merge keeps the session the hull of its messages: least start, greatest end, closing time, and the directory named by type, camera and start second |
| `ArchiveSessions.MessageDirectory` | services/unifi-smart-archive/service/service.go:222-225 | whatever a message opens or moves files under the message's own type, then its camera, then the second of the least start |
| `ArchiveSessions.WindowIgnoresOrder` | services/unifi-smart-archive/service/service.go:162-182 | window, closing time and directory depend only on which messages were merged |
| `ArchiveSessions.StepKeepsInv` | services/unifi-smart-archive/service/service.go:107-467 | every step keeps sessions hulls, and every waiting event either the opener of the session at its key or done |
| `ArchiveSessions.RunKeepsInv` | services/unifi-smart-archive/service/service.go:107-467 | so does every run from a fresh start |
| `ArchiveSessions.SessionsAreHulls` | services/unifi-smart-archive/service/service.go:153-225 | in every reachable state each session is the hull of its messages |
| `ArchiveSessions.ArrivalOrderIsIrrelevant` | services/unifi-smart-archive/service/service.go:153-225 | two runs that merged the same messages in any order agree on window, closing time and directory |
| `ArchiveSessions.ExpiryDiscardsOnlyLoneStarts` | services/unifi-smart-archive/service/service.go:390-411 | in every run a session discarded by expiry was made by one start-only message alone, the one waiting for longer than the timeout |
| `ArchiveSessions.ExpiryReachesExactlyTheRest` | services/unifi-smart-archive/service/service.go:399-402 | an open-ended session can be expired at some time if and only if it holds one id and that id waits at its key |
| `ArchiveSessions.StuckForGood` | services/unifi-smart-archive/service/service.go:399-436 | an open-ended session for which that fails stays, whatever happens, until a message with an end comes for its key |
| `ArchiveSessions.StepSticksIff` | services/unifi-smart-archive/service/service.go:149-216 | after a step a session is stuck exactly if the step sticks it, or it was stuck and the step does not end it; a step sticks an open-ended session exactly if it is an accepted message that comes without an end for its key, or one of the event that opened it that comes for another key with an end, or opening a second session there |
| `ArchiveSessions.StuckIff` | services/unifi-smart-archive/service/service.go:107-467 | a run ends with a stuck session at the key if and only if some message of the run stuck it and none has ended it since |
| `ArchiveSessions.NeverStuckIff` | services/unifi-smart-archive/service/service.go:107-467 | throughout a run no session at the key is stuck if and only if no message of the run is of that kind |
| `ArchiveSessions.RepeatedStartSticks` | services/unifi-smart-archive/service/service.go:182-182 | so any accepted start-only message, a repeated one included, makes the open-ended session at its key stuck |
| `ArchiveSessions.EndElsewhereSticks` | services/unifi-smart-archive/service/service.go:149-151 | so does an end of the opening event that comes under another type or camera, even if it opens no session there |
| `ArchiveSessions.SecondTypeSticks` | services/unifi-smart-archive/service/service.go:209-216 | the opening event seen again without an end under another type or camera makes the session stuck if and only if it opens a second session there |
| `ArchiveSessions.StuckIsReachable` | services/unifi-smart-archive/service/service.go:149-216 | after a start-only message from the start, a second message of the same event leads to a stuck session if and only if it is not an end for the same camera and type |
| `ArchiveClosing.DueIff` | services/unifi-smart-archive/service/service.go:430-451 | for a hull with an end: closed if and only if the clock has reached end + trail + delay and the frame of second end + trail is absent, marked, or copyable now |
| `ArchiveLosses.BasesAreThere` | services/unifi-smart-archive/service/service.go:162-193 | in every run in which directories can be made every session has its directory |
| `ArchiveClosing.FirstTickCloses` | services/unifi-smart-archive/service/service.go:426-456 | the first tick at or after the closing time closes a reachable session whose end is not before its start, if its last frame can be copied and directories could be made; its events are then done |
| `ArchiveClosing.EndedStep` | services/unifi-smart-archive/service/service.go:426-456 | a session with an end leaves only through a tick that is not early and leaves no copyable last frame behind |
| `ArchiveClosing.EndedSessionsEndUpDone` | services/unifi-smart-archive/service/service.go:426-459 | in every run a session with an end is still there with all its events, or all its events are done |
| `ArchiveClosing.ClosedDirectoryIsFull` | services/unifi-smart-archive/service/service.go:438-451 | the directory of a closed session holds all its marks, its last frame if there is one, and its whole window unless the last second was marked before the tick |
| `ArchiveClosing.ClosingPassFiles` | services/unifi-smart-archive/service/service.go:433-451 | a closing pass adds to a session's directory exactly the fresh frames of its window if its time has come and its last second was not marked, and nothing otherwise |
| `ArchiveClosing.ClosedDirectoryIff` | services/unifi-smart-archive/service/service.go:438-451 | a closed directory is complete if and only if it was before the tick, or the last second was not marked and the directory is there |
| `ArchiveDisk.MessageCatchesUp` | services/unifi-smart-archive/service/service.go:173-207 | a message that opens a session, or brings an end to one, leaves it with its whole window marked, failed copies aside |
| `ArchiveDisk.MergeOnDiskIff` | services/unifi-smart-archive/service/service.go:162-181 | after a merge the marks stand for files if and only if every frame marked before is in the directory used afterwards |
| `ArchiveDisk.OnDiskIff` | services/unifi-smart-archive/service/service.go:162-181 | marks stand for files throughout a run if and only if no merge moves a session away from frames it has marked |
| `ArchiveDisk.SameSecondIsHarmless` | services/unifi-smart-archive/service/service.go:164-171 | a merge that does not lower the start second never does |
| `ArchiveDisk.LoweringLosesFrames` | services/unifi-smart-archive/service/service.go:162-171 | a lowering merge into a new directory loses every frame archived so far |
| `ArchiveDisk.LoweringSurvivors` | services/unifi-smart-archive/service/service.go:162-181 | a merge that moves the session, with an end or without, leaves in the new directory what was there and exactly the source frames of the wider window, and of the one the end brings, not marked before |
| `ArchiveDisk.HarmIsReachable` | services/unifi-smart-archive/service/service.go:162-171 | three labels lead from the start to a merge that leaves marks without files |
| `ArchiveDisk.StepOnDisk` | services/unifi-smart-archive/service/service.go:107-467 | a step keeps marks and files in step if and only if it is harmless, and touches no directory that no session uses |
| `ArchiveLosses.StepDeletesIff` | services/unifi-smart-archive/service/service.go:162-171 | from any state a step deletes a directory if and only if it expires a session at it or merges a start that moves a session away from it; otherwise the directory keeps all its files |
| `ArchiveLosses.KeptIff` | services/unifi-smart-archive/service/service.go:162-171 | a directory keeps what it holds throughout a run if and only if no step of the run does either |
| `ArchiveLosses.OnlySessionsDelete` | services/unifi-smart-archive/service/service.go:399-402 | a directory that no session files into is not deleted |
| `ArchiveLosses.ReopenedThenExpiredIsDeleted` | services/unifi-smart-archive/service/service.go:399-402 | a finished directory is deleted when a later start-only event of the same camera, type and second takes it over and expires |
| `ArchiveLosses.ReopenedThenLoweredIsDeleted` | services/unifi-smart-archive/service/service.go:162-171 | a finished directory is deleted when any later event of the same camera, type and second takes it over and one with a start in an earlier second follows |
| `ArchiveWatch.EnsureKeeps` | services/unifi-smart-archive/service/service.go:228-241 | a new session keeps counts and sessions equal if and only if its directory is watched already or can be added |
| `ArchiveWatch.ReleaseKeeps` | services/unifi-smart-archive/service/service.go:413-423 | removing a session and releasing its camera keeps counts bounded, and equal to the sessions if they were |
| `ArchiveWatch.StepKeepsWatch` | services/unifi-smart-archive/service/service.go:228-241 | every step keeps the bounds, and equality exactly if no needed add fails |
| `ArchiveWatch.CountsAreBounded` | services/unifi-smart-archive/service/service.go:228-241 | in every run a directory is watched exactly while its count is positive, and the count is at most the number of its sessions |
| `ArchiveWatch.ExactIff` | services/unifi-smart-archive/service/service.go:228-241 | counts equal sessions throughout a run if and only if no needed add failed |
| `ArchiveWatch.FailedAddIsReachable` | services/unifi-smart-archive/service/service.go:237-239 | one failed add at the start makes counts and sessions differ |
| `ArchiveService.Service.constructor` | services/unifi-smart-archive/service/service.go:58-73 | an empty service over the given files |
| `ArchiveService.Service.EnsureWatchedLocked` | services/unifi-smart-archive/service/service.go:228-241 | counts the directory and watches it on the first use; a failed add takes the count back |
| `ArchiveService.Service.ReleaseWatchedLocked` | services/unifi-smart-archive/service/service.go:413-423 | the reverse; the last release stops watching |
| `ArchiveService.Service.CatchUpLocked` | services/unifi-smart-archive/service/service.go:244-276 | copies and marks exactly the fresh frames of the window, whatever order the directory lists them in |
| `ArchiveService.Service.ProcessMessage` | services/unifi-smart-archive/service/service.go:145-220 | does to the fields what the message step of the state machine does |
| `ArchiveService.Service.FileCreated` | services/unifi-smart-archive/service/service.go:307-331 | files the new frame with every session of its camera whose window it is in |
| `ArchiveService.Service.ExpireWaitingForEnd` | services/unifi-smart-archive/service/service.go:390-411 | leaves exactly the sessions and waiting events that are not expired |
| `ArchiveService.Service.CloseCompletedStreams` | services/unifi-smart-archive/service/service.go:426-467 | leaves exactly the sessions that are not due, and adds exactly the ids of the others to the done set |
| `Frames.ExtractFrameMeaning` | services/unifi-video-jpg/stream/runner.go:170-188 | extractFrame returns the stretch from the first FF D8 to the first FF D9 past it, and finds one exactly if there is one |
| `Frames.ExtractedIsFrame` | services/unifi-video-jpg/stream/runner.go:170-188 | what it returns begins with FF D8, ends with FF D9 and has no other FF D9 |
| `Frames.SplitAppend` | services/unifi-video-jpg/stream/runner.go:126-146 | splitting composes: the unfinished remainder of a prefix is all that need be kept |
| `Frames.TrimHarmlessIff` | services/unifi-video-jpg/stream/runner.go:148-156 | trimming the buffer is invisible to every continuation if and only if a condition on the buffer holds |
| `Frames.FaithfulIff` | services/unifi-video-jpg/stream/runner.go:122-156 | the reader emits what one split of the whole stream would, after every round, if and only if no round trims a buffer for which that condition fails |
| `Frames.UnsafeTrimIsReachable` | services/unifi-video-jpg/stream/runner.go:148-156 | 33 reads of 64 KiB of a frame that does not end make the reader unfaithful |
| `Frames.ChunkInvariance` | services/unifi-video-jpg/stream/runner.go:111-166 | if the remainder of every prefix fits in 2 MiB, reads may be cut anywhere: the frames are those of one split of the whole stream |
| `Frames.CutsAgree` | services/unifi-video-jpg/stream/runner.go:111-166 | two ways of cutting one such stream give the same frames and the same buffer |
| `Frames.MemoryBound` | services/unifi-video-jpg/stream/runner.go:113-156 | for any input read at most 64 KiB at a time the buffer ends each round with at most 2 MiB + 64 KiB - 1 bytes |
| `Frames.SplitJoin` | services/unifi-video-jpg/stream/runner.go:170-188 | splitting undoes joining: frames without inner EOI, with SOI-free filler between them, come back exactly |
| `Frames.FramesAreSlices` | services/unifi-video-jpg/stream/runner.go:124-156 | even with trimming the frames are disjoint, increasing slices of the stream, each of frame shape |
| `Frames.ExtractAll` | services/unifi-video-jpg/stream/runner.go:126-146 | the inner loop emits the frames of one split and keeps its remainder; the counter counts the successful writes |
| `Frames.EndingMeaning` | services/unifi-video-jpg/stream/runner.go:111-166 | the loop ends with the first turn that is cancelled or brings an error: cleanly at the end of the file, as failed at any other error, and the data that came with the error counts |
| `Frames.ReadFrames` | services/unifi-video-jpg/stream/runner.go:111-166 | the whole loop is the fold of rounds, ends as the first cancellation or error says, and returns the count of written frames |
| `RateLimiting.BackoffDoubles` | services/weatherlink-kafka/service/ratelimit.go:137-138 | min(2^(k-1), 8) seconds for the k-th 429 in a row |
| `RateLimiting.RefillComposes` | services/weatherlink-kafka/service/ratelimit.go:91-95 | refilling in two goes gives what refilling once would |
| `RateLimiting.WaitOnceMeaning` | services/weatherlink-kafka/service/ratelimit.go:58-101 | a pass grants exactly if nothing blocks it and the level has reached one; a grant takes one token off the level, a refusal none |
| `RateLimiting.RateLimiter.constructor` | services/weatherlink-kafka/service/ratelimit.go:33-54 | defaults 8 and 1000, a full bucket of two seconds' tokens |
| `RateLimiting.RateLimiter.TryOnce` | services/weatherlink-kafka/service/ratelimit.go:58-102 | one critical section of Wait |
| `RateLimiting.RateLimiter.Wait` | services/weatherlink-kafka/service/ratelimit.go:57-110 | returns at the first pass that grants, and not before |
| `RateLimiting.RateLimiter.Record` | services/weatherlink-kafka/service/ratelimit.go:113-118 | counts a success and resets the error count |
| `RateLimiting.RecordErrorMeaning` | services/weatherlink-kafka/service/ratelimit.go:129-158 | every error counts one more in a row; the n-th blocks, if it is a 429, for 1, 2, 4, then 8 seconds, never moving the block back; any other blocks nobody and returns the count, at most five |
| `RateLimiting.RateLimiter.Fail` | services/weatherlink-kafka/service/ratelimit.go:129-158 | counts an error; a 429 blocks everybody for the penalty of the new count, never moving the block back; any other error moves no block and returns the count, at most five |
| `FetchWorkers.StepKeepsInv` | services/weatherlink-kafka/service/backfill.go:53-75 | every step of every worker keeps the bucket, cap, penalty and call accounts |
| `FetchWorkers.GrantBound` | services/weatherlink-kafka/service/ratelimit.go:91-101 | any number of workers, any run: the grants in any interval of length d are at most burst + rate * d, and the tokens stay within the bucket |
| `FetchWorkers.HourlyBound` | services/weatherlink-kafka/service/ratelimit.go:79-89 | in every run the hourly counter is the number of successes in the limiter's current hour and, with W workers, never exceeds floor(0.9 * limit) - 1 + W |
| `FetchWorkers.ErrorsAreStreak` | services/weatherlink-kafka/service/ratelimit.go:113-142 | in every run the error count is the number of 429s among the replies since the last success |
| `FetchWorkers.PenaltyRespected` | services/weatherlink-kafka/service/ratelimit.go:133-142 | after a 429 that is the n-th since the last success no worker is granted a token for 1, 2, 4 or, from the fourth on, 8 seconds |
| `FetchWorkers.FailurePauses` | services/weatherlink-kafka/service/backfill.go:142-183 | after a failed attempt the worker goes on to the next, which may begin when the pause is over, or gives up after the third |
| `HourlyCalls.RetriesWait` | services/weatherlink-kafka/service/backfill.go:154-171 | in a run that keeps the pauses a worker's next reply comes no sooner than the penalty of the 429s in a row, or as many seconds as attempts have failed |
| `FetchWorkers.BlockedNeverMovesBack` | services/weatherlink-kafka/service/ratelimit.go:140-142 | blockedUntil never moves back |
| `FetchWorkers.CallsPerGrant` | services/weatherlink-kafka/service/backfill.go:142-183 | a token pays for at most three API calls |
| `FetchWorkers.HourCallsAre` | services/weatherlink-kafka/service/backfill.go:60-75 | in every run the calls of the limiter's hour are its counter plus the failed replies of that hour, so at most floor(0.9 * limit) - 1 + W + failures, and equal to the counter if and only if none failed |
| `HourlyCalls.FailedCallsEscapeTheCap` | services/weatherlink-kafka/service/ratelimit.go:79-109 | some run makes more calls in an hour than the limit if and only if the limit is at least 2 and below three times the smaller of the number of windows and 3602 * rate + workers - 2, the pauses between attempts and the length of a request left open |
| `PacedCalls.PausesDoNotHelp` | services/weatherlink-kafka/service/backfill.go:145-172 | with every pause kept and no request longer than the client allows, a limit of at least 2 can be exceeded if it is below three times the smaller of the number of windows and 1200 * min(workers, 3 * rate) |
| `PacedCalls.PacedIff` | services/weatherlink-kafka/service/backfill.go:145-172 | with no more windows than that, such runs can exceed the limit if and only if it is at least 2 and below three times the number of windows |
| `Windows.SplitInto24HourWindows` | services/weatherlink-kafka/util/time.go:45-66 | the windows tile the range, all but the last are full days, and the API range check accepts each |
| `Windows.TilesCoverOnce` | services/weatherlink-kafka/util/time.go:45-66 | every second of the range lies in exactly one window and no other second in any |
| `Dedup.ExecKeepsInv` | services/weatherlink-kafka/service/backfill.go:186-253 | every schedule of the workers keeps the accounts of windows, publications and cache |
| `Dedup.SkipsAreJustified` | services/weatherlink-kafka/service/backfill.go:218-226 | in every run a point is skipped only if its key was in Kafka at the start or has been published |
| `Dedup.NoNeedlessDuplicates` | services/weatherlink-kafka/service/backfill.go:218-248 | in every run no worker publishes a key twice, and a key published twice lies in two windows |
| `Duplicates.CanRepeatIff` | services/weatherlink-kafka/service/backfill.go:218-248 | some schedule publishes a key twice if and only if there are two workers, the key was not in Kafka at the start, and it lies in two windows |
| `Duplicates.TwoWindowsCanRepeat` | services/weatherlink-kafka/service/backfill.go:218-248 | for any such windows a schedule that does so is constructed: look-up and publication are separate |
| `Dedup.StepIsLess` | services/weatherlink-kafka/service/backfill.go:53-90 | every step of a worker that has an effect, whatever fails in it, lowers a measure of what is left |
| `Dedup.GetThrough` | services/weatherlink-kafka/service/backfill.go:53-90 | from every reachable state such steps, none of which need fail, lead to one in which all windows are through |
| `Dedup.NothingLost` | services/weatherlink-kafka/service/backfill.go:53-90 | when all windows are through without failures the keys published are exactly the texts lsid:timestamp of the points not in Kafka at the start |

## Left out

- Kafka, WebSocket and HTTP clients, ffmpeg, pgx and fsnotify: only their effect is modelled (a message arrives, a row is upserted, a frame appears, a commit succeeds or fails).
- JSON and header decoding, `sanitizeName` and lower-casing: messages and fields are typed inputs, names are already sanitised and are plain path segments.
- The three copies of each operation of the batch writer (numeric, text, null) are one operation with the kind as a parameter; services/weatherlink-sql-backfill/repository/batch_writer.go and services/unifi-video-kafka/stream/runner.go hold the same code as their modelled twins.
- Calls of Add or FlushAll after Close has begun, which the services never make.
- Cancelling the worker pool's context: nothing in the services cancels it before the pool has drained.
- Commits that report an error after the server has applied them: a failed commit changes no table in the model.
- The live service's enricher, which puts a tag back into the cache beside the workers (services/weatherlink-sql/service/enrichment.go:77-86): it changes units and descriptions only, but one it read before a worker replaced the tag would bring that tag's data type back.
- Units, descriptions and metadata of tags, updates of a device's data structure type, and the contents of the orphan table.
- Retention passes of the archive and of the frame directory: they run outside the session protocol and are taken not to run during a modelled run.
- Partial files: a copy that fails leaves no file in the model; the code may leave an incomplete one.
- Frame files whose names are not the canonical decimal form of their timestamp, and directory listing errors other than a missing directory.
- Clock readings inside one critical section of the archive service are one reading.
- Aliasing of sessions: a session is a value in the service's map, where the code keeps its only lasting reference to it.
- Integer widths: timestamps, counters and the error count do not overflow.
- Rounding: tokens and 90 percent of the hourly limit are exact reals; the code uses float64.
- Lengths of sleeps between passes of the limiter: the clock readings of the passes are inputs.
- HourlyCalls.FailedCallsEscapeTheCap: does not hold runs to the pauses between failed attempts (services/weatherlink-kafka/service/backfill.go:154-171), nor requests to the client's 30 seconds (services/weatherlink-kafka/api/client.go:25); PacedCalls gives runs that keep both.
- PacedCalls.PausesDoNotHelp: counts failing calls alone and leaves open the limits from there to those of HourlyCalls.FailedCallsEscapeTheCap, which differ only with more than 1200 * min(workers, 3 * rate) windows; PacedCalls.PacedIff settles the rest.
- `GetStats`, `GetMetrics`, logging and configuration: one-line facts.
- services/weatherlink-sql/service/data.go, superseded by the worker pool; Home Assistant routing, event classification, camera reconnection and the Core ML services: what remains of them is easy.
- RateLimiting.RateLimiter.Wait: does not say that a waiting caller is granted a token eventually, which depends on the scheduler and the other callers.
- Dedup.NothingLost: an asynchronous publish that is accepted and fails later counts as published, as it does in the code.
- ArchiveDisk.OnDiskIff: covers frames marked as copied; whether a frame of the window was ever marked depends on the watcher, see ArchiveClosing.ClosedDirectoryIsFull.
