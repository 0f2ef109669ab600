# A Dafny model of the two-phase Redis Streams batch pipeline

The pipeline runs every two hours. A scheduler reads the sales organisations
and the AI users. It puts one job per sales organisation on the
`sales_org_queue` stream and runs the sales-org worker. That worker writes a
`Material_<org>.csv` and a `GSCM_<org>.csv` file per organisation. The
scheduler then merges those files into `Material.csv` and `GSCM.csv`. Next it
puts one job per user on the `adaptive_card_queue` stream and runs the
adaptive-card worker, which builds the pages of each user's adaptive card.

There are two schedulers:
- the one-shot scheduler runs one worker process per phase and does not wait;
- the scalable scheduler runs a batch of worker processes per phase and polls
  each queue until it drains or thirty minutes pass.

Every job is tagged with the id of its two-hour window in +09:00. Both
workers read through a consumer group and handle each message through a
retry layer, which backs off exponentially and writes to a dead-letter
stream. A stream monitor classifies each stage from its length and its
pending count.

The model has one module per source file, plus these shared modules:

| module | what it holds |
|---|---|
| `Redis` | the streams: entries whose ids are their positions, consumer groups with a delivery cursor and a pending list, and injected command failures |
| `Runtime` | the `Host` class (store, count of work calls, recorded sleeps) and the `World` snapshot the specification functions act on |
| `Text` | decimal rendering, `int()` parsing, stripping and string sorting |
| `Json` | decoded JSON values with Python truthiness |
| `Ranking` | the stable sort by (achievement, −target, estimate) |
| `Config` | the configuration defaults |
| `Workers` | what the two workers share: the consumer group set-up, the per-message handling and the batch loop |
| `Wrappers` | `Option` and `Result`, the stand-in for a raised exception |

Code that changes state is modelled as methods of classes (`Host`,
`RetryHandler`, `ScenarioResult`, `Directory`, `ScalableScheduler`). Each
such method is proved equal to a pure specification function of the old
state, and the lemmas state the promised properties about those functions.

Where the code's behaviour is surprising, the model follows the code:
- `as_completed` raises `TimeoutError` when a worker of a batch is still
  running at the deadline. Nothing in `run_worker_batch` catches it, and
  `run_scalable_pipeline` logs it and raises it again. So a batch timeout
  ends the scalable pipeline (`ScalableScheduler.BatchTimeoutAborts`); the
  failure does not stay inside the batch.
- `XACK` does not shorten a stream, so `XLEN` of a queue that has ever held a
  job never returns to 0. As a result:
  - neither worker's drain exit fires on such a stream
    (`Workers.NonEmptyNeverDrains`);
  - the scalable scheduler's wait on a queue that holds an entry sleeps its
    full thirty minutes (`ScalableScheduler.EnqueuedQueueNeverDrains`); in
    the pipeline, the sales-org wait does so after any batch that keeps the
    queue's entries, as XACK and XCLAIM do
    (`ScalableScheduler.SalesWaitSleepsFully`);
  - the monitor never reports such a stage as completed
    (`Monitor.NonEmptyNeverCompleted`).

## Model

| member | source | states |
|---|---|---|
| Window.FloorIsBucketStart | deployment-package/window.py:5-8 | flooring the +09:00 hour to an even hour and zeroing the smaller fields equals flooring the instant to its two-hour bucket on the +09:00 axis |
| Window.FloorBounds | deployment-package/window.py:5-8 | the floored start is at or before the instant, and the instant is before start + 2 h |
| Window.FloorFields | deployment-package/window.py:7-8 | in +09:00 the start's hour is even, and its minute, second and microsecond are 0 |
| Window.FloorIdempotent | deployment-package/window.py:5-8 | flooring a window start gives the same start |
| Window.StartLocal | deployment-package/window.py:6-8 | the start's wall clock is the same local day with the hour floored to even |
| Window.EndLocal | deployment-package/window.py:13 | the end's wall clock is two hours after the start, rolling over to the next day after 22:00 |
| Window.ToLocalFromLocal | deployment-package/window.py:6 | reading the +09:00 wall clock of a built instant gives back its fields |
| Window.CurrentWindowId | deployment-package/window.py:10-17 | `now or datetime.now()`: the given instant is used when present, the clock otherwise; the result is (id, start, end) |
| Window.WindowContainsNow | deployment-package/window.py:10-13 | start ≤ now < end and end − start is exactly two hours |
| Window.WindowIdText | deployment-package/window.py:15-17 | the id is `<start date>T<hh>:00+09:00..<end date>T<hh'>:00+09:00`, the ISO texts at minute precision |
| Window.LocalIdsDiffer | deployment-package/window.py:5-17 | on one +09:00 day, wall clock hours in different 2-hour buckets give different ids |
| Window.SameBucketSameId | deployment-package/window.py:10-17 | two instants in the same two-hour bucket get identical ids, starts and ends |
| Window.DifferentBucketDifferentId | deployment-package/window.py:10-17 | two instants in different two-hour buckets of the +09:00 axis get different ids, also when the buckets lie on different local days |
| Window.SameIdIffSameBucket | deployment-package/window.py:10-17 | two instants get the same id exactly when they lie in the same two-hour bucket |
| Window.MidnightDiffers | deployment-package/window.py:10-17 | 23:59 on one local day and 00:01 on the next get different ids |
| Window.LocalIdsDifferAnyDay | deployment-package/window.py:5-17 | wall clock times in different two-hour buckets, on one local day or on two, get different ids |
| Window.LocalIdSameDay | deployment-package/window.py:15-17 | two equal ids have the same start day |
| Window.LocalIdDate | deployment-package/window.py:15 | an id starts with its start date, followed by 'T' |
| Window.NineFiftyNineAndTenOne | deployment-package/window.py:10-17 | 09:59 and 10:01 local time on one day get different ids |
| Window.IdTextHourInjective | deployment-package/window.py:15-17 | with the same start date, different start hours give different id texts |
| Window.MonthOf | deployment-package/window.py:15 | the month of a day-of-year lies in 1..12 and its day is at least 1 |
| Window.MonthOfRange | deployment-package/window.py:15 | the scan from month m never lands before m, and a day inside the rest of the year gets a day within its month's length |
| Window.CivilFromDaysRange | deployment-package/window.py:15 | the month of any day count lies in 1..12 and its day within the month's length |
| Window.CivilFromDaysInjective | deployment-package/window.py:15 | different day counts are different (year, month, day) dates |
| Window.DateTextInjective | deployment-package/window.py:15-16 | different days have different date texts |
| Monitor.StreamStatusOf | deployment-package/stream_monitor.py:15-40 | XLEN and XPENDING; either failing gives length 0, pending 0 and "error"; otherwise the reported counts are the stream's length and pending count |
| Monitor.CompletedIff | deployment-package/stream_monitor.py:23-24 | "completed" iff length = 0 and pending = 0 |
| Monitor.ProcessingIff | deployment-package/stream_monitor.py:25-26 | "processing" iff pending > 0, whatever the length |
| Monitor.QueuedIff | deployment-package/stream_monitor.py:27-28 | for natural counts, "queued" iff pending = 0 and length > 0 |
| Monitor.IdleUnreachable | deployment-package/stream_monitor.py:29-30 | "idle" needs a negative count, so natural counts never reach it |
| Monitor.NonEmptyNeverCompleted | deployment-package/stream_monitor.py:18-24 | a stream holding an entry is never reported "completed" |
| Monitor.PipelineStatusOf | deployment-package/stream_monitor.py:42-62 | the pipeline status is the decision over the two stage statuses, and both stage statuses are reported |
| Monitor.PipelineCompletedIff | deployment-package/stream_monitor.py:49-50 | the pipeline is "completed" iff both stages are |
| Monitor.Phase1Priority | deployment-package/stream_monitor.py:51-52 | an active (queued or processing) sales stage gives "phase1_sales_org" whatever the adaptive stage |
| Monitor.Phase2Iff | deployment-package/stream_monitor.py:53-54 | "phase2_adaptive_card" iff the sales stage is not active and the adaptive stage is |
| Monitor.ErrorsReadAsIdle | deployment-package/stream_monitor.py:38-56 | when one read of each stage fails, both stages are "error" and the pipeline reads as "idle" |
| Monitor.FailingReadNeverCompleted | deployment-package/stream_monitor.py:17-50 | any one failing XLEN or XPENDING, of either stage, makes a stage "error", and the pipeline is then not "completed" |
| Monitor.OneErrorStageOtherDecides | deployment-package/stream_monitor.py:49-56 | with one stage in error, the other stage's activity alone decides between phase 1, phase 2 and idle |
| Monitor.Classify | deployment-package/stream_monitor.py:23-30 | the status decision of get_stream_status; its cases are stated by `CompletedIff`, `ProcessingIff`, `QueuedIff` and `IdleUnreachable` |
| Monitor.PipelineOf | deployment-package/stream_monitor.py:49-56 | the decision of get_pipeline_status; stated by `PipelineCompletedIff`, `Phase1Priority` and `Phase2Iff` |
| Redis.AddAppends | deployment-package/retry_handler.py:84 | XADD appends exactly the given fields at the end of the stream and changes no group |
| Redis.CreateGroupTwice | app/worker_sales_org.py:30-33 | a second XGROUP CREATE of a group answers BUSYGROUP and changes nothing |
| Redis.ReadGroupBatch | app/worker_sales_org.py:104-109 | XREADGROUP `>` hands out at most `count` entries: the oldest never-delivered ones, in order |
| Redis.ReadGroupPending | app/worker_sales_org.py:104-109 | every handed-out entry is then pending for the reader, and the earlier pending entries are kept |
| Redis.ReadGroupFrame | app/worker_sales_org.py:104-109 | XREADGROUP changes no stream's entries |
| Redis.PendingRangeLists | deployment-package/retry_handler.py:131 | extended XPENDING lists at most `count` pending ids, ascending, each described by its pending entry |
| Redis.AckKeepsLength | deployment-package/retry_handler.py:52 | XACK never changes XLEN |
| Redis.AckRemoves | deployment-package/retry_handler.py:52 | a successful XACK removes exactly that id from that group's pending list |
| Redis.ClaimMoves | deployment-package/retry_handler.py:177-180 | XCLAIM of an entry idle for at least min-idle moves it to the claimer and resets its idle time; other entries stay as they were |
| Redis.AddKeepsValid | deployment-package/retry_handler.py:84 | XADD keeps the store's invariant (a group's cursor and pending ids lie within its stream) |
| Redis.CreateGroupKeepsValid | app/worker_sales_org.py:30 | XGROUP CREATE keeps the invariant |
| Redis.ReadGroupKeepsValid | app/worker_sales_org.py:104-109 | XREADGROUP keeps the invariant |
| Redis.AckKeepsValid | deployment-package/retry_handler.py:52 | XACK keeps the invariant |
| Redis.ClaimKeepsValid | deployment-package/retry_handler.py:177-180 | XCLAIM keeps the invariant |
| Redis.DeleteKeepsValid | app/scheduler.py:63-64 | DEL keeps the invariant |
| Redis.PendingRange | deployment-package/retry_handler.py:131 | NOGROUP for a missing group; otherwise at most `count` items |
| Runtime.Host.Sleep | deployment-package/retry_handler.py:63 | `time.sleep(delay)`: the delay is added to the log of sleeps; nothing else changes |
| Runtime.Host.Call | deployment-package/retry_handler.py:49 | one call of the work: its outcome is the oracle's answer for the next call number, and the call count goes up by one |
| Retry.Schedule | deployment-package/retry_handler.py:59-63 | the delays before retries `from+1 .. from+n`: exactly n of them, each `min(base·2^attempt, cap)` |
| Retry.BackoffCappedAndGrowing | deployment-package/retry_handler.py:61 | a delay never exceeds the cap, and it never shrinks from one attempt to a later one |
| Retry.RetryHandler.constructor | deployment-package/retry_handler.py:16-20 | the handler keeps the connection, stream, group and consumer it is given |
| Retry.RetryHandler.ProcessWithRetry | deployment-package/retry_handler.py:22-70 | the new world and the result are those of the attempt loop's specification `RetryFrom` from attempt 0 |
| Retry.RetryHandler.MoveToDeadLetterQueue | deployment-package/retry_handler.py:72-88 | the store gains the dead-letter record in `<stream>:dlq`, or stays as it was when that XADD fails |
| Retry.CallHandler | app/worker_sales_org.py:84-94 | one handler call: the bare work is called once, the decorated work as its wrapper specifies |
| Retry.RetryOnFailure | deployment-package/retry_handler.py:90-121 | the world and the outcome are those of the wrapper's specification `DecoratedFrom` from attempt 0 |
| Retry.DecoratedReturnsLastCall | deployment-package/retry_handler.py:103-118 | the wrapper calls the work between 1 and max_retries + 1 times; it returns the outcome of its last call, and every earlier call raised |
| Retry.DecoratedFirstSuccess | deployment-package/retry_handler.py:103-105 | k failing calls then a success (k ≤ max_retries): k + 1 calls and that success returned, after min(base·2^i, 60) waits for i < k |
| Retry.DecoratedAllFail | deployment-package/retry_handler.py:103-116 | every call failing: max_retries + 1 calls, max_retries waits, and the last error raised |
| Retry.PlainSucceedsAt | deployment-package/retry_handler.py:46-63 | with the bare work, failures until attempt k then a success: that success is acked and nothing is written to the dead-letter stream |
| Retry.PlainExhausted | deployment-package/retry_handler.py:46-68 | with the bare work and every attempt failing: false, one dead-letter record with the last error, and no XACK |
| Retry.DeadLetterRecordShape | deployment-package/retry_handler.py:75-81 | the record is the original fields plus original_message_id, error_message and failed_at, with retry_count overwritten to "max_exceeded" |
| Retry.ProcessSucceeds | deployment-package/retry_handler.py:46-54 | success first on attempt k ≤ max_retries: true, k + 1 calls, exactly one XACK logged, no dead-letter record, and the backoff waits before the retries |
| Retry.ProcessExhausted | deployment-package/retry_handler.py:46-68 | every attempt failing: false, max_retries + 1 calls, max_retries waits, exactly one dead-letter append, the original still pending and never acked |
| Retry.AckFailureRetries | deployment-package/retry_handler.py:49-57 | a failing XACK turns a successful call into a failed attempt, so the work is called again |
| Retry.DecoratedExhausted | deployment-package/retry_handler.py:46-68 | with the decorated work failing for good, every outer attempt makes max_retries + 1 inner calls, then one dead-letter record with the last error and false |
| Retry.HandlerCallsProduct | deployment-package/retry_handler.py:46-68 | the calls of a permanent failure of the decorated work add up to attempts × (inner max_retries + 1) |
| Retry.SixteenCalls | app/worker_sales_org.py:54 | with the workers' settings a permanent failure calls the work 4 × 4 = 16 times and ends with one dead-letter record |
| Retry.DeadLetterKeyDiffers | deployment-package/retry_handler.py:84 | `<stream>:dlq` is never the stream itself |
| Retry.AttemptFrame | deployment-package/retry_handler.py:47-52 | one attempt changes no stream's entries and of the pending lists removes at most its own id |
| Retry.RetryFrame | deployment-package/retry_handler.py:46-68 | the loop changes no entries except by appending to the dead-letter stream |
| Retry.GetPendingWithRetryInfo | deployment-package/retry_handler.py:123-159 | the listing built by the loop is the specification's: one row per XPENDING item, or [] on any error |
| Retry.ReadRetryCount | deployment-package/retry_handler.py:139-146 | the XRANGE and `int()` of one listed id give its retry count: the field's integer, 0 when the entry is missing, the field is absent or `int()` rejects it |
| Retry.RowsFollowItems | deployment-package/retry_handler.py:134-153 | row k carries item k's id, consumer and idle time, and the retry count read from the entry |
| Retry.PendingListing | deployment-package/retry_handler.py:131-155 | at most 100 rows, each about a pending entry, in ascending id order without repeats |
| Retry.PendingListingComplete | deployment-package/retry_handler.py:131 | a listing shorter than 100 rows shows every pending entry |
| Retry.PendingListingError | deployment-package/retry_handler.py:157-159 | a failing XPENDING or a missing group gives [] |
| Retry.RetryCountRoundTrip | deployment-package/retry_handler.py:142 | a retry_count written as the text of n reads back as n |
| Retry.RetryCountDefault | deployment-package/retry_handler.py:137-146 | a failing XRANGE, an id with no entry, an entry without a retry_count field, or a field `int()` rejects: each counts as 0 |
| Retry.MaxExceededCountsZero | deployment-package/retry_handler.py:142-146 | the dead-letter marker "max_exceeded" is rejected by `int()`, so an entry carrying it counts as 0 |
| Retry.CleanupOldPendingMessages | deployment-package/retry_handler.py:161-183 | the store after the claim loop is the specification's `CleanupOld` |
| Retry.ClaimOldEffect | deployment-package/retry_handler.py:171-180 | over rows describing the pending list, exactly the rows idle for longer than the limit are claimed |
| Retry.ClaimOldFrame | deployment-package/retry_handler.py:171-180 | the claim loop changes no stream's entries, no fault, no ack log, no other group's pending list and no pending id of this group |
| Retry.ClaimOldPending | deployment-package/retry_handler.py:171-180 | a pending entry is handed to the claimer, with one more delivery and idle time 0, exactly when it was listed and idle for longer than the limit |
| Retry.CleanupClaimsIdle | deployment-package/retry_handler.py:168-180 | with a client name, exactly the listed entries with idle time strictly above max_idle_time move to the claimer; the others are untouched |
| Retry.ListedIsAllPending | deployment-package/retry_handler.py:131-169 | a listing shorter than 100 rows names every pending id |
| Retry.CleanupWithoutClientName | deployment-package/retry_handler.py:178-183 | without a client name the first idle row raises and nothing is claimed |
| Retry.IdsAbove | deployment-package/retry_handler.py:171 | rows in ascending order above an id never name it |
| Workers.DistinctPidsDistinctNames | app/worker_sales_org.py:18 | without WORKER_NAME, two processes on one host get different consumer names |
| Workers.EnsureGroup | app/worker_sales_org.py:28-36 | the store and result are those of XGROUP CREATE with BUSYGROUP treated as success |
| Workers.EnsureGroupCreates | app/worker_sales_org.py:28-31 | on success the group exists; a new group starts at id 0 with nothing pending, and the stream is created when missing |
| Workers.EnsureGroupIdempotent | app/worker_sales_org.py:32-34 | a second ensure_group succeeds and changes nothing |
| Workers.EnsureGroupRaises | app/worker_sales_org.py:35-36 | any other error is raised |
| Workers.ConnectionErrorNotBusy | app/worker_sales_org.py:33 | a connection error's text does not contain BUSYGROUP |
| Workers.BusyGroupContainsTag | app/worker_sales_org.py:33 | the BUSYGROUP reply's text contains the tag |
| Workers.HandleMessage | app/worker_sales_org.py:68-97 | the world after handling one message is `HandleSpec`: skip on another stage, otherwise process_with_retry with the decorated work |
| Workers.RunBatchOnce | app/worker_sales_org.py:99-126 | the result and world are those of `RunBatchSpec`: ensure_group, then read, handle and drain-test rounds |
| Workers.HandleBatchFrame | app/worker_sales_org.py:112-114 | handling a batch changes no entries of the worker's stream and removes at most the batch's ids from its pending list |
| Workers.WrongStageLeftPending | app/worker_sales_org.py:79-81 | a wrong-stage message read into a batch stays pending after it is handled |
| Workers.WrongStageSkipped | app/worker_sales_org.py:79-81 | a wrong-stage message causes no call, no XACK and no dead-letter record |
| Workers.DrainFromKeepsEntries | app/worker_sales_org.py:102-126 | the loop never changes its own stream's entries |
| Workers.DrainedOnlyWhenEmpty | app/worker_sales_org.py:116-125 | the exit is taken only after an empty read with XLEN 0 and pending 0 |
| Workers.NonEmptyNeverDrains | app/worker_sales_org.py:116-125 | a worker whose stream holds an entry never takes the drain exit |
| Workers.EmptyStreamDrains | app/worker_sales_org.py:116-125 | an empty stream with a reachable server drains in the first round |
| Workers.PendingErrorHandling | app/worker_sales_org.py:117-121 | a failing XPENDING counts as nothing pending for the sales-org worker and raises for the adaptive-card worker |
| SalesOrgWorker.SafeChar | app/worker_sales_org.py:25-26 | the result is an allowed character, and an allowed character is kept |
| SalesOrgWorker.Safe | app/worker_sales_org.py:25-26 | `_safe` keeps the length and maps each character through SafeChar |
| SalesOrgWorker.SafeKeepsAllowed | app/worker_sales_org.py:25-26 | every output character is allowed; allowed input characters stay in place; every other one becomes '-' |
| SalesOrgWorker.SafeIdentityIff | app/worker_sales_org.py:25-26 | `_safe(s) == s` iff every character of s is allowed |
| SalesOrgWorker.SafeIdempotent | app/worker_sales_org.py:25-26 | `_safe` is idempotent |
| SalesOrgWorker.SafeCollides | app/worker_sales_org.py:25-26 | "EU/01" and "EU 01" get the same file name |
| SalesOrgWorker.SaveDfName | app/worker_sales_org.py:38-52 | None iff the frame is None, has no columns or has no rows; otherwise the final name is `{kind}_{_safe(id)}.csv`, written through `<name>.tmp` |
| SalesOrgWorker.RowsWithoutColumnsSkipped | app/worker_sales_org.py:43-44 | a frame with rows but no columns is empty and is not written |
| SalesOrgWorker.SaveDf | app/worker_sales_org.py:38-52 | _save_df's file names; stated by `SaveDfName`, `SaveDfIgnoresWindow` and `KindsDoNotCollide` |
| SalesOrgWorker.SaveDfIgnoresWindow | app/worker_sales_org.py:46-47 | the window id never reaches the file name |
| SalesOrgWorker.KindsDoNotCollide | app/worker_sales_org.py:63-64 | the Material and GSCM files of one organisation never share a name |
| SalesOrgWorker.WrittenFiles | app/worker_sales_org.py:60-64 | one run writes at most two files, each the Material or GSCM name of the organisation |
| SalesOrgWorker.HandleSalesOrgMessage | app/worker_sales_org.py:68-97 | the world after one message is `HandleSpec` with stage "sales_org_fetch" |
| SalesOrgWorker.RunBatchOnce | app/worker_sales_org.py:99-126 | `RunBatchSpec` with a failing XPENDING read as pending 0 |
| SalesOrgWorker.PermanentFailure | app/worker_sales_org.py:54-94 | a message that fails for good costs 16 calls, then one dead-letter record holding the last error; no XACK |
| SalesOrgWorker.OtherStageSkipped | app/worker_sales_org.py:79-81 | a message of another stage leaves the world unchanged |
| AdaptiveCardWorker.PayloadShape | app/worker_adaptive_card.py:41-60 | keys user_id, window_id, pages and meta; window_id is the chat-room id; pages has exactly the seven pages, a truthy page kept and every other one {} |
| AdaptiveCardWorker.OrEmptyObject | app/worker_adaptive_card.py:48-54 | `page or {}` of a dict is {} iff the dict is empty |
| AdaptiveCardWorker.PagesAfterBuildPage | app/worker_adaptive_card.py:47-55 | after build_page, SOSE00 and SODE00 are {} iff top5_accounts is empty, PGSE00 and PGDE00 iff top5_prdgs is, MODE00 iff both are; OPTR00 is always built |
| AdaptiveCardWorker.PayloadAfterBuildPage | app/worker_adaptive_card.py:41-60 | the same facts about the pages in the payload |
| AdaptiveCardWorker.ResultToJsonPayload | app/worker_adaptive_card.py:41-60 | _result_to_json_payload; stated by `PayloadShape`, `OrEmptyObject` and `PayloadAfterBuildPage` |
| AdaptiveCardWorker.SavePagesName | app/worker_adaptive_card.py:62-70 | the file would be `AdaptiveCard_{user_id}.json`, via `<name>.tmp`; it depends on the user alone, and two users never share one (the worker never calls it) |
| AdaptiveCardWorker.SavePagesJson | app/worker_adaptive_card.py:62-70 | _save_pages_json's file names; stated by `SavePagesName` |
| AdaptiveCardWorker.NewScenarioResult | app/worker_adaptive_card.py:78-83 | Ok iff user_id and window_id are present; then execution_id = chatroom_id = window_id, sender_name = user_id = user_id, every other field None |
| AdaptiveCardWorker.HandleAdaptiveCardMessage | app/worker_adaptive_card.py:91-120 | the world after one message is `HandleSpec` with stage "adaptive_card_generation" |
| AdaptiveCardWorker.RunBatchOnce | app/worker_adaptive_card.py:122-146 | `RunBatchSpec` with a failing XPENDING raised |
| AdaptiveCardWorker.OtherStageSkipped | app/worker_adaptive_card.py:102-104 | a message of another stage leaves the world unchanged |
| AdaptiveCardWorker.PendingErrorEscapes | app/worker_adaptive_card.py:140-142 | on an empty stream, a failing XPENDING ends the loop with that error |
| ScenarioPreprocessor.DefaultAttrs | deployment-package/scenario_preprocessor.py:39-164 | a fresh result holds every declared optional field, each None |
| ScenarioPreprocessor.ScenarioResult.constructor | deployment-package/scenario_preprocessor.py:34-38 | the four required strings as given and the default optional fields |
| ScenarioPreprocessor.ScenarioResult.SetAttr | deployment-package/scenario_preprocessor.py:167-168 | setattr writes that one attribute and keeps the others |
| ScenarioPreprocessor.IndexedDeclared | deployment-package/scenario_preprocessor.py:65-130 | every `top{i}<suffix>` field a defaults loop names is declared |
| ScenarioPreprocessor.ReplacePlaceholders | deployment-package/scenario_preprocessor.py:227-242 | the walk with its list loop computes the value-level `Replace` |
| ScenarioPreprocessor.ExactMatchOnly | deployment-package/scenario_preprocessor.py:239-240 | a string is replaced iff it equals a key; substrings are never substituted |
| ScenarioPreprocessor.KeysPreserved | deployment-package/scenario_preprocessor.py:228-229 | a dict keeps its keys, and each value is the walk of the old value |
| ScenarioPreprocessor.ScalarsUnchanged | deployment-package/scenario_preprocessor.py:241-242 | None, booleans and numbers pass through |
| ScenarioPreprocessor.EmptyParamsIdentity | deployment-package/scenario_preprocessor.py:227-242 | with empty params the walk is the identity |
| ScenarioPreprocessor.NoSpliceKeepsItems | deployment-package/scenario_preprocessor.py:230-238 | when no item is spliced, the new list has the same length, each item replaced in place |
| ScenarioPreprocessor.ListPlaceholderSpliced | deployment-package/scenario_preprocessor.py:234-235 | a list-valued placeholder standing alone as an item is spliced into the list |
| ScenarioPreprocessor.NestedListFlattened | deployment-package/scenario_preprocessor.py:234-235 | a nested list whose text mentions a key is flattened one level |
| ScenarioPreprocessor.IndexOf | deployment-package/scenario_preprocessor.py:213-215 | `list.index`: the first position of the header, None when it is missing |
| ScenarioPreprocessor.Filter | deployment-package/scenario_preprocessor.py:217-221 | the comprehension keeps exactly the rows that pass, in order |
| ScenarioPreprocessor.FilterAndSortRows | deployment-package/scenario_preprocessor.py:212-225 | a missing header is an error; otherwise the result is the selection and sort at the headers' positions |
| ScenarioPreprocessor.SelectedBelow100 | deployment-package/scenario_preprocessor.py:217-224 | every returned row has Ach < 100, and the output is a sub-multiset of the rows |
| ScenarioPreprocessor.NonZeroTargetPreferred | deployment-package/scenario_preprocessor.py:217-220 | when some row has Target ≠ 0 and Ach < 100, no returned row has Target = 0 |
| ScenarioPreprocessor.FallbackKeepsAllBelow100 | deployment-package/scenario_preprocessor.py:220-221 | otherwise the fallback returns every row with Ach < 100 |
| ScenarioPreprocessor.SelectedSortedAndStable | deployment-package/scenario_preprocessor.py:224 | the output is ordered by (Ach, −Target, Est), and rows with equal keys keep their input order |
| ScenarioPreprocessor.WideRowsSucceed | deployment-package/scenario_preprocessor.py:217-224 | rows long enough for the three columns never raise |
| ScenarioPreprocessor.CleanHeaders | deployment-package/scenario_preprocessor.py:208 | each header with every NBSP replaced by a space; a non-string header is an error |
| ScenarioPreprocessor.FromContent | deployment-package/scenario_preprocessor.py:208-210 | the headers are what iterating the `headers` value gives, each cleaned, and none holds an NBSP; the rows are taken as they are; a missing part reads as [] |
| ScenarioPreprocessor.Iterate | deployment-package/scenario_preprocessor.py:208 | iterating a list gives its items, a string its characters as one-character strings, a dict each of its keys once; anything else is a TypeError |
| ScenarioPreprocessor.StringHeadersAreCharacters | deployment-package/scenario_preprocessor.py:208 | a string `headers` gives one header per character, an NBSP turned into a space |
| ScenarioPreprocessor.DictHeadersAreKeys | deployment-package/scenario_preprocessor.py:208 | a dict `headers` gives its keys as the headers, one each |
| ScenarioPreprocessor.ScalarHeadersRaise | deployment-package/scenario_preprocessor.py:208 | a number, boolean or null `headers` raises a TypeError |
| ScenarioPreprocessor.ParseLongform | deployment-package/scenario_preprocessor.py:198-210 | parse_longform with the JSON decoder as a parameter; its cases are stated by `EmptyMetaGivesNothing`, `InvalidMetaGivesNothing`, `LeadingBomIgnored` and `FromContent` |
| ScenarioPreprocessor.EmptyMetaGivesNothing | deployment-package/scenario_preprocessor.py:199-202 | empty content, "{}" or "[]" give ([], []) without decoding |
| ScenarioPreprocessor.InvalidMetaGivesNothing | deployment-package/scenario_preprocessor.py:203-207 | content the decoder rejects gives ([], []) |
| ScenarioPreprocessor.HeadersHaveNoNbsp | deployment-package/scenario_preprocessor.py:208 | no returned header contains an NBSP |
| ScenarioPreprocessor.LeadingBomIgnored | deployment-package/scenario_preprocessor.py:199 | a leading byte order mark does not change the result |
| Ranking.KeyOfOrder | deployment-package/scenario_preprocessor.py:224 | lower achievement first; at equal achievement the larger target; then the lower estimate |
| Ranking.StableSort | deployment-package/scenario_preprocessor.py:224 | `sorted` keeps the length and is a permutation of its input |
| Ranking.StableSortSorted | deployment-package/scenario_preprocessor.py:224 | the result is ordered by the key |
| Ranking.StableSortStable | deployment-package/scenario_preprocessor.py:224 | for each key, the elements with that key keep their input order |
| Ranking.InsertSorted | deployment-package/scenario_preprocessor.py:224 | inserting into a sorted sequence keeps it sorted |
| ActionRegistry.SafeDbCall | src/action_registry.py:34-40 | the call's value, or None when it raised |
| ActionRegistry.FailedCallReadsEmpty | src/action_registry.py:139-145 | a call that raised reads as {} after `or {}` |
| ActionRegistry.DeclaredFieldIgnoresDefault | src/action_registry.py:42-44 | on a fresh result a declared field reads None, never the default |
| ActionRegistry.AttrOr | src/action_registry.py:321 | `safe_get_attr(...) or dflt` is the attribute when truthy, else the default |
| ActionRegistry.Totals | src/action_registry.py:50-52 | one total per group, in ascending group order, each the sums of the three measures |
| ActionRegistry.TopNEmpty | src/action_registry.py:48-49 | an empty frame or a missing column gives [] |
| ActionRegistry.TopNPrefix | src/action_registry.py:53-58 | the top list is the first n of the ranking |
| ActionRegistry.TopNShape | src/action_registry.py:46-58 | at most n entries, one per distinct group, each with its own sums, ordered by (Ach asc, Target desc, Est asc) |
| ActionRegistry.TopNKeepsBest | src/action_registry.py:53-58 | every group left out ranks no better than every group kept |
| ActionRegistry.TopNComplete | src/action_registry.py:58 | with room for every group, every group is listed |
| ActionRegistry.TopNByGroup | src/action_registry.py:46-58 | _get_top_n_by_group; stated by `TopNEmpty`, `TopNShape`, `TopNKeepsBest` and `TopNComplete` |
| ActionRegistry.RankedDistinct | src/action_registry.py:51 | no group appears twice in the ranking |
| ActionRegistry.RankedAreTotals | src/action_registry.py:51-52 | every ranked entry is one group's totals |
| ActionRegistry.AccountPairsExactly | src/action_registry.py:64-70 | the set holds exactly the (cd, nm) pairs of the items' accounts |
| ActionRegistry.PairsOfExactly | src/action_registry.py:69-70 | one account list's pairs, or an error when some account is bad |
| ActionRegistry.AccountPairsErrSticks | src/action_registry.py:66-70 | a bad item anywhere makes the whole collection fail |
| ActionRegistry.CollectAccounts | src/action_registry.py:64-70 | the set-building loops compute `AccountPairs` |
| ActionRegistry.AccountRecordInjective | src/action_registry.py:71-73 | different pairs give different account records |
| ActionRegistry.AccountRecords | src/action_registry.py:71-73 | one record per pair without duplicates, and nothing else |
| ActionRegistry.SetAccountList | src/action_registry.py:63-77 | the try block: account_list becomes the distinct pairs, or [] when reading the sold-to data raised; no other attribute changes |
| ActionRegistry.GetAccountList | src/action_registry.py:61-79 | account_list is the distinct pairs, or [] on failure; then CUR is the user's currency, or an AttributeError when user_info has none, with account_list already written; other attributes are kept |
| ActionRegistry.SumIssue | src/action_registry.py:147-151 | the loop's total is the sum of `d.get(key, 0)` over all entries |
| ActionRegistry.IssueTotalRemove | src/action_registry.py:147-151 | the sum does not depend on the order the entries are visited in |
| ActionRegistry.MissingKeyCountsZero | src/action_registry.py:147-151 | entries lacking the key count 0 |
| ActionRegistry.IssueTotalAdd | src/action_registry.py:147-151 | a new entry adds its own count to the total |
| ActionRegistry.ClearIssues | src/action_registry.py:154-156 | the failure branch sets all five counts to None and nothing else |
| ActionRegistry.StoreIssueTotals | src/action_registry.py:147-151 | the success branch sets each count to its total and nothing else |
| ActionRegistry.IssueCounts | src/action_registry.py:145-151 | the aggregation succeeds exactly when the reply is a dict of dicts whose present counts are numbers, and then holds each entry's counts |
| ActionRegistry.FailedCallCountsZero | src/action_registry.py:139-145 | a call that raised or a falsy reply aggregates to no entries, so every total is 0 |
| ActionRegistry.NonDictReplyFails | src/action_registry.py:145-147 | a truthy reply that is not a dict makes the aggregation raise |
| ActionRegistry.BadCountFails | src/action_registry.py:147-151 | one count that is None or a string makes the aggregation raise, whatever the other entries hold |
| ActionRegistry.FetchOperationalIssues | src/action_registry.py:131-157 | with a date: today_date, then the five totals, or all five None when the aggregation raises; a failed or falsy call reads as {} and gives zeros; without a date all five become None |
| ActionRegistry.ModelsOf | src/action_registry.py:271-296 | iterating a model list: a list gives its items, a missing attribute the default [], "" and {} nothing; None or any other value raises |
| ActionRegistry.NamedMaterials | src/action_registry.py:270-273 | the non-empty stripped material codes in order; a non-dict model raises |
| ActionRegistry.StepsWriteOrderAttrs | src/action_registry.py:291-316 | the conversion loop writes exactly the ten names the defaults loop checks |
| ActionRegistry.DefaultsAddMissing | src/action_registry.py:312-316 | the defaults loop adds exactly the missing names, as [], and keeps the others |
| ActionRegistry.ConvertSteps | src/action_registry.py:291-308 | the loop over the ten lists computes `ApplySteps` |
| ActionRegistry.FillDefaults | src/action_registry.py:312-316 | the loop computes `ApplyDefaults` |
| ActionRegistry.ConvertModelsToOrderDetails | src/action_registry.py:257-317 | the attributes afterwards are `ConvertAttrs` of the old ones and the five replies |
| ActionRegistry.ConvertAttrs | src/action_registry.py:257-317 | the attributes convert_models_to_order_details leaves; stated by `StepsWriteOrderAttrs`, `DefaultsAddMissing`, `NoMaterialsNoChange` and `DetailsFollowMaterials` |
| ActionRegistry.NoMaterialsNoChange | src/action_registry.py:274-276 | with no material anywhere the result is unchanged and no call is needed |
| ActionRegistry.MissingIssuesCountZero | src/action_registry.py:298-306 | a material missing from the issue answer gets counts 0 |
| ActionRegistry.DetailNamesMaterial | src/action_registry.py:300-307 | a detail record names its material and holds the ten keys |
| ActionRegistry.DetailsFollowMaterials | src/action_registry.py:296-307 | one detail per model with a non-empty code, in order; empty codes are skipped |
| ActionRegistry.DefaultsNeverApply | src/action_registry.py:312-316 | every name the defaults loop checks is declared, so on a model result it never adds anything |
| ActionRegistry.BuildOPTR00 | src/action_registry.py:360-373 | exactly the eleven keys, each the attribute as it is, None when absent |
| ActionRegistry.SODE00Shape | src/action_registry.py:324-334 | exactly top5_accounts, CUR and three keys for each i in 1..5, falsy values defaulted to {} or [] |
| ActionRegistry.PGDE00Shape | src/action_registry.py:341-351 | exactly top5_prdgs, CUR and four keys for each i in 1..5, falsy values defaulted |
| ActionRegistry.MODE00Shape | src/action_registry.py:353-358 | exactly CUR and two converted lists for each i in 1..5 |
| ActionRegistry.PageShape | src/action_registry.py:329-334 | a page is its fixed keys plus the indexed entries, each key written once |
| ActionRegistry.BuildersIgnorePage | src/action_registry.py:375-400 | writing a page name changes no builder's result, so the order of writes in build_page does not matter |
| ActionRegistry.BuildPage | src/action_registry.py:375-401 | the attributes afterwards are `PageAttrs`: LAPA00, the account pages, the product pages, MODE00 and OPTR00 |
| ActionRegistry.PageAttrs | src/action_registry.py:375-400 | build_page on the attributes, with the LAPA00 page as a parameter; stated by `PageAttrsChain`, `BuildPagePairs` and `PagesPresentIff` |
| ActionRegistry.BuildPagePairs | src/action_registry.py:379-400 | SOSE00/SODE00 are built iff top5_accounts is truthy, else {}; PGSE00/PGDE00 iff top5_prdgs is; MODE00 iff either is; OPTR00 always, all from the attributes before build_page |
| ActionRegistry.PagesPresentIff | src/action_registry.py:379-400 | a built SOSE00, SODE00, PGSE00, PGDE00 or MODE00 page is never {}, so each page is {} iff its condition fails |
| ActionRegistry.PageAttrsChain | src/action_registry.py:377-400 | build_page is seven writes, each page computed from the result as it is at that point |
| Scheduler.SalesOrgRecordsShape | app/scheduler.py:30-42 | one record per id, in order: exactly sales_org_id, window_id, stage "sales_org_fetch" and created_at; one shared window id; no retry_count |
| Scheduler.AdaptiveCardRecordsShape | app/scheduler.py:45-57 | one record per user: user_id the first column (an empty row raises), the shared window id and stage "adaptive_card_generation" |
| Scheduler.XaddAll | app/scheduler.py:32-42 | the XADD loop computes `AddAll`, stopping at the first failure |
| Scheduler.Enqueue | app/scheduler.py:30-43 | the loop of XADDs then the logged XLEN: the store and result of `EnqueueSpec` |
| Scheduler.EnqueueSalesOrgJobs | app/scheduler.py:30-43 | computes one window id, then `EnqueueSpec` of the sales-org records |
| Scheduler.EnqueueAdaptiveCardJobs | app/scheduler.py:45-58 | computes one window id, then `EnqueueSpec` of the user records |
| Scheduler.AddAllUpTo | app/scheduler.py:32-42 | the stream gains exactly the good records before the first bad one, in order; other streams, groups and pending lists are unchanged |
| Scheduler.AddAllFault | app/scheduler.py:33 | a failing XADD raises at the first record and appends nothing |
| Scheduler.EnqueueSalesOrgAppends | app/scheduler.py:30-43 | without faults: Ok, and the queue gains exactly one record per id, in input order |
| Scheduler.EnqueueAdaptiveCardStops | app/scheduler.py:47-51 | a user row with no columns raises IndexError after the earlier users were enqueued |
| Scheduler.ClearQueues | app/scheduler.py:60-67 | the store afterwards is `ClearSpec`; no error escapes |
| Scheduler.ClearRemovesBoth | app/scheduler.py:62-64 | without faults both streams are gone and every other key is kept |
| Scheduler.ClearFirstFault | app/scheduler.py:63-67 | a failing first DEL is swallowed and leaves the store unchanged |
| Scheduler.ClearSecondFault | app/scheduler.py:64-67 | a failing second DEL leaves the first deletion done |
| Scheduler.Directory.constructor | app/scheduler.py:72 | the output directory holds exactly the given files |
| Scheduler.MatchingNames | app/scheduler.py:76 | the `{prefix}_*.csv` names in the directory, all of them, strictly sorted |
| Scheduler.MergePrefixInto | app/scheduler.py:76-94 | the loop appending to dfs and the write give `MergePrefix` |
| Scheduler.DoMergeAfterSalesOrg | app/scheduler.py:69-95 | the directory afterwards is `MergeAll` over Material then GSCM with one window id |
| Scheduler.OutputsDoNotMatch | app/scheduler.py:76-92 | the temporary and final names never match a prefix's input pattern |
| Scheduler.FramesNonEmptyIff | app/scheduler.py:81-88 | dfs is non-empty iff some matching file is readable |
| Scheduler.FramesAllReadable | app/scheduler.py:81-85 | when every file is readable, dfs holds one frame per file, in name order |
| Scheduler.MergePrefixWrites | app/scheduler.py:76-94 | with a readable match, `{prefix}.csv` becomes the rows of the readable files in sorted-name order, the temporary file is gone, and the other files are kept; with none, nothing changes |
| Scheduler.MergeKeepsInputs | app/scheduler.py:76-94 | merging a prefix keeps every input file of that prefix |
| Scheduler.GscmUnaffectedByMaterial | app/scheduler.py:75-94 | the Material merge changes no GSCM input, so GSCM merges the same files |
| Scheduler.RunAborts | app/scheduler.py:110-127 | the completed steps are a prefix of the plan; the run succeeds iff all complete; a failed run's state and error are those of its failing step |
| Scheduler.RunWorkerOnce | app/scheduler.py:97-105 | the child's effect is applied; a non-zero exit code raises CalledProcessError |
| Scheduler.SalesWorkerFailureAborts | app/scheduler.py:99-125 | a failing sales-org worker stops the run after fetch and enqueue: no merge and no second phase |
| Scheduler.OnceStepOn | app/scheduler.py:112-125 | one step against the host and directory is `OnceStep` |
| Scheduler.RunSteps | app/scheduler.py:116-125 | the steps in order, stopping at the first that raises, is `Run` |
| Scheduler.RunPipelineOnce | app/scheduler.py:110-127 | the run is `Run` over fetch → enqueue1 → worker1 → merge → enqueue2 → worker2, with no drain wait |
| ScalableScheduler.DefaultSettings | app/scalable_scheduler.py:33-36 | without the variables both counts are 3 |
| ScalableScheduler.SettingsOfNumbers | app/scalable_scheduler.py:34-36 | decimal values are taken as they are; the executor accepts them iff one is positive |
| ScalableScheduler.Settings | app/scalable_scheduler.py:33-36 | the two worker counts, or the ValueError of `int()` or of the executor; stated by `DefaultSettings` and `SettingsOfNumbers` |
| ScalableScheduler.ScalableScheduler.constructor | app/scalable_scheduler.py:33-36 | the worker counts are the parsed settings |
| ScalableScheduler.SalesOrgJobsShape | app/scalable_scheduler.py:38-52 | one record per id, in order: five keys with id, the shared window id, stage "sales_org_fetch" and retry_count "0", read by the retry layer as 0 |
| ScalableScheduler.AdaptiveCardJobsShape | app/scalable_scheduler.py:55-69 | user_id the first column (an empty row raises), the shared window id, stage "adaptive_card_generation" and retry_count "0" |
| ScalableScheduler.OneShotRetryCountZero | app/scheduler.py:35-40 | the one-shot records have no retry_count, which the retry layer also reads as 0 |
| ScalableScheduler.ScalableScheduler.EnqueueSalesOrgJobs | app/scalable_scheduler.py:38-53 | one window id, then `EnqueueSpec` of the records with retry_count |
| ScalableScheduler.ScalableScheduler.EnqueueAdaptiveCardJobs | app/scalable_scheduler.py:55-70 | one window id, then `EnqueueSpec` of the user records with retry_count |
| ScalableScheduler.FateTextInjective | app/scalable_scheduler.py:121-131 | different outcomes give different texts, the return code included |
| ScalableScheduler.RunSingleWorkerText | app/scalable_scheduler.py:105-131 | every result starts with `<name>: `, and the result determines the outcome |
| ScalableScheduler.WorkerNames | app/scalable_scheduler.py:85-89 | exactly max(worker_count, 0) names |
| ScalableScheduler.WorkerNamesDistinct | app/scalable_scheduler.py:85-91 | the i-th worker is "worker-{i+1}", and no two share a name |
| ScalableScheduler.BatchConsumersDistinct | app/scalable_scheduler.py:109 | with WORKER_NAME set per worker, the workers of a batch are different consumers |
| ScalableScheduler.Finished | app/scalable_scheduler.py:94-98 | at most as many workers finish as were started |
| ScalableScheduler.FinishedBounds | app/scalable_scheduler.py:95-98 | all workers finish iff none is still running |
| ScalableScheduler.ResultsCount | app/scalable_scheduler.py:95-99 | one logged result per finished worker |
| ScalableScheduler.BatchRaisesIff | app/scalable_scheduler.py:95 | the batch raises iff some worker is still running at the deadline; the message counts the unfinished workers |
| ScalableScheduler.ScalableScheduler.RunWorkerBatch | app/scalable_scheduler.py:72-103 | completed_count equals the number of finished workers, the results are theirs, and state and error are `BatchStep` |
| ScalableScheduler.WaitDrainedAtOnce | app/scalable_scheduler.py:138-145 | an empty queue with nothing pending is done at the first poll, without a sleep |
| ScalableScheduler.WaitTimesOut | app/scalable_scheduler.py:138-150 | otherwise every poll sees the same answer: the loop sleeps 5 s until the limit and returns False |
| ScalableScheduler.WaitRaises | app/scalable_scheduler.py:139-141 | a failing XLEN or XPENDING ends the wait at the first poll with that error |
| ScalableScheduler.DefaultPolls | app/scalable_scheduler.py:133-147 | with the default limit a non-empty queue is polled 360 times |
| ScalableScheduler.PollsCount | app/scalable_scheduler.py:138-147 | the number of polls is the remaining time divided by 5 s, rounded up |
| ScalableScheduler.EnqueuedQueueNeverDrains | app/scalable_scheduler.py:133-150 | after enqueuing any job, the wait sleeps 360 times and returns False |
| ScalableScheduler.ScalableScheduler.WaitForQueueCompletion | app/scalable_scheduler.py:133-150 | the polling loop's world and answer are `WaitSpec` |
| ScalableScheduler.WaitStepFailsOnlyOnRedisError | app/scalable_scheduler.py:173-184 | the pipeline ignores the wait's answer; only a failing first poll stops it |
| ScalableScheduler.WaitSpec | app/scalable_scheduler.py:133-150 | the polling loop; stated by `WaitDrainedAtOnce`, `WaitTimesOut`, `WaitRaises` and `PollsCount` |
| ScalableScheduler.WaitStepSleepsFully | app/scalable_scheduler.py:133-150 | as a pipeline step on a healthy queue that holds an entry, the wait sleeps 360 times five seconds and the run goes on |
| ScalableScheduler.SalesWaitSleepsFully | app/scalable_scheduler.py:167-176 | after the sales-org jobs are enqueued and a batch that keeps the queue's entries, the pipeline sleeps the full thirty minutes before the merge |
| ScalableScheduler.ScalableScheduler.DoMergeAfterSalesOrg | app/scalable_scheduler.py:152-155 | the one-shot scheduler's merge |
| ScalableScheduler.ScalableScheduler.CleanupQueues | app/scalable_scheduler.py:192-200 | the same two DELs as clear_queues, errors swallowed |
| ScalableScheduler.QueueStats | app/scalable_scheduler.py:202-216 | all zeros when any of the four reads fails; otherwise both lengths and pending counts |
| ScalableScheduler.StatsZeroWithoutGroup | app/scalable_scheduler.py:212-216 | before the adaptive-card group exists the stats are all zeros |
| ScalableScheduler.ScalableScheduler.StepOn | app/scalable_scheduler.py:163-184 | one phase against the host and directory is `ScalableStep` |
| ScalableScheduler.ScalableScheduler.RunSteps | app/scalable_scheduler.py:161-190 | the phases in order, stopping at the first that raises, is `Run` |
| ScalableScheduler.ScalableScheduler.RunScalablePipeline | app/scalable_scheduler.py:157-190 | the run is `Run` over fetch → enqueue1 → batch1 → wait1 → merge → enqueue2 → batch2 → wait2 |
| ScalableScheduler.BatchTimeoutAborts | app/scalable_scheduler.py:170-190 | a sales-org worker still running at the deadline ends the run after batch 1: no wait, no merge, no second phase |
| Text.NatToStringInjective | app/scalable_scheduler.py:89 | different naturals have different decimal texts |
| Text.IntToStringInjective | app/scalable_scheduler.py:128 | different integers have different texts |
| Text.ParseIntOfNatToString | deployment-package/retry_handler.py:142 | `int()` reads back the decimal text of n as n |
| Text.ParseIntUnsigned | deployment-package/retry_handler.py:142 | an unsigned text without surrounding whitespace is read as its value exactly when it is a numeral: digits, with single underscores between digits |
| Text.ParseIntUnderscore | deployment-package/retry_handler.py:142 | `int("1_0")` is 10 |
| Text.ParseIntRejectsUnderscores | deployment-package/retry_handler.py:142 | `int()` rejects "_1", "1_" and "1__0" |
| Text.PadInjective | deployment-package/window.py:15-16 | different naturals have different zero-padded texts, at any width |
| Text.PadIntInjective | deployment-package/window.py:15 | different integers have different zero-padded texts |
| Text.SortedStrings | app/scheduler.py:76 | `sorted` of a set of names: the same members, strictly ascending |

## Left out

- Network, connection set-up and the redis-py client are not modelled.
  Commands act on the in-memory `Redis.Store`, and a failing command is a
  (command, key) pair given in advance.
- The redis-py reply key names are abstracted. The summary XPENDING reply is
  read as the pending count, whichever of "count" or "pending" the code asks
  for. redis-py names that count "pending", so as written `.get("count", 0)`
  reads 0 at deployment-package/stream_monitor.py:20 and at
  app/scalable_scheduler.py:141, 208 and 212. As written, then:
  - the monitor never reports "processing";
  - the scalable wait and the monitor see only XLEN;
  - get_queue_stats always reports a pending count of 0.
  The model reads the real pending count in all of these places.
- MAXLEN=5000 approximate trimming is left out: XADD never trims.
- Entry ids are natural numbers (positions), not `<ms>-<seq>` text.
- Field order within a record is not modelled: records are maps.
- XREADGROUP's one-second block is not modelled: an empty read returns at once.
- Clocks are parameters:
  - time.time(), datetime.now() and time.gmtime() readings are inputs;
  - instants are integer microseconds;
  - the elapsed time of the scalable wait is the sum of its sleeps.
- Window: the Gregorian calendar is written out from day counts. It is
  correct by construction, not proved against Python's datetime.
- Sleep durations are integer milliseconds. base_delay=1.0 and max_delay=60.0
  become 1000 and 60000.
- The retry decorator's loop state is kept in a specification function. The
  dead `return False` and `raise last_exception` after the loops are never
  reached and are not modelled.
- Worker loops run on a fuel bound: a run that would go on forever is cut
  off after `fuel` rounds.
- The real work is an oracle; it is not modelled:
  - make_sales_org_pool_one and make_sales_org_total_pool_one;
  - execute_dair;
  - the DB save;
  - ORACLE fetches.
  Each call's outcome is taken from an input sequence.
- Worker processes, threads and timeouts are inputs, not modelled:
  - subprocess.run, ThreadPoolExecutor and as_completed;
  - a child process is an exit code plus its effect on the store and the
    directory;
  - a batch gives each worker a fate, or none when the worker is unfinished.
- ScalableScheduler.ScalableScheduler.RunWorkerBatch: the results are listed
  in worker order, because the completion order of as_completed is not
  modelled.
- Concurrent writers are not modelled: the store does not change while the
  scalable scheduler waits.
- ScalableScheduler.ScalableScheduler.constructor: requires settings that
  parse, because a constructor cannot return an error. The ValueError cases
  are stated by `Settings`.
- CSV files are modelled as sequences of rows of cells, or as unreadable.
  pandas header handling and column alignment in `concat` are not modelled.
- Temporary files and `os.replace` are modelled as renames in the
  directory map.
- JSON encoding and decoding are parameters: parse_longform takes the decoder
  as a function, and payloads are not serialised.
- Python `str()` of non-string values follows a simplified `repr`, without
  escaping.
- Sums of Target, Est and Ach are integers, not floats.
- ScenarioPreprocessor.FilterAndSortRows: every cell is an integer. So a
  float Ach or Target cell is not modelled. Neither is the None or string
  cell whose comparison with 100 (or whose negation) raises a TypeError in
  the source.
- ActionRegistry.FetchOperationalIssues: the counts are integers or
  booleans. A float count and its float sum are not modelled.
- ActionRegistry.AccountPairs: account codes and names are kept apart by
  their JSON form. Python's set puts `(1, "x")`, `(True, "x")` and
  `(1.0, "x")` in one element; the model keeps them as different pairs.
- ActionRegistry.AccountPairsExactly: its set of pairs keeps `1`, `True` and
  `1.0` apart, for the reason given on the `ActionRegistry.AccountPairs` line.
- Text.ParseInt: only ASCII digits are accepted. `int()` also reads the other
  Unicode decimal digits (Arabic-Indic, full-width and so on); the model
  rejects them.
- Text.ParseIntUnsigned: its iff holds for ASCII digits only; a numeral in
  other Unicode decimal digits is rejected here and read by `int()`.
- Retry.RetryCountDefault and Retry.ReadRetryCount: a retry_count written
  with non-ASCII decimal digits counts as 0 here, because `Text.ParseInt`
  rejects it. The source reads its value.
- ScalableScheduler.Settings: MAX_WORKERS values written with non-ASCII
  decimal digits are rejected here, for the same reason.
- ScenarioPreprocessor.FromContent: a dict `headers` gives its keys in code
  point order, not in the dict's insertion order, because the JSON objects
  of this model are maps.
- fetch_batched_order_amounts and process_sales_data are not part of this
  model. Neither is process_detailed_breakdowns.
- execute_scenario itself is not modelled: the CSV reads and the RDB set-up
  are I/O. Its steps are modelled one by one.
- ActionRegistry.BuildPage: build_LAPA00 is not defined or imported in
  src/action_registry.py (its imports are at :1-13). So, as written,
  build_page raises NameError at :377, before it writes any page. The except
  block of execute_scenario calls build_page again at :431, and that call
  raises too. So execute_scenario never returns a result, and work that runs
  it fails every attempt until the retry layer dead-letters the message
  (`Retry.ProcessExhausted`). The model gives build_page its intended meaning
  instead, with the LAPA00 page as the parameter `lapa`.
- ActionRegistry.PageAttrs is that intended build_page on the attributes; as
  written it is never reached.
- ActionRegistry.BuildPagePairs and ActionRegistry.PageAttrsChain describe
  build_page's pages under that intended meaning. As written, none of those
  pages is reached (see `ActionRegistry.BuildPage` above).
- ActionRegistry.PagesPresentIff and AdaptiveCardWorker.PagesAfterBuildPage
  likewise assume the intended build_page.
- AdaptiveCardWorker.PayloadAfterBuildPage states the payload's pages in
  terms of `ActionRegistry.PageAttrs`, so it too assumes the intended
  build_page; as written, build_page raises NameError at
  src/action_registry.py:377 and no such payload is built.
- AdaptiveCardWorker.ResultToJsonPayload and AdaptiveCardWorker.SavePagesJson
  model `_result_to_json_payload` and `_save_pages_json`, which
  app/worker_adaptive_card.py defines but never calls:
  `_process_adaptive_card_data` (:72-89) calls only execute_dair and the DB
  save. So no pages JSON file is ever written, and
  AdaptiveCardWorker.SavePagesName describes a write that never happens.
- ActionRegistry.ConvertModelsToOrderDetails: the four order replies and the
  issue reply are dicts here (`Replies`). The DB client is not part of this
  model, so a truthy reply that is not a dict is not modelled. In the source,
  its `.get` raises an AttributeError at src/action_registry.py:298 or :302,
  the except at :309 catches it, and the defaults loop runs.
- The local_time of a scenario result is modelled only as present or missing
  (`dated`); date formatting is not modelled.
- prepare_params_for_sales_org, calc_local_time, plan_execution, the APScheduler
  wiring and the `main()` functions are not modelled.
- The configuration module's environment lookups are not modelled; its
  defaults are constants.
- Log lines are not modelled.
