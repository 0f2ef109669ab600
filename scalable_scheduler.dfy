/** The scalable scheduler: the same two phases as the one-shot scheduler,
    but each phase starts a batch of worker processes that share the
    consumer group, then polls the queue until it drains or the wait runs
    out. Records carry retry_count "0". */
module ScalableScheduler {
  import opened Wrappers
  import opened Text
  import opened Redis
  import opened Runtime
  import opened Config
  import opened Window
  import opened Scheduler
  import Workers
  import SalesOrgWorker
  import AdaptiveCardWorker

  // ---- settings ----

  /** int(os.getenv(name, "3")): None when int() rejects the text. */
  function MaxWorkers(env: Option<string>): Option<int> {
    ParseInt(env.GetOr("3"))
  }

  /** Both counts parsed and ThreadPoolExecutor(max_workers=max(...)),
      which rejects a size below one. */
  function Settings(envSales: Option<string>, envAdaptive: Option<string>): Result<(int, int)> {
    var sales := MaxWorkers(envSales);
    var adaptive := MaxWorkers(envAdaptive);
    if sales.None? || adaptive.None? then Err("ValueError: invalid literal for int()")
    else if sales.value <= 0 && adaptive.value <= 0 then Err("ValueError: max_workers must be greater than 0")
    else Ok((sales.value, adaptive.value))
  }

  /** Without the variables both phases run three workers. */
  lemma DefaultSettings()
    ensures Settings(None, None) == Ok((3, 3))
  {
    ParseIntOfNatToString(3);
  }

  /** A count set to any decimal natural number is taken as it is, and the
      executor accepts it when one of the two counts is positive. */
  lemma SettingsOfNumbers(a: nat, b: nat)
    ensures Settings(Some(NatToString(a)), Some(NatToString(b))).Ok? <==> a > 0 || b > 0
    ensures a > 0 || b > 0 ==> Settings(Some(NatToString(a)), Some(NatToString(b))) == Ok((a, b))
  {
    ParseIntOfNatToString(a);
    ParseIntOfNatToString(b);
  }

  // ---- job records ----

  /** A one-shot record with the retry counter set to "0". */
  function WithRetryCount(r: Result<Fields>): Result<Fields> {
    if r.Ok? then Ok(r.value["retry_count" := "0"]) else r
  }

  function SalesOrgJobs(ids: seq<string>, windowId: string, stamps: nat -> string): seq<Result<Fields>> {
    var base := SalesOrgRecords(ids, windowId, stamps);
    seq(|base|, i requires 0 <= i < |base| => WithRetryCount(base[i]))
  }

  function AdaptiveCardJobs(users: seq<seq<string>>, windowId: string, stamps: nat -> string): seq<Result<Fields>> {
    var base := AdaptiveCardRecords(users, windowId, stamps);
    seq(|base|, i requires 0 <= i < |base| => WithRetryCount(base[i]))
  }

  /** The retry layer's reading of a record's retry count: int() of its
      retry_count field, "0" when it is missing. */
  function RetryCountField(f: Fields): Option<int> {
    ParseInt(if "retry_count" in f then f["retry_count"] else "0")
  }

  /** Each sales-org job is the one-shot record plus retry_count "0": five
      fields, the id at its position, the shared window id, the stage the
      sales-org worker accepts, and a retry count the retry layer reads as
      zero. */
  lemma SalesOrgJobsShape(ids: seq<string>, windowId: string, stamps: nat -> string)
    ensures |SalesOrgJobs(ids, windowId, stamps)| == |ids|
    ensures forall i :: 0 <= i < |ids| ==> SalesOrgJobs(ids, windowId, stamps)[i].Ok?
    ensures forall i :: 0 <= i < |ids| ==>
      var f := SalesOrgJobs(ids, windowId, stamps)[i].value;
      f.Keys == {"sales_org_id", "window_id", "stage", "created_at", "retry_count"}
      && f["sales_org_id"] == ids[i] && f["window_id"] == windowId && f["retry_count"] == "0"
      && Workers.StageMatches(f, SalesOrgWorker.STAGE) && RetryCountField(f) == Some(0)
  {
    SalesOrgRecordsShape(ids, windowId, stamps);
    forall i | 0 <= i < |ids|
      ensures SalesOrgJobs(ids, windowId, stamps)[i] == WithRetryCount(SalesOrgRecords(ids, windowId, stamps)[i])
    {
    }
    forall i | 0 <= i < |ids| {
      WithRetryCountFacts(SalesOrgRecords(ids, windowId, stamps)[i].value);
    }
  }

  /** Adding retry_count "0" to a record adds that one key, keeps every
      other field, and gives a count the retry layer reads as zero. */
  lemma WithRetryCountFacts(f: Fields)
    ensures WithRetryCount(Ok(f)).Ok?
    ensures var g := WithRetryCount(Ok(f)).value;
      g.Keys == f.Keys + {"retry_count"} && g["retry_count"] == "0"
      && (forall k :: k in f && k != "retry_count" ==> g[k] == f[k])
      && RetryCountField(g) == Some(0)
  {
    ParseIntZero();
  }

  /** Each user job holds the first column of its row (an empty row still
      raises), the shared window id, the adaptive-card stage and a zero
      retry count. */
  lemma AdaptiveCardJobsShape(users: seq<seq<string>>, windowId: string, stamps: nat -> string)
    ensures |AdaptiveCardJobs(users, windowId, stamps)| == |users|
    ensures forall i :: 0 <= i < |users| ==>
      (AdaptiveCardJobs(users, windowId, stamps)[i].Ok? <==> users[i] != [])
    ensures forall i :: 0 <= i < |users| && users[i] != [] ==>
      var f := AdaptiveCardJobs(users, windowId, stamps)[i].value;
      f.Keys == {"user_id", "window_id", "stage", "created_at", "retry_count"}
      && f["user_id"] == users[i][0] && f["window_id"] == windowId && f["retry_count"] == "0"
      && Workers.StageMatches(f, AdaptiveCardWorker.STAGE) && RetryCountField(f) == Some(0)
  {
    AdaptiveCardRecordsShape(users, windowId, stamps);
    forall i | 0 <= i < |users|
      ensures AdaptiveCardJobs(users, windowId, stamps)[i] == WithRetryCount(AdaptiveCardRecords(users, windowId, stamps)[i])
    {
    }
    forall i | 0 <= i < |users| && users[i] != [] {
      WithRetryCountFacts(AdaptiveCardRecords(users, windowId, stamps)[i].value);
    }
  }

  /** The one-shot records have no retry_count, which the retry layer reads
      as zero as well: both schedulers start every job at zero. */
  lemma OneShotRetryCountZero(ids: seq<string>, windowId: string, stamps: nat -> string)
    ensures forall i :: 0 <= i < |ids| ==> RetryCountField(SalesOrgRecords(ids, windowId, stamps)[i].value) == Some(0)
  {
    SalesOrgRecordsShape(ids, windowId, stamps);
    ParseIntZero();
  }

  // ---- _run_single_worker ----

  /** How a worker process ends: normally, killed at its 30-minute
      timeout, with a non-zero exit code, or by any other exception. */
  datatype Fate = Success | Timeout | Failed(returnCode: int) | Exception

  function FateText(f: Fate): string {
    match f
    case Success => "SUCCESS"
    case Timeout => "TIMEOUT"
    case Failed(rc) => "FAILED (" + IntToString(rc) + ")"
    case Exception => "EXCEPTION"
  }

  /** _run_single_worker: every outcome becomes a string; nothing raises. */
  function RunSingleWorker(name: string, f: Fate): string {
    name + ": " + FateText(f)
  }

  /** Different outcomes give different texts, so the text names the
      outcome, the return code included. */
  lemma FateTextInjective(f1: Fate, f2: Fate)
    requires FateText(f1) == FateText(f2)
    ensures f1 == f2
  {
    var t := FateText(f1);
    assert t[0] == (match f1 case Success => 'S' case Timeout => 'T' case Failed(_) => 'F' case Exception => 'E');
    assert t[0] == (match f2 case Success => 'S' case Timeout => 'T' case Failed(_) => 'F' case Exception => 'E');
    if f1.Failed? && f2.Failed? {
      var a, b := IntToString(f1.returnCode), IntToString(f2.returnCode);
      assert a == t[8..|t| - 1];
      assert b == FateText(f2)[8..|FateText(f2)| - 1];
      IntToStringInjective(f1.returnCode, f2.returnCode);
    }
  }

  /** The result of a worker starts with its name and then names its
      outcome. */
  lemma RunSingleWorkerText(name: string, f1: Fate, f2: Fate)
    ensures RunSingleWorker(name, f1)[..|name| + 2] == name + ": "
    ensures RunSingleWorker(name, f1) == RunSingleWorker(name, f2) <==> f1 == f2
  {
    if RunSingleWorker(name, f1) == RunSingleWorker(name, f2) {
      assert FateText(f1) == RunSingleWorker(name, f1)[|name| + 2..];
      assert FateText(f2) == RunSingleWorker(name, f2)[|name| + 2..];
      FateTextInjective(f1, f2);
    }
  }

  // ---- run_worker_batch ----

  /** The worker names "worker-1" .. "worker-N"; range() of a negative
      count is empty. */
  function WorkerNames(n: int): (r: seq<string>)
    ensures |r| == if n < 0 then 0 else n
  {
    if n <= 0 then [] else WorkerNames(n - 1) + ["worker-" + NatToString(n)]
  }

  /** The i-th worker is "worker-{i+1}", and no two share a name. */
  lemma {:induction false} WorkerNamesDistinct(n: int)
    ensures forall i :: 0 <= i < |WorkerNames(n)| ==> WorkerNames(n)[i] == "worker-" + NatToString(i + 1)
    ensures forall i, j :: 0 <= i < j < |WorkerNames(n)| ==> WorkerNames(n)[i] != WorkerNames(n)[j]
    decreases if n < 0 then 0 else n
  {
    if n > 0 {
      WorkerNamesDistinct(n - 1);
      var names := WorkerNames(n);
      forall i, j | 0 <= i < j < |names| ensures names[i] != names[j] {
        var a, b := NatToString(i + 1), NatToString(j + 1);
        if names[i] == names[j] {
          assert names[i][7..] == a && names[j][7..] == b;
          NatToStringInjective(i + 1, j + 1);
        }
      }
    }
  }

  /** Each worker process takes its WORKER_NAME as its consumer name, so
      the workers of a batch read as different consumers of the group,
      whatever host and process ids they run under. */
  lemma BatchConsumersDistinct(n: int, hostname: string, pids: nat -> nat)
    ensures forall i, j :: 0 <= i < j < |WorkerNames(n)| ==>
      SalesOrgWorker.ConsumerName(Some(WorkerNames(n)[i]), hostname, pids(i))
        != SalesOrgWorker.ConsumerName(Some(WorkerNames(n)[j]), hostname, pids(j))
    ensures forall i, j :: 0 <= i < j < |WorkerNames(n)| ==>
      AdaptiveCardWorker.ConsumerName(Some(WorkerNames(n)[i]), hostname, pids(i))
        != AdaptiveCardWorker.ConsumerName(Some(WorkerNames(n)[j]), hostname, pids(j))
  {
    WorkerNamesDistinct(n);
  }

  /** A batch: the fate of each worker that finished before the batch
      timeout (None for one still running), and the store and directory the
      processes leave. */
  datatype Batch = Batch(fates: nat -> Option<Fate>, effect: (Store, Files) -> (Store, Files))

  /** The number of the first n workers that finished. */
  function Finished(fates: nat -> Option<Fate>, n: nat): (r: nat)
    ensures r <= n
  {
    if n == 0 then 0 else Finished(fates, n - 1) + (if fates(n - 1).Some? then 1 else 0)
  }

  /** The results logged for the first n workers that finished, in worker
      order. */
  function Results(names: seq<string>, fates: nat -> Option<Fate>, n: nat): seq<string>
    requires n <= |names|
  {
    if n == 0 then []
    else Results(names, fates, n - 1) + (if fates(n - 1).Some? then [RunSingleWorker(names[n - 1], fates(n - 1).value)] else [])
  }

  /** as_completed's TimeoutError. */
  function TimeoutText(unfinished: nat, total: nat): string {
    "TimeoutError: " + NatToString(unfinished) + " (of " + NatToString(total) + ") futures unfinished"
  }

  /** What run_worker_batch leaves and raises: the processes' effect, and a
      TimeoutError when some worker had not finished by the deadline. */
  function BatchStep(sys: Sys, count: int, b: Batch): (Sys, Result<()>) {
    var n := |WorkerNames(count)|;
    var (s, f) := b.effect(sys.world.store, sys.files);
    (Sys(sys.world.WithStore(s), f),
     if Finished(b.fates, n) == n then Ok(()) else Err(TimeoutText(n - Finished(b.fates, n), n)))
  }

  /** All of the workers finish exactly when none is left running. */
  lemma {:induction false} FinishedBounds(fates: nat -> Option<Fate>, n: nat)
    ensures Finished(fates, n) == n <==> forall i :: 0 <= i < n ==> fates(i).Some?
  {
    if n > 0 {
      FinishedBounds(fates, n - 1);
    }
  }

  /** One result per finished worker, each led by that worker's name. */
  lemma {:induction false} ResultsCount(names: seq<string>, fates: nat -> Option<Fate>, n: nat)
    requires n <= |names|
    ensures |Results(names, fates, n)| == Finished(fates, n)
  {
    if n > 0 {
      ResultsCount(names, fates, n - 1);
    }
  }

  /** The batch raises exactly when some worker is still running at the
      deadline; the message counts those workers. */
  lemma BatchRaisesIff(sys: Sys, count: int, b: Batch)
    ensures var n := |WorkerNames(count)|;
      (BatchStep(sys, count, b).1.Err? <==> exists i :: 0 <= i < n && b.fates(i).None?)
      && (BatchStep(sys, count, b).1.Err? ==> BatchStep(sys, count, b).1.error == TimeoutText(n - Finished(b.fates, n), n))
  {
    FinishedBounds(b.fates, |WorkerNames(count)|);
  }

  // ---- wait_for_queue_completion ----

  /** time.sleep(5) between polls, in milliseconds. */
  const POLL_MS: nat := 5000
  /** max_wait_seconds=1800, in milliseconds. */
  const MAX_WAIT_MS: nat := 1_800_000

  /** The polling loop from `elapsed` on: XLEN and XPENDING, either of which
      may raise; done when both are zero; otherwise sleep and poll again
      while the elapsed time is below the limit. The elapsed time is the
      sleeps taken. */
  function WaitSpec(w: World, queue: string, group: string, elapsed: nat, maxWait: nat): (World, Result<bool>)
    decreases maxWait - elapsed
  {
    if elapsed >= maxWait then (w, Ok(false))
    else
      var len := w.store.Length(queue);
      var pend := w.store.PendingCount(queue, group);
      if len.Err? then (w, Err(len.error))
      else if pend.Err? then (w, Err(pend.error))
      else if len.value == 0 && pend.value == 0 then (w, Ok(true))
      else WaitSpec(w.Sleep(POLL_MS), queue, group, elapsed + POLL_MS, maxWait)
  }

  /** The number of polls that sleep before the limit is reached. */
  function Polls(elapsed: nat, maxWait: nat): nat
    decreases maxWait - elapsed
  {
    if elapsed >= maxWait then 0 else 1 + Polls(elapsed + POLL_MS, maxWait)
  }

  function Sleeps(k: nat): seq<nat> {
    seq(k, _ => POLL_MS)
  }

  /** A queue that is empty with nothing pending is reported done at the
      first poll, without a sleep. */
  lemma WaitDrainedAtOnce(w: World, queue: string, group: string, maxWait: nat)
    requires maxWait > 0
    requires w.store.Length(queue) == Ok(0) && w.store.PendingCount(queue, group) == Ok(0)
    ensures WaitSpec(w, queue, group, 0, maxWait) == (w, Ok(true))
  {
  }

  /** Otherwise, since nothing else changes the store while the scheduler
      waits, every poll sees the same answer: the loop sleeps until the
      limit and reports a timeout. */
  lemma {:induction false} WaitTimesOut(w: World, queue: string, group: string, elapsed: nat, maxWait: nat)
    requires w.store.Length(queue).Ok? && w.store.PendingCount(queue, group).Ok?
    requires w.store.Length(queue).value > 0 || w.store.PendingCount(queue, group).value > 0
    ensures WaitSpec(w, queue, group, elapsed, maxWait) == (w.(sleeps := w.sleeps + Sleeps(Polls(elapsed, maxWait))), Ok(false))
    decreases maxWait - elapsed
  {
    if elapsed >= maxWait {
      assert w.sleeps + Sleeps(0) == w.sleeps;
    } else {
      var w1 := w.Sleep(POLL_MS);
      WaitTimesOut(w1, queue, group, elapsed + POLL_MS, maxWait);
      var k := Polls(elapsed + POLL_MS, maxWait);
      assert w1.sleeps + Sleeps(k) == w.sleeps + Sleeps(k + 1);
    }
  }

  /** A failing XLEN, or a failing XPENDING (a missing group), ends the wait
      at the first poll with that error. */
  lemma WaitRaises(w: World, queue: string, group: string, maxWait: nat)
    requires maxWait > 0
    requires w.store.Length(queue).Err? || w.store.PendingCount(queue, group).Err?
    ensures WaitSpec(w, queue, group, 0, maxWait).0 == w
    ensures WaitSpec(w, queue, group, 0, maxWait).1
      == Err(if w.store.Length(queue).Err? then w.store.Length(queue).error else w.store.PendingCount(queue, group).error)
  {
  }

  /** With the default limit a non-empty queue is polled 360 times, five
      seconds apart: the full thirty minutes. */
  lemma DefaultPolls()
    ensures Polls(0, MAX_WAIT_MS) == 360
  {
    PollsCount(0, MAX_WAIT_MS);
  }

  /** Polls is the number of sleeps that fit, rounded up. */
  lemma {:induction false} PollsCount(elapsed: nat, maxWait: nat)
    ensures Polls(elapsed, maxWait) == if elapsed >= maxWait then 0 else (maxWait - elapsed + POLL_MS - 1) / POLL_MS
    decreases maxWait - elapsed
  {
    if elapsed < maxWait {
      PollsCount(elapsed + POLL_MS, maxWait);
    }
  }

  /** XACK never shortens a stream, so once a phase has enqueued a job its
      queue never reads as empty again: whatever the workers acknowledge,
      the wait sleeps the whole thirty minutes and reports a timeout. */
  lemma EnqueuedQueueNeverDrains(s: Store, ids: seq<string>, windowId: string, stamps: nat -> string, calls: nat, sleeps: seq<nat>)
    requires ids != []
    requires !s.Fails(XAdd, SALES_ORG_QUEUE) && !s.Fails(XLen, SALES_ORG_QUEUE) && !s.Fails(XPending, SALES_ORG_QUEUE)
    requires s.HasGroup(SALES_ORG_QUEUE, SALES_ORG_GROUP)
    ensures var s' := EnqueueSpec(s, SALES_ORG_QUEUE, SalesOrgJobs(ids, windowId, stamps)).0;
      WaitSpec(World(s', calls, sleeps), SALES_ORG_QUEUE, SALES_ORG_GROUP, 0, MAX_WAIT_MS)
        == (World(s', calls, sleeps + Sleeps(360)), Ok(false))
  {
    var recs := SalesOrgJobs(ids, windowId, stamps);
    SalesOrgJobsShape(ids, windowId, stamps);
    AddAllUpTo(s, SALES_ORG_QUEUE, recs, |recs|);
    var s' := EnqueueSpec(s, SALES_ORG_QUEUE, recs).0;
    assert |s'.Entries(SALES_ORG_QUEUE)| >= |recs| > 0;
    WaitTimesOut(World(s', calls, sleeps), SALES_ORG_QUEUE, SALES_ORG_GROUP, 0, MAX_WAIT_MS);
    DefaultPolls();
  }

  /** The wait step of the pipeline: its answer is dropped; only an error
      from Redis ends the pipeline. */
  function WaitStep(sys: Sys, queue: string, group: string): (Sys, Result<()>) {
    var (w, r) := WaitSpec(sys.world, queue, group, 0, MAX_WAIT_MS);
    (sys.(world := w), if r.Err? then Err(r.error) else Ok(()))
  }

  /** The wait step fails exactly when the first poll fails; a timed-out
      wait lets the pipeline go on. */
  lemma WaitStepFailsOnlyOnRedisError(sys: Sys, queue: string, group: string)
    ensures WaitStep(sys, queue, group).1.Err?
      <==> sys.world.store.Length(queue).Err? || sys.world.store.PendingCount(queue, group).Err?
  {
    var w := sys.world;
    if w.store.Length(queue).Err? || w.store.PendingCount(queue, group).Err? {
      WaitRaises(w, queue, group, MAX_WAIT_MS);
    } else if w.store.Length(queue).value > 0 || w.store.PendingCount(queue, group).value > 0 {
      WaitTimesOut(w, queue, group, 0, MAX_WAIT_MS);
    }
  }

  /** The wait as a pipeline step on a queue that holds an entry: thirty
      minutes of five-second sleeps, then the pipeline goes on. */
  lemma WaitStepSleepsFully(sys: Sys, queue: string, group: string)
    requires |sys.world.store.Entries(queue)| > 0
    requires !sys.world.store.Fails(XLen, queue) && !sys.world.store.Fails(XPending, queue)
    requires sys.world.store.HasGroup(queue, group)
    ensures WaitStep(sys, queue, group) == (sys.(world := sys.world.(sleeps := sys.world.sleeps + Sleeps(360))), Ok(()))
  {
    WaitTimesOut(sys.world, queue, group, 0, MAX_WAIT_MS);
    DefaultPolls();
  }

  // ---- get_queue_stats ----

  datatype QueueStat = QueueStat(length: nat, pending: nat)

  /** XLEN and XPENDING of both queues; any failure gives all zeros. */
  function QueueStats(s: Store): (r: (QueueStat, QueueStat))
    ensures (s.Length(SALES_ORG_QUEUE).Err? || s.PendingCount(SALES_ORG_QUEUE, SALES_ORG_GROUP).Err?
             || s.Length(ADAPTIVE_CARD_QUEUE).Err? || s.PendingCount(ADAPTIVE_CARD_QUEUE, ADAPTIVE_CARD_GROUP).Err?)
      ==> r == (QueueStat(0, 0), QueueStat(0, 0))
    ensures !(s.Length(SALES_ORG_QUEUE).Err? || s.PendingCount(SALES_ORG_QUEUE, SALES_ORG_GROUP).Err?
             || s.Length(ADAPTIVE_CARD_QUEUE).Err? || s.PendingCount(ADAPTIVE_CARD_QUEUE, ADAPTIVE_CARD_GROUP).Err?)
      ==> r == (QueueStat(|s.Entries(SALES_ORG_QUEUE)|, |s.Pending(SALES_ORG_QUEUE, SALES_ORG_GROUP)|),
                QueueStat(|s.Entries(ADAPTIVE_CARD_QUEUE)|, |s.Pending(ADAPTIVE_CARD_QUEUE, ADAPTIVE_CARD_GROUP)|))
  {
    var l1 := s.Length(SALES_ORG_QUEUE);
    var p1 := s.PendingCount(SALES_ORG_QUEUE, SALES_ORG_GROUP);
    var l2 := s.Length(ADAPTIVE_CARD_QUEUE);
    var p2 := s.PendingCount(ADAPTIVE_CARD_QUEUE, ADAPTIVE_CARD_GROUP);
    if l1.Err? || p1.Err? || l2.Err? || p2.Err? then (QueueStat(0, 0), QueueStat(0, 0))
    else (QueueStat(l1.value, p1.value), QueueStat(l2.value, p2.value))
  }

  /** Before the adaptive-card workers have created their group the stats
      read all zeros, even for a sales-org queue full of jobs. */
  lemma StatsZeroWithoutGroup(s: Store)
    requires !s.HasGroup(ADAPTIVE_CARD_QUEUE, ADAPTIVE_CARD_GROUP)
    ensures QueueStats(s) == (QueueStat(0, 0), QueueStat(0, 0))
  {
  }

  // ---- run_scalable_pipeline ----

  datatype Step = Fetch | EnqueueSalesOrg | RunSalesOrgBatch | WaitSalesOrg | Merge
                | EnqueueAdaptiveCard | RunAdaptiveCardBatch | WaitAdaptiveCard

  /** The phases of run_scalable_pipeline, in order. */
  const SCALABLE_ORDER: seq<Step> :=
    [Step.Fetch, Step.EnqueueSalesOrg, RunSalesOrgBatch, WaitSalesOrg, Step.Merge, Step.EnqueueAdaptiveCard, RunAdaptiveCardBatch, WaitAdaptiveCard]

  /** What a run is given: the two fetched lists, the clock readings and the
      two batches. */
  datatype Inputs = Inputs(salesOrgIds: Result<seq<string>>, userIds: Result<seq<seq<string>>>, clocks: Clocks,
                           salesBatch: Batch, adaptiveBatch: Batch)

  function SalesOrgJobsStep(sys: Sys, ids: Result<seq<string>>, c: Clocks): (Sys, Result<()>) {
    EnqueueStep(sys, SALES_ORG_QUEUE, SalesOrgJobs(GetOr(ids, []), WindowOf(c.salesWindow), c.salesStamps))
  }

  function AdaptiveCardJobsStep(sys: Sys, users: Result<seq<seq<string>>>, c: Clocks): (Sys, Result<()>) {
    EnqueueStep(sys, ADAPTIVE_CARD_QUEUE, AdaptiveCardJobs(GetOr(users, []), WindowOf(c.userWindow), c.userStamps))
  }

  /** One phase; the except block logs the error and raises it again, so an
      error leaves the pipeline as it is. */
  function ScalableStep(inp: Inputs, maxSales: int, maxAdaptive: int, st: Step, sys: Sys): (Sys, Result<()>) {
    match st
    case Fetch => (sys, FetchSpec(inp.salesOrgIds, inp.userIds))
    case EnqueueSalesOrg => SalesOrgJobsStep(sys, inp.salesOrgIds, inp.clocks)
    case RunSalesOrgBatch => BatchStep(sys, maxSales, inp.salesBatch)
    case WaitSalesOrg => WaitStep(sys, SALES_ORG_QUEUE, SALES_ORG_GROUP)
    case Merge => MergeStep(sys, inp.clocks)
    case EnqueueAdaptiveCard => AdaptiveCardJobsStep(sys, inp.userIds, inp.clocks)
    case RunAdaptiveCardBatch => BatchStep(sys, maxAdaptive, inp.adaptiveBatch)
    case WaitAdaptiveCard => WaitStep(sys, ADAPTIVE_CARD_QUEUE, ADAPTIVE_CARD_GROUP)
  }

  function ScalableStepFn(inp: Inputs, maxSales: int, maxAdaptive: int): (Step, Sys) -> (Sys, Result<()>) {
    (st, sys) => ScalableStep(inp, maxSales, maxAdaptive, st, sys)
  }

  /** as_completed's TimeoutError is not caught inside run_worker_batch and
      the pipeline raises it again: a sales-org worker still running at the
      deadline ends the run after the batch, so neither the wait, the merge
      nor the adaptive-card phase happens. */
  lemma BatchTimeoutAborts(sys: Sys, inp: Inputs, maxSales: int, maxAdaptive: int)
    requires FetchSpec(inp.salesOrgIds, inp.userIds).Ok?
    requires SalesOrgJobsStep(sys, inp.salesOrgIds, inp.clocks).1.Ok?
    requires exists i :: 0 <= i < |WorkerNames(maxSales)| && inp.salesBatch.fates(i).None?
    ensures var s1 := SalesOrgJobsStep(sys, inp.salesOrgIds, inp.clocks).0;
      var (s, done, r) := Run(sys, SCALABLE_ORDER, ScalableStepFn(inp, maxSales, maxAdaptive));
      done == [Step.Fetch, Step.EnqueueSalesOrg] && r.Err?
      && (s, r) == BatchStep(s1, maxSales, inp.salesBatch)
  {
    var f := ScalableStepFn(inp, maxSales, maxAdaptive);
    var steps := SCALABLE_ORDER;
    var s1 := SalesOrgJobsStep(sys, inp.salesOrgIds, inp.clocks).0;
    BatchRaisesIff(s1, maxSales, inp.salesBatch);
    assert f(steps[0], sys) == (sys, Ok(()));
    RunOk(sys, steps, f);
    assert steps[1..][0] == Step.EnqueueSalesOrg;
    RunOk(sys, steps[1..], f);
    assert steps[1..][1..] == steps[2..];
    assert steps[2..][0] == RunSalesOrgBatch;
    RunErr(s1, steps[2..], f);
    PrependTwice([steps[0]], [steps[1]], Run(s1, steps[2..], f));
    assert [steps[0]] + [steps[1]] + [] == [Step.Fetch, Step.EnqueueSalesOrg];
  }

  /** At pipeline level: once sales-org jobs are enqueued, a batch whose
      processes finish and keep the queue's entries (XACK and XCLAIM do) is
      followed by a wait that sleeps the full thirty minutes, after which
      the run goes on with the merge. */
  lemma SalesWaitSleepsFully(sys: Sys, inp: Inputs, maxSales: int, maxAdaptive: int)
    requires inp.salesOrgIds.Ok? && inp.salesOrgIds.value != [] && inp.userIds.Ok?
    requires !sys.world.store.Fails(XAdd, SALES_ORG_QUEUE) && !sys.world.store.Fails(XLen, SALES_ORG_QUEUE)
    requires var s1 := SalesOrgJobsStep(sys, inp.salesOrgIds, inp.clocks).0;
      var s2 := BatchStep(s1, maxSales, inp.salesBatch).0.world.store;
      && |s2.Entries(SALES_ORG_QUEUE)| >= |s1.world.store.Entries(SALES_ORG_QUEUE)|
      && !s2.Fails(XLen, SALES_ORG_QUEUE) && !s2.Fails(XPending, SALES_ORG_QUEUE)
      && s2.HasGroup(SALES_ORG_QUEUE, SALES_ORG_GROUP)
    requires forall i :: 0 <= i < |WorkerNames(maxSales)| ==> inp.salesBatch.fates(i).Some?
    ensures var s1 := SalesOrgJobsStep(sys, inp.salesOrgIds, inp.clocks).0;
      var s2 := BatchStep(s1, maxSales, inp.salesBatch).0;
      var s3 := s2.(world := s2.world.(sleeps := s2.world.sleeps + Sleeps(360)));
      Run(sys, SCALABLE_ORDER, ScalableStepFn(inp, maxSales, maxAdaptive))
        == Prepend(SCALABLE_ORDER[..4], Run(s3, SCALABLE_ORDER[4..], ScalableStepFn(inp, maxSales, maxAdaptive)))
  {
    var f := ScalableStepFn(inp, maxSales, maxAdaptive);
    var steps := SCALABLE_ORDER;
    SalesEnqueueFills(sys, inp.salesOrgIds.value, inp.clocks);
    var s1 := SalesOrgJobsStep(sys, inp.salesOrgIds, inp.clocks).0;
    var s2 := BatchStep(s1, maxSales, inp.salesBatch).0;
    BatchRaisesIff(s1, maxSales, inp.salesBatch);
    WaitStepSleepsFully(s2, SALES_ORG_QUEUE, SALES_ORG_GROUP);
    var s3 := s2.(world := s2.world.(sleeps := s2.world.sleeps + Sleeps(360)));
    SalesPhaseSteps(inp, maxSales, maxAdaptive, sys, s1, s2);
    RunFour(sys, s1, s2, s3, steps, f);
  }

  /** The first four phases of the plan, as steps. */
  lemma SalesPhaseSteps(inp: Inputs, maxSales: int, maxAdaptive: int, sys: Sys, s1: Sys, s2: Sys)
    requires inp.salesOrgIds.Ok? && inp.userIds.Ok?
    ensures var f, steps := ScalableStepFn(inp, maxSales, maxAdaptive), SCALABLE_ORDER;
      && f(steps[0], sys) == (sys, Ok(()))
      && f(steps[1], sys) == SalesOrgJobsStep(sys, inp.salesOrgIds, inp.clocks)
      && f(steps[2], s1) == BatchStep(s1, maxSales, inp.salesBatch)
      && f(steps[3], s2) == WaitStep(s2, SALES_ORG_QUEUE, SALES_ORG_GROUP)
      && steps[..4] == [steps[0]] + [steps[1]] + [steps[2]] + [steps[3]]
  {
    var f, steps := ScalableStepFn(inp, maxSales, maxAdaptive), SCALABLE_ORDER;
    assert steps[3] == WaitSalesOrg;
    WaitPhaseStep(inp, maxSales, maxAdaptive, s2);
  }

  lemma WaitPhaseStep(inp: Inputs, maxSales: int, maxAdaptive: int, sys: Sys)
    ensures ScalableStep(inp, maxSales, maxAdaptive, WaitSalesOrg, sys) == WaitStep(sys, SALES_ORG_QUEUE, SALES_ORG_GROUP)
  {
  }

  /** Enqueueing a non-empty list of sales-org jobs on a healthy queue
      succeeds and leaves the queue holding entries. */
  lemma SalesEnqueueFills(sys: Sys, ids: seq<string>, c: Clocks)
    requires ids != []
    requires !sys.world.store.Fails(XAdd, SALES_ORG_QUEUE) && !sys.world.store.Fails(XLen, SALES_ORG_QUEUE)
    ensures var (s1, r) := SalesOrgJobsStep(sys, Ok(ids), c);
      r.Ok? && |s1.world.store.Entries(SALES_ORG_QUEUE)| >= |ids|
  {
    var recs := SalesOrgJobs(ids, WindowOf(c.salesWindow), c.salesStamps);
    SalesOrgJobsShape(ids, WindowOf(c.salesWindow), c.salesStamps);
    AddAllUpTo(sys.world.store, SALES_ORG_QUEUE, recs, |recs|);
  }

  /** Four steps that succeed, one after the other. */
  lemma RunFour(sys: Sys, s1: Sys, s2: Sys, s3: Sys, steps: seq<Step>, f: (Step, Sys) -> (Sys, Result<()>))
    requires |steps| >= 4
    requires f(steps[0], sys) == (sys, Ok(())) && f(steps[1], sys).1.Ok? && f(steps[1], sys).0 == s1
    requires f(steps[2], s1).1.Ok? && f(steps[2], s1).0 == s2
    requires f(steps[3], s2) == (s3, Ok(()))
    ensures Run(sys, steps, f) == Prepend([steps[0]] + [steps[1]] + [steps[2]] + [steps[3]], Run(s3, steps[4..], f))
  {
    RunOk(sys, steps, f);
    RunOk(sys, steps[1..], f);
    RunOk(s1, steps[2..], f);
    RunOk(s2, steps[3..], f);
    assert steps[1..][1..] == steps[2..] && steps[2..][1..] == steps[3..] && steps[3..][1..] == steps[4..];
    PrependTwice([steps[2]], [steps[3]], Run(s3, steps[4..], f));
    PrependTwice([steps[1]], [steps[2]] + [steps[3]], Run(s3, steps[4..], f));
    PrependTwice([steps[0]], [steps[1]] + ([steps[2]] + [steps[3]]), Run(s3, steps[4..], f));
    assert [steps[0]] + ([steps[1]] + ([steps[2]] + [steps[3]])) == [steps[0]] + [steps[1]] + [steps[2]] + [steps[3]];
  }

  /** The scheduler: its worker counts, the Redis connection and the CSV
      output directory. */
  class ScalableScheduler {
    const host: Host
    const dir: Directory
    const maxWorkersSales: int
    const maxWorkersAdaptive: int

    /** __init__ with MAX_WORKERS_SALES and MAX_WORKERS_ADAPTIVE as read
        from the environment; the settings that raise are Settings' errors. */
    constructor (host: Host, dir: Directory, envSales: Option<string>, envAdaptive: Option<string>)
      requires Settings(envSales, envAdaptive).Ok?
      ensures this.host == host && this.dir == dir
      ensures (maxWorkersSales, maxWorkersAdaptive) == Settings(envSales, envAdaptive).value
    {
      this.host := host;
      this.dir := dir;
      var settings := Settings(envSales, envAdaptive).value;
      maxWorkersSales := settings.0;
      maxWorkersAdaptive := settings.1;
    }

    /** enqueue_sales_org_jobs */
    method EnqueueSalesOrgJobs(ids: seq<string>, clock: Instant, stamps: nat -> string) returns (r: Result<()>)
      modifies host
      ensures host.State() == old(host.State()).WithStore(EnqueueSpec(old(host.store), SALES_ORG_QUEUE, SalesOrgJobs(ids, WindowOf(clock), stamps)).0)
      ensures r == EnqueueSpec(old(host.store), SALES_ORG_QUEUE, SalesOrgJobs(ids, WindowOf(clock), stamps)).1
    {
      var windowId := WindowOf(clock);
      r := Enqueue(host, SALES_ORG_QUEUE, SalesOrgJobs(ids, windowId, stamps));
    }

    /** enqueue_adaptive_card_jobs */
    method EnqueueAdaptiveCardJobs(users: seq<seq<string>>, clock: Instant, stamps: nat -> string) returns (r: Result<()>)
      modifies host
      ensures host.State() == old(host.State()).WithStore(EnqueueSpec(old(host.store), ADAPTIVE_CARD_QUEUE, AdaptiveCardJobs(users, WindowOf(clock), stamps)).0)
      ensures r == EnqueueSpec(old(host.store), ADAPTIVE_CARD_QUEUE, AdaptiveCardJobs(users, WindowOf(clock), stamps)).1
    {
      var windowId := WindowOf(clock);
      r := Enqueue(host, ADAPTIVE_CARD_QUEUE, AdaptiveCardJobs(users, windowId, stamps));
    }

    /** run_worker_batch: submits the workers, then counts the results of
      those that finish; if one is still running at the deadline,
      as_completed raises. */
    method RunWorkerBatch(count: int, b: Batch) returns (completed: nat, results: seq<string>, r: Result<()>)
      modifies host, dir
      ensures var n := |WorkerNames(count)|;
        completed == Finished(b.fates, n) && results == Results(WorkerNames(count), b.fates, n)
      ensures (Sys(host.State(), dir.files), r) == BatchStep(Sys(old(host.State()), old(dir.files)), count, b)
    {
      var futures: seq<string> := [];
      var i := 0;
      while i < count
        invariant 0 <= i && (count >= 0 ==> i <= count) && (count < 0 ==> i == 0)
        invariant futures == WorkerNames(i)
      {
        futures := futures + ["worker-" + NatToString(i + 1)];
        i := i + 1;
      }
      assert futures == WorkerNames(count);
      var (s, f) := b.effect(host.store, dir.files);
      host.store := s;
      dir.files := f;
      completed := 0;
      results := [];
      var j := 0;
      while j < |futures|
        invariant 0 <= j <= |futures|
        invariant completed == Finished(b.fates, j)
        invariant results == Results(futures, b.fates, j)
      {
        if b.fates(j).Some? {
          results := results + [RunSingleWorker(futures[j], b.fates(j).value)];
          completed := completed + 1;
        }
        j := j + 1;
      }
      if completed == |futures| {
        r := Ok(());
      } else {
        FinishedBounds(b.fates, |futures|);
        r := Err(TimeoutText(|futures| - completed, |futures|));
      }
    }

    /** wait_for_queue_completion */
    method WaitForQueueCompletion(queue: string, group: string, maxWait: nat) returns (r: Result<bool>)
      modifies host
      ensures (host.State(), r) == WaitSpec(old(host.State()), queue, group, 0, maxWait)
    {
      var elapsed: nat := 0;
      while elapsed < maxWait
        invariant WaitSpec(old(host.State()), queue, group, 0, maxWait) == WaitSpec(host.State(), queue, group, elapsed, maxWait)
        decreases maxWait - elapsed
      {
        var len := host.store.Length(queue);
        var pend := host.store.PendingCount(queue, group);
        if len.Err? {
          return Err(len.error);
        }
        if pend.Err? {
          return Err(pend.error);
        }
        if len.value == 0 && pend.value == 0 {
          return Ok(true);
        }
        host.Sleep(POLL_MS);
        elapsed := elapsed + POLL_MS;
      }
      return Ok(false);
    }

    /** do_merge_after_sales_org: the one-shot scheduler's merge. */
    method DoMergeAfterSalesOrg(clock: Instant)
      modifies dir
      ensures dir.files == MergeAll(old(dir.files), PREFIXES, WindowOf(clock))
    {
      Scheduler.DoMergeAfterSalesOrg(dir, clock);
    }

    /** cleanup_queues: the same two DELs as clear_queues. */
    method CleanupQueues()
      modifies host
      ensures host.State() == old(host.State()).WithStore(ClearSpec(old(host.store)))
    {
      ClearQueues(host);
    }

    /** get_queue_stats */
    function GetQueueStats(): (QueueStat, QueueStat)
      reads host
    {
      QueueStats(host.store)
    }

    /** One phase against the host and the directory. */
    method StepOn(inp: Inputs, st: Step) returns (r: Result<()>)
      modifies host, dir
      ensures (Sys(host.State(), dir.files), r)
        == ScalableStep(inp, maxWorkersSales, maxWorkersAdaptive, st, Sys(old(host.State()), old(dir.files)))
    {
      match st
      case Fetch =>
        r := FetchSpec(inp.salesOrgIds, inp.userIds);
      case EnqueueSalesOrg =>
        r := EnqueueSalesOrgJobs(GetOr(inp.salesOrgIds, []), inp.clocks.salesWindow, inp.clocks.salesStamps);
      case RunSalesOrgBatch =>
        var _, _, res := RunWorkerBatch(maxWorkersSales, inp.salesBatch);
        r := res;
      case WaitSalesOrg =>
        var res := WaitForQueueCompletion(SALES_ORG_QUEUE, SALES_ORG_GROUP, MAX_WAIT_MS);
        r := if res.Err? then Err(res.error) else Ok(());
      case Merge =>
        DoMergeAfterSalesOrg(inp.clocks.mergeWindow);
        r := Ok(());
      case EnqueueAdaptiveCard =>
        r := EnqueueAdaptiveCardJobs(GetOr(inp.userIds, []), inp.clocks.userWindow, inp.clocks.userStamps);
      case RunAdaptiveCardBatch =>
        var _, _, res := RunWorkerBatch(maxWorkersAdaptive, inp.adaptiveBatch);
        r := res;
      case WaitAdaptiveCard =>
        var res := WaitForQueueCompletion(ADAPTIVE_CARD_QUEUE, ADAPTIVE_CARD_GROUP, MAX_WAIT_MS);
        r := if res.Err? then Err(res.error) else Ok(());
    }

    /** The phases of a plan, one after the other. */
    method RunSteps(inp: Inputs, steps: seq<Step>) returns (done: seq<Step>, r: Result<()>)
      modifies host, dir
      ensures (Sys(host.State(), dir.files), done, r)
        == Run(Sys(old(host.State()), old(dir.files)), steps, ScalableStepFn(inp, maxWorkersSales, maxWorkersAdaptive))
    {
      ghost var f := ScalableStepFn(inp, maxWorkersSales, maxWorkersAdaptive);
      done := [];
      var k := 0;
      assert steps[k..] == steps;
      PrependNone(Run(Sys(host.State(), dir.files), steps[k..], f));
      while k < |steps|
        invariant 0 <= k <= |steps|
        invariant Run(Sys(old(host.State()), old(dir.files)), steps, f)
          == Prepend(done, Run(Sys(host.State(), dir.files), steps[k..], f))
      {
        ghost var before := Sys(host.State(), dir.files);
        ghost var rest := steps[k..];
        r := StepOn(inp, steps[k]);
        assert f(rest[0], before) == (Sys(host.State(), dir.files), r);
        if r.Err? {
          RunErr(before, rest, f);
          assert done + [] == done;
          return;
        }
        RunOk(before, rest, f);
        assert rest[1..] == steps[k + 1..];
        PrependTwice(done, [steps[k]], Run(Sys(host.State(), dir.files), steps[k + 1..], f));
        done := done + [steps[k]];
        k := k + 1;
      }
      assert steps[k..] == [];
      assert done + [] == done;
      r := Ok(());
    }

    /** run_scalable_pipeline: the phases in their fixed order; the result
        of each wait is not looked at, and any exception is logged and
        raised again. */
    method RunScalablePipeline(inp: Inputs) returns (done: seq<Step>, r: Result<()>)
      modifies host, dir
      ensures (Sys(host.State(), dir.files), done, r)
        == Run(Sys(old(host.State()), old(dir.files)), SCALABLE_ORDER, ScalableStepFn(inp, maxWorkersSales, maxWorkersAdaptive))
    {
      done, r := RunSteps(inp, SCALABLE_ORDER);
    }
  }
}
