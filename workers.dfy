/** What the two workers share: idempotent consumer-group creation, the
    stage filter in front of process_with_retry, and the batch loop that
    reads, handles, and exits only once a read comes back empty while the
    stream has length 0 and nothing is pending. The loop in the source is
    `while True`; here it runs for at most `fuel` rounds. */
module Workers {
  import opened Wrappers
  import opened Text
  import opened Redis
  import opened Runtime
  import opened Retry
  import opened Config

  /** Each worker passes the decorated work (retry_on_failure with
      max_retries=3, base_delay=1.0) to process_with_retry with
      max_retries=3, base_delay=1.0, max_delay=60.0. */
  const WORK_HANDLER := Decorated(3, 1000)
  const HANDLE_RETRIES: nat := 3
  const HANDLE_BASE_DELAY: nat := 1000
  const HANDLE_MAX_DELAY: nat := 60_000
  /** time.sleep(0.5) between empty polls. */
  const POLL_SLEEP: nat := 500

  // ---- the consumer name ----

  /** WORKER_NAME from the environment, else "{prefix}-{hostname}-{pid}". */
  function WorkerName(env: Option<string>, prefix: string, hostname: string, pid: nat): string {
    match env
    case Some(name) => name
    case None => prefix + "-" + hostname + "-" + NatToString(pid)
  }

  /** Without the environment variable, two processes on one host get
      different consumer names. */
  lemma DistinctPidsDistinctNames(prefix: string, hostname: string, p: nat, q: nat)
    requires p != q
    ensures WorkerName(None, prefix, hostname, p) != WorkerName(None, prefix, hostname, q)
  {
    var head := prefix + "-" + hostname + "-";
    if WorkerName(None, prefix, hostname, p) == WorkerName(None, prefix, hostname, q) {
      assert (head + NatToString(p))[|head|..] == NatToString(p);
      assert (head + NatToString(q))[|head|..] == NatToString(q);
      NatToStringInjective(p, q);
    }
  }

  // ---- ensure_group ----

  /** XGROUP CREATE key g 0 MKSTREAM; an error whose text contains
      BUSYGROUP is swallowed, every other error is raised. */
  function EnsureGroupSpec(s: Store, key: string, g: string): (Store, Result<()>) {
    var (s1, r) := s.CreateGroup(key, g);
    if r.Err? && Contains(r.error, "BUSYGROUP") then (s1, Ok(())) else (s1, r)
  }

  method EnsureGroup(host: Host, key: string, g: string) returns (r: Result<()>)
    modifies host
    ensures host.State() == old(host.State()).WithStore(EnsureGroupSpec(old(host.store), key, g).0)
    ensures r == EnsureGroupSpec(old(host.store), key, g).1
  {
    r := host.XgroupCreate(key, g);
    if r.Err? && Contains(r.error, "BUSYGROUP") {
      r := Ok(());
    }
  }

  lemma ConnectionErrorNotBusy()
    ensures !Contains(CONNECTION_ERROR, "BUSYGROUP")
  {
    if Contains(CONNECTION_ERROR, "BUSYGROUP") {
      ContainsFirstChar(CONNECTION_ERROR, "BUSYGROUP");
      assert false;
    }
  }

  lemma BusyGroupContainsTag()
    ensures Contains(BUSYGROUP, "BUSYGROUP")
  {
    assert "BUSYGROUP" <= BUSYGROUP;
  }

  /** On success the group exists; a group created now starts at id 0 with
      nothing pending, and the stream exists even if it did not before. */
  lemma EnsureGroupCreates(s: Store, key: string, g: string)
    requires EnsureGroupSpec(s, key, g).1.Ok?
    ensures var s' := EnsureGroupSpec(s, key, g).0;
      s'.HasGroup(key, g)
      && (!s.HasGroup(key, g) ==> s'.Delivered(key, g) == 0 && s'.Pending(key, g) == map[])
      && s'.Entries(key) == s.Entries(key)
  {
    if s.Fails(XGroupCreate, key) {
      ConnectionErrorNotBusy();
    }
  }

  /** Running ensure_group a second time succeeds and changes nothing. */
  lemma EnsureGroupIdempotent(s: Store, key: string, g: string)
    requires EnsureGroupSpec(s, key, g).1.Ok?
    ensures var s1 := EnsureGroupSpec(s, key, g).0;
      EnsureGroupSpec(s1, key, g) == (s1, Ok(()))
  {
    EnsureGroupCreates(s, key, g);
    var s1 := EnsureGroupSpec(s, key, g).0;
    if s1.Fails(XGroupCreate, key) {
      assert s.Fails(XGroupCreate, key);
      ConnectionErrorNotBusy();
    }
    BusyGroupContainsTag();
  }

  /** A connection failure is raised, not swallowed. */
  lemma EnsureGroupRaises(s: Store, key: string, g: string)
    requires s.Fails(XGroupCreate, key)
    ensures EnsureGroupSpec(s, key, g) == (s, Err(CONNECTION_ERROR))
  {
    ConnectionErrorNotBusy();
  }

  // ---- handling one message ----

  /** fields.get("stage") == stage; a missing field is None and never
      matches. */
  predicate StageMatches(f: Fields, stage: string) {
    "stage" in f && f["stage"] == stage
  }

  function JobFor(stream: string, group: string, m: Message, failedAt: string): Job {
    Job(stream, group, m.id, m.fields, WORK_HANDLER, HANDLE_RETRIES, HANDLE_BASE_DELAY, HANDLE_MAX_DELAY, failedAt)
  }

  /** handle_*_message: a message of another stage is skipped (no call, no
      XACK, no dead-letter record); otherwise process_with_retry runs. */
  function HandleSpec(w: World, work: nat -> Outcome, stream: string, group: string, stage: string,
                      m: Message, failedAt: string): World {
    if !StageMatches(m.fields, stage) then w
    else RetryFrom(w, work, JobFor(stream, group, m, failedAt), 0).0
  }

  /** The messages of one read, handled in order. */
  function HandleBatch(w: World, work: nat -> Outcome, stream: string, group: string, stage: string,
                       msgs: seq<Message>, failedAt: string): World
    decreases |msgs|
  {
    if msgs == [] then w
    else HandleBatch(HandleSpec(w, work, stream, group, stage, msgs[0], failedAt), work, stream, group, stage, msgs[1..], failedAt)
  }

  method HandleMessage(rh: RetryHandler, stage: string, id: nat, fields: Fields, failedAt: string)
    modifies rh.host
    ensures rh.host.State()
      == HandleSpec(old(rh.host.State()), rh.host.work, rh.stream, rh.group, stage, Message(id, fields), failedAt)
  {
    if !("stage" in fields && fields["stage"] == stage) {
      return;
    }
    var _ := rh.ProcessWithRetry(id, fields, WORK_HANDLER, HANDLE_RETRIES, HANDLE_BASE_DELAY, HANDLE_MAX_DELAY, failedAt);
  }

  // ---- run_batch_once ----

  /** The two workers differ in their drain test: the sales-org worker
      reads XPENDING first and counts a failing XPENDING as 0, the
      adaptive-card worker reads XLEN first and lets either failure
      escape. */
  datatype DrainTest = SwallowPendingError | RaisePendingError

  /** The test after an empty read: Ok(true) exits, Ok(false) sleeps and
      polls again, Err escapes from run_batch_once. */
  function DrainCheck(s: Store, stream: string, group: string, t: DrainTest): Result<bool> {
    match t
    case SwallowPendingError =>
      var pending := s.PendingCount(stream, group);
      var pend := if pending.Err? then 0 else pending.value;
      var xlen := s.Length(stream);
      if xlen.Err? then Err(xlen.error) else Ok(xlen.value == 0 && pend == 0)
    case RaisePendingError =>
      var xlen := s.Length(stream);
      if xlen.Err? then Err(xlen.error)
      else
        var pending := s.PendingCount(stream, group);
        if pending.Err? then Err(pending.error) else Ok(xlen.value == 0 && pending.value == 0)
  }

  datatype RunResult = Drained | Crashed(error: string) | FuelOut

  /** The loop from a given round on, with `fuel` rounds left. */
  function DrainFrom(w: World, work: nat -> Outcome, stream: string, group: string, consumer: string,
                     stage: string, t: DrainTest, failedAt: string, fuel: nat): (World, RunResult)
    decreases fuel
  {
    if fuel == 0 then (w, FuelOut)
    else
      var (s1, read) := w.store.ReadGroup(stream, group, consumer, BATCH_COUNT);
      var w1 := w.WithStore(s1);
      if read.Err? then (w1, Crashed(read.error))
      else if read.value != [] then
        DrainFrom(HandleBatch(w1, work, stream, group, stage, read.value, failedAt),
                  work, stream, group, consumer, stage, t, failedAt, fuel - 1)
      else
        var check := DrainCheck(w1.store, stream, group, t);
        if check.Err? then (w1, Crashed(check.error))
        else if check.value then (w1, Drained)
        else DrainFrom(w1.Sleep(POLL_SLEEP), work, stream, group, consumer, stage, t, failedAt, fuel - 1)
  }

  /** run_batch_once: ensure_group, then the loop. */
  function RunBatchSpec(w: World, work: nat -> Outcome, stream: string, group: string, consumer: string,
                        stage: string, t: DrainTest, failedAt: string, fuel: nat): (World, RunResult)
  {
    var (s1, r) := EnsureGroupSpec(w.store, stream, group);
    if r.Err? then (w.WithStore(s1), Crashed(r.error))
    else DrainFrom(w.WithStore(s1), work, stream, group, consumer, stage, t, failedAt, fuel)
  }

  method RunBatchOnce(rh: RetryHandler, stage: string, t: DrainTest, failedAt: string, fuel: nat)
    returns (res: RunResult)
    modifies rh.host
    ensures (rh.host.State(), res)
      == RunBatchSpec(old(rh.host.State()), rh.host.work, rh.stream, rh.group, rh.consumer, stage, t, failedAt, fuel)
  {
    var host := rh.host;
    var created := EnsureGroup(host, rh.stream, rh.group);
    if created.Err? {
      return Crashed(created.error);
    }
    ghost var goal := RunBatchSpec(old(host.State()), host.work, rh.stream, rh.group, rh.consumer, stage, t, failedAt, fuel);
    var left := fuel;
    while left > 0
      invariant goal == DrainFrom(host.State(), host.work, rh.stream, rh.group, rh.consumer, stage, t, failedAt, left)
      decreases left
    {
      var read := host.Xreadgroup(rh.stream, rh.group, rh.consumer, BATCH_COUNT);
      if read.Err? {
        return Crashed(read.error);
      }
      var msgs := read.value;
      if msgs != [] {
        ghost var before := host.State();
        var i := 0;
        while i < |msgs|
          invariant i <= |msgs|
          invariant HandleBatch(before, host.work, rh.stream, rh.group, stage, msgs, failedAt)
            == HandleBatch(host.State(), host.work, rh.stream, rh.group, stage, msgs[i..], failedAt)
        {
          assert msgs[i..][1..] == msgs[i + 1..];
          HandleMessage(rh, stage, msgs[i].id, msgs[i].fields, failedAt);
          i := i + 1;
        }
        assert msgs[|msgs|..] == [];
        left := left - 1;
      } else {
        var check := DrainCheck(host.store, rh.stream, rh.group, t);
        if check.Err? {
          return Crashed(check.error);
        }
        if check.value {
          return Drained;
        }
        host.Sleep(POLL_SLEEP);
        left := left - 1;
      }
    }
    return FuelOut;
  }

  // ---- properties of the loop ----

  /** Handling a batch changes no entries of the worker's stream, and of
      its pending list it can only remove ids of stage-matching messages in
      the batch. */
  lemma {:induction false} HandleBatchFrame(w: World, work: nat -> Outcome, stream: string, group: string,
                                            stage: string, msgs: seq<Message>, failedAt: string)
    ensures var s, s' := w.store, HandleBatch(w, work, stream, group, stage, msgs, failedAt).store;
      s'.Entries(stream) == s.Entries(stream)
      && s'.Pending(stream, group).Keys <= s.Pending(stream, group).Keys
      && (forall id :: id in s.Pending(stream, group) && id !in s'.Pending(stream, group) ==>
            exists k :: 0 <= k < |msgs| && msgs[k].id == id && StageMatches(msgs[k].fields, stage))
    decreases |msgs|
  {
    if msgs != [] {
      var m := msgs[0];
      var w1 := HandleSpec(w, work, stream, group, stage, m, failedAt);
      if StageMatches(m.fields, stage) {
        RetryFrame(w, work, JobFor(stream, group, m, failedAt), 0);
        DeadLetterKeyDiffers(stream);
      }
      HandleBatchFrame(w1, work, stream, group, stage, msgs[1..], failedAt);
      var s' := HandleBatch(w, work, stream, group, stage, msgs, failedAt).store;
      forall id | id in w.store.Pending(stream, group) && id !in s'.Pending(stream, group)
        ensures exists k :: 0 <= k < |msgs| && msgs[k].id == id && StageMatches(msgs[k].fields, stage)
      {
        if id in w1.store.Pending(stream, group) {
          var k :| 0 <= k < |msgs[1..]| && msgs[1..][k].id == id && StageMatches(msgs[1..][k].fields, stage);
          assert msgs[k + 1] == msgs[1..][k];
        } else {
          assert msgs[0].id == id && StageMatches(msgs[0].fields, stage);
        }
      }
    }
  }

  /** In particular handling a batch keeps the stream's entries. */
  lemma HandleBatchKeepsEntries(w: World, work: nat -> Outcome, stream: string, group: string,
                                stage: string, msgs: seq<Message>, failedAt: string)
    ensures HandleBatch(w, work, stream, group, stage, msgs, failedAt).store.Entries(stream) == w.store.Entries(stream)
  {
    HandleBatchFrame(w, work, stream, group, stage, msgs, failedAt);
  }

  /** A message of the wrong stage read into a batch stays pending after
      the batch, unless another message of the batch with the same id is
      handled (ids are unique in a stream, so that does not happen). */
  lemma WrongStageLeftPending(w: World, work: nat -> Outcome, stream: string, group: string,
                              stage: string, msgs: seq<Message>, failedAt: string, k: nat)
    requires k < |msgs| && !StageMatches(msgs[k].fields, stage)
    requires forall i :: 0 <= i < |msgs| && i != k ==> msgs[i].id != msgs[k].id
    requires msgs[k].id in w.store.Pending(stream, group)
    ensures msgs[k].id in HandleBatch(w, work, stream, group, stage, msgs, failedAt).store.Pending(stream, group)
  {
    HandleBatchFrame(w, work, stream, group, stage, msgs, failedAt);
  }

  /** A message of the wrong stage is skipped outright: no call of the
      work, no XACK, no dead-letter record, no sleep. */
  lemma WrongStageSkipped(w: World, work: nat -> Outcome, stream: string, group: string,
                          stage: string, m: Message, failedAt: string)
    requires !StageMatches(m.fields, stage)
    ensures HandleSpec(w, work, stream, group, stage, m, failedAt) == w
  {
  }

  /** The loop never changes its own stream's entries. */
  lemma {:induction false} DrainFromKeepsEntries(w: World, work: nat -> Outcome, stream: string, group: string,
                                                 consumer: string, stage: string, t: DrainTest, failedAt: string, fuel: nat)
    ensures DrainFrom(w, work, stream, group, consumer, stage, t, failedAt, fuel).0.store.Entries(stream)
      == w.store.Entries(stream)
    decreases fuel
  {
    if fuel > 0 {
      var (s1, read) := w.store.ReadGroup(stream, group, consumer, BATCH_COUNT);
      ReadGroupFrame(w.store, stream, group, consumer, BATCH_COUNT);
      var w1 := w.WithStore(s1);
      if read.Ok? && read.value != [] {
        var w2 := HandleBatch(w1, work, stream, group, stage, read.value, failedAt);
        assert DrainFrom(w, work, stream, group, consumer, stage, t, failedAt, fuel)
          == DrainFrom(w2, work, stream, group, consumer, stage, t, failedAt, fuel - 1);
        HandleBatchKeepsEntries(w1, work, stream, group, stage, read.value, failedAt);
        DrainFromKeepsEntries(w2, work, stream, group, consumer, stage, t, failedAt, fuel - 1);
      } else if read.Ok? {
        var check := DrainCheck(s1, stream, group, t);
        if check.Ok? && !check.value {
          assert DrainFrom(w, work, stream, group, consumer, stage, t, failedAt, fuel)
            == DrainFrom(w1.Sleep(POLL_SLEEP), work, stream, group, consumer, stage, t, failedAt, fuel - 1);
          DrainFromKeepsEntries(w1.Sleep(POLL_SLEEP), work, stream, group, consumer, stage, t, failedAt, fuel - 1);
        } else {
          assert DrainFrom(w, work, stream, group, consumer, stage, t, failedAt, fuel).0 == w1;
        }
      } else {
        assert DrainFrom(w, work, stream, group, consumer, stage, t, failedAt, fuel).0 == w1;
      }
    }
  }

  /** The exit is taken only after an empty read with XLEN 0: so, since
      XACK never shortens a stream, only when the stream held no entry when
      the loop started. */
  lemma {:induction false} DrainedOnlyWhenEmpty(w: World, work: nat -> Outcome, stream: string, group: string,
                                                consumer: string, stage: string, t: DrainTest, failedAt: string, fuel: nat)
    requires DrainFrom(w, work, stream, group, consumer, stage, t, failedAt, fuel).1 == Drained
    ensures w.store.Entries(stream) == []
    ensures var s' := DrainFrom(w, work, stream, group, consumer, stage, t, failedAt, fuel).0.store;
      s'.Length(stream) == Ok(0)
      && (t == RaisePendingError ==> s'.PendingCount(stream, group) == Ok(0))
      && (s'.PendingCount(stream, group).Ok? ==> s'.PendingCount(stream, group) == Ok(0))
    decreases fuel
  {
    var (s1, read) := w.store.ReadGroup(stream, group, consumer, BATCH_COUNT);
    ReadGroupFrame(w.store, stream, group, consumer, BATCH_COUNT);
    var w1 := w.WithStore(s1);
    assert fuel > 0 && read.Ok?;
    if read.value != [] {
      var w2 := HandleBatch(w1, work, stream, group, stage, read.value, failedAt);
      assert DrainFrom(w, work, stream, group, consumer, stage, t, failedAt, fuel)
        == DrainFrom(w2, work, stream, group, consumer, stage, t, failedAt, fuel - 1);
      HandleBatchKeepsEntries(w1, work, stream, group, stage, read.value, failedAt);
      DrainedOnlyWhenEmpty(w2, work, stream, group, consumer, stage, t, failedAt, fuel - 1);
    } else {
      var check := DrainCheck(s1, stream, group, t);
      assert check.Ok?;
      if check.value {
        assert DrainFrom(w, work, stream, group, consumer, stage, t, failedAt, fuel) == (w1, Drained);
        DrainCheckPasses(s1, stream, group, t);
      } else {
        assert DrainFrom(w, work, stream, group, consumer, stage, t, failedAt, fuel)
          == DrainFrom(w1.Sleep(POLL_SLEEP), work, stream, group, consumer, stage, t, failedAt, fuel - 1);
        DrainedOnlyWhenEmpty(w1.Sleep(POLL_SLEEP), work, stream, group, consumer, stage, t, failedAt, fuel - 1);
      }
    }
  }

  /** A passing drain test saw XLEN 0 and, where it read one, a pending
      count of 0. */
  lemma DrainCheckPasses(s: Store, stream: string, group: string, t: DrainTest)
    requires DrainCheck(s, stream, group, t) == Ok(true)
    ensures s.Length(stream) == Ok(0) && s.Entries(stream) == []
    ensures t == RaisePendingError ==> s.PendingCount(stream, group) == Ok(0)
    ensures s.PendingCount(stream, group).Ok? ==> s.PendingCount(stream, group) == Ok(0)
  {
  }

  /** Hence a worker whose stream holds an entry never takes the drain
      exit, however long it runs: it ends only by an escaping error or by
      running out of rounds. */
  lemma NonEmptyNeverDrains(w: World, work: nat -> Outcome, stream: string, group: string, consumer: string,
                            stage: string, t: DrainTest, failedAt: string, fuel: nat)
    requires w.store.Entries(stream) != []
    ensures RunBatchSpec(w, work, stream, group, consumer, stage, t, failedAt, fuel).1 != Drained
  {
    var (s1, r) := EnsureGroupSpec(w.store, stream, group);
    if r.Ok? {
      EnsureGroupCreates(w.store, stream, group);
      if DrainFrom(w.WithStore(s1), work, stream, group, consumer, stage, t, failedAt, fuel).1 == Drained {
        DrainedOnlyWhenEmpty(w.WithStore(s1), work, stream, group, consumer, stage, t, failedAt, fuel);
      }
    }
  }

  /** An empty stream with a reachable server drains in the first round,
      before any message is handled or any sleep taken. */
  lemma EmptyStreamDrains(w: World, work: nat -> Outcome, stream: string, group: string, consumer: string,
                          stage: string, t: DrainTest, failedAt: string, fuel: nat)
    requires fuel > 0 && w.store.Valid() && w.store.Entries(stream) == [] && w.store.faults == {}
    ensures var (w', r) := RunBatchSpec(w, work, stream, group, consumer, stage, t, failedAt, fuel);
      r == Drained && w'.calls == w.calls && w'.sleeps == w.sleeps
  {
    var (s1, r) := EnsureGroupSpec(w.store, stream, group);
    assert r.Ok? by {
      if s1.CreateGroup(stream, group).1.Err? {
        BusyGroupContainsTag();
      }
    }
    EnsureGroupCreates(w.store, stream, group);
    CreateGroupKeepsValid(w.store, stream, group);
    assert s1.streams[stream].Valid();
  }

  /** The difference between the workers: with XPENDING failing on an empty
      stream, the sales-org worker exits and the adaptive-card worker
      raises. */
  lemma PendingErrorHandling(s: Store, stream: string, group: string)
    requires s.PendingCount(stream, group).Err? && s.Length(stream) == Ok(0)
    ensures DrainCheck(s, stream, group, SwallowPendingError) == Ok(true)
    ensures DrainCheck(s, stream, group, RaisePendingError) == Err(s.PendingCount(stream, group).error)
  {
  }
}
