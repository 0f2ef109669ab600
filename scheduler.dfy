/** The one-shot scheduler: it enqueues one job per sales organisation and
    per user, runs each worker once as a child process, merges the
    per-organisation CSV files between the two phases, and clears the
    queues on demand. */
module Scheduler {
  import opened Wrappers
  import opened Redis
  import opened Runtime
  import opened Config
  import opened Window
  import Workers
  import SalesOrgWorker
  import AdaptiveCardWorker

  // ---- job records ----

  /** The window id of one clock reading: current_window_id()[0]. */
  function WindowOf(clock: Instant): string {
    CurrentWindowId(None, clock).0
  }

  /** The record of one sales organisation; `createdAt` is the time.time()
      reading taken for it, as the text Redis stores. */
  function SalesOrgRecord(sid: string, windowId: string, createdAt: string): Fields {
    map["sales_org_id" := sid, "window_id" := windowId, "stage" := "sales_org_fetch", "created_at" := createdAt]
  }

  const INDEX_ERROR := "IndexError: tuple index out of range"

  /** The record of one user row: the row's first column is the user id,
      and an empty row makes uid[0] raise. */
  function AdaptiveCardRecord(uid: seq<string>, windowId: string, createdAt: string): Result<Fields> {
    if uid == [] then Err(INDEX_ERROR)
    else Ok(map["user_id" := uid[0], "window_id" := windowId, "stage" := "adaptive_card_generation", "created_at" := createdAt])
  }

  /** The records of one enqueue call, in input order; the i-th one carries
      the i-th created_at reading. */
  function SalesOrgRecords(ids: seq<string>, windowId: string, stamps: nat -> string): seq<Result<Fields>> {
    seq(|ids|, i requires 0 <= i < |ids| => Ok(SalesOrgRecord(ids[i], windowId, stamps(i))))
  }

  function AdaptiveCardRecords(users: seq<seq<string>>, windowId: string, stamps: nat -> string): seq<Result<Fields>> {
    seq(|users|, i requires 0 <= i < |users| => AdaptiveCardRecord(users[i], windowId, stamps(i)))
  }

  /** The records of a list in which every record could be built. */
  function Values(recs: seq<Result<Fields>>): seq<Fields>
    requires forall i :: 0 <= i < |recs| ==> recs[i].Ok?
  {
    seq(|recs|, i requires 0 <= i < |recs| => recs[i].value)
  }

  /** Every sales-org record has exactly the four fields, the id at its
      position, the one shared window id and the stage the sales-org worker
      accepts; it has no retry_count. */
  lemma SalesOrgRecordsShape(ids: seq<string>, windowId: string, stamps: nat -> string)
    ensures |SalesOrgRecords(ids, windowId, stamps)| == |ids|
    ensures forall i :: 0 <= i < |ids| ==> SalesOrgRecords(ids, windowId, stamps)[i].Ok?
    ensures forall i :: 0 <= i < |ids| ==>
      var f := SalesOrgRecords(ids, windowId, stamps)[i].value;
      f.Keys == {"sales_org_id", "window_id", "stage", "created_at"}
      && f["sales_org_id"] == ids[i] && f["window_id"] == windowId && f["created_at"] == stamps(i)
      && Workers.StageMatches(f, SalesOrgWorker.STAGE) && "retry_count" !in f
  {
    forall i | 0 <= i < |ids| {
      SalesOrgRecordShape(ids[i], windowId, stamps(i));
    }
  }

  lemma SalesOrgRecordShape(sid: string, windowId: string, createdAt: string)
    ensures var f := SalesOrgRecord(sid, windowId, createdAt);
      f.Keys == {"sales_org_id", "window_id", "stage", "created_at"}
      && f["sales_org_id"] == sid && f["window_id"] == windowId && f["created_at"] == createdAt
      && Workers.StageMatches(f, SalesOrgWorker.STAGE) && "retry_count" !in f
  {
  }

  lemma AdaptiveCardRecordShape(uid: seq<string>, windowId: string, createdAt: string)
    requires uid != []
    ensures AdaptiveCardRecord(uid, windowId, createdAt).Ok?
    ensures var f := AdaptiveCardRecord(uid, windowId, createdAt).value;
      f.Keys == {"user_id", "window_id", "stage", "created_at"}
      && f["user_id"] == uid[0] && f["window_id"] == windowId && f["created_at"] == createdAt
      && Workers.StageMatches(f, AdaptiveCardWorker.STAGE) && "retry_count" !in f
  {
  }

  /** A user record can be built exactly when the row is not empty; it then
      holds the row's first column, the shared window id and the stage the
      adaptive-card worker accepts, and no retry_count. */
  lemma AdaptiveCardRecordsShape(users: seq<seq<string>>, windowId: string, stamps: nat -> string)
    ensures |AdaptiveCardRecords(users, windowId, stamps)| == |users|
    ensures forall i :: 0 <= i < |users| ==>
      (AdaptiveCardRecords(users, windowId, stamps)[i].Ok? <==> users[i] != [])
    ensures forall i :: 0 <= i < |users| && users[i] == [] ==>
      AdaptiveCardRecords(users, windowId, stamps)[i] == Err(INDEX_ERROR)
    ensures forall i :: 0 <= i < |users| && users[i] != [] ==>
      var f := AdaptiveCardRecords(users, windowId, stamps)[i].value;
      f.Keys == {"user_id", "window_id", "stage", "created_at"}
      && f["user_id"] == users[i][0] && f["window_id"] == windowId && f["created_at"] == stamps(i)
      && Workers.StageMatches(f, AdaptiveCardWorker.STAGE) && "retry_count" !in f
  {
    forall i | 0 <= i < |users|
      ensures AdaptiveCardRecords(users, windowId, stamps)[i] == AdaptiveCardRecord(users[i], windowId, stamps(i))
    {
    }
    forall i | 0 <= i < |users| && users[i] != [] {
      AdaptiveCardRecordShape(users[i], windowId, stamps(i));
    }
  }

  // ---- appending records ----

  /** XADD of each record in turn; building a record or an XADD that fails
      raises, leaving the earlier records in the stream. */
  function AddAll(s: Store, key: string, recs: seq<Result<Fields>>): (Store, Result<()>)
    decreases |recs|
  {
    if recs == [] then (s, Ok(()))
    else if recs[0].Err? then (s, Err(recs[0].error))
    else
      var (s1, r) := s.Add(key, recs[0].value);
      if r.Err? then (s1, Err(r.error)) else AddAll(s1, key, recs[1..])
  }

  /** An enqueue call: the XADDs, then the XLEN of the closing log line,
      which raises too when it fails. */
  function EnqueueSpec(s: Store, key: string, recs: seq<Result<Fields>>): (Store, Result<()>) {
    var (s1, r) := AddAll(s, key, recs);
    if r.Err? then (s1, r)
    else if s1.Length(key).Err? then (s1, Err(s1.Length(key).error))
    else (s1, Ok(()))
  }

  /** The enqueue loop. */
  method XaddAll(host: Host, key: string, recs: seq<Result<Fields>>) returns (r: Result<()>)
    modifies host
    ensures host.State() == old(host.State()).WithStore(AddAll(old(host.store), key, recs).0)
    ensures r == AddAll(old(host.store), key, recs).1
  {
    var i := 0;
    while i < |recs|
      invariant 0 <= i <= |recs|
      invariant host.State() == old(host.State()).WithStore(host.store)
      invariant AddAll(old(host.store), key, recs) == AddAll(host.store, key, recs[i..])
    {
      assert recs[i..][1..] == recs[i + 1..];
      if recs[i].Err? {
        return Err(recs[i].error);
      }
      var res := host.Xadd(key, recs[i].value);
      if res.Err? {
        return Err(res.error);
      }
      i := i + 1;
    }
    assert recs[i..] == [];
    return Ok(());
  }

  /** The XADD loop and the closing XLEN of either enqueue function. */
  method Enqueue(host: Host, key: string, recs: seq<Result<Fields>>) returns (r: Result<()>)
    modifies host
    ensures host.State() == old(host.State()).WithStore(EnqueueSpec(old(host.store), key, recs).0)
    ensures r == EnqueueSpec(old(host.store), key, recs).1
  {
    r := XaddAll(host, key, recs);
    assert host.store == host.State().store == AddAll(old(host.store), key, recs).0;
    if r.Ok? {
      var xlen := host.store.Length(key);
      if xlen.Err? {
        r := Err(xlen.error);
      } else {
        r := Ok(());
      }
    }
  }

  /** enqueue_sales_org_jobs: one clock reading gives the window id of every
      record. */
  method EnqueueSalesOrgJobs(host: Host, ids: seq<string>, clock: Instant, stamps: nat -> string) returns (r: Result<()>)
    modifies host
    ensures host.State() == old(host.State()).WithStore(EnqueueSpec(old(host.store), SALES_ORG_QUEUE, SalesOrgRecords(ids, WindowOf(clock), stamps)).0)
    ensures r == EnqueueSpec(old(host.store), SALES_ORG_QUEUE, SalesOrgRecords(ids, WindowOf(clock), stamps)).1
  {
    var windowId := WindowOf(clock);
    r := Enqueue(host, SALES_ORG_QUEUE, SalesOrgRecords(ids, windowId, stamps));
  }

  /** enqueue_adaptive_card_jobs */
  method EnqueueAdaptiveCardJobs(host: Host, users: seq<seq<string>>, clock: Instant, stamps: nat -> string) returns (r: Result<()>)
    modifies host
    ensures host.State() == old(host.State()).WithStore(EnqueueSpec(old(host.store), ADAPTIVE_CARD_QUEUE, AdaptiveCardRecords(users, WindowOf(clock), stamps)).0)
    ensures r == EnqueueSpec(old(host.store), ADAPTIVE_CARD_QUEUE, AdaptiveCardRecords(users, WindowOf(clock), stamps)).1
  {
    var windowId := WindowOf(clock);
    r := Enqueue(host, ADAPTIVE_CARD_QUEUE, AdaptiveCardRecords(users, windowId, stamps));
  }

  /** With XADD working on the stream, the records before the first one
      that cannot be built (all of them when there is none) are appended in
      order; nothing else changes, and the call fails exactly when such a
      record exists. */
  lemma {:induction false} AddAllUpTo(s: Store, key: string, recs: seq<Result<Fields>>, j: nat)
    requires !s.Fails(XAdd, key)
    requires j <= |recs| && forall i :: 0 <= i < j ==> recs[i].Ok?
    requires j < |recs| ==> recs[j].Err?
    ensures var (s', r) := AddAll(s, key, recs);
      r == (if j < |recs| then Err(recs[j].error) else Ok(()))
      && s'.Entries(key) == s.Entries(key) + Values(recs[..j])
      && (forall k :: k != key ==> s'.Entries(k) == s.Entries(k))
      && (forall k, g :: s'.Pending(k, g) == s.Pending(k, g))
      && (forall k, g :: s'.HasGroup(k, g) == s.HasGroup(k, g))
      && s'.faults == s.faults && s'.acks == s.acks
    decreases j
  {
    if j == 0 {
      assert Values(recs[..0]) == [];
    } else {
      var (s1, _) := s.Add(key, recs[0].value);
      var rest := recs[1..];
      AddAppends(s, key, recs[0].value);
      assert AddAll(s, key, recs) == AddAll(s1, key, rest);
      forall i | 0 <= i < j - 1 ensures rest[i].Ok? {
        assert rest[i] == recs[i + 1];
      }
      assert j - 1 < |rest| ==> rest[j - 1] == recs[j];
      AddAllUpTo(s1, key, rest, j - 1);
      assert Values(recs[..j]) == [recs[0].value] + Values(rest[..j - 1]);
    }
  }

  /** When XADD on the stream fails, the first record raises the connection
      error and nothing is written. */
  lemma AddAllFault(s: Store, key: string, recs: seq<Result<Fields>>)
    requires s.Fails(XAdd, key) && recs != [] && recs[0].Ok?
    ensures AddAll(s, key, recs) == (s, Err(CONNECTION_ERROR))
  {
  }

  /** With no faults on the sales-org queue, enqueue_sales_org_jobs appends
      exactly one record per id, in input order, and succeeds. */
  lemma EnqueueSalesOrgAppends(s: Store, ids: seq<string>, windowId: string, stamps: nat -> string)
    requires !s.Fails(XAdd, SALES_ORG_QUEUE) && !s.Fails(XLen, SALES_ORG_QUEUE)
    ensures var recs := SalesOrgRecords(ids, windowId, stamps);
      var (s', r) := EnqueueSpec(s, SALES_ORG_QUEUE, recs);
      r == Ok(())
      && s'.Entries(SALES_ORG_QUEUE) == s.Entries(SALES_ORG_QUEUE) + seq(|ids|, i requires 0 <= i < |ids| => SalesOrgRecord(ids[i], windowId, stamps(i)))
      && (forall k :: k != SALES_ORG_QUEUE ==> s'.Entries(k) == s.Entries(k))
      && (forall k, g :: s'.Pending(k, g) == s.Pending(k, g))
  {
    var recs := SalesOrgRecords(ids, windowId, stamps);
    AddAllUpTo(s, SALES_ORG_QUEUE, recs, |recs|);
    assert recs[..|recs|] == recs;
  }

  /** A user row that is empty stops enqueue_adaptive_card_jobs there: the
      rows before it are in the stream, the rest are not, and the call
      raises the IndexError. */
  lemma EnqueueAdaptiveCardStops(s: Store, users: seq<seq<string>>, windowId: string, stamps: nat -> string, j: nat)
    requires !s.Fails(XAdd, ADAPTIVE_CARD_QUEUE)
    requires j < |users| && users[j] == [] && forall i :: 0 <= i < j ==> users[i] != []
    ensures var recs := AdaptiveCardRecords(users, windowId, stamps);
      var (s', r) := EnqueueSpec(s, ADAPTIVE_CARD_QUEUE, recs);
      r == Err(INDEX_ERROR)
      && |s'.Entries(ADAPTIVE_CARD_QUEUE)| == |s.Entries(ADAPTIVE_CARD_QUEUE)| + j
      && s'.Entries(ADAPTIVE_CARD_QUEUE)[..|s.Entries(ADAPTIVE_CARD_QUEUE)|] == s.Entries(ADAPTIVE_CARD_QUEUE)
  {
    var recs := AdaptiveCardRecords(users, windowId, stamps);
    AdaptiveCardRecordsShape(users, windowId, stamps);
    AddAllUpTo(s, ADAPTIVE_CARD_QUEUE, recs, j);
  }

  // ---- clear_queues ----

  /** DEL of the sales-org queue, then of the adaptive-card queue; the first
      failure ends the call and is swallowed. */
  function ClearSpec(s: Store): Store {
    var (s1, r1) := s.Delete(SALES_ORG_QUEUE);
    if r1.Err? then s1 else s1.Delete(ADAPTIVE_CARD_QUEUE).0
  }

  method ClearQueues(host: Host)
    modifies host
    ensures host.State() == old(host.State()).WithStore(ClearSpec(old(host.store)))
  {
    var r1 := host.Delete(SALES_ORG_QUEUE);
    if r1.Ok? {
      var _ := host.Delete(ADAPTIVE_CARD_QUEUE);
    }
  }

  /** Without faults both queues are gone, with their groups, and every
      other stream is kept. */
  lemma ClearRemovesBoth(s: Store)
    requires !s.Fails(Del, SALES_ORG_QUEUE) && !s.Fails(Del, ADAPTIVE_CARD_QUEUE)
    ensures var s' := ClearSpec(s);
      SALES_ORG_QUEUE !in s'.streams && ADAPTIVE_CARD_QUEUE !in s'.streams
      && s'.Entries(SALES_ORG_QUEUE) == [] && s'.Entries(ADAPTIVE_CARD_QUEUE) == []
      && (forall k :: k != SALES_ORG_QUEUE && k != ADAPTIVE_CARD_QUEUE && k in s.streams ==> k in s'.streams && s'.streams[k] == s.streams[k])
      && s'.streams.Keys == s.streams.Keys - {SALES_ORG_QUEUE, ADAPTIVE_CARD_QUEUE}
  {
  }

  /** A failing first DEL leaves both queues as they were: the second DEL
      is never sent. */
  lemma ClearFirstFault(s: Store)
    requires s.Fails(Del, SALES_ORG_QUEUE)
    ensures ClearSpec(s) == s
  {
  }

  /** A failing second DEL leaves the adaptive-card queue in place. */
  lemma ClearSecondFault(s: Store)
    requires !s.Fails(Del, SALES_ORG_QUEUE) && s.Fails(Del, ADAPTIVE_CARD_QUEUE)
    ensures SALES_ORG_QUEUE !in ClearSpec(s).streams
    ensures ClearSpec(s).Entries(ADAPTIVE_CARD_QUEUE) == s.Entries(ADAPTIVE_CARD_QUEUE)
  {
  }

  // ---- do_merge_after_sales_org ----

  /** One CSV row, as its cells. */
  type Row = seq<string>

  /** A file of the output directory: its rows when pandas can read it. */
  datatype Csv = Readable(rows: seq<Row>) | Unreadable

  type Files = map<string, Csv>

  /** The CSV output directory. */
  class Directory {
    var files: Files

    constructor (files: Files)
      ensures this.files == files
    {
      this.files := files;
    }
  }

  /** The prefixes merged, in this order. */
  const PREFIXES: seq<string> := ["Material", "GSCM"]

  /** The glob "{prefix}_*.csv". */
  predicate Matches(name: string, prefix: string) {
    |name| >= |prefix| + 5 && name[..|prefix| + 1] == prefix + "_" && name[|name| - 4..] == ".csv"
  }

  /** sorted(out_dir.glob("{prefix}_*.csv")) */
  function MatchingNames(files: Files, prefix: string): (r: seq<string>)
    ensures forall i :: 0 <= i < |r| ==> r[i] in files && Matches(r[i], prefix)
    ensures forall n :: n in files && Matches(n, prefix) ==> n in r
    ensures Text.StrictlySorted(r)
  {
    var r := Text.SortedStrings(set n | n in files && Matches(n, prefix));
    assert forall i :: 0 <= i < |r| ==> r[i] in r;
    r
  }

  /** The frames read from the named files, in order, unreadable files
      skipped. */
  function Frames(files: Files, names: seq<string>): seq<seq<Row>> {
    if names == [] then []
    else
      var last := names[|names| - 1];
      Frames(files, names[..|names| - 1]) + (if last in files && files[last].Readable? then [files[last].rows] else [])
  }

  /** pd.concat(dfs, ignore_index=True) */
  function Concat(dfs: seq<seq<Row>>): seq<Row> {
    if dfs == [] then [] else Concat(dfs[..|dfs| - 1]) + dfs[|dfs| - 1]
  }

  function TmpName(prefix: string, windowId: string): string {
    prefix + "_MERGED_" + windowId + ".csv.tmp"
  }

  function FinalName(prefix: string): string {
    prefix + ".csv"
  }

  /** os.replace(from, to) */
  function Replace(files: Files, from: string, to: string): Files
    requires from in files
  {
    (files - {from})[to := files[from]]
  }

  /** The merge of one prefix: nothing when no file matches or none can be
      read; otherwise the concatenation is written to the temporary file,
      which then replaces "{prefix}.csv". */
  function MergePrefix(files: Files, prefix: string, windowId: string): Files {
    var names := MatchingNames(files, prefix);
    var dfs := Frames(files, names);
    if names == [] || dfs == [] then files
    else
      var tmp := TmpName(prefix, windowId);
      Replace(files[tmp := Readable(Concat(dfs))], tmp, FinalName(prefix))
  }

  /** The prefixes merged one after the other. */
  function MergeAll(files: Files, prefixes: seq<string>, windowId: string): Files {
    if prefixes == [] then files
    else MergePrefix(MergeAll(files, prefixes[..|prefixes| - 1], windowId), prefixes[|prefixes| - 1], windowId)
  }

  /** The per-prefix loop: the readable files are appended to dfs in
      sorted-name order. */
  method MergePrefixInto(dir: Directory, prefix: string, windowId: string)
    modifies dir
    ensures dir.files == MergePrefix(old(dir.files), prefix, windowId)
  {
    var files := dir.files;
    var names := MatchingNames(files, prefix);
    if names == [] {
      return;
    }
    var dfs: seq<seq<Row>> := [];
    var i := 0;
    while i < |names|
      invariant 0 <= i <= |names|
      invariant dfs == Frames(files, names[..i])
      invariant dir.files == files
    {
      FramesStep(files, names, i);
      var f := names[i];
      if files[f].Readable? {
        dfs := dfs + [files[f].rows];
      }
      i := i + 1;
    }
    assert names[..i] == names;
    assert dfs == Frames(files, names);
    if dfs == [] {
      assert MergePrefix(files, prefix, windowId) == files;
      return;
    }
    var merged := Concat(dfs);
    var tmp := TmpName(prefix, windowId);
    assert MergePrefix(files, prefix, windowId) == Replace(files[tmp := Readable(merged)], tmp, FinalName(prefix));
    dir.files := Replace(files[tmp := Readable(merged)], tmp, FinalName(prefix));
  }

  /** Reading one more name appends that file's rows when it can be read. */
  lemma FramesStep(files: Files, names: seq<string>, i: nat)
    requires i < |names|
    ensures Frames(files, names[..i + 1]) == Frames(files, names[..i])
      + (if names[i] in files && files[names[i]].Readable? then [files[names[i]].rows] else [])
  {
    assert names[..i + 1][..i] == names[..i];
  }

  /** Merging one more prefix merges it over the files merged so far. */
  lemma MergeAllStep(files: Files, prefixes: seq<string>, k: nat, windowId: string)
    requires k < |prefixes|
    ensures MergeAll(files, prefixes[..k + 1], windowId)
      == MergePrefix(MergeAll(files, prefixes[..k], windowId), prefixes[k], windowId)
  {
    assert prefixes[..k + 1][..k] == prefixes[..k];
  }

  /** do_merge_after_sales_org: the window id, read from the clock once,
      names the temporary files. */
  method DoMergeAfterSalesOrg(dir: Directory, clock: Instant)
    modifies dir
    ensures dir.files == MergeAll(old(dir.files), PREFIXES, WindowOf(clock))
  {
    var windowId := WindowOf(clock);
    var k := 0;
    while k < |PREFIXES|
      invariant 0 <= k <= |PREFIXES|
      invariant dir.files == MergeAll(old(dir.files), PREFIXES[..k], windowId)
    {
      MergeAllStep(old(dir.files), PREFIXES, k, windowId);
      MergePrefixInto(dir, PREFIXES[k], windowId);
      k := k + 1;
    }
    assert PREFIXES[..k] == PREFIXES;
  }

  /** The temporary name matches no glob, and a prefix's final name does
      not match its own glob or the other prefix's. */
  lemma OutputsDoNotMatch(prefix: string, windowId: string, q: string)
    ensures !Matches(TmpName(prefix, windowId), q)
    ensures !Matches(FinalName(prefix), prefix)
    ensures !Matches(FinalName("Material"), "GSCM") && !Matches(FinalName("GSCM"), "Material")
  {
    var t := TmpName(prefix, windowId);
    assert t[|t| - 4..] == ".tmp";
    assert FinalName("Material")[0] == 'M' && ("GSCM" + "_")[0] == 'G';
    assert |FinalName("GSCM")| == 8;
  }

  /** Some file is in the frames exactly when one of the names is a
      readable file. */
  lemma {:induction false} FramesNonEmptyIff(files: Files, names: seq<string>)
    ensures Frames(files, names) != [] <==>
      exists i :: 0 <= i < |names| && names[i] in files && files[names[i]].Readable?
  {
    if names != [] {
      var init := names[..|names| - 1];
      FramesNonEmptyIff(files, init);
      if exists i :: 0 <= i < |init| && init[i] in files && files[init[i]].Readable? {
        var i :| 0 <= i < |init| && init[i] in files && files[init[i]].Readable?;
        assert names[i] == init[i];
      }
      if exists i :: 0 <= i < |names| && names[i] in files && files[names[i]].Readable? {
        var i :| 0 <= i < |names| && names[i] in files && files[names[i]].Readable?;
        if i < |init| {
          assert init[i] == names[i];
        }
      }
    }
  }

  /** When every named file can be read, the frames are those files' rows,
      one per file, in the order of the names. */
  lemma {:induction false} FramesAllReadable(files: Files, names: seq<string>)
    requires forall i :: 0 <= i < |names| ==> names[i] in files && files[names[i]].Readable?
    ensures |Frames(files, names)| == |names|
    ensures forall i :: 0 <= i < |names| ==> Frames(files, names)[i] == files[names[i]].rows
  {
    if names != [] {
      var init := names[..|names| - 1];
      FramesAllReadable(files, init);
    }
  }

  /** Frames read the named files only. */
  lemma {:induction false} FramesAgree(f1: Files, f2: Files, names: seq<string>)
    requires forall i :: 0 <= i < |names| ==> (names[i] in f1 <==> names[i] in f2)
    requires forall i :: 0 <= i < |names| && names[i] in f1 ==> f1[names[i]] == f2[names[i]]
    ensures Frames(f1, names) == Frames(f2, names)
  {
    if names != [] {
      FramesAgree(f1, f2, names[..|names| - 1]);
    }
  }

  /** When some matching file can be read, "{prefix}.csv" holds the
      concatenation of the readable matching files in sorted-name order,
      the temporary file is gone and every other file is kept, the inputs
      included; otherwise nothing changes and an earlier "{prefix}.csv" is
      left as it was. */
  lemma MergePrefixWrites(files: Files, prefix: string, windowId: string)
    ensures var names := MatchingNames(files, prefix);
      var r := MergePrefix(files, prefix, windowId);
      var tmp := TmpName(prefix, windowId);
      (exists n :: n in files && Matches(n, prefix) && files[n].Readable?) ==>
        r.Keys == files.Keys - {tmp} + {FinalName(prefix)}
        && r[FinalName(prefix)] == Readable(Concat(Frames(files, names)))
        && (forall n :: n in files && n != tmp && n != FinalName(prefix) ==> r[n] == files[n])
    ensures (forall n :: n in files && Matches(n, prefix) ==> !files[n].Readable?) ==>
      MergePrefix(files, prefix, windowId) == files
  {
    var names := MatchingNames(files, prefix);
    var dfs := Frames(files, names);
    var tmp, final := TmpName(prefix, windowId), FinalName(prefix);
    assert |tmp| > |final|;
    FramesNonEmptyIff(files, names);
    if exists n :: n in files && Matches(n, prefix) && files[n].Readable? {
      var n :| n in files && Matches(n, prefix) && files[n].Readable?;
      var i :| 0 <= i < |names| && names[i] == n;
      assert names != [] && dfs != [];
      assert MergePrefix(files, prefix, windowId) == Replace(files[tmp := Readable(Concat(dfs))], tmp, final);
      ReplaceTmp(files, tmp, final, Readable(Concat(dfs)));
    }
    if forall n :: n in files && Matches(n, prefix) ==> !files[n].Readable? {
      assert dfs == [];
    }
  }

  /** Writing the temporary file and renaming it over `final`: `final` holds
      the new contents, the temporary name is gone, all else is kept. */
  lemma ReplaceTmp(files: Files, tmp: string, final: string, v: Csv)
    requires tmp != final
    ensures var r := Replace(files[tmp := v], tmp, final);
      r.Keys == files.Keys - {tmp} + {final}
      && r[final] == v
      && (forall n :: n in files && n != tmp && n != final ==> r[n] == files[n])
  {
  }

  /** The merge of a prefix never removes or changes a file its own glob
      matches. */
  lemma MergeKeepsInputs(files: Files, prefix: string, windowId: string)
    ensures forall n :: n in files && Matches(n, prefix) ==>
      n in MergePrefix(files, prefix, windowId) && MergePrefix(files, prefix, windowId)[n] == files[n]
  {
    OutputsDoNotMatch(prefix, windowId, prefix);
    var names := MatchingNames(files, prefix);
    var dfs := Frames(files, names);
    var tmp, final := TmpName(prefix, windowId), FinalName(prefix);
    if names != [] && dfs != [] {
      assert |tmp| > |final|;
      assert MergePrefix(files, prefix, windowId) == Replace(files[tmp := Readable(Concat(dfs))], tmp, final);
      ReplaceTmp(files, tmp, final, Readable(Concat(dfs)));
    }
  }

  /** The GSCM merge sees the same files as it would without the Material
      merge before it: the Material outputs do not match its glob. */
  lemma GscmUnaffectedByMaterial(files: Files, windowId: string)
    ensures var m := MergePrefix(files, "Material", windowId);
      var names := MatchingNames(files, "GSCM");
      MatchingNames(m, "GSCM") == names && Frames(m, names) == Frames(files, names)
  {
    var m := MergePrefix(files, "Material", windowId);
    OutputsDoNotMatch("Material", windowId, "GSCM");
    assert forall n :: n in m && Matches(n, "GSCM") ==> n in files && m[n] == files[n];
    assert forall n :: n in files && Matches(n, "GSCM") ==> n in m;
    assert (set n | n in m && Matches(n, "GSCM")) == (set n | n in files && Matches(n, "GSCM"));
    FramesAgree(m, files, MatchingNames(files, "GSCM"));
  }

  // ---- the pipelines' steps ----

  /** What a pipeline acts on: the Redis side and the CSV output
      directory. */
  datatype Sys = Sys(world: World, files: Files)

  /** The steps in order, stopping at the first that raises: the state it
      leaves, the steps that completed and the error, if any. */
  function Run<T>(sys: Sys, steps: seq<T>, step: (T, Sys) -> (Sys, Result<()>)): (Sys, seq<T>, Result<()>)
    decreases |steps|
  {
    if steps == [] then (sys, [], Ok(()))
    else
      var (s1, r1) := step(steps[0], sys);
      if r1.Err? then (s1, [], r1)
      else Prepend([steps[0]], Run(s1, steps[1..], step))
  }

  function Prepend<T>(d: seq<T>, t: (Sys, seq<T>, Result<()>)): (Sys, seq<T>, Result<()>) {
    (t.0, d + t.1, t.2)
  }

  /** The completed steps are a prefix of the plan; the run succeeds exactly
      when all of them complete; and a failed run is the prefix followed by
      the one step that raised, whose error and state it returns. */
  lemma {:induction false} RunAborts<T>(sys: Sys, steps: seq<T>, step: (T, Sys) -> (Sys, Result<()>))
    ensures var (s, done, r) := Run(sys, steps, step);
      |done| <= |steps| && done == steps[..|done|] && (r.Ok? <==> done == steps)
    ensures var (s, done, r) := Run(sys, steps, step);
      r.Err? ==> (|done| < |steps|
        && Run(sys, steps[..|done|], step).1 == done && Run(sys, steps[..|done|], step).2.Ok?
        && step(steps[|done|], Run(sys, steps[..|done|], step).0) == (s, r))
    decreases |steps|
  {
    if steps != [] {
      var (s1, r1) := step(steps[0], sys);
      if r1.Ok? {
        RunAborts(s1, steps[1..], step);
        var (s, done', r) := Run(s1, steps[1..], step);
        var k := |done'|;
        assert Run(sys, steps, step) == (s, [steps[0]] + done', r);
        if r.Err? {
          var pre := steps[..k + 1];
          assert pre[0] == steps[0] && pre[1..] == steps[1..][..k];
          assert Run(sys, pre, step) == Prepend([steps[0]], Run(s1, steps[1..][..k], step));
          assert steps[k + 1] == steps[1..][k];
        }
      } else {
        assert steps[..0] == [];
      }
    }
  }

  lemma PrependNone<T>(t: (Sys, seq<T>, Result<()>))
    ensures Prepend([], t) == t
  {
    assert [] + t.1 == t.1;
    assert Prepend([], t) == (t.0, t.1, t.2);
  }

  lemma PrependTwice<T>(a: seq<T>, b: seq<T>, t: (Sys, seq<T>, Result<()>))
    ensures Prepend(a, Prepend(b, t)) == Prepend(a + b, t)
  {
    assert a + (b + t.1) == (a + b) + t.1;
  }

  /** A step that succeeds is followed by the rest of the plan. */
  lemma RunOk<T>(sys: Sys, steps: seq<T>, step: (T, Sys) -> (Sys, Result<()>))
    requires steps != [] && step(steps[0], sys).1.Ok?
    ensures Run(sys, steps, step) == Prepend([steps[0]], Run(step(steps[0], sys).0, steps[1..], step))
  {
  }

  /** A step that raises ends the plan. */
  lemma RunErr<T>(sys: Sys, steps: seq<T>, step: (T, Sys) -> (Sys, Result<()>))
    requires steps != [] && step(steps[0], sys).1.Err?
    ensures Run(sys, steps, step) == (step(steps[0], sys).0, [], step(steps[0], sys).1)
  {
  }

  /** The clock readings a run takes: the window of each current_window_id()
      call and the created_at readings of each enqueue call. */
  datatype Clocks = Clocks(salesWindow: Instant, mergeWindow: Instant, userWindow: Instant,
                           salesStamps: nat -> string, userStamps: nat -> string)

  /** ORACLE().fetch_sales_org_code() then fetch_ai_users(); either may
      raise. */
  function FetchSpec(salesOrgIds: Result<seq<string>>, userIds: Result<seq<seq<string>>>): Result<()> {
    if salesOrgIds.Err? then Err(salesOrgIds.error)
    else if userIds.Err? then Err(userIds.error)
    else Ok(())
  }

  function GetOr<T>(r: Result<T>, default: T): T {
    if r.Ok? then r.value else default
  }

  function EnqueueStep(sys: Sys, key: string, recs: seq<Result<Fields>>): (Sys, Result<()>) {
    var (s, r) := EnqueueSpec(sys.world.store, key, recs);
    (sys.(world := sys.world.WithStore(s)), r)
  }

  function SalesOrgStep(sys: Sys, ids: Result<seq<string>>, c: Clocks): (Sys, Result<()>) {
    EnqueueStep(sys, SALES_ORG_QUEUE, SalesOrgRecords(GetOr(ids, []), WindowOf(c.salesWindow), c.salesStamps))
  }

  function AdaptiveCardStep(sys: Sys, users: Result<seq<seq<string>>>, c: Clocks): (Sys, Result<()>) {
    EnqueueStep(sys, ADAPTIVE_CARD_QUEUE, AdaptiveCardRecords(GetOr(users, []), WindowOf(c.userWindow), c.userStamps))
  }

  function MergeStep(sys: Sys, c: Clocks): (Sys, Result<()>) {
    (sys.(files := MergeAll(sys.files, PREFIXES, WindowOf(c.mergeWindow))), Ok(()))
  }

  // ---- run_pipeline_once ----

  /** A child process running a worker module: its exit code, and the store
      and directory it leaves behind. */
  datatype Process = Process(exitCode: int, effect: (Store, Files) -> (Store, Files))

  function CalledProcessError(rc: int): string {
    "CalledProcessError: returned non-zero exit status " + Text.IntToString(rc)
  }

  /** _run_worker_once: subprocess.run(..., check=True) waits for the child
      and raises when its exit code is not zero. */
  function RunOnceSpec(sys: Sys, p: Process): (Sys, Result<()>) {
    var (s, f) := p.effect(sys.world.store, sys.files);
    (Sys(sys.world.WithStore(s), f), if p.exitCode == 0 then Ok(()) else Err(CalledProcessError(p.exitCode)))
  }

  method RunWorkerOnce(host: Host, dir: Directory, p: Process) returns (r: Result<()>)
    modifies host, dir
    ensures (Sys(host.State(), dir.files), r) == RunOnceSpec(Sys(old(host.State()), old(dir.files)), p)
  {
    var (s, f) := p.effect(host.store, dir.files);
    host.store := s;
    dir.files := f;
    if p.exitCode == 0 {
      r := Ok(());
    } else {
      r := Err(CalledProcessError(p.exitCode));
    }
  }

  datatype Step = Fetch | EnqueueSalesOrg | RunSalesOrgWorker | Merge | EnqueueAdaptiveCard | RunAdaptiveCardWorker

  /** The steps of run_pipeline_once, in order; there is no drain wait. */
  const ONCE_ORDER: seq<Step> := [Fetch, EnqueueSalesOrg, RunSalesOrgWorker, Merge, EnqueueAdaptiveCard, RunAdaptiveCardWorker]

  /** What a run is given: the two fetched lists, the clock readings and the
      two worker processes. */
  datatype Inputs = Inputs(salesOrgIds: Result<seq<string>>, userIds: Result<seq<seq<string>>>, clocks: Clocks,
                           salesWorker: Process, adaptiveWorker: Process)

  function OnceStep(inp: Inputs, st: Step, sys: Sys): (Sys, Result<()>) {
    match st
    case Fetch => (sys, FetchSpec(inp.salesOrgIds, inp.userIds))
    case EnqueueSalesOrg => SalesOrgStep(sys, inp.salesOrgIds, inp.clocks)
    case RunSalesOrgWorker => RunOnceSpec(sys, inp.salesWorker)
    case Merge => MergeStep(sys, inp.clocks)
    case EnqueueAdaptiveCard => AdaptiveCardStep(sys, inp.userIds, inp.clocks)
    case RunAdaptiveCardWorker => RunOnceSpec(sys, inp.adaptiveWorker)
  }

  function OnceStepFn(inp: Inputs): (Step, Sys) -> (Sys, Result<()>) {
    (st, sys) => OnceStep(inp, st, sys)
  }

  /** check=True: a sales-org worker that exits non-zero raises
      CalledProcessError after the fetch and the enqueue, so the merge and
      the adaptive-card phase never run; the directory is what the child
      left. */
  lemma SalesWorkerFailureAborts(sys: Sys, inp: Inputs)
    requires FetchSpec(inp.salesOrgIds, inp.userIds).Ok?
    requires SalesOrgStep(sys, inp.salesOrgIds, inp.clocks).1.Ok?
    requires inp.salesWorker.exitCode != 0
    ensures var s1 := SalesOrgStep(sys, inp.salesOrgIds, inp.clocks).0;
      Run(sys, ONCE_ORDER, OnceStepFn(inp))
        == (RunOnceSpec(s1, inp.salesWorker).0, [Fetch, EnqueueSalesOrg], Err(CalledProcessError(inp.salesWorker.exitCode)))
  {
    var f := OnceStepFn(inp);
    var steps := ONCE_ORDER;
    var s1 := SalesOrgStep(sys, inp.salesOrgIds, inp.clocks).0;
    assert f(steps[0], sys) == (sys, Ok(()));
    RunOk(sys, steps, f);
    assert steps[1..][0] == EnqueueSalesOrg;
    RunOk(sys, steps[1..], f);
    assert steps[1..][1..] == steps[2..];
    assert steps[2..][0] == RunSalesOrgWorker;
    RunErr(s1, steps[2..], f);
    PrependTwice([steps[0]], [steps[1]], Run(s1, steps[2..], f));
    assert [steps[0]] + [steps[1]] + [] == [Fetch, EnqueueSalesOrg];
  }

  /** One step of run_pipeline_once against the host and the directory. */
  method OnceStepOn(host: Host, dir: Directory, inp: Inputs, st: Step) returns (r: Result<()>)
    modifies host, dir
    ensures (Sys(host.State(), dir.files), r) == OnceStep(inp, st, Sys(old(host.State()), old(dir.files)))
  {
    match st
    case Fetch =>
      r := FetchSpec(inp.salesOrgIds, inp.userIds);
    case EnqueueSalesOrg =>
      r := EnqueueSalesOrgJobs(host, GetOr(inp.salesOrgIds, []), inp.clocks.salesWindow, inp.clocks.salesStamps);
    case RunSalesOrgWorker =>
      r := RunWorkerOnce(host, dir, inp.salesWorker);
    case Merge =>
      DoMergeAfterSalesOrg(dir, inp.clocks.mergeWindow);
      r := Ok(());
    case EnqueueAdaptiveCard =>
      r := EnqueueAdaptiveCardJobs(host, GetOr(inp.userIds, []), inp.clocks.userWindow, inp.clocks.userStamps);
    case RunAdaptiveCardWorker =>
      r := RunWorkerOnce(host, dir, inp.adaptiveWorker);
  }

  /** The steps of a plan, one after the other, against the host and the
      directory. */
  method RunSteps(host: Host, dir: Directory, inp: Inputs, steps: seq<Step>) returns (done: seq<Step>, r: Result<()>)
    modifies host, dir
    ensures (Sys(host.State(), dir.files), done, r)
      == Run(Sys(old(host.State()), old(dir.files)), steps, OnceStepFn(inp))
  {
    ghost var f := OnceStepFn(inp);
    done := [];
    var k := 0;
    assert steps[k..] == steps;
    ghost var t := Run(Sys(host.State(), dir.files), steps[k..], f);
    PrependNone(t);
    while k < |steps|
      invariant 0 <= k <= |steps|
      invariant Run(Sys(old(host.State()), old(dir.files)), steps, f)
        == Prepend(done, Run(Sys(host.State(), dir.files), steps[k..], f))
    {
      ghost var before := Sys(host.State(), dir.files);
      ghost var rest := steps[k..];
      r := OnceStepOn(host, dir, inp, steps[k]);
      assert f(rest[0], before) == (Sys(host.State(), dir.files), r);
      if r.Err? {
        RunErr(before, rest, f);
        assert done + [] == done;
        return;
      }
      RunOk(before, rest, f);
      assert rest[1..] == steps[k + 1..];
      PrependTwice(done, [steps[k]], Run(Sys(host.State(), dir.files), steps[k + 1..], f));
      done := done + [steps[k]];
      k := k + 1;
    }
    assert steps[k..] == [];
    assert done + [] == done;
    r := Ok(());
  }

  /** run_pipeline_once: the steps in their fixed order; nothing catches an
      exception, so the first step that raises ends the run. */
  method RunPipelineOnce(host: Host, dir: Directory, inp: Inputs) returns (done: seq<Step>, r: Result<()>)
    modifies host, dir
    ensures (Sys(host.State(), dir.files), done, r)
      == Run(Sys(old(host.State()), old(dir.files)), ONCE_ORDER, OnceStepFn(inp))
  {
    done, r := RunSteps(host, dir, inp, ONCE_ORDER);
  }
}
