/** The sales-org worker: one message per sales organisation, whose work
    builds the material and GSCM frames and writes each to a CSV file named
    after the organisation. */
module SalesOrgWorker {
  import opened Wrappers
  import opened Text
  import opened Redis
  import opened Runtime
  import opened Retry
  import opened Config
  import opened Workers

  const STAGE := "sales_org_fetch"

  // ---- _safe ----

  /** The characters the file-name pattern keeps: letters, digits, '_',
      '-', 'T', ':' and '.'. */
  predicate Allowed(c: char) {
    ('A' <= c <= 'Z') || ('a' <= c <= 'z') || ('0' <= c <= '9') || c == '_' || c == '-' || c == 'T' || c == ':' || c == '.'
  }

  function SafeChar(c: char): (r: char)
    ensures Allowed(r)
    ensures Allowed(c) ==> r == c
  {
    if Allowed(c) then c else '-'
  }

  /** _safe: every character outside the pattern becomes '-'. */
  function Safe(s: string): (r: string)
    ensures |r| == |s|
    ensures forall i :: 0 <= i < |s| ==> r[i] == SafeChar(s[i])
  {
    seq(|s|, i requires 0 <= i < |s| => SafeChar(s[i]))
  }

  /** The result is made of allowed characters only; the allowed characters
      of the input are kept in place and every other one is '-'. */
  lemma SafeKeepsAllowed(s: string)
    ensures forall i :: 0 <= i < |s| ==> Allowed(Safe(s)[i])
    ensures forall i :: 0 <= i < |s| && Allowed(s[i]) ==> Safe(s)[i] == s[i]
    ensures forall i :: 0 <= i < |s| && !Allowed(s[i]) ==> Safe(s)[i] == '-'
  {
  }

  /** _safe changes a name exactly when it holds a character outside the
      pattern. */
  lemma SafeIdentityIff(s: string)
    ensures Safe(s) == s <==> forall i :: 0 <= i < |s| ==> Allowed(s[i])
  {
    if Safe(s) == s {
      forall i | 0 <= i < |s| ensures Allowed(s[i]) {
        assert Safe(s)[i] == s[i];
      }
    }
  }

  lemma SafeIdempotent(s: string)
    ensures Safe(Safe(s)) == Safe(s)
  {
    SafeIdentityIff(Safe(s));
  }

  /** Two organisations whose ids differ only in replaced characters share
      one file name, so the later write replaces the earlier one. */
  lemma SafeCollides()
    ensures Safe("EU/01") == Safe("EU 01")
  {
    assert Safe("EU/01") == "EU-01";
    assert Safe("EU 01") == "EU-01";
  }

  // ---- _save_df ----

  /** A data frame: its column labels and its rows; an absent frame is None. */
  datatype Frame = Frame(columns: seq<string>, rows: seq<seq<string>>)

  /** DataFrame.empty: true when either axis has length 0, so a frame with
      rows but no columns is empty too. */
  predicate Empty(df: Frame) {
    df.columns == [] || df.rows == []
  }

  /** The file _save_df writes: first the temporary file, then the rename
      over the final name. */
  datatype Saved = Saved(tmp: string, final: string)

  /** _save_df: nothing for a missing or empty frame; otherwise
      "{kind}_{_safe(sales_org_id)}.csv" through "<name>.tmp". The window id
      is taken but not used. */
  function SaveDf(df: Option<Frame>, kind: string, salesOrgId: string, windowId: string): Option<Saved> {
    if df.None? || Empty(df.value) then None
    else
      var fname := kind + "_" + Safe(salesOrgId) + ".csv";
      Some(Saved(fname + ".tmp", fname))
  }

  /** None exactly for a missing or empty frame; otherwise the final name
      is the kind, '_', the sanitised id and ".csv", and the temporary name
      is the final name plus ".tmp". */
  lemma SaveDfName(df: Option<Frame>, kind: string, salesOrgId: string, windowId: string)
    ensures SaveDf(df, kind, salesOrgId, windowId).None? <==> df.None? || df.value.columns == [] || df.value.rows == []
    ensures SaveDf(df, kind, salesOrgId, windowId).Some? ==>
      var saved := SaveDf(df, kind, salesOrgId, windowId).value;
      saved.final == kind + "_" + Safe(salesOrgId) + ".csv" && saved.tmp == saved.final + ".tmp"
  {
  }

  /** A frame with rows but no columns is empty and is not written. */
  lemma RowsWithoutColumnsSkipped(rows: seq<seq<string>>, kind: string, salesOrgId: string, windowId: string)
    ensures SaveDf(Some(Frame([], rows)), kind, salesOrgId, windowId).None?
  {
  }

  /** The window id never reaches the file name: every window overwrites
      the same file. */
  lemma SaveDfIgnoresWindow(df: Option<Frame>, kind: string, salesOrgId: string, w1: string, w2: string)
    ensures SaveDf(df, kind, salesOrgId, w1) == SaveDf(df, kind, salesOrgId, w2)
  {
  }

  /** The material and the GSCM file of one organisation never share a
      name. */
  lemma KindsDoNotCollide(df1: Option<Frame>, df2: Option<Frame>, salesOrgId: string, windowId: string)
    requires SaveDf(df1, "Material", salesOrgId, windowId).Some? && SaveDf(df2, "GSCM", salesOrgId, windowId).Some?
    ensures SaveDf(df1, "Material", salesOrgId, windowId).value.final != SaveDf(df2, "GSCM", salesOrgId, windowId).value.final
  {
    assert SaveDf(df1, "Material", salesOrgId, windowId).value.final[0] == 'M';
    assert SaveDf(df2, "GSCM", salesOrgId, windowId).value.final[0] == 'G';
  }

  /** The files one run of the work writes, material first: the frames
      themselves come from make_sales_org_pool_one and
      make_sales_org_total_pool_one, which are not part of this model. */
  function WrittenFiles(mat: Option<Frame>, gscm: Option<Frame>, salesOrgId: string, windowId: string): (r: seq<string>)
    ensures |r| <= 2
    ensures forall i :: 0 <= i < |r| ==> r[i] == "Material_" + Safe(salesOrgId) + ".csv" || r[i] == "GSCM_" + Safe(salesOrgId) + ".csv"
  {
    var m := SaveDf(mat, "Material", salesOrgId, windowId);
    var g := SaveDf(gscm, "GSCM", salesOrgId, windowId);
    (if m.Some? then [m.value.final] else []) + (if g.Some? then [g.value.final] else [])
  }

  // ---- the worker ----

  /** The consumer name of this worker. */
  function ConsumerName(env: Option<string>, hostname: string, pid: nat): string {
    WorkerName(env, SALES_ORG_WORKER_NAME, hostname, pid)
  }

  /** handle_sales_org_message */
  method HandleSalesOrgMessage(rh: RetryHandler, id: nat, fields: Fields, failedAt: string)
    modifies rh.host
    ensures rh.host.State()
      == HandleSpec(old(rh.host.State()), rh.host.work, rh.stream, rh.group, STAGE, Message(id, fields), failedAt)
  {
    HandleMessage(rh, STAGE, id, fields, failedAt);
  }

  /** run_batch_once: a failing XPENDING counts as nothing pending. */
  method RunBatchOnce(rh: RetryHandler, failedAt: string, fuel: nat) returns (res: RunResult)
    modifies rh.host
    ensures (rh.host.State(), res)
      == RunBatchSpec(old(rh.host.State()), rh.host.work, rh.stream, rh.group, rh.consumer, STAGE, SwallowPendingError, failedAt, fuel)
  {
    res := Workers.RunBatchOnce(rh, STAGE, SwallowPendingError, failedAt, fuel);
  }

  /** A sales-org message that fails for good calls the work 16 times
      (four handler attempts, each retried four times by the decorator) and
      then writes one dead-letter record holding the last error; it is
      never acknowledged. */
  lemma PermanentFailure(w: World, work: nat -> Outcome, stream: string, group: string,
                         m: Message, failedAt: string)
    requires StageMatches(m.fields, STAGE)
    requires forall c :: w.calls <= c < w.calls + 16 ==> work(c).Raised?
    ensures var w' := HandleSpec(w, work, stream, group, STAGE, m, failedAt);
      w'.calls == w.calls + 16
      && w'.store == MoveToDeadLetter(w.store, stream, m.id, m.fields, work(w.calls + 15).message, failedAt)
  {
    SixteenCalls(w, work, JobFor(stream, group, m, failedAt));
  }

  /** A message of another stage costs nothing: no call, no XACK, no
      dead-letter record. */
  lemma OtherStageSkipped(w: World, work: nat -> Outcome, stream: string, group: string, m: Message, failedAt: string)
    requires "stage" !in m.fields || m.fields["stage"] != STAGE
    ensures HandleSpec(w, work, stream, group, STAGE, m, failedAt) == w
  {
  }
}
