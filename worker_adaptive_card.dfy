/** The adaptive-card worker: one message per user, whose work builds a
    scenario result for the user and window, runs the scenario on it and
    stores the pages; and the JSON payload and file name of those pages. */
module AdaptiveCardWorker {
  import opened Wrappers
  import opened Text
  import opened Json
  import opened Redis
  import opened Runtime
  import opened Retry
  import opened Config
  import opened Workers
  import opened ScenarioPreprocessor
  import opened ActionRegistry

  const STAGE := "adaptive_card_generation"
  const PAYLOAD_SOURCE := "scenario_execution.execute_dair"

  // ---- _result_to_json_payload ----

  /** The seven pages, each `sr.PAGE or {}`. */
  function Pages(attrs: map<string, Json>): map<string, Json> {
    map p | p in PAGE_NAMES :: Or(Get(attrs, p, Null), EmptyObject)
  }

  /** The payload of a result: user, window, pages and meta. The time
      stamp is the UTC time of the call, given here as `generatedAt`. */
  function Payload(userId: string, chatroomId: string, attrs: map<string, Json>, generatedAt: string): Json {
    Object(map[
      "user_id" := Str(userId),
      "window_id" := Str(chatroomId),
      "pages" := Object(Pages(attrs)),
      "meta" := Object(map["generated_at" := Str(generatedAt), "source" := Str(PAYLOAD_SOURCE)])])
  }

  /** _result_to_json_payload, which the worker defines but never calls. */
  function ResultToJsonPayload(sr: ScenarioResult, generatedAt: string): Json
    reads sr
  {
    Payload(sr.userId, sr.chatroomId, sr.attrs, generatedAt)
  }

  /** The payload has exactly the keys user_id, window_id, pages and meta;
      window_id is the chat-room id; pages has exactly the seven page keys,
      a truthy page kept as it is and every other (None, {}, missing)
      replaced by {}. */
  lemma PayloadShape(userId: string, chatroomId: string, attrs: map<string, Json>, generatedAt: string)
    ensures var p := Payload(userId, chatroomId, attrs, generatedAt);
      p.Object? && p.fields.Keys == {"user_id", "window_id", "pages", "meta"}
      && p.fields["user_id"] == Str(userId) && p.fields["window_id"] == Str(chatroomId)
      && p.fields["pages"].Object? && p.fields["pages"].fields.Keys == PAGE_NAMES
      && (forall k :: k in PAGE_NAMES && k in attrs && Truthy(attrs[k]) ==> p.fields["pages"].fields[k] == attrs[k])
      && (forall k :: k in PAGE_NAMES && (k !in attrs || !Truthy(attrs[k])) ==> p.fields["pages"].fields[k] == EmptyObject)
  {
  }

  /** `page or {}` of a dict is {} exactly when the dict is empty. */
  lemma OrEmptyObject(v: Json)
    requires v.Object?
    ensures Or(v, EmptyObject) == EmptyObject <==> v == EmptyObject
  {
  }

  /** After build_page a page is {} exactly when it was not built:
      SOSE00 and SODE00 when top5_accounts is empty, PGSE00 and PGDE00 when
      top5_prdgs is, MODE00 when both are; OPTR00 always holds its eleven
      keys. */
  lemma PagesAfterBuildPage(attrs: map<string, Json>, lapa: Json)
    ensures var pages := Pages(PageAttrs(attrs, lapa));
      var acc := Truthy(SafeGetAttr(attrs, "top5_accounts", EmptyList));
      var prd := Truthy(SafeGetAttr(attrs, "top5_prdgs", EmptyList));
      (pages["SOSE00"] == EmptyObject <==> !acc) && (pages["SODE00"] == EmptyObject <==> !acc)
      && (pages["PGSE00"] == EmptyObject <==> !prd) && (pages["PGDE00"] == EmptyObject <==> !prd)
      && (pages["MODE00"] == EmptyObject <==> !acc && !prd)
      && pages["OPTR00"] == Object(BuildOPTR00(attrs))
      && pages["LAPA00"] == Or(lapa, EmptyObject)
  {
    var r := PageAttrs(attrs, lapa);
    var acc := Truthy(SafeGetAttr(attrs, "top5_accounts", EmptyList));
    var prd := Truthy(SafeGetAttr(attrs, "top5_prdgs", EmptyList));
    BuildPagePairs(attrs, lapa);
    PagesPresentIff(attrs, lapa);
    OPTR00NonEmpty(attrs);
    PagesOf(r, acc, prd);
  }

  /** The page facts for any result holding the seven pages, each of the
      five optional ones a dict that is empty exactly when its condition
      fails, and OPTR00 a non-empty dict. */
  lemma PagesOf(r: map<string, Json>, acc: bool, prd: bool)
    requires PAGE_NAMES <= r.Keys
    requires r["SOSE00"].Object? && (r["SOSE00"] != EmptyObject <==> acc)
    requires r["SODE00"].Object? && (r["SODE00"] != EmptyObject <==> acc)
    requires r["PGSE00"].Object? && (r["PGSE00"] != EmptyObject <==> prd)
    requires r["PGDE00"].Object? && (r["PGDE00"] != EmptyObject <==> prd)
    requires r["MODE00"].Object? && (r["MODE00"] != EmptyObject <==> acc || prd)
    requires r["OPTR00"].Object? && r["OPTR00"] != EmptyObject
    ensures var pages := Pages(r);
      (pages["SOSE00"] == EmptyObject <==> !acc) && (pages["SODE00"] == EmptyObject <==> !acc)
      && (pages["PGSE00"] == EmptyObject <==> !prd) && (pages["PGDE00"] == EmptyObject <==> !prd)
      && (pages["MODE00"] == EmptyObject <==> !acc && !prd)
      && pages["OPTR00"] == r["OPTR00"]
      && pages["LAPA00"] == Or(r["LAPA00"], EmptyObject)
  {
    PageEmptyIff(r, "SOSE00", acc);
    PageEmptyIff(r, "SODE00", acc);
    PageEmptyIff(r, "PGSE00", prd);
    PageEmptyIff(r, "PGDE00", prd);
    PageEmptyIff(r, "MODE00", acc || prd);
    PageEntry(r, "OPTR00");
    OrEmptyObject(r["OPTR00"]);
    PageEntry(r, "LAPA00");
  }

  /** The payload's entry for a page the result holds is `page or {}`. */
  lemma PageEntry(attrs: map<string, Json>, p: string)
    requires p in PAGE_NAMES && p in attrs
    ensures Pages(attrs)[p] == Or(attrs[p], EmptyObject)
  {
  }

  /** A dict page that is non-empty exactly when `built` holds reads as {}
      in the payload exactly when `built` fails. */
  lemma PageEmptyIff(attrs: map<string, Json>, p: string, built: bool)
    requires p in PAGE_NAMES && p in attrs && attrs[p].Object?
    requires attrs[p] != EmptyObject <==> built
    ensures Pages(attrs)[p] == EmptyObject <==> !built
  {
    PageEntry(attrs, p);
    OrEmptyObject(attrs[p]);
  }

  /** The same pages, as the payload carries them. */
  lemma PayloadAfterBuildPage(userId: string, chatroomId: string, attrs: map<string, Json>, lapa: Json, generatedAt: string)
    ensures var pages := Payload(userId, chatroomId, PageAttrs(attrs, lapa), generatedAt).fields["pages"].fields;
      var acc := Truthy(SafeGetAttr(attrs, "top5_accounts", EmptyList));
      var prd := Truthy(SafeGetAttr(attrs, "top5_prdgs", EmptyList));
      (pages["SOSE00"] == EmptyObject <==> !acc) && (pages["PGSE00"] == EmptyObject <==> !prd)
      && (pages["MODE00"] == EmptyObject <==> !acc && !prd)
      && pages["OPTR00"] == Object(BuildOPTR00(attrs))
  {
    PagesAfterBuildPage(attrs, lapa);
  }

  // ---- _save_pages_json ----

  /** The temporary file and the final name the pages are written to. */
  datatype Saved = Saved(tmp: string, final: string)

  /** _save_pages_json: "AdaptiveCard_{user_id}.json" through
      "<name>.tmp"; the window id is taken but not used. The worker never
      calls it, so no pages file is written. */
  function SavePagesJson(payload: Json, windowId: string, userId: string): Saved {
    var fname := "AdaptiveCard_" + userId + ".json";
    Saved(fname + ".tmp", fname)
  }

  /** The name depends on the user alone: were the file written, every
      window would overwrite the user's one file; two users never share a
      file. */
  lemma SavePagesName(p1: Json, p2: Json, w1: string, w2: string, u1: string, u2: string)
    ensures SavePagesJson(p1, w1, u1).final == SavePagesJson(p2, w2, u1).final
    ensures SavePagesJson(p1, w1, u1).tmp == SavePagesJson(p1, w1, u1).final + ".tmp"
    ensures u1 != u2 ==> SavePagesJson(p1, w1, u1).final != SavePagesJson(p2, w2, u2).final
  {
    var head := "AdaptiveCard_";
    var n1 := SavePagesJson(p1, w1, u1).final;
    var n2 := SavePagesJson(p2, w2, u2).final;
    assert n1[|head|..|head| + |u1|] == u1;
    assert n2[|head|..|head| + |u2|] == u2;
    assert |n1| == |head| + |u1| + 5 && |n2| == |head| + |u2| + 5;
  }

  // ---- the scenario result of a message ----

  /** ScenarioResult(execution_id=window_id, sender_name=user_id,
      user_id=user_id, chatroom_id=window_id): the four identity fields
      are required strings, so a message without user_id or window_id makes
      the work raise. */
  method NewScenarioResult(fields: Fields) returns (r: Result<ScenarioResult>)
    ensures ("user_id" in fields && "window_id" in fields) <==> r.Ok?
    ensures r.Ok? ==> (fresh(r.value) && r.value.attrs == DefaultAttrs()
      && r.value.executionId == fields["window_id"] && r.value.chatroomId == fields["window_id"]
      && r.value.senderName == fields["user_id"] && r.value.userId == fields["user_id"])
  {
    if "user_id" !in fields || "window_id" !in fields {
      return Err("ValidationError");
    }
    var sr := new ScenarioResult(fields["window_id"], fields["user_id"], fields["user_id"], fields["window_id"]);
    return Ok(sr);
  }

  // ---- the worker ----

  function ConsumerName(env: Option<string>, hostname: string, pid: nat): string {
    WorkerName(env, ADAPTIVE_CARD_WORKER_NAME, hostname, pid)
  }

  /** handle_adaptive_card_message */
  method HandleAdaptiveCardMessage(rh: RetryHandler, id: nat, fields: Fields, failedAt: string)
    modifies rh.host
    ensures rh.host.State()
      == HandleSpec(old(rh.host.State()), rh.host.work, rh.stream, rh.group, STAGE, Message(id, fields), failedAt)
  {
    HandleMessage(rh, STAGE, id, fields, failedAt);
  }

  /** run_batch_once: XLEN then XPENDING, either failure escapes. */
  method RunBatchOnce(rh: RetryHandler, failedAt: string, fuel: nat) returns (res: RunResult)
    modifies rh.host
    ensures (rh.host.State(), res)
      == RunBatchSpec(old(rh.host.State()), rh.host.work, rh.stream, rh.group, rh.consumer, STAGE, RaisePendingError, failedAt, fuel)
  {
    res := Workers.RunBatchOnce(rh, STAGE, RaisePendingError, failedAt, fuel);
  }

  /** A message of another stage is skipped without a call, an XACK or a
      dead-letter record. */
  lemma OtherStageSkipped(w: World, work: nat -> Outcome, stream: string, group: string, m: Message, failedAt: string)
    requires "stage" !in m.fields || m.fields["stage"] != STAGE
    ensures HandleSpec(w, work, stream, group, STAGE, m, failedAt) == w
  {
  }

  /** With XPENDING failing on an empty stream this worker's loop stops
      with that error instead of exiting. */
  lemma PendingErrorEscapes(w: World, work: nat -> Outcome, stream: string, group: string, consumer: string,
                            failedAt: string, fuel: nat)
    requires fuel > 0
    requires var (s1, read) := w.store.ReadGroup(stream, group, consumer, BATCH_COUNT);
      read == Ok([]) && s1.Length(stream) == Ok(0) && s1.PendingCount(stream, group).Err?
    ensures var (s1, _) := w.store.ReadGroup(stream, group, consumer, BATCH_COUNT);
      DrainFrom(w, work, stream, group, consumer, STAGE, RaisePendingError, failedAt, fuel)
        == (w.WithStore(s1), Crashed(s1.PendingCount(stream, group).error))
  {
  }
}
