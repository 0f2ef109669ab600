/** The stream monitor: a stage's status from its stream length and pending
    count, and the whole pipeline's status from its two stages. */
module Monitor {
  import opened Wrappers
  import opened Redis

  datatype Status = Completed | Processing | Queued | Idle | Error

  /** The status dictionary of one stage. */
  datatype StreamStatus = StreamStatus(streamLength: int, pendingCount: int, status: Status)

  /** The decision table over (length, pending), in the order the branches
      are tried. Counts are integers so that the table is total. */
  function Classify(length: int, pending: int): Status {
    if length == 0 && pending == 0 then Completed
    else if pending > 0 then Processing
    else if length > 0 then Queued
    else Idle
  }

  /** get_stream_status: XLEN then XPENDING; either failing (a missing group
      makes XPENDING fail) gives zeros and "error". */
  function StreamStatusOf(s: Store, stream: string, group: string): (r: StreamStatus)
    ensures r.status == Error <==> s.Length(stream).Err? || s.PendingCount(stream, group).Err?
    ensures r.status != Error ==>
      r.streamLength == |s.Entries(stream)| && r.pendingCount == |s.Pending(stream, group)|
      && r.status == Classify(r.streamLength, r.pendingCount)
    ensures r.status == Error ==> r == StreamStatus(0, 0, Error)
  {
    var length := s.Length(stream);
    var pending := s.PendingCount(stream, group);
    if length.Err? || pending.Err? then StreamStatus(0, 0, Error)
    else StreamStatus(length.value, pending.value, Classify(length.value, pending.value))
  }

  /** "completed" exactly when the stream is empty and nothing is pending. */
  lemma CompletedIff(length: int, pending: int)
    ensures Classify(length, pending) == Completed <==> length == 0 && pending == 0
  {
  }

  /** Anything pending means "processing", whatever the length. */
  lemma ProcessingIff(length: int, pending: int)
    ensures Classify(length, pending) == Processing <==> pending > 0
  {
  }

  /** "queued": entries in the stream and nothing pending. */
  lemma QueuedIff(length: nat, pending: nat)
    ensures Classify(length, pending) == Queued <==> pending == 0 && length > 0
  {
  }

  /** The "idle" branch needs a negative count, so real counts never reach it. */
  lemma IdleUnreachable(length: int, pending: int)
    ensures Classify(length, pending) == Idle <==> pending <= 0 && length <= 0 && (length, pending) != (0, 0)
    ensures length >= 0 && pending >= 0 ==> Classify(length, pending) != Idle
  {
  }

  /** Because XACK never shortens a stream, a stage whose stream ever held
      an entry is never reported "completed" until the stream is deleted. */
  lemma NonEmptyNeverCompleted(s: Store, stream: string, group: string)
    requires |s.Entries(stream)| > 0
    ensures StreamStatusOf(s, stream, group).status != Completed
  {
  }

  datatype PipelineStatus = PipelineCompleted | Phase1SalesOrg | Phase2AdaptiveCard | PipelineIdle

  predicate Active(st: Status) {
    st == Processing || st == Queued
  }

  /** get_pipeline_status's decision over the two stage statuses. */
  function PipelineOf(sales: Status, adaptive: Status): PipelineStatus {
    if sales == Completed && adaptive == Completed then PipelineCompleted
    else if Active(sales) then Phase1SalesOrg
    else if Active(adaptive) then Phase2AdaptiveCard
    else PipelineIdle
  }

  /** get_pipeline_status: both stages, then the decision. */
  function PipelineStatusOf(s: Store, salesStream: string, salesGroup: string,
                            adaptiveStream: string, adaptiveGroup: string): (r: (PipelineStatus, StreamStatus, StreamStatus))
    ensures r.1 == StreamStatusOf(s, salesStream, salesGroup)
    ensures r.2 == StreamStatusOf(s, adaptiveStream, adaptiveGroup)
    ensures r.0 == PipelineOf(r.1.status, r.2.status)
  {
    var sales := StreamStatusOf(s, salesStream, salesGroup);
    var adaptive := StreamStatusOf(s, adaptiveStream, adaptiveGroup);
    (PipelineOf(sales.status, adaptive.status), sales, adaptive)
  }

  /** The pipeline is completed exactly when both stages are. */
  lemma PipelineCompletedIff(sales: Status, adaptive: Status)
    ensures PipelineOf(sales, adaptive) == PipelineCompleted <==> sales == Completed && adaptive == Completed
  {
  }

  /** Phase one takes priority: an active first stage reports phase 1
      whatever the second stage is doing. */
  lemma Phase1Priority(sales: Status, adaptive: Status)
    ensures PipelineOf(sales, adaptive) == Phase1SalesOrg <==> Active(sales)
  {
  }

  /** Phase 2 is reported only while the first stage is quiet. */
  lemma Phase2Iff(sales: Status, adaptive: Status)
    ensures PipelineOf(sales, adaptive) == Phase2AdaptiveCard <==> !Active(sales) && Active(adaptive)
  {
  }

  /** One failing read (XLEN or XPENDING, of either stage) makes that stage
      "error", and the pipeline is then never reported completed. */
  lemma FailingReadNeverCompleted(s: Store, salesStream: string, salesGroup: string,
                                  adaptiveStream: string, adaptiveGroup: string)
    requires || s.Length(salesStream).Err? || s.PendingCount(salesStream, salesGroup).Err?
             || s.Length(adaptiveStream).Err? || s.PendingCount(adaptiveStream, adaptiveGroup).Err?
    ensures var r := PipelineStatusOf(s, salesStream, salesGroup, adaptiveStream, adaptiveGroup);
      (r.1.status == Error || r.2.status == Error) && r.0 != PipelineCompleted
  {
  }

  /** Two stages whose reads fail read as "idle", not as an error. */
  lemma ErrorsReadAsIdle(s: Store, salesStream: string, salesGroup: string,
                         adaptiveStream: string, adaptiveGroup: string)
    requires || s.Length(salesStream).Err? || s.PendingCount(salesStream, salesGroup).Err?
    requires || s.Length(adaptiveStream).Err? || s.PendingCount(adaptiveStream, adaptiveGroup).Err?
    ensures PipelineStatusOf(s, salesStream, salesGroup, adaptiveStream, adaptiveGroup).0 == PipelineIdle
  {
  }

  /** With one stage failing, the other stage's activity decides. */
  lemma OneErrorStageOtherDecides(sales: Status, adaptive: Status)
    requires sales == Error || adaptive == Error
    ensures PipelineOf(sales, adaptive) == (if Active(sales) then Phase1SalesOrg
                                           else if Active(adaptive) then Phase2AdaptiveCard
                                           else PipelineIdle)
  {
  }
}
