/** The retry layer: process_with_retry (attempt, exponential back-off,
    XACK on success, dead-letter record on exhaustion), the retry_on_failure
    decorator, the pending listing and the claimer of long-idle entries.
    Delays are in milliseconds: 1.0 s is 1000, the decorator's 60.0 s cap is
    60000. */
module Retry {
  import opened Wrappers
  import opened Text
  import opened Redis
  import opened Runtime

  const DLQ_SUFFIX := ":dlq"
  /** retry_on_failure caps every delay at 60 seconds. */
  const DECORATOR_CAP: nat := 60_000

  function Pow2(n: nat): nat {
    if n == 0 then 1 else 2 * Pow2(n - 1)
  }

  /** min(base * 2^attempt, cap) */
  function Backoff(base: nat, cap: nat, attempt: nat): nat {
    if base * Pow2(attempt) <= cap then base * Pow2(attempt) else cap
  }

  /** The delays slept before retries 1..n, in order. */
  function Schedule(base: nat, cap: nat, from: nat, n: nat): (r: seq<nat>)
    ensures |r| == n
    ensures forall i :: 0 <= i < n ==> r[i] == Backoff(base, cap, from + i)
    decreases n
  {
    if n == 0 then [] else [Backoff(base, cap, from)] + Schedule(base, cap, from + 1, n - 1)
  }

  /** Sleeping one back-off delay and then the rest of the schedule is
      sleeping the whole schedule. */
  lemma SleepThenSchedule(sleeps: seq<nat>, base: nat, cap: nat, from: nat, n: nat)
    requires n > 0
    ensures (sleeps + [Backoff(base, cap, from)]) + Schedule(base, cap, from + 1, n - 1)
      == sleeps + Schedule(base, cap, from, n)
  {
    assert Schedule(base, cap, from, n) == [Backoff(base, cap, from)] + Schedule(base, cap, from + 1, n - 1);
  }

  /** The handler passed to process_with_retry: the work itself, or the work
      wrapped by retry_on_failure(maxRetries, baseDelay). */
  datatype Handler = Plain | Decorated(maxRetries: nat, baseDelay: nat)

  // ---- specification of retry_on_failure ----

  /** The decorator's wrapper from attempt number `attempt` on: the first
      successful call ends it; a failure sleeps and retries while attempts
      remain; the last failure is re-raised. */
  function DecoratedFrom(w: World, work: nat -> Outcome, maxRetries: nat, base: nat, attempt: nat): (World, Outcome)
    requires attempt <= maxRetries
    decreases maxRetries - attempt
  {
    var (w1, o) := w.Call(work);
    if o.Done? then (w1, o)
    else if attempt < maxRetries then
      DecoratedFrom(w1.Sleep(Backoff(base, DECORATOR_CAP, attempt)), work, maxRetries, base, attempt + 1)
    else (w1, o)
  }

  function Invoke(w: World, work: nat -> Outcome, h: Handler): (World, Outcome) {
    match h
    case Plain => w.Call(work)
    case Decorated(m, b) => DecoratedFrom(w, work, m, b, 0)
  }

  // ---- specification of process_with_retry ----

  /** The record written to `<stream>:dlq`: the original fields, then the
      original id, the last error text and the failure time, with
      retry_count overwritten. */
  function DeadLetterRecord(fields: Fields, id: nat, error: string, failedAt: string): Fields {
    fields + map[
      "original_message_id" := NatToString(id),
      "error_message" := error,
      "failed_at" := failedAt,
      "retry_count" := "max_exceeded"]
  }

  /** _move_to_dead_letter_queue: an XADD whose failure is swallowed. */
  function MoveToDeadLetter(s: Store, stream: string, id: nat, fields: Fields, error: string, failedAt: string): Store {
    s.Add(stream + DLQ_SUFFIX, DeadLetterRecord(fields, id, error, failedAt)).0
  }

  /** The body of the try block: run the handler, then XACK; an XACK error is
      caught like a handler error. */
  function Attempt(w: World, work: nat -> Outcome, h: Handler, stream: string, group: string, id: nat): (World, Outcome) {
    var (w1, o) := Invoke(w, work, h);
    if o.Raised? then (w1, o)
    else
      var (s2, r) := w1.store.Ack(stream, group, id);
      if r.Err? then (w1.WithStore(s2), Raised(r.error)) else (w1.WithStore(s2), Done)
  }

  /** What one call of process_with_retry asks for. */
  datatype Job = Job(stream: string, group: string, id: nat, fields: Fields, handler: Handler,
                     maxRetries: nat, baseDelay: nat, maxDelay: nat, failedAt: string)

  /** process_with_retry from attempt number `attempt` on. */
  function RetryFrom(w: World, work: nat -> Outcome, j: Job, attempt: nat): (World, bool)
    requires attempt <= j.maxRetries
    decreases j.maxRetries - attempt
  {
    var (w1, o) := Attempt(w, work, j.handler, j.stream, j.group, j.id);
    if o.Done? then (w1, true)
    else if attempt < j.maxRetries then
      RetryFrom(w1.Sleep(Backoff(j.baseDelay, j.maxDelay, attempt)), work, j, attempt + 1)
    else
      (w1.WithStore(MoveToDeadLetter(w1.store, j.stream, j.id, j.fields, o.message, j.failedAt)), false)
  }

  /** A failed attempt before the last sleeps its back-off delay and tries
      again. */
  lemma RetryAfterFailure(w: World, work: nat -> Outcome, j: Job, a: nat, w1: World, e: string)
    requires a < j.maxRetries
    requires Attempt(w, work, j.handler, j.stream, j.group, j.id) == (w1, Raised(e))
    ensures RetryFrom(w, work, j, a) == RetryFrom(w1.Sleep(Backoff(j.baseDelay, j.maxDelay, a)), work, j, a + 1)
  {
  }

  /** A failed last attempt goes to the dead-letter stream. */
  lemma RetryLastFailure(w: World, work: nat -> Outcome, j: Job, w1: World, e: string)
    requires Attempt(w, work, j.handler, j.stream, j.group, j.id) == (w1, Raised(e))
    ensures RetryFrom(w, work, j, j.maxRetries)
      == (w1.WithStore(MoveToDeadLetter(w1.store, j.stream, j.id, j.fields, e, j.failedAt)), false)
  {
  }

  /** RetryHandler: a connection and the (stream, group, consumer) it acts for. */
  class RetryHandler {
    const host: Host
    const stream: string
    const group: string
    const consumer: string

    constructor (host: Host, stream: string, group: string, consumer: string)
      ensures this.host == host && this.stream == stream && this.group == group && this.consumer == consumer
    {
      this.host := host;
      this.stream := stream;
      this.group := group;
      this.consumer := consumer;
    }

    /** process_with_retry */
    method ProcessWithRetry(id: nat, fields: Fields, handler: Handler, maxRetries: nat, baseDelay: nat,
                            maxDelay: nat, failedAt: string)
      returns (ok: bool)
      modifies host
      ensures (host.State(), ok)
        == RetryFrom(old(host.State()), host.work,
             Job(stream, group, id, fields, handler, maxRetries, baseDelay, maxDelay, failedAt), 0)
    {
      ghost var j := Job(stream, group, id, fields, handler, maxRetries, baseDelay, maxDelay, failedAt);
      ghost var w0 := host.State();
      var attempt := 0;
      while true
        invariant attempt <= maxRetries
        invariant RetryFrom(w0, host.work, j, 0) == RetryFrom(host.State(), host.work, j, attempt)
        decreases maxRetries - attempt
      {
        var o := CallHandler(host, handler);
        if o.Done? {
          var r := host.Xack(stream, group, id);
          if r.Ok? {
            return true;
          }
          o := Raised(r.error);
        }
        if attempt < maxRetries {
          host.Sleep(Backoff(baseDelay, maxDelay, attempt));
          attempt := attempt + 1;
        } else {
          MoveToDeadLetterQueue(id, fields, o.message, failedAt);
          return false;
        }
      }
    }

    /** _move_to_dead_letter_queue */
    method MoveToDeadLetterQueue(id: nat, fields: Fields, error: string, failedAt: string)
      modifies host
      ensures host.State() == old(host.State()).WithStore(MoveToDeadLetter(old(host.store), stream, id, fields, error, failedAt))
    {
      var _ := host.Xadd(stream + DLQ_SUFFIX, DeadLetterRecord(fields, id, error, failedAt));
    }
  }

  /** Calls the handler once: the bare work, or the decorated wrapper. */
  method CallHandler(host: Host, h: Handler) returns (o: Outcome)
    modifies host
    ensures (host.State(), o) == Invoke(old(host.State()), host.work, h)
  {
    match h
    case Plain =>
      o := host.Call();
    case Decorated(m, b) =>
      o := RetryOnFailure(host, m, b);
  }

  /** retry_on_failure(maxRetries, baseDelay) applied to the host's work. */
  method RetryOnFailure(host: Host, maxRetries: nat, baseDelay: nat) returns (o: Outcome)
    modifies host
    ensures (host.State(), o) == DecoratedFrom(old(host.State()), host.work, maxRetries, baseDelay, 0)
  {
    ghost var w0 := host.State();
    var attempt := 0;
    while true
      invariant attempt <= maxRetries
      invariant DecoratedFrom(w0, host.work, maxRetries, baseDelay, 0)
        == DecoratedFrom(host.State(), host.work, maxRetries, baseDelay, attempt)
      decreases maxRetries - attempt
    {
      o := host.Call();
      if o.Done? {
        return;
      }
      if attempt < maxRetries {
        host.Sleep(Backoff(baseDelay, DECORATOR_CAP, attempt));
        attempt := attempt + 1;
      } else {
        return;
      }
    }
  }

  // ---- properties ----

  lemma {:induction false} Pow2Monotone(i: nat, j: nat)
    requires i <= j
    ensures 1 <= Pow2(i) <= Pow2(j)
    decreases j
  {
    if j > i {
      Pow2Monotone(i, j - 1);
    } else if i > 0 {
      Pow2Monotone(i - 1, i - 1);
    }
  }

  lemma MulMonotone(a: nat, x: nat, y: nat)
    requires x <= y
    ensures a * x <= a * y
  {
  }

  /** Delays never exceed the cap, never shrink from one retry to the next,
      and never exceed the uncapped doubling base * 2^attempt. */
  lemma BackoffCappedAndGrowing(base: nat, cap: nat, i: nat, j: nat)
    requires i <= j
    ensures Backoff(base, cap, i) <= Backoff(base, cap, j) <= cap
    ensures Backoff(base, cap, i) <= base * Pow2(i)
  {
    Pow2Monotone(i, j);
    MulMonotone(base, Pow2(i), Pow2(j));
  }

  /** The decorator's wrapper returns the outcome of its last call: the
      first success, or the error of its final attempt. It calls the work at
      least once and at most maxRetries + 1 times, sleeps only between
      calls, and leaves the store alone. */
  lemma {:induction false} DecoratedReturnsLastCall(w: World, work: nat -> Outcome, m: nat, b: nat, a: nat)
    requires a <= m
    ensures var (w', o) := DecoratedFrom(w, work, m, b, a);
      w'.store == w.store
      && w.calls < w'.calls <= w.calls + (m - a) + 1
      && o == work(w'.calls - 1)
      && (forall c :: w.calls <= c < w'.calls - 1 ==> work(c).Raised?)
      && (o.Raised? ==> w'.calls == w.calls + (m - a) + 1)
      && w'.sleeps == w.sleeps + Schedule(b, DECORATOR_CAP, a, w'.calls - w.calls - 1)
    decreases m - a
  {
    var (w1, o1) := w.Call(work);
    if o1.Raised? && a < m {
      var w2 := w1.Sleep(Backoff(b, DECORATOR_CAP, a));
      DecoratedReturnsLastCall(w2, work, m, b, a + 1);
      var w' := DecoratedFrom(w2, work, m, b, a + 1).0;
      SleepThenSchedule(w.sleeps, b, DECORATOR_CAP, a, w'.calls - w.calls - 1);
    }
  }

  /** Calls k0 .. k0+k-1 failing and call k0+k succeeding (k within the
      budget): the wrapper returns that success after exactly k + 1 calls. */
  lemma DecoratedFirstSuccess(w: World, work: nat -> Outcome, m: nat, b: nat, k: nat)
    requires k <= m
    requires forall c :: w.calls <= c < w.calls + k ==> work(c).Raised?
    requires work(w.calls + k).Done?
    ensures DecoratedFrom(w, work, m, b, 0)
      == (World(w.store, w.calls + k + 1, w.sleeps + Schedule(b, DECORATOR_CAP, 0, k)), Done)
  {
    DecoratedReturnsLastCall(w, work, m, b, 0);
  }

  /** Every call failing: the wrapper re-raises the last error after
      maxRetries + 1 calls and maxRetries sleeps. */
  lemma DecoratedAllFail(w: World, work: nat -> Outcome, m: nat, b: nat)
    requires forall c :: w.calls <= c <= w.calls + m ==> work(c).Raised?
    ensures DecoratedFrom(w, work, m, b, 0)
      == (World(w.store, w.calls + m + 1, w.sleeps + Schedule(b, DECORATOR_CAP, 0, m)), work(w.calls + m))
  {
    var r := DecoratedFrom(w, work, m, b, 0);
    DecoratedReturnsLastCall(w, work, m, b, 0);
    var last := r.0.calls - 1;
    assert w.calls <= last <= w.calls + m;
    assert r.1 == work(last) && work(last).Raised?;
    assert r.0.calls == w.calls + m + 1;
    assert r.0 == World(w.store, w.calls + m + 1, w.sleeps + Schedule(b, DECORATOR_CAP, 0, m));
  }

  /** With the bare work as handler: failures on attempts a .. a+k-1 and
      success on attempt a+k (within the budget, XACK reachable) make the
      loop return true after k + 1 calls, one XACK and the k back-off
      delays in between. */
  lemma {:induction false} PlainSucceedsAt(w: World, work: nat -> Outcome, j: Job, a: nat, k: nat)
    requires j.handler == Plain && a + k <= j.maxRetries
    requires forall c :: w.calls <= c < w.calls + k ==> work(c).Raised?
    requires work(w.calls + k).Done?
    requires !w.store.Fails(XAck, j.stream)
    ensures RetryFrom(w, work, j, a)
      == (World(w.store.Ack(j.stream, j.group, j.id).0, w.calls + k + 1,
                w.sleeps + Schedule(j.baseDelay, j.maxDelay, a, k)), true)
    decreases k
  {
    if k > 0 {
      assert work(w.calls).Raised?;
      var w2 := w.Call(work).0.Sleep(Backoff(j.baseDelay, j.maxDelay, a));
      assert RetryFrom(w, work, j, a) == RetryFrom(w2, work, j, a + 1);
      PlainSucceedsAt(w2, work, j, a + 1, k - 1);
      SleepThenSchedule(w.sleeps, j.baseDelay, j.maxDelay, a, k);
    } else {
      assert w.sleeps + Schedule(j.baseDelay, j.maxDelay, a, 0) == w.sleeps;
      assert Attempt(w, work, Plain, j.stream, j.group, j.id)
        == (World(w.store.Ack(j.stream, j.group, j.id).0, w.calls + 1, w.sleeps), Done);
    }
  }

  /** With the bare work as handler and attempts a .. maxRetries all
      failing: false after maxRetries - a + 1 calls, and the only effect on
      the store is the dead-letter XADD carrying the last error. */
  lemma {:induction false} PlainExhausted(w: World, work: nat -> Outcome, j: Job, a: nat)
    requires j.handler == Plain && a <= j.maxRetries
    requires forall c :: w.calls <= c <= w.calls + (j.maxRetries - a) ==> work(c).Raised?
    ensures var n := j.maxRetries - a;
      RetryFrom(w, work, j, a)
      == (World(MoveToDeadLetter(w.store, j.stream, j.id, j.fields, work(w.calls + n).message, j.failedAt),
                w.calls + n + 1, w.sleeps + Schedule(j.baseDelay, j.maxDelay, a, n)), false)
    decreases j.maxRetries - a
  {
    var w1 := w.Call(work).0;
    var e := work(w.calls).message;
    assert Attempt(w, work, Plain, j.stream, j.group, j.id) == (w1, Raised(e));
    if a < j.maxRetries {
      var w2 := w1.Sleep(Backoff(j.baseDelay, j.maxDelay, a));
      RetryAfterFailure(w, work, j, a, w1, e);
      PlainExhausted(w2, work, j, a + 1);
      SleepThenSchedule(w.sleeps, j.baseDelay, j.maxDelay, a, j.maxRetries - a);
    } else {
      RetryLastFailure(w, work, j, w1, e);
      assert w.sleeps + Schedule(j.baseDelay, j.maxDelay, a, 0) == w.sleeps;
    }
  }

  /** The dead-letter record: every original field except the four it
      sets, plus the original id, the error text, the failure time, and
      retry_count set to "max_exceeded". */
  lemma DeadLetterRecordShape(fields: Fields, id: nat, error: string, failedAt: string)
    ensures var r := DeadLetterRecord(fields, id, error, failedAt);
      r.Keys == fields.Keys + {"original_message_id", "error_message", "failed_at", "retry_count"}
      && r["original_message_id"] == NatToString(id)
      && r["error_message"] == error
      && r["failed_at"] == failedAt
      && r["retry_count"] == "max_exceeded"
      && (forall k :: k in fields && k !in {"original_message_id", "error_message", "failed_at", "retry_count"}
            ==> r[k] == fields[k])
  {
  }

  /** Success on attempt k: true, k + 1 calls, exactly one XACK logged, the
      id leaves the pending list, and no stream gains an entry (no
      dead-letter record). */
  lemma ProcessSucceeds(w: World, work: nat -> Outcome, j: Job, k: nat)
    requires j.handler == Plain && k <= j.maxRetries
    requires forall c :: w.calls <= c < w.calls + k ==> work(c).Raised?
    requires work(w.calls + k).Done?
    requires !w.store.Fails(XAck, j.stream)
    ensures var (w', ok) := RetryFrom(w, work, j, 0);
      ok
      && w'.calls == w.calls + k + 1
      && w'.store.acks == w.store.acks + [(j.stream, j.id)]
      && w'.store.Pending(j.stream, j.group) == w.store.Pending(j.stream, j.group) - {j.id}
      && (forall key :: w'.store.Entries(key) == w.store.Entries(key))
      && w'.sleeps == w.sleeps + Schedule(j.baseDelay, j.maxDelay, 0, k)
  {
    PlainSucceedsAt(w, work, j, 0, k);
    AckRemoves(w.store, j.stream, j.group, j.id);
  }

  /** Every attempt failing: false, maxRetries + 1 calls, exactly
      maxRetries back-off sleeps, no XACK (the id stays pending), and
      exactly one record appended to `<stream>:dlq`, unless that XADD
      fails, in which case the store is left as it was. */
  lemma ProcessExhausted(w: World, work: nat -> Outcome, j: Job)
    requires j.handler == Plain
    requires forall c :: w.calls <= c <= w.calls + j.maxRetries ==> work(c).Raised?
    ensures var (w', ok) := RetryFrom(w, work, j, 0);
      var dlq := j.stream + DLQ_SUFFIX;
      !ok
      && w'.calls == w.calls + j.maxRetries + 1
      && w'.sleeps == w.sleeps + Schedule(j.baseDelay, j.maxDelay, 0, j.maxRetries)
      && w'.store.acks == w.store.acks
      && w'.store.Pending(j.stream, j.group) == w.store.Pending(j.stream, j.group)
      && (!w.store.Fails(XAdd, dlq) ==>
            w'.store.Entries(dlq) == w.store.Entries(dlq)
              + [DeadLetterRecord(j.fields, j.id, work(w.calls + j.maxRetries).message, j.failedAt)])
      && (w.store.Fails(XAdd, dlq) ==> w'.store == w.store)
      && (forall key :: key != dlq ==> w'.store.Entries(key) == w.store.Entries(key))
  {
    PlainExhausted(w, work, j, 0);
    assert work(w.calls + j.maxRetries).Raised?;
    var record := DeadLetterRecord(j.fields, j.id, work(w.calls + j.maxRetries).message, j.failedAt);
    if !w.store.Fails(XAdd, j.stream + DLQ_SUFFIX) {
      AddAppends(w.store, j.stream + DLQ_SUFFIX, record);
    }
  }

  /** An XACK that always fails turns every successful call into a failed
      attempt: the work runs maxRetries - a + 1 more times, the message is
      dead-lettered with the XACK error, and nothing is acked. */
  lemma {:induction false} AckFailureRetries(w: World, work: nat -> Outcome, j: Job, a: nat)
    requires j.handler == Plain && a <= j.maxRetries
    requires forall c :: w.calls <= c <= w.calls + (j.maxRetries - a) ==> work(c).Done?
    requires w.store.Fails(XAck, j.stream)
    ensures var n := j.maxRetries - a;
      RetryFrom(w, work, j, a)
      == (World(MoveToDeadLetter(w.store, j.stream, j.id, j.fields, CONNECTION_ERROR, j.failedAt),
                w.calls + n + 1, w.sleeps + Schedule(j.baseDelay, j.maxDelay, a, n)), false)
    decreases j.maxRetries - a
  {
    assert work(w.calls).Done?;
    if a < j.maxRetries {
      var w2 := w.Call(work).0.Sleep(Backoff(j.baseDelay, j.maxDelay, a));
      assert RetryFrom(w, work, j, a) == RetryFrom(w2, work, j, a + 1);
      AckFailureRetries(w2, work, j, a + 1);
      SleepThenSchedule(w.sleeps, j.baseDelay, j.maxDelay, a, j.maxRetries - a);
    } else {
      assert w.sleeps + Schedule(j.baseDelay, j.maxDelay, a, 0) == w.sleeps;
    }
  }

  /** The calls of `attempts` outer attempts whose decorated handler makes
      `inner` retries each: inner + 1 per attempt. */
  function HandlerCalls(attempts: nat, inner: nat): (r: nat)
    ensures attempts > 0 ==> r >= inner + 1
  {
    if attempts == 0 then 0 else (inner + 1) + HandlerCalls(attempts - 1, inner)
  }

  /** That is attempts * (inner + 1) calls. */
  lemma {:induction false} HandlerCallsProduct(attempts: nat, inner: nat)
    ensures HandlerCalls(attempts, inner) == attempts * (inner + 1)
  {
    if attempts > 0 {
      HandlerCallsProduct(attempts - 1, inner);
    }
  }

  /** With the decorated work as handler and every call failing, each outer
      attempt costs m + 1 calls: (maxRetries - a + 1) * (m + 1) calls in
      all, then one dead-letter XADD with the last error, and false. */
  lemma {:induction false} DecoratedExhausted(w: World, work: nat -> Outcome, j: Job, a: nat)
    requires j.handler.Decorated? && a <= j.maxRetries
    requires forall c :: w.calls <= c < w.calls + HandlerCalls(j.maxRetries - a + 1, j.handler.maxRetries)
               ==> work(c).Raised?
    ensures var total := HandlerCalls(j.maxRetries - a + 1, j.handler.maxRetries);
      var (w', ok) := RetryFrom(w, work, j, a);
      !ok
      && w'.calls == w.calls + total
      && w'.store == MoveToDeadLetter(w.store, j.stream, j.id, j.fields, work(w.calls + total - 1).message, j.failedAt)
    decreases j.maxRetries - a
  {
    var m, b := j.handler.maxRetries, j.handler.baseDelay;
    var n := j.maxRetries - a;
    var total := HandlerCalls(n + 1, m);
    DecoratedAllFail(w, work, m, b);
    var (w1, o) := DecoratedFrom(w, work, m, b, 0);
    assert w1.calls == w.calls + m + 1 && w1.store == w.store && o == work(w.calls + m);
    assert Attempt(w, work, j.handler, j.stream, j.group, j.id) == (w1, Raised(o.message));
    if a < j.maxRetries {
      var w2 := w1.Sleep(Backoff(j.baseDelay, j.maxDelay, a));
      RetryAfterFailure(w, work, j, a, w1, o.message);
      assert j.maxRetries - (a + 1) + 1 == n;
      assert w2.calls + HandlerCalls(n, m) == w.calls + total;
      DecoratedExhausted(w2, work, j, a + 1);
    } else {
      assert HandlerCalls(n, m) == 0;
      RetryLastFailure(w, work, j, w1, o.message);
    }
  }

  /** The workers' configuration: process_with_retry(max_retries=3) around
      retry_on_failure(max_retries=3, base_delay=1.0) around the work. A work
      that always fails runs 4 x 4 = 16 times, then goes to the dead-letter
      stream once, unacked. */
  lemma SixteenCalls(w: World, work: nat -> Outcome, j: Job)
    requires j.handler == Decorated(3, 1000) && j.maxRetries == 3
    requires forall c :: w.calls <= c < w.calls + 16 ==> work(c).Raised?
    ensures var (w', ok) := RetryFrom(w, work, j, 0);
      !ok
      && w'.calls == w.calls + 16
      && w'.store == MoveToDeadLetter(w.store, j.stream, j.id, j.fields, work(w.calls + 15).message, j.failedAt)
  {
    assert HandlerCalls(4, 3) == 16;
    DecoratedExhausted(w, work, j, 0);
  }

  // ---- get_pending_messages_with_retry_info ----

  /** One row of the pending listing. */
  datatype PendingInfo = PendingInfo(messageId: nat, consumer: string, idleTime: nat, retryCount: int)

  /** The listing asks XPENDING for at most this many entries. */
  const PENDING_PAGE: nat := 100

  /** The retry count read back from the entry itself: int() of its
      retry_count field (default "0"); a missing entry, a failing XRANGE or
      a value int() rejects all give 0. */
  function RetryCountOf(s: Store, key: string, id: nat): int {
    var r := s.Range(key, id);
    if r.Err? || r.value.None? then 0
    else
      var f := r.value.value;
      ParseInt(if "retry_count" in f then f["retry_count"] else "0").GetOr(0)
  }

  function InfoRow(s: Store, key: string, item: PendingItem): PendingInfo {
    PendingInfo(item.id, item.consumer, item.idle, RetryCountOf(s, key, item.id))
  }

  /** The listing: one row per XPENDING item, or nothing when XPENDING
      fails. */
  function PendingWithRetryInfo(s: Store, key: string, g: string): seq<PendingInfo> {
    var items := s.PendingRange(key, g, PENDING_PAGE);
    if items.Err? then []
    else seq(|items.value|, k requires 0 <= k < |items.value| => InfoRow(s, key, items.value[k]))
  }

  /** get_pending_messages_with_retry_info: one XPENDING, then one XRANGE
      per listed id. It only reads the store. */
  method GetPendingWithRetryInfo(s: Store, stream: string, group: string) returns (r: seq<PendingInfo>)
    ensures r == PendingWithRetryInfo(s, stream, group)
  {
    var pending := s.PendingRange(stream, group, PENDING_PAGE);
    if pending.Err? {
      return [];
    }
    var items := pending.value;
    r := [];
    var i := 0;
    while i < |items|
      invariant i <= |items| && |r| == i
      invariant forall k :: 0 <= k < i ==> r[k] == InfoRow(s, stream, items[k])
    {
      var id := items[i].id;
      var retryCount := ReadRetryCount(s, stream, id);
      r := r + [PendingInfo(id, items[i].consumer, items[i].idle, retryCount)];
      i := i + 1;
    }
  }

  /** The XRANGE of one listed id and the int() of its retry_count. */
  method ReadRetryCount(s: Store, stream: string, id: nat) returns (retryCount: int)
    ensures retryCount == RetryCountOf(s, stream, id)
  {
    retryCount := 0;
    var entry := s.Range(stream, id);
    if entry.Ok? && entry.value.Some? {
      var fields := entry.value.value;
      var parsed := ParseInt(if "retry_count" in fields then fields["retry_count"] else "0");
      if parsed.Some? {
        retryCount := parsed.value;
      }
    }
  }

  /** Row k of the listing is item k of XPENDING, with the retry count
      added. */
  lemma RowsFollowItems(s: Store, key: string, g: string)
    requires s.PendingRange(key, g, PENDING_PAGE).Ok?
    ensures var items := s.PendingRange(key, g, PENDING_PAGE).value;
      var r := PendingWithRetryInfo(s, key, g);
      |r| == |items|
      && forall i :: 0 <= i < |r| ==>
           r[i].messageId == items[i].id && r[i].consumer == items[i].consumer && r[i].idleTime == items[i].idle
  {
  }

  /** The listing shows pending entries only, in ascending id order, each
      with its holder and idle time, at most 100 of them. */
  lemma PendingListing(s: Store, key: string, g: string)
    requires s.Valid()
    ensures var r := PendingWithRetryInfo(s, key, g);
      var p := s.Pending(key, g);
      |r| <= PENDING_PAGE
      && (forall i, j :: 0 <= i < j < |r| ==> r[i].messageId < r[j].messageId)
      && (forall i :: 0 <= i < |r| ==>
            r[i].messageId in p && r[i].consumer == p[r[i].messageId].consumer
            && r[i].idleTime == p[r[i].messageId].idle)
  {
    if s.PendingRange(key, g, PENDING_PAGE).Ok? {
      PendingRangeLists(s, key, g, PENDING_PAGE);
      RowsFollowItems(s, key, g);
    }
  }

  /** A listing shorter than 100 rows shows every pending entry. */
  lemma PendingListingComplete(s: Store, key: string, g: string)
    requires s.Valid() && s.PendingRange(key, g, PENDING_PAGE).Ok?
    requires |PendingWithRetryInfo(s, key, g)| < PENDING_PAGE
    ensures var r := PendingWithRetryInfo(s, key, g);
      forall id :: id in s.Pending(key, g) ==> exists i :: 0 <= i < |r| && r[i].messageId == id
  {
    PendingRangeLists(s, key, g, PENDING_PAGE);
    RowsFollowItems(s, key, g);
    var items := s.PendingRange(key, g, PENDING_PAGE).value;
    var r := PendingWithRetryInfo(s, key, g);
    forall id | id in s.Pending(key, g) ensures exists i :: 0 <= i < |r| && r[i].messageId == id {
      var i :| 0 <= i < |items| && items[i].id == id;
      assert r[i].messageId == id;
    }
  }

  /** A failing XPENDING or a missing group gives an empty listing. */
  lemma PendingListingError(s: Store, key: string, g: string)
    requires s.Fails(XPending, key) || !s.HasGroup(key, g)
    ensures PendingWithRetryInfo(s, key, g) == []
  {
  }

  /** A retry count written as str(n) reads back as n. */
  lemma RetryCountRoundTrip(s: Store, key: string, id: nat, n: nat)
    requires !s.Fails(XRange, key) && id < |s.Entries(key)|
    requires "retry_count" in s.Entries(key)[id] && s.Entries(key)[id]["retry_count"] == NatToString(n)
    ensures RetryCountOf(s, key, id) == n
  {
    ParseIntOfNatToString(n);
  }

  /** The bare except of the retry-count lookup: a failing XRANGE, an id
      with no entry, an entry without a retry_count field, or a field int()
      rejects, all count 0. */
  lemma RetryCountDefault(s: Store, key: string, id: nat)
    requires s.Fails(XRange, key) || id >= |s.Entries(key)|
             || "retry_count" !in s.Entries(key)[id]
             || ParseInt(s.Entries(key)[id]["retry_count"]).None?
    ensures RetryCountOf(s, key, id) == 0
  {
    if !s.Fails(XRange, key) && id < |s.Entries(key)| && "retry_count" !in s.Entries(key)[id] {
      ParseIntZero();
    }
  }

  /** The dead-letter marker "max_exceeded" is one of the texts int()
      rejects, so an entry carrying it counts 0. */
  lemma MaxExceededCountsZero(s: Store, key: string, id: nat)
    requires !s.Fails(XRange, key) && id < |s.Entries(key)|
    requires "retry_count" in s.Entries(key)[id] && s.Entries(key)[id]["retry_count"] == "max_exceeded"
    ensures RetryCountOf(s, key, id) == 0
  {
    ParseIntRejects("max_exceeded");
    RetryCountDefault(s, key, id);
  }

  // ---- cleanup_old_pending_messages ----

  /** The default idle threshold, in milliseconds as XPENDING reports idle
      times and XCLAIM takes its minimum idle time. */
  const DEFAULT_MAX_IDLE: nat := 3600

  /** The claim loop over the listing: each row idle for longer than
      maxIdle is claimed for the connection's client name with minimum idle
      maxIdle. A missing client name (None) or a failing XCLAIM raises,
      which ends the loop; the exception is swallowed. */
  function ClaimOld(s: Store, key: string, g: string, claimer: Option<string>, maxIdle: nat,
                    rows: seq<PendingInfo>): Store
    decreases |rows|
  {
    if rows == [] then s
    else if rows[0].idleTime > maxIdle then
      if claimer.None? then s
      else
        var (s1, r) := s.Claim(key, g, claimer.value, maxIdle, rows[0].messageId);
        if r.Err? then s1 else ClaimOld(s1, key, g, claimer, maxIdle, rows[1..])
    else ClaimOld(s, key, g, claimer, maxIdle, rows[1..])
  }

  function CleanupOld(s: Store, key: string, g: string, claimer: Option<string>, maxIdle: nat): Store {
    ClaimOld(s, key, g, claimer, maxIdle, PendingWithRetryInfo(s, key, g))
  }

  /** cleanup_old_pending_messages */
  method CleanupOldPendingMessages(host: Host, stream: string, group: string, claimer: Option<string>, maxIdle: nat)
    modifies host
    ensures host.State() == old(host.State()).WithStore(CleanupOld(old(host.store), stream, group, claimer, maxIdle))
  {
    var rows := GetPendingWithRetryInfo(host.store, stream, group);
    var i := 0;
    while i < |rows|
      invariant i <= |rows|
      invariant host.State() == old(host.State()).WithStore(host.store)
      invariant CleanupOld(old(host.store), stream, group, claimer, maxIdle)
        == ClaimOld(host.store, stream, group, claimer, maxIdle, rows[i..])
    {
      ClaimOldStep(host.store, stream, group, claimer, maxIdle, rows, i);
      if rows[i].idleTime > maxIdle {
        if claimer.None? {
          return;
        }
        var r := host.Xclaim(stream, group, claimer.value, maxIdle, rows[i].messageId);
        if r.Err? {
          return;
        }
      }
      i := i + 1;
    }
  }

  /** One turn of the claim loop, at row i. */
  lemma ClaimOldStep(s: Store, key: string, g: string, claimer: Option<string>, maxIdle: nat,
                     rows: seq<PendingInfo>, i: nat)
    requires i < |rows|
    ensures var claim := if claimer.Some? then s.Claim(key, g, claimer.value, maxIdle, rows[i].messageId) else (s, Ok(false));
      ClaimOld(s, key, g, claimer, maxIdle, rows[i..]) ==
        if rows[i].idleTime <= maxIdle then ClaimOld(s, key, g, claimer, maxIdle, rows[i + 1..])
        else if claimer.None? then s
        else if claim.1.Err? then claim.0
        else ClaimOld(claim.0, key, g, claimer, maxIdle, rows[i + 1..])
  {
    assert rows[i..][0] == rows[i] && rows[i..][1..] == rows[i + 1..];
  }

  function Ids(rows: seq<PendingInfo>): set<nat>
    decreases |rows|
  {
    if rows == [] then {} else {rows[0].messageId} + Ids(rows[1..])
  }

  lemma {:induction false} IdsAbove(rows: seq<PendingInfo>, id: nat)
    requires forall i :: 0 <= i < |rows| ==> id < rows[i].messageId
    ensures id !in Ids(rows)
    decreases |rows|
  {
    if rows != [] {
      IdsAbove(rows[1..], id);
    }
  }

  /** Over distinct ascending rows that describe the current pending list,
      the claim loop (with a client name and XCLAIM reachable) moves exactly
      the listed rows idle for longer than maxIdle to the claimer, with one
      more delivery and idle time 0, and touches nothing else. */
  lemma ClaimOldEffect(s: Store, key: string, g: string, c: string, maxIdle: nat, rows: seq<PendingInfo>)
    requires !s.Fails(XClaim, key) && s.HasGroup(key, g)
    requires forall i, j :: 0 <= i < j < |rows| ==> rows[i].messageId < rows[j].messageId
    requires forall i :: 0 <= i < |rows| ==>
      rows[i].messageId in s.Pending(key, g) && rows[i].idleTime == s.Pending(key, g)[rows[i].messageId].idle
    ensures var s' := ClaimOld(s, key, g, Some(c), maxIdle, rows);
      var p, p' := s.Pending(key, g), s'.Pending(key, g);
      s'.HasGroup(key, g) && s'.faults == s.faults && s'.acks == s.acks
      && p'.Keys == p.Keys
      && (forall id :: id in p ==>
            p'[id] == (if id in Ids(rows) && p[id].idle > maxIdle
                       then PendingEntry(c, p[id].deliveries + 1, 0) else p[id]))
      && (forall k :: s'.Entries(k) == s.Entries(k))
      && (forall k, h :: (k, h) != (key, g) ==> s'.Pending(k, h) == s.Pending(k, h))
  {
    ClaimOldFrame(s, key, g, c, maxIdle, rows);
    ClaimOldPending(s, key, g, c, maxIdle, rows);
  }

  /** The claim loop changes no stream's entries, no fault, no ack, no other
      group's pending list and no pending id of this group. */
  lemma {:induction false} ClaimOldFrame(s: Store, key: string, g: string, c: string, maxIdle: nat, rows: seq<PendingInfo>)
    requires !s.Fails(XClaim, key) && s.HasGroup(key, g)
    ensures var s' := ClaimOld(s, key, g, Some(c), maxIdle, rows);
      s'.HasGroup(key, g) && s'.faults == s.faults && s'.acks == s.acks
      && s'.Pending(key, g).Keys == s.Pending(key, g).Keys
      && (forall k :: s'.Entries(k) == s.Entries(k))
      && (forall k, h :: (k, h) != (key, g) ==> s'.Pending(k, h) == s.Pending(k, h))
    decreases |rows|
  {
    if rows != [] {
      var rest := rows[1..];
      if rows[0].idleTime > maxIdle {
        var (s1, r) := s.Claim(key, g, c, maxIdle, rows[0].messageId);
        assert r.Ok?;
        ClaimMoves(s, key, g, c, maxIdle, rows[0].messageId);
        ClaimFrame(s, key, g, c, maxIdle, rows[0].messageId);
        ClaimOldFrame(s1, key, g, c, maxIdle, rest);
        assert ClaimOld(s, key, g, Some(c), maxIdle, rows) == ClaimOld(s1, key, g, Some(c), maxIdle, rest);
      } else {
        ClaimOldFrame(s, key, g, c, maxIdle, rest);
        assert ClaimOld(s, key, g, Some(c), maxIdle, rows) == ClaimOld(s, key, g, Some(c), maxIdle, rest);
      }
    }
  }

  /** The claim loop's effect on this group's pending entries. */
  lemma {:induction false} ClaimOldPending(s: Store, key: string, g: string, c: string, maxIdle: nat, rows: seq<PendingInfo>)
    requires !s.Fails(XClaim, key) && s.HasGroup(key, g)
    requires forall i, j :: 0 <= i < j < |rows| ==> rows[i].messageId < rows[j].messageId
    requires forall i :: 0 <= i < |rows| ==>
      rows[i].messageId in s.Pending(key, g) && rows[i].idleTime == s.Pending(key, g)[rows[i].messageId].idle
    ensures var p, p' := s.Pending(key, g), ClaimOld(s, key, g, Some(c), maxIdle, rows).Pending(key, g);
      forall id :: id in p ==>
        (id in p' && p'[id] == (if id in Ids(rows) && p[id].idle > maxIdle then PendingEntry(c, p[id].deliveries + 1, 0) else p[id]))
    decreases |rows|
  {
    if rows != [] {
      var x := rows[0];
      var rest := rows[1..];
      var p := s.Pending(key, g);
      forall i | 0 <= i < |rest|
        ensures rest[i].messageId in p && rest[i].idleTime == p[rest[i].messageId].idle
        ensures x.messageId < rest[i].messageId
      {
        assert rest[i] == rows[i + 1];
      }
      IdsAbove(rest, x.messageId);
      assert Ids(rows) == {x.messageId} + Ids(rest);
      if x.idleTime > maxIdle {
        var (s1, r) := s.Claim(key, g, c, maxIdle, x.messageId);
        ClaimMoves(s, key, g, c, maxIdle, x.messageId);
        ClaimFrame(s, key, g, c, maxIdle, x.messageId);
        assert r.value;
        var p1 := s1.Pending(key, g);
        forall i | 0 <= i < |rest|
          ensures rest[i].messageId in p1 && rest[i].idleTime == p1[rest[i].messageId].idle
        {
        }
        ClaimOldPending(s1, key, g, c, maxIdle, rest);
        assert ClaimOld(s, key, g, Some(c), maxIdle, rows) == ClaimOld(s1, key, g, Some(c), maxIdle, rest);
      } else {
        ClaimOldPending(s, key, g, c, maxIdle, rest);
        assert ClaimOld(s, key, g, Some(c), maxIdle, rows) == ClaimOld(s, key, g, Some(c), maxIdle, rest);
      }
    }
  }

  /** cleanup_old_pending_messages with a client name and reachable
      XPENDING and XCLAIM: every listed pending entry idle for longer than
      maxIdle is handed to the claimer (one more delivery, idle reset);
      every other pending entry, every stream's entries and the ack log are
      unchanged. */
  lemma CleanupClaimsIdle(s: Store, key: string, g: string, c: string, maxIdle: nat)
    requires s.Valid() && s.HasGroup(key, g)
    requires !s.Fails(XPending, key) && !s.Fails(XClaim, key)
    ensures var s' := CleanupOld(s, key, g, Some(c), maxIdle);
      var listed := Ids(PendingWithRetryInfo(s, key, g));
      var p, p' := s.Pending(key, g), s'.Pending(key, g);
      p'.Keys == p.Keys
      && (forall id :: id in p ==>
            p'[id] == (if id in listed && p[id].idle > maxIdle
                       then PendingEntry(c, p[id].deliveries + 1, 0) else p[id]))
      && (forall k :: s'.Entries(k) == s.Entries(k))
      && s'.acks == s.acks
  {
    PendingListing(s, key, g);
    ClaimOldEffect(s, key, g, c, maxIdle, PendingWithRetryInfo(s, key, g));
  }

  /** When the listing is shorter than 100 rows, every pending id is
      listed, so every entry idle for longer than maxIdle is claimed. */
  lemma ListedIsAllPending(s: Store, key: string, g: string)
    requires s.Valid() && s.HasGroup(key, g) && !s.Fails(XPending, key)
    requires |PendingWithRetryInfo(s, key, g)| < PENDING_PAGE
    ensures Ids(PendingWithRetryInfo(s, key, g)) == s.Pending(key, g).Keys
  {
    var rows := PendingWithRetryInfo(s, key, g);
    PendingListing(s, key, g);
    PendingListingComplete(s, key, g);
    IdsOf(rows);
  }

  lemma {:induction false} IdsOf(rows: seq<PendingInfo>)
    ensures Ids(rows) == set i | 0 <= i < |rows| :: rows[i].messageId
    decreases |rows|
  {
    if rows != [] {
      IdsOf(rows[1..]);
      assert forall i :: 0 < i < |rows| ==> rows[i] == rows[1..][i - 1];
      assert forall i :: 0 <= i < |rows| - 1 ==> rows[1..][i] == rows[i + 1];
    }
  }

  /** Without a client name the first idle row raises, so nothing is claimed:
      the store is left exactly as it was. */
  lemma {:induction false} CleanupWithoutClientName(s: Store, key: string, g: string, maxIdle: nat, rows: seq<PendingInfo>)
    ensures ClaimOld(s, key, g, None, maxIdle, rows) == s
    decreases |rows|
  {
    if rows != [] && rows[0].idleTime <= maxIdle {
      CleanupWithoutClientName(s, key, g, maxIdle, rows[1..]);
    }
  }

  // ---- what process_with_retry may touch ----

  lemma DeadLetterKeyDiffers(stream: string)
    ensures stream + DLQ_SUFFIX != stream
  {
    assert |stream + DLQ_SUFFIX| == |stream| + 4;
  }

  /** One attempt changes no stream's entries, and of the pending list of
      its own stream and group it can only remove the message's own id. */
  lemma AttemptFrame(w: World, work: nat -> Outcome, h: Handler, stream: string, group: string, id: nat)
    ensures var s, s' := w.store, Attempt(w, work, h, stream, group, id).0.store;
      (forall k :: s'.Entries(k) == s.Entries(k))
      && s'.Pending(stream, group).Keys <= s.Pending(stream, group).Keys
      && s.Pending(stream, group).Keys - {id} <= s'.Pending(stream, group).Keys
      && (forall k, g :: (k, g) != (stream, group) ==> s'.Pending(k, g) == s.Pending(k, g))
  {
    var (w1, o) := Invoke(w, work, h);
    if h.Decorated? {
      DecoratedReturnsLastCall(w, work, h.maxRetries, h.baseDelay, 0);
    }
    assert w1.store == w.store;
    if o.Done? && !w.store.Fails(XAck, stream) {
      AckRemoves(w.store, stream, group, id);
    }
  }

  /** process_with_retry changes no entries except by appending to the
      dead-letter stream, and of its own pending list it can only remove the
      message's own id. */
  lemma {:induction false} RetryFrame(w: World, work: nat -> Outcome, j: Job, a: nat)
    requires a <= j.maxRetries
    ensures var s, s' := w.store, RetryFrom(w, work, j, a).0.store;
      (forall k :: k != j.stream + DLQ_SUFFIX ==> s'.Entries(k) == s.Entries(k))
      && s'.Pending(j.stream, j.group).Keys <= s.Pending(j.stream, j.group).Keys
      && s.Pending(j.stream, j.group).Keys - {j.id} <= s'.Pending(j.stream, j.group).Keys
    decreases j.maxRetries - a
  {
    var (w1, o) := Attempt(w, work, j.handler, j.stream, j.group, j.id);
    AttemptFrame(w, work, j.handler, j.stream, j.group, j.id);
    if o.Raised? {
      if a < j.maxRetries {
        RetryFrame(w1.Sleep(Backoff(j.baseDelay, j.maxDelay, a)), work, j, a + 1);
      } else if !w1.store.Fails(XAdd, j.stream + DLQ_SUFFIX) {
        AddAppends(w1.store, j.stream + DLQ_SUFFIX, DeadLetterRecord(j.fields, j.id, o.message, j.failedAt));
      }
    }
  }
}
