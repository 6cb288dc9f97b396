/** MemoryQueue: the critical sections, the drain loop and the retry loop of the email queue. */
module EmailQueue {
  import opened EmailHeap

  const DEFAULT_QUEUE_SIZE := 1000

  function Capacity(configured: int): (r: nat)
    ensures r > 0
  {
    if configured <= 0 then DEFAULT_QUEUE_SIZE else configured
  }

  /** A higher priority, or the same and no later timestamp. */
  predicate MayPrecede(a: PriorityMessage, b: PriorityMessage) {
    a.msg.priority > b.msg.priority || (a.msg.priority == b.msg.priority && a.timestamp <= b.timestamp)
  }

  /** A pop may take exactly the oldest messages of the highest priority. */
  predicate IsFirst(item: PriorityMessage, queue: multiset<PriorityMessage>) {
    item in queue && forall m :: m in queue ==> MayPrecede(item, m)
  }

  predicate InOrder(sent: seq<PriorityMessage>) {
    forall i, j :: 0 <= i < j < |sent| ==> MayPrecede(sent[i], sent[j])
  }

  /** What was sent may precede what still waits. */
  predicate AllPrecede(sent: seq<PriorityMessage>, queue: seq<PriorityMessage>) {
    forall i, m :: 0 <= i < |sent| && m in queue ==> MayPrecede(sent[i], m)
  }

  // ---------- Backoff ----------

  const INT64_SPAN := 0x1_0000_0000_0000_0000
  const INT64_MAX := 0x7FFF_FFFF_FFFF_FFFF
  const SECOND := 1_000_000_000
  const BACKOFF_CAP := 300 * SECOND

  /** Signed 64-bit arithmetic wraps around. */
  function Wrap(x: int): int {
    var r := x % INT64_SPAN;
    if r > INT64_MAX then r - INT64_SPAN else r
  }

  function Power(n: nat): (r: nat)
    ensures r > 0
  {
    if n == 0 then 1 else 2 * Power(n - 1)
  }

  /** baseDelay of sendWithRetry, in nanoseconds: the configured seconds while 64 bits hold them. */
  function BaseDelay(retryDelay: int): (r: int)
    ensures 0 < r <= INT64_MAX
    ensures 0 < retryDelay * SECOND <= INT64_MAX ==> r == retryDelay * SECOND
    ensures -INT64_MAX <= retryDelay * SECOND <= 0 ==> r == 5 * SECOND
  {
    var configured := Wrap(retryDelay * SECOND);
    if configured <= 0 then 5 * SECOND else configured
  }

  function MaxRetries(configured: int): (r: nat)
    ensures r > 0
  {
    if configured <= 0 then 3 else configured
  }

  /** baseDelay * 2^(attempt-1) as the code computes it: the shift and the product both wrap. */
  function Computed(base: int, attempt: nat): int
    requires attempt > 0
  {
    Wrap(base * Wrap(Power(attempt - 1)))
  }

  function Delay(base: int, attempt: nat): int
    requires attempt > 0
  {
    if Computed(base, attempt) > BACKOFF_CAP then BACKOFF_CAP else Computed(base, attempt)
  }

  /** What the comments promise: the doubled delay, capped at five minutes. */
  function PromisedDelay(base: int, attempt: nat): int
    requires attempt > 0
  {
    if base * Power(attempt - 1) > BACKOFF_CAP then BACKOFF_CAP else base * Power(attempt - 1)
  }

  /** Wrapping commutes with a product: the shift may wrap first. */
  lemma WrapProduct(base: int, x: int)
    ensures Wrap(base * Wrap(x)) == Wrap(base * x)
  {
    var q := if x % INT64_SPAN > INT64_MAX then x / INT64_SPAN + 1 else x / INT64_SPAN;
    assert x == INT64_SPAN * q + Wrap(x);
    assert base * x == INT64_SPAN * (base * q) + base * Wrap(x) by {
      assert base * (INT64_SPAN * q) == INT64_SPAN * (base * q);
    }
    SameResidue(base * Wrap(x), base * q);
  }

  lemma SameResidue(y: int, k: int)
    ensures (INT64_SPAN * k + y) % INT64_SPAN == y % INT64_SPAN
  {
    var d := y / INT64_SPAN;
    assert INT64_SPAN * k + y == INT64_SPAN * (k + d) + y % INT64_SPAN;
  }

  lemma Associates(a: int, b: int, c: int)
    ensures a * (b * c) == (a * b) * c
  {
  }

  lemma MultipleIsNoSmaller(a: int, k: int)
    requires a > 0 && k > 0
    ensures a <= a * k
  {
  }

  /** While the last delay fits 64 bits, every wait is the promised one. */
  lemma ModestRetriesWaitAsPromised(base: int, retries: nat, attempt: nat)
    requires 0 < base && 0 < attempt <= retries && base * Power(retries - 1) <= INT64_MAX
    ensures Delay(base, attempt) == PromisedDelay(base, attempt)
  {
    PowerAdds(attempt - 1, retries - attempt);
    var p, r := Power(attempt - 1), Power(retries - attempt);
    assert base * Power(retries - 1) == (base * p) * r by { Associates(base, p, r); }
    MultipleIsNoSmaller(base, p);
    MultipleIsNoSmaller(base * p, r);
    DelayIsPromised(base, attempt);
  }

  /**
   The promise is kept exactly when the true delay fits 64 bits or its wrapped value still trips the cap.
   */
  lemma DelayIsPromised(base: int, attempt: nat)
    requires 0 < base <= INT64_MAX && attempt > 0
    ensures Delay(base, attempt) == PromisedDelay(base, attempt) <==>
      base * Power(attempt - 1) <= INT64_MAX || Wrap(base * Power(attempt - 1)) >= BACKOFF_CAP
  {
    WrapProduct(base, Power(attempt - 1));
    var exact := base * Power(attempt - 1);
    assert exact > 0;
    if exact <= INT64_MAX { assert exact % INT64_SPAN == exact; }
  }

  lemma PowerOfThirtyOne()
    ensures Power(31) == 0x8000_0000
  {
    assert Power(5) == 32;
    PowerAdds(5, 5);
    PowerAdds(10, 10);
    PowerAdds(20, 10);
    assert Power(31) == 2 * Power(30);
  }

  /** With the default delay, the 32nd retry does not wait at all. */
  lemma ThirtySecondRetryDoesNotWait()
    ensures Delay(BaseDelay(0), 32) < 0 && PromisedDelay(BaseDelay(0), 32) == BACKOFF_CAP
  {
    PowerOfThirtyOne();
    WrapProduct(5 * SECOND, Power(31));
  }

  lemma {:induction false} PowerAdds(m: nat, n: nat)
    ensures Power(m + n) == Power(m) * Power(n)
  {
    if m > 0 { PowerAdds(m - 1, n); }
  }

  // ---------- The queue ----------

  datatype Option<T> = None | Some(value: T)

  class MemoryQueue {
    const heap: PriorityQueue
    const queueSize: int
    const retryAttempts: int
    const retryDelay: int
    /** The one-slot notification channel holds a token. */
    var notified: bool
    /** Everything the worker has done, in order. */
    var trace: seq<Step>

    ghost predicate Valid()
      reads this, heap, heap.queue
    {
      heap.Valid() && |heap.queue| <= Capacity(queueSize)
    }

    constructor(queueSize: int, retryAttempts: int, retryDelay: int)
      ensures Valid() && fresh(heap) && heap.queue == [] && !notified && trace == []
      ensures this.queueSize == queueSize && this.retryAttempts == retryAttempts && this.retryDelay == retryDelay
    {
      this.queueSize, this.retryAttempts, this.retryDelay := queueSize, retryAttempts, retryDelay;
      heap := new PriorityQueue();
      notified, trace := false, [];
    }

    /** A full queue refuses and keeps what it has; otherwise the message is in and a token is out. */
    method Enqueue(msg: Message, now: int) returns (accepted: Option<PriorityMessage>)
      requires Valid()
      modifies this, heap, heap.queue
      ensures Valid()
      ensures accepted.Some? <==> |old(heap.queue)| < if queueSize > 0 then queueSize else 1000
      ensures accepted.None? ==> heap.queue == old(heap.queue) && notified == old(notified)
      ensures accepted.Some? ==>
        && fresh(accepted.value) && accepted.value.msg == msg && accepted.value.timestamp == now
        && multiset(heap.queue) == multiset(old(heap.queue)) + multiset{accepted.value} && notified
    {
      if |heap.queue| >= Capacity(queueSize) { return None; }
      var pm := new PriorityMessage(msg, now);
      ghost var before := heap.queue;
      heap.Push(pm);
      SizeOf(before, heap.queue, pm);
      notified := true;
      accepted := Some(pm);
    }

    /** The first half of processNext: pop under the lock, or find the queue empty. */
    method TakeNext() returns (item: Option<PriorityMessage>)
      requires Valid()
      modifies heap, heap.Items()
      ensures Valid()
      ensures item.None? <==> old(heap.queue) == []
      ensures item.None? ==> heap.queue == []
      ensures item.Some? ==> forall m :: m in old(heap.queue) ==>
        || item.value.msg.priority > m.msg.priority
        || (item.value.msg.priority == m.msg.priority && item.value.timestamp <= m.timestamp)
      ensures item.Some? ==>
        && IsFirst(item.value, multiset(old(heap.queue)))
        && multiset(old(heap.queue)) == multiset(heap.queue) + multiset{item.value}
        && |heap.queue| == |old(heap.queue)| - 1
    {
      if |heap.queue| == 0 { return None; }
      ghost var before := heap.queue;
      var popped := heap.Pop();
      SizeOf(heap.queue, before, popped);
      FirstOf(before, heap.queue, popped);
      assert [popped][0] == popped;
      item := Some(popped);
    }

    /**
     drainQueue while nobody enqueues: every message is sent, with its retries, the highest priority first and the
     oldest first within a priority. `runs` is what the worker did for each of them.
     */
    method Drain() returns (sent: seq<PriorityMessage>, runs: seq<Run>)
      requires Valid()
      modifies this`trace, heap, heap.Items()
      ensures Valid() && heap.queue == []
      ensures multiset(sent) == multiset(old(heap.queue))
      ensures forall i, j :: 0 <= i < j < |sent| ==>
        && sent[i].msg.priority >= sent[j].msg.priority
        && (sent[i].msg.priority == sent[j].msg.priority ==> sent[i].timestamp <= sent[j].timestamp)
      ensures AreRunsOf(runs, sent) && trace == old(trace) + Joined(runs)
    {
      sent, runs := [], [];
      var more := true;
      while more
        invariant Valid() && multiset(heap.queue) + multiset(sent) == multiset(old(heap.queue))
        invariant heap.Items() <= old(heap.Items())
        invariant Sending(sent, runs, old(trace))
        invariant !more ==> heap.queue == []
        decreases |heap.queue|, more
      {
        sent, runs, more := DrainOne(sent, runs, old(trace));
      }
      assert forall i, j :: 0 <= i < j < |sent| ==> MayPrecede(sent[i], sent[j]);
    }

    /** Halfway through: what was sent is in order and before what waits, and the trace shows it. */
    ghost predicate Sending(sent: seq<PriorityMessage>, runs: seq<Run>, start: seq<Step>)
      reads this, heap
    {
      InOrder(sent) && AllPrecede(sent, heap.queue) && AreRunsOf(runs, sent) && trace == start + Joined(runs)
    }

    /** One turn of the loop of drainQueue. */
    method DrainOne(sent: seq<PriorityMessage>, runs: seq<Run>, ghost start: seq<Step>)
      returns (sent': seq<PriorityMessage>, runs': seq<Run>, more: bool)
      requires Valid() && Sending(sent, runs, start)
      modifies this`trace, heap, heap.Items()
      ensures Valid() && Sending(sent', runs', start) && (!more ==> heap.queue == [])
      ensures multiset(heap.queue) + multiset(sent') == multiset(old(heap.queue)) + multiset(sent)
      ensures heap.Items() <= old(heap.Items()) && |heap.queue| <= |old(heap.queue)|
      ensures more ==> |heap.queue| < |old(heap.queue)|
    {
      ghost var before := heap.queue;
      var item, run;
      item, run, more := ProcessNext();
      sent', runs' := sent, runs;
      if item.Some? {
        NextInOrder(sent, before, heap.queue, item.value);
        OneMoreRun(runs, sent, run, item.value);
        sent', runs' := sent + [item.value], runs + [run];
      }
    }

    /** processNext: takes a first message out and sends it. */
    method ProcessNext() returns (item: Option<PriorityMessage>, run: Run, more: bool)
      requires Valid()
      modifies this`trace, heap, heap.Items()
      ensures Valid() && (item.None? <==> old(heap.queue) == [])
      ensures item.None? ==> heap.queue == [] && trace == old(trace) && !more
      ensures heap.Items() <= old(heap.Items())
      ensures item.Some? ==>
        && IsFirst(item.value, multiset(old(heap.queue)))
        && multiset(old(heap.queue)) == multiset(heap.queue) + multiset{item.value}
        && |heap.queue| == |old(heap.queue)| - 1 && (more <==> heap.queue != [])
        && IsRunOf(run, item.value.msg) && trace == old(trace) + StepsOf(run)
    {
      run, more := Run(Message(0, 0), 0, Exhausted), false;
      item := TakeNext();
      if item.None? { return; }
      var retries, end := SendWithRetry(item.value.msg);
      run := Run(item.value.msg, retries, end);
      more := |heap.queue| > 0;
      Subset(heap.queue, old(heap.queue), item.value);
    }

    /** One attempt of the sender, whose answer the model leaves open. */
    method Send(msg: Message) returns (ok: bool)
      modifies this`trace
      ensures trace == old(trace) + [Tried(msg, ok)]
    {
      ok :| true;
      trace := trace + [Tried(msg, ok)];
    }

    /** The wait before a retry, which the end of the context cuts short. */
    method Wait(delay: int) returns (cancelled: bool)
      modifies this`trace
      ensures trace == old(trace) + [Waited(delay, cancelled)]
    {
      cancelled :| true;
      trace := trace + [Waited(delay, cancelled)];
    }

    /** The delay before a retry, doubled each time and capped. */
    method Backoff(baseDelay: int, attempt: nat) returns (delay: int)
      requires attempt > 0
      ensures delay == Delay(baseDelay, attempt) && delay <= BACKOFF_CAP
    {
      delay := Wrap(baseDelay * Wrap(Power(attempt - 1)));
      if delay > BACKOFF_CAP { delay := BACKOFF_CAP; }
    }

    /** What SendWithRetry may do for a message. */
    predicate IsRunOf(run: Run, msg: Message) {
      && run.msg == msg && run.retries <= MaxRetries(retryAttempts)
      && (run.end == Exhausted ==> run.retries == MaxRetries(retryAttempts))
      && (run.end == Cancelled ==> run.retries < MaxRetries(retryAttempts))
    }

    predicate AreRunsOf(runs: seq<Run>, sent: seq<PriorityMessage>) {
      |runs| == |sent| && forall i :: 0 <= i < |sent| ==> IsRunOf(runs[i], sent[i].msg)
    }

    lemma OneMoreRun(runs: seq<Run>, sent: seq<PriorityMessage>, run: Run, item: PriorityMessage)
      requires AreRunsOf(runs, sent) && IsRunOf(run, item.msg)
      ensures AreRunsOf(runs + [run], sent + [item]) && Joined(runs + [run]) == Joined(runs) + StepsOf(run)
    {
      assert (runs + [run])[..|runs|] == runs;
    }

    /** What a run looks like from outside. */
    function StepsOf(run: Run): seq<Step> {
      Attempts(run.msg, BaseDelay(retryDelay), run.retries, run.end)
    }

    function Joined(runs: seq<Run>): seq<Step>
      decreases |runs|
    {
      if |runs| == 0 then [] else Joined(runs[..|runs| - 1]) + StepsOf(runs[|runs| - 1])
    }

    /**
     sendWithRetry: sends until the first success, but at most once more than the retries, unless the
     context ends during a wait. Before every send but the first it waits.
     */
    method SendWithRetry(msg: Message) returns (retries: nat, end: End)
      modifies this`trace
      ensures trace == old(trace) + Attempts(msg, BaseDelay(retryDelay), retries, end)
      ensures retries <= if retryAttempts > 0 then retryAttempts else 3
      ensures end == Exhausted ==> retries == if retryAttempts > 0 then retryAttempts else 3
      ensures end == Cancelled ==> retries < if retryAttempts > 0 then retryAttempts else 3
    {
      var maxRetries := MaxRetries(retryAttempts);
      var baseDelay := BaseDelay(retryDelay);
      var attempt := 0;
      while attempt <= maxRetries
        invariant 0 <= attempt <= maxRetries + 1
        invariant trace == old(trace) +
          if attempt == 0 then [] else Failures(msg, baseDelay, attempt - 1) + [Tried(msg, false)]
      {
        if attempt > 0 {
          var delay := Backoff(baseDelay, attempt);
          var cancelled := Wait(delay);
          if cancelled { return attempt - 1, Cancelled; }
        }
        var ok := Send(msg);
        if ok { return attempt, Delivered; }
        attempt := attempt + 1;
      }
      return maxRetries, Exhausted;
    }
  }

  // ---------- What the worker does ----------

  /** One send of the worker with its answer, or one wait, cut short or not. */
  datatype Step = Tried(msg: Message, ok: bool) | Waited(delay: int, cancelled: bool)

  datatype End = Delivered | Exhausted | Cancelled

  /** One message from its first send to the end of its retries. */
  datatype Run = Run(msg: Message, retries: nat, end: End)

  /** n failed sends, each with the wait after it. */
  function Failures(msg: Message, base: int, n: nat): seq<Step> {
    if n == 0 then [] else Failures(msg, base, n - 1) + [Tried(msg, false), Waited(Delay(base, n), false)]
  }

  function Attempts(msg: Message, base: int, retries: nat, end: End): seq<Step> {
    Failures(msg, base, retries) +
    match end
    case Delivered => [Tried(msg, true)]
    case Exhausted => [Tried(msg, false)]
    case Cancelled => [Tried(msg, false), Waited(Delay(base, retries + 1), true)]
  }

  lemma {:induction false} FailureAt(msg: Message, base: int, n: nat, k: nat)
    requires k < n
    ensures |Failures(msg, base, n)| == 2 * n
    ensures Failures(msg, base, n)[2 * k..2 * k + 2] == [Tried(msg, false), Waited(Delay(base, k + 1), false)]
  {
    if k < n - 1 { FailureAt(msg, base, n - 1, k); } else if n > 1 { FailureAt(msg, base, n - 1, 0); }
  }

  /** Sends and waits alternate; only the last send may succeed, and only a wait at the end is cut short. */
  lemma AttemptAt(msg: Message, base: int, retries: nat, end: End, k: nat)
    requires k <= retries
    ensures |Attempts(msg, base, retries, end)| == 2 * retries + if end == Cancelled then 2 else 1
    ensures Attempts(msg, base, retries, end)[2 * k] == Tried(msg, end == Delivered && k == retries)
    ensures k < retries ==> Attempts(msg, base, retries, end)[2 * k + 1] == Waited(Delay(base, k + 1), false)
    ensures end == Cancelled ==> Attempts(msg, base, retries, end)[2 * retries + 1] == Waited(Delay(base, retries + 1), true)
  {
    if retries > 0 { FailureAt(msg, base, retries, if k < retries then k else 0); }
    if k < retries {
      assert Failures(msg, base, retries)[2 * k..2 * k + 2][0] == Failures(msg, base, retries)[2 * k];
      assert Failures(msg, base, retries)[2 * k..2 * k + 2][1] == Failures(msg, base, retries)[2 * k + 1];
    }
  }

  /** The next message continues the order, and everything that stays comes after it. */
  lemma NextInOrder(sent: seq<PriorityMessage>, queue: seq<PriorityMessage>, rest: seq<PriorityMessage>, item: PriorityMessage)
    requires InOrder(sent) && AllPrecede(sent, queue) && IsFirst(item, multiset(queue))
    requires multiset(queue) == multiset(rest) + multiset{item}
    ensures InOrder(sent + [item]) && AllPrecede(sent + [item], rest)
  {
    Subset(rest, queue, item);
    forall m | m in rest ensures MayPrecede(item, m) { assert m in multiset(queue); }
  }

  lemma SizeOf(small: seq<PriorityMessage>, big: seq<PriorityMessage>, extra: PriorityMessage)
    requires multiset(big) == multiset(small) + multiset{extra}
    ensures |big| == |small| + 1
  {
    assert |multiset(big)| == |multiset(small)| + 1;
  }

  lemma Subset(small: seq<PriorityMessage>, big: seq<PriorityMessage>, extra: PriorityMessage)
    requires multiset(big) == multiset(small) + multiset{extra}
    ensures forall m :: m in small ==> m in big
    ensures extra in big
  {
    forall m | m in small ensures m in big { assert m in multiset(small); assert m in multiset(big); }
    assert extra in multiset(big);
  }

  lemma FirstOf(before: seq<PriorityMessage>, rest: seq<PriorityMessage>, item: PriorityMessage)
    requires multiset(before) == multiset(rest) + multiset{item}
    requires forall m :: m in rest ==>
      item.msg.priority > m.msg.priority || (item.msg.priority == m.msg.priority && item.timestamp <= m.timestamp)
    ensures IsFirst(item, multiset(before)) && AllPrecede([item], before)
  {
    forall m | m in multiset(before) && m != item ensures m in rest { assert m in multiset(rest); }
  }

}
