/**
 * The outbound delivery queue of core/queue_manager.py: a bounded priority
 * queue of messages, a worker that takes the highest-priority message,
 * waits for the rate limiter, sends with retries and reports the outcome to
 * the message's callback, and the counters it keeps.
 *
 * The asyncio.PriorityQueue is a bag: messages compare on their stored
 * priority only, so among equal priorities the heap gives no order, and the
 * model keeps the queue as a multiset. Time is a model clock in
 * milliseconds that `asyncio.sleep` advances. The send callback is an
 * oracle giving the outcome of each 1-based attempt.
 */
module QueueManager {
  import opened Common

  datatype MessagePriority = LOW | NORMAL | HIGH | CRITICAL
  {
    function Value(): int
    {
      match this
      case LOW => 1
      case NORMAL => 2
      case HIGH => 3
      case CRITICAL => 4
    }
  }

  /** An outcome callback: which one, and whether calling it raises. */
  datatype Callback = Callback(name: nat, raises: bool)

  type Metadata = map<string, string>

  /** A queued message; `priority` is the stored, negated enum value. */
  datatype QueuedMessage = QueuedMessage(priority: int, chatId: int, text: string,
                                         callback: Option<Callback>, metadata: Metadata,
                                         timestamp: int)

  /** One invocation `callback(success, metadata)`. */
  datatype CallbackCall = CallbackCall(callback: Callback, success: bool, metadata: Metadata)

  /** What get_stats reports. */
  datatype QueueStats = QueueStats(totalQueued: nat, totalSent: nat, totalFailed: nat,
                                   queueFullCount: nat, queueSize: nat, isRunning: bool)

  /** The message the heap hands out next: one with the smallest stored priority. */
  predicate IsNext(q: multiset<QueuedMessage>, m: QueuedMessage)
  {
    m in q && forall o :: o in q ==> m.priority <= o.priority
  }

  /** Every non-empty queue has a message to hand out next. */
  lemma {:induction false} NextExists(q: multiset<QueuedMessage>)
    requires |q| > 0
    ensures exists m :: IsNext(q, m)
    decreases |q|
  {
    var x :| x in q;
    var rest := q - multiset{x};
    assert q == rest + multiset{x};
    if |rest| == 0 {
      assert IsNext(q, x);
    } else {
      NextExists(rest);
      var m :| IsNext(rest, m);
      var best := if x.priority < m.priority then x else m;
      assert forall o :: o in q ==> o == x || o in rest;
      assert IsNext(q, best);
    }
  }

  /** A message of greater enum value is stored with a smaller priority and so leaves first. */
  lemma HigherPriorityFirst(q: multiset<QueuedMessage>, m: QueuedMessage, a: MessagePriority, b: MessagePriority)
    requires IsNext(q, m) && a.Value() > b.Value()
    ensures forall o :: o in q && o.priority == -a.Value() ==> m.priority != -b.Value()
  {
  }

  /** Messages taken so far, in priority order, none ranked after what is still queued. */
  predicate TakenInOrder(order: seq<QueuedMessage>, rest: multiset<QueuedMessage>, start: multiset<QueuedMessage>)
  {
    multiset(order) + rest == start &&
    (forall a, b :: 0 <= a < b < |order| ==> order[a].priority <= order[b].priority) &&
    (|order| > 0 ==> forall o :: o in rest ==> order[|order| - 1].priority <= o.priority)
  }

  /** Taking the next message keeps the taken messages in priority order. */
  lemma PopKeepsOrder(order: seq<QueuedMessage>, rest: multiset<QueuedMessage>, m: QueuedMessage,
                      start: multiset<QueuedMessage>)
    requires TakenInOrder(order, rest, start) && IsNext(rest, m)
    ensures TakenInOrder(order + [m], rest - multiset{m}, start)
  {
    assert multiset(order + [m]) == multiset(order) + multiset{m};
    assert |order| > 0 ==> order[|order| - 1].priority <= m.priority;
  }

  // ------------------------------------------------------------ _send_with_retry

  /** Sleeps after the first n failed attempts: 2, 4, ..., 2n seconds, in milliseconds. */
  function Sleeps(n: nat): (s: seq<nat>)
    ensures |s| == n
  {
    if n == 0 then [] else Sleeps(n - 1) + [2000 * n]
  }

  /** The sleeps of a delivery that made c calls: none after the last call. */
  function RetrySleeps(c: nat): seq<nat>
  {
    Sleeps(if c == 0 then 0 else c - 1)
  }

  /** How many sleeps precede attempt number `attempt`: none after the last. */
  function SleptBefore(attempt: nat, maxRetries: int): nat
  {
    if attempt == 0 then 0
    else if attempt > maxRetries && attempt >= 2 then attempt - 2
    else attempt - 1
  }

  lemma SleepsStep(n: nat)
    ensures Sum(Sleeps(n + 1)) == Sum(Sleeps(n)) + 2000 * (n + 1)
  {
    assert Sleeps(n + 1)[..n] == Sleeps(n);
  }

  lemma {:induction false} SleepsTotal(n: nat)
    ensures Sum(Sleeps(n)) == 1000 * n * (n + 1)
  {
    if n > 0 {
      var m := n - 1;
      SleepsTotal(m);
      SleepsStep(m);
      assert 1000 * m * (m + 1) + 2000 * (m + 1) == 1000 * (m + 1) * (m + 2);
    }
  }

  /**
   * A delivery that made c calls slept 2 * (1 + ... + (c - 1)) seconds;
   * an always-failing send with max_retries attempts sleeps
   * max_retries * (max_retries - 1) seconds in all.
   */
  lemma RetrySleepTotal(c: nat)
    ensures Sum(RetrySleeps(c)) == 1000 * c * (c - 1)
  {
    if c > 0 {
      var n := c - 1;
      SleepsTotal(n);
      assert n + 1 == c;
      assert 1000 * n * (n + 1) == 1000 * c * (c - 1);
    }
  }

  /**
   * The `for attempt` loop of _send_with_retry: send is called up to
   * `maxRetries` times, stopping at the first true, with a sleep of
   * 2 * attempt seconds after each failed attempt but the last. It reports
   * whether the message went out, how many calls it made and how long it
   * slept; the caller logs the calls and advances its clock.
   */
  method SendWithRetry(send: nat -> Outcome, maxRetries: int) returns (success: bool, calls: nat, slept: nat)
    ensures success == SucceedsWithin(send, maxRetries)
    ensures calls == Attempts(send, maxRetries)
    ensures slept == Sum(RetrySleeps(calls))
  {
    AttemptsSpec(send, maxRetries);
    var attempt := 1;
    calls, slept := 0, 0;
    while attempt <= maxRetries
      invariant 1 <= attempt && (maxRetries >= 1 ==> attempt <= maxRetries + 1)
      invariant maxRetries < 1 ==> attempt == 1
      invariant calls == attempt - 1
      invariant forall k :: 1 <= k < attempt ==> !send(k).Succeeded()
      invariant Attempts(send, maxRetries) == attempt - 1 + AttemptsFrom(send, attempt, maxRetries)
      invariant slept == Sum(Sleeps(SleptBefore(attempt, maxRetries)))
      decreases maxRetries - attempt
    {
      var outcome := send(attempt);
      calls := calls + 1;
      if outcome.Succeeded() {
        return true, calls, slept;
      }
      if attempt < maxRetries {
        SleepsStep(attempt - 1);
        slept := slept + 2000 * attempt;
      }
      attempt := attempt + 1;
    }
    return false, calls, slept;
  }

  // ------------------------------------------------------------ _enforce_rate_limit

  /**
   * How long `_enforce_rate_limit` sleeps: nothing on the first send; later,
   * whatever remains of `sendDelay` since the last permitted send.
   */
  function RateWait(last: Option<int>, now: int, sendDelay: nat): (w: nat)
    ensures last.None? ==> w == 0
    ensures last.Some? ==> now + w - last.value >= sendDelay
    ensures last.Some? && w > 0 ==> now + w - last.value == sendDelay
    ensures last.Some? && now - last.value >= sendDelay ==> w == 0
  {
    if last.None? then 0
    else if now - last.value < sendDelay then sendDelay - (now - last.value)
    else 0
  }

  class MessageQueueManager {
    const maxSize: int
    /** Minimum gap between permitted sends, in milliseconds. */
    const sendDelay: nat
    const maxRetries: int

    var queue: multiset<QueuedMessage>
    var totalQueued: nat
    var totalSent: nat
    var totalFailed: nat
    var queueFullCount: nat
    var running: bool
    var hasWorker: bool
    var lastSendTime: Option<int>
    /** The model clock, in milliseconds. */
    var now: int
    /** Every call of the send callback, in order. */
    var sendCalls: seq<(int, string)>
    /** Every invocation of a message's outcome callback, in order. */
    var callbackCalls: seq<CallbackCall>
    /** The times at which the rate limiter let a send through. */
    ghost var permitted: seq<int>

    ghost predicate Valid()
      reads this
    {
      (maxSize > 0 ==> |queue| <= maxSize) &&
      (lastSendTime.None? <==> permitted == []) &&
      (lastSendTime.Some? ==> lastSendTime.value == permitted[|permitted| - 1] <= now) &&
      (forall i :: 0 <= i < |permitted| - 1 ==> permitted[i] + sendDelay <= permitted[i + 1])
    }

    /** An asyncio.PriorityQueue(maxsize) is full when maxsize > 0 and it holds that many. */
    predicate Full()
      reads this
    {
      maxSize > 0 && |queue| >= maxSize
    }

    constructor (maxSize: int, sendDelay: nat, maxRetries: int, now: int)
      ensures Valid()
      ensures this.maxSize == maxSize && this.sendDelay == sendDelay && this.maxRetries == maxRetries
      ensures queue == multiset{} && totalQueued == totalSent == totalFailed == queueFullCount == 0
      ensures !running && !hasWorker && lastSendTime.None? && this.now == now
      ensures sendCalls == [] && callbackCalls == []
    {
      this.maxSize, this.sendDelay, this.maxRetries := maxSize, sendDelay, maxRetries;
      queue := multiset{};
      totalQueued, totalSent, totalFailed, queueFullCount := 0, 0, 0, 0;
      running, hasWorker := false, false;
      lastSendTime := None;
      this.now := now;
      sendCalls, callbackCalls := [], [];
      permitted := [];
    }

    /**
     * add_message: a full queue rejects with false and counts the
     * rejection; otherwise the message is stored with the negated priority
     * value and counted as queued.
     */
    method AddMessage(chatId: int, text: string, priority: MessagePriority,
                      callback: Option<Callback>, metadata: Option<Metadata>) returns (ok: bool)
      requires Valid()
      modifies this`queue, this`totalQueued, this`queueFullCount
      ensures Valid()
      ensures ok <==> !old(Full())
      ensures ok ==> queue == old(queue) + multiset{QueuedMessage(-priority.Value(), chatId, text,
                        callback, if metadata.None? then map[] else metadata.value, now)}
      ensures ok ==> totalQueued == old(totalQueued) + 1 && queueFullCount == old(queueFullCount)
      ensures !ok ==> queue == old(queue) && totalQueued == old(totalQueued) &&
                      queueFullCount == old(queueFullCount) + 1
    {
      var message := QueuedMessage(-priority.Value(), chatId, text, callback,
                                   if metadata.None? then map[] else metadata.value, now);
      if Full() {
        queueFullCount := queueFullCount + 1;
        return false;
      }
      queue := queue + multiset{message};
      totalQueued := totalQueued + 1;
      return true;
    }

    /** start: a no-op while running; otherwise marks running and creates the worker. */
    method Start()
      modifies this`running, this`hasWorker
      ensures old(running) ==> running && hasWorker == old(hasWorker)
      ensures !old(running) ==> running && hasWorker
    {
      if running {
        return;
      }
      running := true;
      hasWorker := true;
    }

    /** stop: a no-op while stopped; otherwise clears running so the worker ends. */
    method Stop()
      modifies this`running
      ensures !running
    {
      if !running {
        return;
      }
      running := false;
    }

    /** Time passing outside the worker (producers, the event loop). */
    method Tick(ms: nat)
      requires Valid()
      modifies this`now
      ensures Valid() && now == old(now) + ms
    {
      now := now + ms;
    }

    /**
     * _enforce_rate_limit: the first call only records the time; later
     * calls sleep out the rest of `sendDelay` since the last permitted send.
     * Either way the send is permitted at the new time, at least
     * `sendDelay` after the previous one.
     */
    method EnforceRateLimit()
      requires Valid()
      modifies this`now, this`lastSendTime, this`permitted
      ensures Valid()
      ensures now == old(now) + RateWait(old(lastSendTime), old(now), sendDelay)
      ensures lastSendTime == Some(now) && permitted == old(permitted) + [now]
      ensures old(lastSendTime).Some? ==> old(lastSendTime).value + sendDelay <= now
    {
      if lastSendTime.None? {
        lastSendTime := Some(now);
        permitted := [now];
        return;
      }
      var elapsed := now - lastSendTime.value;
      if elapsed < sendDelay {
        now := now + (sendDelay - elapsed);
      }
      lastSendTime := Some(now);
      permitted := permitted + [now];
    }

    /**
     * One pass of the `_worker` loop while running. An empty queue times
     * out the one-second wait; otherwise the next message by priority is
     * taken, rate-limited, sent with retries, counted as sent or failed, and
     * its callback, if any, is invoked with the outcome and the metadata. A
     * callback that raises is contained: the worker keeps running.
     */
    method WorkerStep(send: nat -> Outcome) returns (delivered: Option<(QueuedMessage, bool)>)
      requires Valid() && running
      modifies this`queue, this`totalSent, this`totalFailed, this`now, this`lastSendTime,
               this`permitted, this`sendCalls, this`callbackCalls
      ensures Valid()
      ensures old(|queue|) == 0 <==> delivered.None?
      ensures delivered.None? ==>
        now == old(now) + 1000 && queue == old(queue) && totalSent == old(totalSent) &&
        totalFailed == old(totalFailed) && lastSendTime == old(lastSendTime) &&
        permitted == old(permitted) && sendCalls == old(sendCalls) && callbackCalls == old(callbackCalls)
      ensures delivered.Some? ==>
        var (m, ok) := delivered.value;
        IsNext(old(queue), m) && queue == old(queue) - multiset{m} &&
        ok == SucceedsWithin(send, maxRetries) &&
        totalSent == old(totalSent) + (if ok then 1 else 0) &&
        totalFailed == old(totalFailed) + (if ok then 0 else 1) &&
        sendCalls == old(sendCalls) + Repeat((m.chatId, m.text), Attempts(send, maxRetries)) &&
        callbackCalls == old(callbackCalls) +
          (if m.callback.Some? then [CallbackCall(m.callback.value, ok, m.metadata)] else []) &&
        permitted == old(permitted) + [old(now) + RateWait(old(lastSendTime), old(now), sendDelay)] &&
        now == old(now) + RateWait(old(lastSendTime), old(now), sendDelay) +
               Sum(RetrySleeps(Attempts(send, maxRetries)))
    {
      if |queue| == 0 {
        now := now + 1000;
        return None;
      }
      var message := PopNext();
      var success := Deliver(message, send);
      return Some((message, success));
    }

    /** `self.queue.get()` on a non-empty queue: a message with the least stored priority leaves it. */
    method PopNext() returns (message: QueuedMessage)
      requires Valid() && |queue| > 0
      modifies this`queue
      ensures Valid() && IsNext(old(queue), message) && queue == old(queue) - multiset{message}
    {
      NextExists(queue);
      message :| IsNext(queue, message);
      queue := queue - multiset{message};
    }

    /** PopNext seen from a run of pops: the order taken so far stays sorted. */
    method PopInOrder(ghost order: seq<QueuedMessage>, ghost start: multiset<QueuedMessage>)
      returns (message: QueuedMessage)
      requires Valid() && |queue| > 0 && TakenInOrder(order, queue, start)
      modifies this`queue
      ensures Valid() && TakenInOrder(order + [message], queue, start)
      ensures |queue| + 1 == old(|queue|)
    {
      ghost var before := queue;
      message := PopNext();
      PopKeepsOrder(order, before, message, start);
      assert before == queue + multiset{message};
    }

    /** The part of a worker pass after a message has been taken off the queue. */
    method Deliver(message: QueuedMessage, send: nat -> Outcome) returns (success: bool)
      requires Valid()
      modifies this`totalSent, this`totalFailed, this`now, this`lastSendTime,
               this`permitted, this`sendCalls, this`callbackCalls
      ensures Valid()
      ensures success == SucceedsWithin(send, maxRetries)
      ensures totalSent == old(totalSent) + (if success then 1 else 0)
      ensures totalFailed == old(totalFailed) + (if success then 0 else 1)
      ensures sendCalls == old(sendCalls) + Repeat((message.chatId, message.text), Attempts(send, maxRetries))
      ensures callbackCalls == old(callbackCalls) +
        (if message.callback.Some? then [CallbackCall(message.callback.value, success, message.metadata)] else [])
      ensures permitted == old(permitted) + [old(now) + RateWait(old(lastSendTime), old(now), sendDelay)]
      ensures now == old(now) + RateWait(old(lastSendTime), old(now), sendDelay) +
                     Sum(RetrySleeps(Attempts(send, maxRetries)))
    {
      EnforceRateLimit();
      ghost var permittedNow := permitted;
      var calls, slept;
      success, calls, slept := SendWithRetry(send, maxRetries);
      sendCalls := sendCalls + Repeat((message.chatId, message.text), calls);
      now := now + slept;
      if success {
        totalSent := totalSent + 1;
      } else {
        totalFailed := totalFailed + 1;
      }
      if message.callback.Some? {
        // the call happens whether or not the callback then raises
        callbackCalls := callbackCalls + [CallbackCall(message.callback.value, success, message.metadata)];
      }
      assert permitted == permittedNow;
    }

    /**
     * The worker run with no producer in between: it delivers messages
     * until the queue is empty or the scripted sends run out. Messages leave
     * in order of priority (non-increasing enum value), each once, and each
     * is counted as sent or failed.
     */
    method Drain(sends: seq<nat -> Outcome>) returns (order: seq<QueuedMessage>)
      requires Valid() && running
      modifies this`queue, this`totalSent, this`totalFailed, this`now, this`lastSendTime,
               this`permitted, this`sendCalls, this`callbackCalls
      ensures Valid()
      ensures |order| == if |sends| < old(|queue|) then |sends| else old(|queue|)
      ensures TakenInOrder(order, queue, old(queue))
      ensures totalSent + totalFailed == old(totalSent + totalFailed) + |order|
    {
      order := [];
      var i := 0;
      while i < |sends| && |queue| > 0
        invariant Valid() && 0 <= i <= |sends| && i == |order|
        invariant |queue| + |order| == old(|queue|)
        invariant TakenInOrder(order, queue, old(queue))
        invariant totalSent + totalFailed == old(totalSent + totalFailed) + |order|
        decreases |sends| - i
      {
        var m := PopInOrder(order, old(queue));
        order := order + [m];
        var _ := Deliver(m, sends[i]);
        i := i + 1;
      }
    }

    /** get_stats. */
    function Stats(): (s: QueueStats)
      reads this
      ensures s.queueSize == |queue| && s.isRunning == running
    {
      QueueStats(totalQueued, totalSent, totalFailed, queueFullCount, |queue|, running)
    }
  }
}
