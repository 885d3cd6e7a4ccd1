/**
 * The marketplace client of core/funpay_client.py: the three-attempt connect
 * loop, the per-kind handler table, the listen loop that counts and hands on
 * events, start/stop of listening, and sending through the retry decorator.
 *
 * The blocking event iterator is a sequence of stream items; a `stop()` that
 * runs meanwhile on the main loop is an item of its own. Account
 * initialisation, the account's send and each handler are oracles. Time is a
 * model clock in milliseconds.
 */
module FunPay {
  import opened Common
  import Helpers
  import Retry

  /** The event kinds the listen loop tells apart. */
  datatype EventKind = NewMessage | NewOrder | OtherEvent(name: string)

  /**
   * One step of the blocking iterator as the listener thread sees it: an
   * event (with the clock when it arrives and whether handing it to the main
   * loop succeeds), a `stop()` that ran meanwhile, or the iterator raising.
   */
  datatype StreamItem =
    | Event(kind: EventKind, payload: nat, at: int, handedOver: bool)
    | StopCalled
    | StreamError

  /** A registered handler coroutine. */
  type Handler = nat

  /** A `_trigger_handlers(kind, payload)` coroutine scheduled on the main loop. */
  datatype Dispatch = Dispatch(kind: string, payload: nat)

  /** The part of the client's state the listen loop reads and writes. */
  datatype Listener = Listener(running: bool, connected: bool, messagesReceived: nat,
                               ordersReceived: nat, lastEventTime: Option<int>,
                               dispatched: seq<Dispatch>)

  /** What get_stats reports. */
  datatype ClientStats = ClientStats(messagesSent: nat, messagesReceived: nat, ordersReceived: nat,
                                     connectionErrors: nat, reconnects: nat)

  /** Handlers registered for a kind, in registration order. */
  function HandlersFor(table: map<string, seq<Handler>>, kind: string): seq<Handler>
  {
    if kind in table then table[kind] else []
  }

  /** How many of the handlers raise. */
  function CountRaising(hs: seq<Handler>, raises: Handler -> bool): nat
  {
    if hs == [] then 0
    else CountRaising(hs[..|hs| - 1], raises) + (if raises(hs[|hs| - 1]) then 1 else 0)
  }

  /** Account initialisation as an attempt outcome: completing is success, anything else raised. */
  function Completes(init: nat -> bool): nat -> Outcome
  {
    (k: nat) => if init(k) then Returned(true) else Raised
  }

  /** One event while running: stamp the time, count it by kind, hand it on. */
  function OnEvent(l: Listener, kind: EventKind, payload: nat, at: int, handedOver: bool): Listener
  {
    var l := l.(lastEventTime := Some(at));
    match kind
    case NewMessage =>
      l.(messagesReceived := l.messagesReceived + 1,
         dispatched := l.dispatched + if handedOver then [Dispatch("NEW_MESSAGE", payload)] else [])
    case NewOrder =>
      l.(ordersReceived := l.ordersReceived + 1,
         dispatched := l.dispatched + if handedOver then [Dispatch("NEW_ORDER", payload)] else [])
    case OtherEvent(_) => l
  }

  /**
   * `_sync_listen_loop` as a fold over the iterator: events are processed
   * while running; the first event seen once running is false ends the loop
   * unprocessed; a stop() clears running and connected; the iterator
   * raising clears running and ends the loop.
   */
  function Listen(l: Listener, items: seq<StreamItem>): Listener
    decreases |items|
  {
    if items == [] then l
    else match items[0]
      case StopCalled => Listen(l.(running := false, connected := false), items[1..])
      case StreamError => l.(running := false)
      case Event(kind, payload, at, handedOver) =>
        if !l.running then l
        else Listen(OnEvent(l, kind, payload, at, handedOver), items[1..])
  }

  /** The events the loop acts on: those before the first stop or stream error, if running. */
  function LiveEvents(items: seq<StreamItem>, running: bool): (live: seq<StreamItem>)
    ensures forall e :: e in live ==> e.Event? && e in items
    decreases |items|
  {
    if items == [] || !running then []
    else if items[0].Event? then [items[0]] + LiveEvents(items[1..], running)
    else []
  }

  /** How many of the events are of the given kind. */
  function CountKind(events: seq<StreamItem>, kind: EventKind): nat
  {
    if events == [] then 0
    else (if events[0].Event? && events[0].kind == kind then 1 else 0) + CountKind(events[1..], kind)
  }

  /** The coroutines the events hand to the main loop. */
  function Dispatches(events: seq<StreamItem>): seq<Dispatch>
  {
    if events == [] then []
    else
      var e := events[0];
      (if e.Event? && e.handedOver && e.kind == NewMessage then [Dispatch("NEW_MESSAGE", e.payload)]
       else if e.Event? && e.handedOver && e.kind == NewOrder then [Dispatch("NEW_ORDER", e.payload)]
       else []) + Dispatches(events[1..])
  }

  /**
   * The listen loop counts exactly the NEW_MESSAGE and NEW_ORDER events it
   * acts on, changes no counter for other kinds, and schedules the handlers
   * of exactly the message and order events that were handed over.
   */
  lemma {:induction false} ListenCounts(l: Listener, items: seq<StreamItem>)
    ensures var r := Listen(l, items); var live := LiveEvents(items, l.running);
      r.messagesReceived == l.messagesReceived + CountKind(live, NewMessage) &&
      r.ordersReceived == l.ordersReceived + CountKind(live, NewOrder) &&
      r.dispatched == l.dispatched + Dispatches(live)
    decreases |items|, 1
  {
    if !l.running {
      StoppedListenerIsIdle(l, items);
    } else if items != [] && items[0].StopCalled? {
      StoppedListenerIsIdle(l.(running := false, connected := false), items[1..]);
    } else if items != [] && items[0].Event? {
      ListenCountsEvent(l, items);
    }
  }

  /** ListenCounts when the next item is an event the running loop acts on. */
  lemma {:induction false} ListenCountsEvent(l: Listener, items: seq<StreamItem>)
    requires l.running && items != [] && items[0].Event?
    ensures var r := Listen(l, items); var live := LiveEvents(items, l.running);
      r.messagesReceived == l.messagesReceived + CountKind(live, NewMessage) &&
      r.ordersReceived == l.ordersReceived + CountKind(live, NewOrder) &&
      r.dispatched == l.dispatched + Dispatches(live)
    decreases |items|, 0
  {
    var e := items[0];
    var next := OnEvent(l, e.kind, e.payload, e.at, e.handedOver);
    assert Listen(l, items) == Listen(next, items[1..]);
    ListenCounts(next, items[1..]);
    HeadEvent(e, LiveEvents(items[1..], true));
    assert LiveEvents(items, l.running) == [e] + LiveEvents(items[1..], true);
  }

  /** How one event at the head of the live events adds to the counts and the schedule. */
  lemma HeadEvent(e: StreamItem, rest: seq<StreamItem>)
    requires e.Event?
    ensures CountKind([e] + rest, NewMessage) == CountKind(rest, NewMessage) + if e.kind == NewMessage then 1 else 0
    ensures CountKind([e] + rest, NewOrder) == CountKind(rest, NewOrder) + if e.kind == NewOrder then 1 else 0
    ensures Dispatches([e] + rest) ==
      OnEvent(Listener(true, true, 0, 0, None, []), e.kind, e.payload, e.at, e.handedOver).dispatched + Dispatches(rest)
  {
    assert ([e] + rest)[0] == e && ([e] + rest)[1..] == rest;
  }

  /** Events none of which was handed over schedule nothing. */
  lemma {:induction false} NothingHandedOver(events: seq<StreamItem>)
    requires forall e :: e in events && e.Event? ==> !e.handedOver
    ensures Dispatches(events) == []
  {
    if events != [] {
      assert events[0] in events;
      assert forall e :: e in events[1..] ==> e in events;
      NothingHandedOver(events[1..]);
    }
  }

  /**
   * The listener thread asks `asyncio.get_event_loop()` for the main loop,
   * but a worker thread of the default executor has no event loop of its
   * own, so that call raises and the per-event `except` swallows it after
   * the counter was bumped: no event is ever handed over. The loop then
   * still counts every message and order it acts on and schedules no
   * handler at all.
   */
  lemma ListenWithoutHandOver(l: Listener, items: seq<StreamItem>)
    requires forall e :: e in items && e.Event? ==> !e.handedOver
    ensures var r := Listen(l, items); var live := LiveEvents(items, l.running);
      r.messagesReceived == l.messagesReceived + CountKind(live, NewMessage) &&
      r.ordersReceived == l.ordersReceived + CountKind(live, NewOrder) &&
      r.dispatched == l.dispatched
  {
    ListenCounts(l, items);
    NothingHandedOver(LiveEvents(items, l.running));
    assert l.dispatched + [] == l.dispatched;
  }

  /** Once running is false, the loop counts and schedules nothing more. */
  lemma {:induction false} StoppedListenerIsIdle(l: Listener, items: seq<StreamItem>)
    requires !l.running
    ensures var r := Listen(l, items);
      r.messagesReceived == l.messagesReceived && r.ordersReceived == l.ordersReceived &&
      r.dispatched == l.dispatched && !r.running
    decreases |items|
  {
    if items != [] && items[0].StopCalled? {
      StoppedListenerIsIdle(l.(running := false, connected := false), items[1..]);
    }
  }

  /** Nothing after a stop() is acted on. */
  lemma {:induction false} StopCutsStream(items: seq<StreamItem>, k: nat)
    requires k < |items| && items[k].StopCalled?
    ensures LiveEvents(items, true) == LiveEvents(items[..k], true)
  {
    if k > 0 && items[0].Event? {
      StopCutsStream(items[1..], k - 1);
      assert items[..k][1..] == items[1..][..k - 1];
    }
  }

  class FunPayClient {
    var connected: bool
    var running: bool
    var hasRunner: bool
    var eventHandlers: map<string, seq<Handler>>
    var messagesSent: nat
    var messagesReceived: nat
    var ordersReceived: nat
    var connectionErrors: nat
    var reconnects: nat
    var lastEventTime: Option<int>
    /** The model clock, in milliseconds. */
    var now: int
    /** Handler coroutines scheduled on the main loop, in order. */
    var dispatched: seq<Dispatch>
    /** Texts the account's send accepted, with their chat ids, in order. */
    var outbox: seq<(int, string)>

    constructor (now: int)
      ensures !connected && !running && !hasRunner && eventHandlers == map[]
      ensures messagesSent == messagesReceived == ordersReceived == connectionErrors == reconnects == 0
      ensures lastEventTime.None? && this.now == now && dispatched == [] && outbox == []
    {
      connected, running, hasRunner := false, false, false;
      eventHandlers := map[];
      messagesSent, messagesReceived, ordersReceived, connectionErrors, reconnects := 0, 0, 0, 0, 0;
      lastEventTime := None;
      this.now := now;
      dispatched, outbox := [], [];
    }

    function Snapshot(): Listener
      reads this
    {
      Listener(running, connected, messagesReceived, ordersReceived, lastEventTime, dispatched)
    }

    /**
     * connect: up to three attempts, five seconds apart, each failure
     * counted as a connection error; success marks the client connected,
     * and a third failure is raised (false here) leaving the flags as they
     * were.
     */
    method Connect(init: nat -> bool) returns (ok: bool)
      modifies this`connected, this`hasRunner, this`connectionErrors, this`now
      ensures ok == SucceedsWithin(Completes(init), 3)
      ensures ok ==> connected && hasRunner
      ensures !ok ==> connected == old(connected) && hasRunner == old(hasRunner)
      ensures connectionErrors == old(connectionErrors) + if ok then Attempts(Completes(init), 3) - 1 else 3
      ensures now == old(now) + 5000 * (Attempts(Completes(init), 3) - 1)
    {
      var script := Completes(init);
      AttemptsSpec(script, 3);
      var attempt := 1;
      while true
        invariant 1 <= attempt <= 3
        invariant forall k :: 1 <= k < attempt ==> !init(k)
        invariant Attempts(script, 3) == attempt - 1 + AttemptsFrom(script, attempt, 3)
        invariant connectionErrors == old(connectionErrors) + attempt - 1
        invariant now == old(now) + 5000 * (attempt - 1)
        invariant connected == old(connected) && hasRunner == old(hasRunner)
        decreases 3 - attempt
      {
        if init(attempt) {
          assert script(attempt).Succeeded();
          hasRunner := true;
          connected := true;
          return true;
        }
        connectionErrors := connectionErrors + 1;
        if attempt == 3 {
          assert !SucceedsWithin(script, 3);
          return false;
        }
        now := now + 5000;
        attempt := attempt + 1;
      }
    }

    /** register_handler: appends the handler to the list for its kind. */
    method RegisterHandler(kind: string, handler: Handler)
      modifies this`eventHandlers
      ensures eventHandlers == old(eventHandlers)[kind := HandlersFor(old(eventHandlers), kind) + [handler]]
    {
      if kind !in eventHandlers {
        eventHandlers := eventHandlers[kind := []];
      }
      eventHandlers := eventHandlers[kind := eventHandlers[kind] + [handler]];
    }

    /**
     * _trigger_handlers: every handler registered for the kind is awaited,
     * in registration order; one that raises is logged and the rest still
     * run. A kind with no registrations invokes nothing.
     */
    method TriggerHandlers(kind: string, raises: Handler -> bool) returns (invoked: seq<Handler>, failures: nat)
      ensures invoked == HandlersFor(eventHandlers, kind)
      ensures failures == CountRaising(invoked, raises) && failures <= |invoked|
    {
      invoked, failures := [], 0;
      if kind in eventHandlers {
        var hs := eventHandlers[kind];
        for i := 0 to |hs|
          invariant invoked == hs[..i]
          invariant failures == CountRaising(invoked, raises) <= i
        {
          invoked := invoked + [hs[i]];
          assert invoked[..i] == hs[..i];
          if raises(hs[i]) {
            failures := failures + 1;
          }
        }
        assert hs[..|hs|] == hs;
      }
    }

    /** `_sync_listen_loop` over the items the iterator yields. */
    method ListenLoop(items: seq<StreamItem>)
      modifies this`running, this`connected, this`messagesReceived, this`ordersReceived,
               this`lastEventTime, this`dispatched
      ensures Snapshot() == Listen(old(Snapshot()), items)
    {
      var i := 0;
      while i < |items|
        invariant 0 <= i <= |items|
        invariant Listen(Snapshot(), items[i..]) == Listen(old(Snapshot()), items)
        decreases |items| - i
      {
        assert items[i..][1..] == items[i + 1..];
        ghost var before := Snapshot();
        match items[i] {
          case StopCalled =>
            Stop();
            assert Snapshot() == before.(running := false, connected := false);
          case StreamError =>
            running := false;
            return;
          case Event(kind, payload, at, handedOver) =>
            if !running {
              return;
            }
            lastEventTime := Some(at);
            if kind == NewMessage {
              messagesReceived := messagesReceived + 1;
              if handedOver {
                dispatched := dispatched + [Dispatch("NEW_MESSAGE", payload)];
              }
            } else if kind == NewOrder {
              ordersReceived := ordersReceived + 1;
              if handedOver {
                dispatched := dispatched + [Dispatch("NEW_ORDER", payload)];
              }
            }
            assert Snapshot() == OnEvent(before, kind, payload, at, handedOver);
        }
        i := i + 1;
      }
    }

    /**
     * start_listening: refused (raised, false here) when not connected,
     * with nothing changed; otherwise running is set and the loop runs.
     */
    method StartListening(items: seq<StreamItem>) returns (ok: bool)
      modifies this`running, this`connected, this`messagesReceived, this`ordersReceived,
               this`lastEventTime, this`dispatched
      ensures ok == old(connected)
      ensures !ok ==> Snapshot() == old(Snapshot())
      ensures ok ==> Snapshot() == Listen(old(Snapshot()).(running := true), items)
    {
      if !connected {
        return false;
      }
      running := true;
      ListenLoop(items);
      return true;
    }

    /** stop: clears running and connected; a failing runner.stop() is swallowed. */
    method Stop()
      modifies this`running, this`connected
      ensures !running && !connected
    {
      running := false;
      connected := false;
    }

    /**
     * send_message under `async_retry(max_attempts=3, delay=2)`: each
     * attempt sanitises the text and hands it to the account; a raise is
     * retried after 2 s, then 4 s, and the third is re-raised (false here).
     * Only a completed send is counted and logged.
     */
    method SendMessage(chatId: int, text: string, accountSend: nat -> bool) returns (ok: bool)
      modifies this`messagesSent, this`outbox, this`now
      ensures ok == SucceedsWithin(Completes(accountSend), 3)
      ensures ok ==> messagesSent == old(messagesSent) + 1 &&
                     outbox == old(outbox) + [(chatId, Helpers.SanitizeForFunPay(Some(text)))]
      ensures !ok ==> messagesSent == old(messagesSent) && outbox == old(outbox)
      ensures now == old(now) + Sum(Retry.Delays(2000, 2, Attempts(Completes(accountSend), 3) - 1))
    {
      var call: nat -> Retry.Call<bool> :=
        (k: nat) => if accountSend(k) then Retry.Value(true) else Retry.Threw(Retry.Exc({"Exception", "BaseException"}, k));
      var r, calls, sleeps := Retry.AsyncRetry(3, 2000, 2, {"Exception"}, call);
      var script := Completes(accountSend);
      AttemptsSpec(script, 3);
      forall k | 1 <= k < calls
        ensures !accountSend(k)
      {
        assert call(k).Threw?;
      }
      assert calls == Attempts(script, 3) by {
        if r.Returns? {
          assert accountSend(calls);
        } else {
          assert !accountSend(calls);
          assert "Exception" in r.e.classes * {"Exception"};
          assert calls == 3;
        }
      }
      now := now + Sum(sleeps);
      if r.Returns? {
        assert script(calls).Succeeded();
        messagesSent := messagesSent + 1;
        outbox := outbox + [(chatId, Helpers.SanitizeForFunPay(Some(text)))];
        return true;
      }
      return false;
    }

    /** get_stats: a copy of the counters (a value, so callers cannot alter them). */
    function Stats(): (s: ClientStats)
      reads this
      ensures s.messagesSent == messagesSent && s.connectionErrors == connectionErrors &&
              s.reconnects == reconnects
      ensures s.messagesReceived == messagesReceived && s.ordersReceived == ordersReceived
    {
      ClientStats(messagesSent, messagesReceived, ordersReceived, connectionErrors, reconnects)
    }
  }
}
