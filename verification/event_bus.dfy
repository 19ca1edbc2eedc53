/**
 * The in-process publish/subscribe bus of src/core/eventBus.ts as an immutable
 * state record with one pure transition per public operation. The clock
 * (`Date.now()`) is the parameter `now`; callbacks are opaque ids and the
 * caller says, through `faults`, which of them throw on which payload; the
 * logger is the list of entries an operation appends to the log.
 */
module EventBus {
  import opened Wrappers
  import opened Subscribers
  import opened Pipeline

  /** Default time-to-live of a cache entry, in milliseconds. */
  const DefaultCacheTTL: int := 60000
  /** Caching is on unless the options turn it off. */
  const DefaultCacheEnabled: bool := true
  /** Priority of a subscription made without one. */
  const DefaultPriority: int := 0

  /** The replay cache entry of one event: the last delivered payload and when it was stored. */
  datatype CachedEvent<P> = CachedEvent(payload: P, timestamp: int)

  /** Constructor options; `None` is an option left undefined. */
  datatype Options = Options(cacheTTL: Option<int>, cacheEnabled: Option<bool>)

  datatype Bus<!P> = Bus(
    events: map<string, seq<Subscriber>>,
    globalMiddlewares: seq<Middleware<P>>,
    eventMiddlewares: map<string, seq<Middleware<P>>>,
    cache: map<string, CachedEvent<P>>,
    cacheTTL: int,
    cacheEnabled: bool)

  /** Error-level log entries, one constructor per message the bus writes. */
  datatype LogEntry =
    | EmitFailed(event: string)
    | CallbackFailed(event: string, culprit: CallbackId)
    | InvalidEventName
    | InvalidCallback(event: string)
    | SubscribeFailed(event: string)

  /** The registered subscribers of `event`; an event never subscribed to has none. */
  function SubscribersOf<P>(bus: Bus<P>, event: string): seq<Subscriber> {
    if event in bus.events then bus.events[event] else []
  }

  /** The middleware registered for `event` alone; none when nothing was registered. */
  function MiddlewaresFor<P>(bus: Bus<P>, event: string): seq<Middleware<P>> {
    if event in bus.eventMiddlewares then bus.eventMiddlewares[event] else []
  }

  /**
   * The constructor: empty registry, middleware pools and cache. A falsy TTL
   * (undefined or 0) falls back to the default; an explicit `cacheEnabled`
   * is kept, even when false.
   */
  function NewBus<P>(options: Options): (b: Bus<P>)
    ensures b.events == map[] && b.cache == map[]
    ensures b.globalMiddlewares == [] && b.eventMiddlewares == map[]
    ensures b.cacheTTL != 0
    ensures options.cacheTTL.Some? && options.cacheTTL.value != 0 ==> b.cacheTTL == options.cacheTTL.value
    ensures options.cacheTTL.None? || options.cacheTTL.value == 0 ==> b.cacheTTL == DefaultCacheTTL
    ensures !b.cacheEnabled <==> options.cacheEnabled == Some(false)
  {
    var ttl := if options.cacheTTL.Some? && options.cacheTTL.value != 0 then options.cacheTTL.value else DefaultCacheTTL;
    Bus(map[], [], map[], map[], ttl, options.cacheEnabled.GetOr(DefaultCacheEnabled))
  }

  // ----- emit -----

  /** The callbacks one dispatch invoked, in order, and the entries it logged. */
  datatype Dispatched = Dispatched(invoked: seq<CallbackId>, log: seq<LogEntry>)

  /**
   * Invokes every subscriber of `order` in turn with `payload`; a callback that
   * throws is logged and the dispatch goes on with the next one.
   */
  function Dispatch<P>(order: seq<Subscriber>, event: string, payload: P, faults: (CallbackId, P) -> bool): Dispatched
    decreases |order|
  {
    if |order| == 0 then Dispatched([], [])
    else Invoke(order[0].callback, Dispatch(order[1..], event, payload, faults), event, payload, faults)
  }

  /**
   * A dispatch invokes every subscriber, in order, whatever the earlier ones
   * did, and logs exactly the invocations that threw.
   */
  lemma {:induction false} DispatchInvokesAll<P>(order: seq<Subscriber>, event: string, payload: P,
                                                 faults: (CallbackId, P) -> bool)
    ensures Dispatch(order, event, payload, faults).invoked == Callbacks(order)
    ensures LogMatchesFaults(Dispatch(order, event, payload, faults), event, payload, faults)
    decreases |order|
  {
    if |order| > 0 {
      DispatchInvokesAll(order[1..], event, payload, faults);
      assert Callbacks(order) == [order[0].callback] + Callbacks(order[1..]);
      DispatchStep(order[0].callback, Dispatch(order[1..], event, payload, faults), event, payload, faults);
    }
  }

  /**
   * The log of a dispatch holds one entry per throwing invocation, in the
   * order the invocations happened.
   */
  lemma {:induction false} DispatchLogInOrder<P>(order: seq<Subscriber>, event: string, payload: P,
                                                 faults: (CallbackId, P) -> bool)
    ensures Dispatch(order, event, payload, faults).log == Failures(Callbacks(order), event, payload, faults)
    decreases |order|
  {
    if |order| > 0 {
      DispatchLogInOrder(order[1..], event, payload, faults);
      var cbs := Callbacks(order);
      assert cbs[0] == order[0].callback;
      assert cbs[1..] == Callbacks(order[1..]);
    }
  }

  /** Invokes `cb` ahead of the dispatch `rest`, logging it if it throws. */
  function Invoke<P>(cb: CallbackId, rest: Dispatched, event: string, payload: P, faults: (CallbackId, P) -> bool): Dispatched {
    var logged := if faults(cb, payload) then [CallbackFailed(event, cb)] else [];
    Dispatched([cb] + rest.invoked, logged + rest.log)
  }

  /**
   * The "error in callback" entries a dispatch of `invoked` should write: one
   * per invocation that throws, in invocation order.
   */
  function Failures<P>(invoked: seq<CallbackId>, event: string, payload: P, faults: (CallbackId, P) -> bool): seq<LogEntry>
    decreases |invoked|
  {
    if |invoked| == 0 then []
    else (if faults(invoked[0], payload) then [CallbackFailed(event, invoked[0])] else [])
         + Failures(invoked[1..], event, payload, faults)
  }

  /** Logs only faulting callbacks, exactly once per faulting invocation. */
  ghost predicate LogMatchesFaults<P>(d: Dispatched, event: string, payload: P, faults: (CallbackId, P) -> bool) {
    && (forall k :: 0 <= k < |d.log| ==>
          d.log[k].CallbackFailed? && d.log[k].event == event && faults(d.log[k].culprit, payload))
    && (forall c :: multiset(d.log)[CallbackFailed(event, c)] ==
          if faults(c, payload) then multiset(d.invoked)[c] else 0)
  }

  lemma DispatchStep<P>(cb: CallbackId, rest: Dispatched, event: string, payload: P, faults: (CallbackId, P) -> bool)
    requires LogMatchesFaults(rest, event, payload, faults)
    ensures LogMatchesFaults(Invoke(cb, rest, event, payload, faults), event, payload, faults)
  {
  }

  /**
   * What one `emit` did: the bus afterwards, the payload delivered to the
   * subscribers (`None` when a middleware threw), the callbacks invoked in
   * order, and the log entries written.
   */
  datatype Emission<!P> = Emission(bus: Bus<P>, delivered: Option<P>, invoked: seq<CallbackId>, log: seq<LogEntry>)

  /**
   * `emit`: global middleware then the event's own middleware; on success the
   * result is cached (when caching is on), the event's stored subscriber list
   * is sorted in place, and every subscriber is invoked in that order. A
   * middleware fault is logged once and nothing else happens; `emit` itself
   * never throws.
   */
  function Emit<P>(bus: Bus<P>, event: string, payload: P, now: int, faults: (CallbackId, P) -> bool): Emission<P>
  {
    match Then(Run(bus.globalMiddlewares, event, payload), MiddlewaresFor(bus, event), event)
    case None =>
      Emission(bus, None, [], [EmitFailed(event)])
    case Some(processed) =>
      var cache := if bus.cacheEnabled then bus.cache[event := CachedEvent(processed, now)] else bus.cache;
      var order := SortByPriority(SubscribersOf(bus, event));
      var events := if event in bus.events then bus.events[event := order] else bus.events;
      var trace := Dispatch(order, event, processed, faults);
      Emission(bus.(events := events, cache := cache), Some(processed), trace.invoked, trace.log)
  }

  // ----- subscribe / unsubscribe -----

  /** The event argument of `subscribe`, which may not be a string at all. */
  datatype EventArg = EventName(name: string) | NonStringEvent

  /** The callback argument of `subscribe`, which may not be a function. */
  datatype CallbackArg = Callable(id: CallbackId) | NotCallable

  /** The unsubscribe closure `subscribe` returns: it captures the event and the callback. */
  datatype Handle = Handle(event: string, callback: CallbackId)

  /** What `subscribe` throws. */
  datatype SubscribeError = BadEventName | BadCallback | ReplayThrew

  /**
   * What one `subscribe` did: the bus afterwards, the cached payload the new
   * callback was invoked with (if any), the log entries, and the handle
   * returned or the error thrown.
   */
  datatype Subscription<!P> = Subscription(bus: Bus<P>, replayed: Option<P>, log: seq<LogEntry>, outcome: Result<Handle, SubscribeError>)

  /** The cache holds a still-valid entry for `event` that a new subscriber is replayed. */
  predicate ReplayDue<P>(bus: Bus<P>, event: string, now: int) {
    bus.cacheEnabled && event in bus.cache && now - bus.cache[event].timestamp <= bus.cacheTTL
  }

  /**
   * `subscribe`: rejects a missing, empty or non-string event name and a
   * callback that is not a function; otherwise appends the registration and,
   * if a valid cache entry exists, invokes the new callback once with the
   * cached payload (no middleware). A replay that throws is logged and
   * re-thrown, but the registration stays.
   */
  function Subscribe<P>(bus: Bus<P>, event: EventArg, callback: CallbackArg, priority: Option<int>,
                        now: int, faults: (CallbackId, P) -> bool): (r: Subscription<P>)
    ensures r.bus.globalMiddlewares == bus.globalMiddlewares
    ensures r.bus.eventMiddlewares == bus.eventMiddlewares
    ensures r.bus.cache == bus.cache
    ensures r.bus.cacheTTL == bus.cacheTTL && r.bus.cacheEnabled == bus.cacheEnabled
  {
    if event.NonStringEvent? || event.name == "" then
      Subscription(bus, None, [InvalidEventName], Failure(BadEventName))
    else if callback.NotCallable? then
      Subscription(bus, None, [InvalidCallback(event.name)], Failure(BadCallback))
    else
      var name := event.name;
      var entry := Subscriber(callback.id, priority.GetOr(DefaultPriority));
      var registered := bus.(events := bus.events[name := SubscribersOf(bus, name) + [entry]]);
      if !ReplayDue(bus, name, now) then
        Subscription(registered, None, [], Success(Handle(name, callback.id)))
      else
        var cached := bus.cache[name].payload;
        if faults(callback.id, cached) then
          Subscription(registered, Some(cached), [SubscribeFailed(name)], Failure(ReplayThrew))
        else
          Subscription(registered, Some(cached), [], Success(Handle(name, callback.id)))
  }

  /**
   * `unsubscribe`: the event's list keeps every registration except those of
   * `cb`, in order. The entry for `event` is written even when it was absent.
   */
  function Unsubscribe<P>(bus: Bus<P>, event: string, cb: CallbackId): (r: Bus<P>)
    ensures r.globalMiddlewares == bus.globalMiddlewares && r.eventMiddlewares == bus.eventMiddlewares
    ensures r.cache == bus.cache && r.cacheTTL == bus.cacheTTL && r.cacheEnabled == bus.cacheEnabled
    ensures r.events.Keys == bus.events.Keys + {event}
  {
    bus.(events := bus.events[event := Without(SubscribersOf(bus, event), cb)])
  }

  /** Calling the closure `subscribe` returned. */
  function Release<P>(bus: Bus<P>, h: Handle): Bus<P> {
    Unsubscribe(bus, h.event, h.callback)
  }

  // ----- middleware registration -----

  /** `use`: appends a global middleware. */
  function Use<P>(bus: Bus<P>, m: Middleware<P>): (r: Bus<P>)
    ensures |r.globalMiddlewares| == |bus.globalMiddlewares| + 1
    ensures r.globalMiddlewares[..|bus.globalMiddlewares|] == bus.globalMiddlewares
    ensures r.globalMiddlewares[|bus.globalMiddlewares|] == m
    ensures r.events == bus.events && r.eventMiddlewares == bus.eventMiddlewares
    ensures r.cache == bus.cache && r.cacheTTL == bus.cacheTTL && r.cacheEnabled == bus.cacheEnabled
  {
    bus.(globalMiddlewares := bus.globalMiddlewares + [m])
  }

  /** `useForEvent`: appends a middleware to the pool of one event. */
  function UseForEvent<P>(bus: Bus<P>, event: string, m: Middleware<P>): (r: Bus<P>)
    ensures MiddlewaresFor(r, event) == MiddlewaresFor(bus, event) + [m]
    ensures forall e :: e != event ==> MiddlewaresFor(r, e) == MiddlewaresFor(bus, e)
    ensures r.events == bus.events && r.globalMiddlewares == bus.globalMiddlewares
    ensures r.cache == bus.cache && r.cacheTTL == bus.cacheTTL && r.cacheEnabled == bus.cacheEnabled
  {
    bus.(eventMiddlewares := bus.eventMiddlewares[event := MiddlewaresFor(bus, event) + [m]])
  }
}
