/**
 * Properties of `emit`: each relates one emission to an independent
 * description of its effect (a pipeline fold, a stable sort, a cache update).
 */
module EmitLaws {
  import opened Wrappers
  import opened Subscribers
  import opened Pipeline
  import opened EventBus

  /**
   * An emission changes nothing but the cache and the emitted event's stored
   * list: middleware pools, settings and every other event's list stay.
   */
  lemma EmitFrame<P>(bus: Bus<P>, event: string, payload: P, now: int, faults: (CallbackId, P) -> bool)
    ensures var r := Emit(bus, event, payload, now, faults);
            && r.bus.globalMiddlewares == bus.globalMiddlewares
            && r.bus.eventMiddlewares == bus.eventMiddlewares
            && r.bus.cacheTTL == bus.cacheTTL && r.bus.cacheEnabled == bus.cacheEnabled
            && r.bus.events.Keys == bus.events.Keys
            && forall e :: e != event ==> SubscribersOf(r.bus, e) == SubscribersOf(bus, e)
  {
  }

  /** A successful emission dispatches the sorted list it stores back. */
  lemma DispatchOrder<P>(bus: Bus<P>, event: string, payload: P, now: int, faults: (CallbackId, P) -> bool)
    ensures var r := Emit(bus, event, payload, now, faults);
            var order := SortByPriority(SubscribersOf(bus, event));
            r.delivered.Some? ==>
              && SubscribersOf(r.bus, event) == order
              && Dispatched(r.invoked, r.log) == Dispatch(order, event, r.delivered.value, faults)
  {
  }

  // ----- emit: middleware -----

  /**
   * The payload an emission delivers is one left fold of the global
   * middleware followed by the event's own middleware, in registration order.
   */
  lemma EmitDeliversPipeline<P>(bus: Bus<P>, event: string, payload: P, now: int, faults: (CallbackId, P) -> bool)
    ensures Emit(bus, event, payload, now, faults).delivered ==
            Run(bus.globalMiddlewares + MiddlewaresFor(bus, event), event, payload)
  {
    RunConcat(bus.globalMiddlewares, MiddlewaresFor(bus, event), event, payload);
  }

  /** Middleware registered for another event has no effect on an emission. */
  lemma OtherEventsMiddlewareNeverApplied<P>(bus: Bus<P>, other: string, m: Middleware<P>,
                                             event: string, payload: P, now: int, faults: (CallbackId, P) -> bool)
    requires other != event
    ensures var before := Emit(bus, event, payload, now, faults);
            var after := Emit(UseForEvent(bus, other, m), event, payload, now, faults);
            && after.delivered == before.delivered
            && after.invoked == before.invoked
            && after.log == before.log
            && after.bus.events == before.bus.events
            && after.bus.cache == before.bus.cache
  {
  }

  /** A middleware added with `use` runs after every global middleware registered before it. */
  lemma UseRunsLast<P>(bus: Bus<P>, m: Middleware<P>, event: string, payload: P)
    ensures Run(Use(bus, m).globalMiddlewares, event, payload) ==
            Then(Run(bus.globalMiddlewares, event, payload), [m], event)
  {
    RunAppendOne(bus.globalMiddlewares, m, event, payload);
  }

  /**
   * A middleware added with `useForEvent` transforms what the event delivered
   * before; if the earlier pipeline threw, the emission still fails.
   */
  lemma UseForEventRunsLast<P>(bus: Bus<P>, event: string, m: Middleware<P>,
                               payload: P, now: int, faults: (CallbackId, P) -> bool)
    ensures Emit(UseForEvent(bus, event, m), event, payload, now, faults).delivered ==
            Then(Emit(bus, event, payload, now, faults).delivered, [m], event)
  {
    var b' := UseForEvent(bus, event, m);
    EmitDeliversPipeline(bus, event, payload, now, faults);
    EmitDeliversPipeline(b', event, payload, now, faults);
    assert b'.globalMiddlewares + MiddlewaresFor(b', event) == (bus.globalMiddlewares + MiddlewaresFor(bus, event)) + [m];
    RunAppendOne(bus.globalMiddlewares + MiddlewaresFor(bus, event), m, event, payload);
  }

  // ----- emit: middleware faults -----

  /**
   * An emission fails exactly when some middleware is reached and throws;
   * a failed emission changes nothing, invokes no subscriber and logs one
   * "error emitting event" entry.
   */
  lemma EmitMiddlewareFaultAborts<P>(bus: Bus<P>, event: string, payload: P, now: int, faults: (CallbackId, P) -> bool)
    ensures var pool := bus.globalMiddlewares + MiddlewaresFor(bus, event);
            Emit(bus, event, payload, now, faults).delivered.None? <==>
            exists k :: 0 <= k < |pool| && FaultsAt(pool, event, payload, k)
    ensures var r := Emit(bus, event, payload, now, faults);
            r.delivered.None? ==> r.bus == bus && r.invoked == [] && r.log == [EmitFailed(event)]
  {
    EmitDeliversPipeline(bus, event, payload, now, faults);
    RunFailsIffSomeFault(bus.globalMiddlewares + MiddlewaresFor(bus, event), event, payload);
  }

  // ----- emit: cache -----

  /**
   * With caching on, a successful emission leaves exactly its delivered
   * payload and `now` as the event's entry; no other event's entry changes;
   * with caching off, or when a middleware threw, the cache is unchanged.
   */
  lemma EmitCacheWrite<P>(bus: Bus<P>, event: string, payload: P, now: int, faults: (CallbackId, P) -> bool)
    ensures var r := Emit(bus, event, payload, now, faults);
            bus.cacheEnabled && r.delivered.Some? ==>
              event in r.bus.cache && r.bus.cache[event] == CachedEvent(r.delivered.value, now)
    ensures var r := Emit(bus, event, payload, now, faults);
            forall e :: e != event ==>
              (e in r.bus.cache <==> e in bus.cache) && (e in bus.cache ==> r.bus.cache[e] == bus.cache[e])
    ensures var r := Emit(bus, event, payload, now, faults);
            !bus.cacheEnabled || r.delivered.None? ==> r.bus.cache == bus.cache
  {
  }

  // ----- emit: dispatch -----

  /**
   * One emission invokes the subscribers in THE stable descending-priority
   * order of the registered list, and that order is what is stored back: the
   * sort happens in place on the event's list.
   */
  lemma EmitDispatchOrder<P>(bus: Bus<P>, event: string, payload: P, now: int, faults: (CallbackId, P) -> bool,
                             order: seq<Subscriber>)
    requires IsStableSortOf(order, SubscribersOf(bus, event))
    ensures var r := Emit(bus, event, payload, now, faults);
            r.delivered.Some? ==> r.invoked == Callbacks(order) && SubscribersOf(r.bus, event) == order
  {
    var subs := SubscribersOf(bus, event);
    SortByPriorityIsStableSort(subs);
    StableSortUnique(SortByPriority(subs), order, subs);
    DispatchOrder(bus, event, payload, now, faults);
    var r := Emit(bus, event, payload, now, faults);
    if r.delivered.Some? {
      DispatchInvokesAll(order, event, r.delivered.value, faults);
    }
  }

  /** The stored list after an emission holds the same registrations as before. */
  lemma EmitKeepsRegistrations<P>(bus: Bus<P>, event: string, payload: P, now: int, faults: (CallbackId, P) -> bool)
    ensures forall e :: multiset(SubscribersOf(Emit(bus, event, payload, now, faults).bus, e)) ==
                        multiset(SubscribersOf(bus, e))
  {
    SortByPriorityIsStableSort(SubscribersOf(bus, event));
  }

  /**
   * A throwing callback does not stop the dispatch: every registration is
   * invoked once, and exactly the throwing invocations are logged, once each.
   */
  lemma EmitIsolatesCallbackFaults<P>(bus: Bus<P>, event: string, payload: P, now: int, faults: (CallbackId, P) -> bool)
    ensures var r := Emit(bus, event, payload, now, faults);
            r.delivered.Some? ==>
              && multiset(r.invoked) == multiset(Callbacks(SubscribersOf(bus, event)))
              && LogMatchesFaults(Dispatched(r.invoked, r.log), event, r.delivered.value, faults)
  {
    var subs := SubscribersOf(bus, event);
    SortByPriorityIsStableSort(subs);
    CallbacksOfPermutation(SortByPriority(subs), subs);
    DispatchOrder(bus, event, payload, now, faults);
    var r := Emit(bus, event, payload, now, faults);
    if r.delivered.Some? {
      DispatchInvokesAll(SortByPriority(subs), event, r.delivered.value, faults);
    }
  }

  /**
   * The "error in callback" entries of a successful emission follow the
   * invocation order: one per throwing invocation, none for the others.
   */
  lemma EmitLogsFaultsInOrder<P>(bus: Bus<P>, event: string, payload: P, now: int, faults: (CallbackId, P) -> bool)
    ensures var r := Emit(bus, event, payload, now, faults);
            r.delivered.Some? ==> r.log == Failures(r.invoked, event, r.delivered.value, faults)
  {
    var order := SortByPriority(SubscribersOf(bus, event));
    DispatchOrder(bus, event, payload, now, faults);
    var r := Emit(bus, event, payload, now, faults);
    if r.delivered.Some? {
      DispatchInvokesAll(order, event, r.delivered.value, faults);
      DispatchLogInOrder(order, event, r.delivered.value, faults);
    }
  }

  /** The worked example: priorities 3, 1, 2 registered in that order are invoked as 3, 2, 1. */
  lemma PriorityExample<P>(bus: Bus<P>, event: string, payload: P, now: int, faults: (CallbackId, P) -> bool)
    requires SubscribersOf(bus, event) == [Subscriber(10, 3), Subscriber(11, 1), Subscriber(12, 2)]
    ensures var r := Emit(bus, event, payload, now, faults);
            r.delivered.Some? ==> r.invoked == [10, 12, 11]
  {
    var a, b, c := Subscriber(10, 3), Subscriber(11, 1), Subscriber(12, 2);
    DistinctPrioritiesSorted(a, b, c);
    EmitDispatchOrder(bus, event, payload, now, faults, [a, c, b]);
    assert Callbacks([a, c, b]) == [10, 12, 11];
  }

  lemma DistinctPrioritiesSorted(a: Subscriber, b: Subscriber, c: Subscriber)
    requires a.priority > c.priority > b.priority
    ensures IsStableSortOf([a, c, b], [a, b, c])
  {
    forall p ensures WithPriority([a, c, b], p) == WithPriority([a, b, c], p) {
      Groups3(a, c, b, p);
      Groups3(a, b, c, p);
      SingletonGroup(a, p);
      SingletonGroup(b, p);
      SingletonGroup(c, p);
    }
  }

  /** Equal priorities are invoked in registration order. */
  lemma TieExample<P>(bus: Bus<P>, event: string, payload: P, now: int, faults: (CallbackId, P) -> bool)
    requires SubscribersOf(bus, event) == [Subscriber(20, 0), Subscriber(21, 5), Subscriber(22, 0)]
    ensures var r := Emit(bus, event, payload, now, faults);
            r.delivered.Some? ==> r.invoked == [21, 20, 22]
  {
    var a, b, c := Subscriber(20, 0), Subscriber(21, 5), Subscriber(22, 0);
    forall p ensures WithPriority([b, a, c], p) == WithPriority([a, b, c], p) {
      Groups3(b, a, c, p);
      Groups3(a, b, c, p);
      SingletonGroup(a, p);
      SingletonGroup(b, p);
      SingletonGroup(c, p);
    }
    EmitDispatchOrder(bus, event, payload, now, faults, [b, a, c]);
  }
}
