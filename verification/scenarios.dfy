/**
 * Properties that span several operations of the bus: the invariant every
 * reachable bus keeps, the replay cache seen through `emit` followed by
 * `subscribe`, and worked middleware scenarios.
 */
module Scenarios {
  import opened Wrappers
  import opened Subscribers
  import opened Pipeline
  import opened EventBus
  import EmitLaws

  /**
   * Every bus built by the constructor and the public operations has a
   * non-zero TTL and, when caching is off, an empty cache.
   */
  predicate Wf<P>(bus: Bus<P>) {
    bus.cacheTTL != 0 && (!bus.cacheEnabled ==> bus.cache == map[])
  }

  /** The invariant holds of a new bus and is kept by every operation. */
  lemma OperationsPreserveWf<P>(bus: Bus<P>, options: Options, event: string, name: EventArg, cb: CallbackArg,
                                id: CallbackId, priority: Option<int>, m: Middleware<P>, h: Handle,
                                payload: P, now: int, faults: (CallbackId, P) -> bool)
    requires Wf(bus)
    ensures Wf(NewBus<P>(options))
    ensures Wf(Emit(bus, event, payload, now, faults).bus)
    ensures Wf(Subscribe(bus, name, cb, priority, now, faults).bus)
    ensures Wf(Unsubscribe(bus, event, id))
    ensures Wf(Release(bus, h))
    ensures Wf(Use(bus, m))
    ensures Wf(UseForEvent(bus, event, m))
  {
  }

  /** A bus constructed with caching off never replays to a new subscriber. */
  lemma DisabledCacheNeverReplays<P>(bus: Bus<P>, name: EventArg, cb: CallbackArg, priority: Option<int>,
                                     now: int, faults: (CallbackId, P) -> bool)
    requires !bus.cacheEnabled
    ensures Subscribe(bus, name, cb, priority, now, faults).replayed == None
  {
  }

  /**
   * Replay after an emission: with caching on, a subscriber arriving at most
   * `cacheTTL` milliseconds after a successful emission is invoked with the
   * delivered payload; one arriving later is not invoked.
   */
  lemma EmitThenSubscribe<P>(bus: Bus<P>, event: string, payload: P, t0: int, now: int,
                             id: CallbackId, priority: Option<int>, faults: (CallbackId, P) -> bool)
    requires event != "" && bus.cacheEnabled
    ensures var e := Emit(bus, event, payload, t0, faults);
            var s := Subscribe(e.bus, EventName(event), Callable(id), priority, now, faults);
            e.delivered.Some? ==>
              (now - t0 <= bus.cacheTTL ==> s.replayed == e.delivered) &&
              (now - t0 > bus.cacheTTL ==> s.replayed == None)
  {
  }

  /**
   * Last write wins: after two successful emissions of the same event, a
   * subscriber within the TTL of the second is replayed the second payload.
   */
  lemma LaterEmitWins<P>(bus: Bus<P>, event: string, first: P, second: P, t1: int, t2: int, now: int,
                         id: CallbackId, faults: (CallbackId, P) -> bool)
    requires event != "" && bus.cacheEnabled && now - t2 <= bus.cacheTTL
    ensures var e1 := Emit(bus, event, first, t1, faults);
            var e2 := Emit(e1.bus, event, second, t2, faults);
            var s := Subscribe(e2.bus, EventName(event), Callable(id), None, now, faults);
            e2.delivered.Some? ==> s.replayed == e2.delivered
  {
  }

  // ----- middleware scenarios -----

  /** A middleware that records its name at the end of a list payload. */
  function Tag(name: string): Middleware<seq<string>>
  {
    (e: string, p: seq<string>) => Some(p + [name])
  }

  /**
   * Global `m1` and `m2` and event-specific `m3` are applied in exactly that
   * order, whatever order the two kinds were registered in; the middleware
   * of another event is not applied.
   */
  lemma MiddlewareOrderExample(now: int, faults: (CallbackId, seq<string>) -> bool)
    ensures var b0 := NewBus<seq<string>>(Options(None, None));
            var b1 := UseForEvent(b0, "x", Tag("m3"));
            var b2 := Use(Use(b1, Tag("m1")), Tag("m2"));
            var b3 := UseForEvent(b2, "y", Tag("other"));
            Emit(b3, "x", [], now, faults).delivered == Some(["m1", "m2", "m3"])
  {
    var b0 := NewBus<seq<string>>(Options(None, None));
    var b1 := UseForEvent(b0, "x", Tag("m3"));
    var b2 := Use(Use(b1, Tag("m1")), Tag("m2"));
    var b3 := UseForEvent(b2, "y", Tag("other"));
    EmitLaws.EmitDeliversPipeline(b3, "x", [], now, faults);
    var pool := [Tag("m1"), Tag("m2"), Tag("m3")];
    assert b3.globalMiddlewares + MiddlewaresFor(b3, "x") == pool;
    var empty: seq<Middleware<seq<string>>> := [];
    var nil: seq<string> := [];
    assert Run(empty, "x", nil) == Some(nil);
    RunAppendOne(empty, Tag("m1"), "x", nil);
    assert empty + [Tag("m1")] == [Tag("m1")];
    assert nil + ["m1"] == ["m1"];
    RunAppendOne([Tag("m1")], Tag("m2"), "x", nil);
    assert [Tag("m1")] + [Tag("m2")] == [Tag("m1"), Tag("m2")];
    assert ["m1"] + ["m2"] == ["m1", "m2"];
    RunAppendOne([Tag("m1"), Tag("m2")], Tag("m3"), "x", nil);
    assert [Tag("m1"), Tag("m2")] + [Tag("m3")] == pool;
    assert ["m1", "m2"] + ["m3"] == ["m1", "m2", "m3"];
  }

  /** The `transformed: true` middleware of src/utils/transform.ts, on a payload of named flags. */
  function MarkTransformed(): Middleware<map<string, bool>> {
    (e: string, p: map<string, bool>) => Some(p["transformed" := true])
  }

  /**
   * Registering the transform for one event marks exactly that event's
   * payloads, and leaves every other event's payload as emitted.
   */
  lemma TransformExample(name: string, other: string, payload: map<string, bool>, now: int,
                         faults: (CallbackId, map<string, bool>) -> bool)
    requires name != other
    ensures var b := UseForEvent(NewBus<map<string, bool>>(Options(None, None)), name, MarkTransformed());
            && Emit(b, name, payload, now, faults).delivered == Some(payload["transformed" := true])
            && Emit(b, other, payload, now, faults).delivered == Some(payload)
  {
  }
}
