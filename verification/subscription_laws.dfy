/**
 * Properties of `subscribe`, `unsubscribe` and the handle `subscribe`
 * returns: validation, the append, the replay rule, and removal by callback.
 */
module SubscriptionLaws {
  import opened Wrappers
  import opened Subscribers
  import opened EventBus

  /** The event argument passes validation: a non-empty string. */
  predicate ValidName(event: EventArg) {
    event.EventName? && event.name != ""
  }

  /**
   * An invalid event name is rejected before the callback is looked at, an
   * invalid callback after it; either way one entry is logged, the error is
   * thrown, nothing is replayed and the bus is unchanged. Valid arguments are
   * never rejected as invalid.
   */
  lemma SubscribeValidation<P>(bus: Bus<P>, event: EventArg, callback: CallbackArg, priority: Option<int>,
                               now: int, faults: (CallbackId, P) -> bool)
    ensures var r := Subscribe(bus, event, callback, priority, now, faults);
            !ValidName(event) ==>
              r.bus == bus && r.replayed == None && r.log == [InvalidEventName] && r.outcome == Failure(BadEventName)
    ensures var r := Subscribe(bus, event, callback, priority, now, faults);
            ValidName(event) && callback.NotCallable? ==>
              r.bus == bus && r.replayed == None && r.log == [InvalidCallback(event.name)] && r.outcome == Failure(BadCallback)
    ensures var r := Subscribe(bus, event, callback, priority, now, faults);
            ValidName(event) && callback.Callable? ==>
              r.outcome != Failure(BadEventName) && r.outcome != Failure(BadCallback)
  {
  }

  /**
   * A valid subscription appends exactly one registration, with the given
   * priority or 0, at the end of the event's list; no other event's list
   * changes. The registration is kept even when the replay throws.
   */
  lemma SubscribeAppends<P>(bus: Bus<P>, name: string, id: CallbackId, priority: Option<int>,
                            now: int, faults: (CallbackId, P) -> bool)
    requires name != ""
    ensures var r := Subscribe(bus, EventName(name), Callable(id), priority, now, faults);
            && SubscribersOf(r.bus, name) == SubscribersOf(bus, name) + [Subscriber(id, priority.GetOr(DefaultPriority))]
            && r.bus.events.Keys == bus.events.Keys + {name}
            && (forall e :: e != name ==> SubscribersOf(r.bus, e) == SubscribersOf(bus, e))
  {
  }

  /**
   * The new callback is invoked with the cached payload exactly when caching
   * is on, the event has an entry, and that entry is at most `cacheTTL` old;
   * the payload is the cached one, not run through middleware again. A replay
   * that throws is logged and re-thrown; otherwise the handle is returned.
   */
  lemma SubscribeReplay<P>(bus: Bus<P>, name: string, id: CallbackId, priority: Option<int>,
                           now: int, faults: (CallbackId, P) -> bool)
    requires name != ""
    ensures var r := Subscribe(bus, EventName(name), Callable(id), priority, now, faults);
            r.replayed.Some? <==>
              bus.cacheEnabled && name in bus.cache && now - bus.cache[name].timestamp <= bus.cacheTTL
    ensures var r := Subscribe(bus, EventName(name), Callable(id), priority, now, faults);
            r.replayed.Some? ==> r.replayed.value == bus.cache[name].payload
    ensures var r := Subscribe(bus, EventName(name), Callable(id), priority, now, faults);
            r.outcome.Failure? <==> r.replayed.Some? && faults(id, r.replayed.value)
    ensures var r := Subscribe(bus, EventName(name), Callable(id), priority, now, faults);
            && (r.outcome.Failure? ==> r.outcome.error == ReplayThrew && r.log == [SubscribeFailed(name)])
            && (r.outcome.Success? ==> r.outcome.value == Handle(name, id) && r.log == [])
  {
  }

  /**
   * `unsubscribe` leaves no registration of the callback, keeps every other
   * registration as often as before and in the same relative order, and
   * changes no other event's list.
   */
  lemma UnsubscribeRemoves<P>(bus: Bus<P>, event: string, cb: CallbackId)
    ensures var after := SubscribersOf(Unsubscribe(bus, event, cb), event);
            && (forall i :: 0 <= i < |after| ==> after[i].callback != cb)
            && (forall s: Subscriber :: s.callback != cb ==> multiset(after)[s] == multiset(SubscribersOf(bus, event))[s])
            && IsSubsequence(after, SubscribersOf(bus, event))
    ensures forall e :: e != event ==> SubscribersOf(Unsubscribe(bus, event, cb), e) == SubscribersOf(bus, e)
  {
    var after := SubscribersOf(Unsubscribe(bus, event, cb), event);
    WithoutIsFilter(SubscribersOf(bus, event), cb);
    forall i | 0 <= i < |after| ensures after[i].callback != cb {
      assert after[i] in multiset(after);
    }
  }

  /**
   * Unsubscribing a callback that is not registered changes no list; when the
   * event already has a list, the bus is exactly the same.
   */
  lemma UnsubscribeAbsentIsNoop<P>(bus: Bus<P>, event: string, cb: CallbackId)
    requires forall s :: s in SubscribersOf(bus, event) ==> s.callback != cb
    ensures forall e :: SubscribersOf(Unsubscribe(bus, event, cb), e) == SubscribersOf(bus, e)
    ensures event in bus.events ==> Unsubscribe(bus, event, cb) == bus
  {
    WithoutAbsent(SubscribersOf(bus, event), cb);
  }

  /** Calling the returned handle a second time does nothing more. */
  lemma ReleaseIdempotent<P>(bus: Bus<P>, h: Handle)
    ensures Release(Release(bus, h), h) == Release(bus, h)
  {
    WithoutIdempotent(SubscribersOf(bus, h.event), h.callback);
  }

  /**
   * Round trip: subscribing a callback not yet registered for the event and
   * then calling the returned handle gives back the event's original list.
   */
  lemma SubscribeThenRelease<P>(bus: Bus<P>, name: string, id: CallbackId, priority: Option<int>,
                                now: int, faults: (CallbackId, P) -> bool)
    requires name != ""
    requires forall s :: s in SubscribersOf(bus, name) ==> s.callback != id
    ensures var r := Subscribe(bus, EventName(name), Callable(id), priority, now, faults);
            r.outcome.Success? ==>
              forall e :: SubscribersOf(Release(r.bus, r.outcome.value), e) == SubscribersOf(bus, e)
  {
    var r := Subscribe(bus, EventName(name), Callable(id), priority, now, faults);
    var before := SubscribersOf(bus, name);
    var entry := Subscriber(id, priority.GetOr(DefaultPriority));
    SubscribeAppends(bus, name, id, priority, now, faults);
    SubscribeReplay(bus, name, id, priority, now, faults);
    assert SubscribersOf(r.bus, name) == before + [entry];
    WithoutAppend(before, [entry], id);
    forall i | 0 <= i < |before| ensures before[i].callback != id {
      assert before[i] in before;
    }
    WithoutAbsent(before, id);
    assert Without([entry], id) == [];
    if r.outcome.Success? {
      var released := Release(r.bus, r.outcome.value);
      assert released == Unsubscribe(r.bus, name, id);
      assert SubscribersOf(released, name) == before;
      forall e | e != name ensures SubscribersOf(released, e) == SubscribersOf(bus, e) {
        assert SubscribersOf(released, e) == SubscribersOf(r.bus, e);
      }
      assert forall e :: SubscribersOf(released, e) == SubscribersOf(bus, e);
    }
  }
}
