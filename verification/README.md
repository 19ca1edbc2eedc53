# Event bus model

A Dafny model of the in-process publish/subscribe `EventBus` of
`src/core/eventBus.ts`. The bus holds five pieces of state:

- a registry from event name to an ordered list of `{callback, priority}` subscribers;
- a list of global middleware;
- a map from event name to that event's own middleware;
- a replay cache with one `{payload, timestamp}` entry per event;
- the `cacheTTL` and `cacheEnabled` settings.

Its public operations are `emit`, `subscribe` (with the unsubscribe closure it
returns), `unsubscribe`, `use` and `useForEvent`.

The model is functional. The bus is an immutable record (`EventBus.Bus`), and
each operation is a pure transition that returns the new bus together with what
the operation observably did:

- `Emit` returns the delivered payload, the callbacks invoked in order, and the log entries.
- `Subscribe` returns the payload replayed to the new callback (if any), the log
  entries, and either the handle or the thrown error.

Outside effects become parameters:

- `Date.now()` is the parameter `now`.
- A callback is an opaque id, and the caller-supplied predicate
  `faults(id, payload)` says whether that callback throws on that payload.
- A middleware is a function `(event, payload) -> Option<payload>`, where `None`
  means it threw.
- The logger is the list of entries an operation writes. Every message the bus
  writes is at error level, so an entry records only which message was written.
  `CallbackFailed` names the callback that threw; it stands for the thrown error
  value.

Modules:

- `Wrappers`: `Option` and `Result`.
- `Subscribers`: the dispatch order, an insertion sort by descending priority,
  with its stability, uniqueness and permutation lemmas; the removal filter used
  by `unsubscribe`.
- `Pipeline`: the middleware fold and its composition and fault lemmas.
- `EventBus`: the state, the constructor and the five operations.
- `EmitLaws`, `SubscriptionLaws`, `Scenarios`: properties of one operation, and
  of several operations together.

Facts about `src/core/eventBus.ts` that a reader might expect otherwise:

- The code has no `enableCache`, `disableCache` or cache-clearing operation.
  Caching is fixed at construction. `Scenarios.OperationsPreserveWf` shows that
  a bus built with caching off always has an empty cache.
- The handle returned by `subscribe` calls `unsubscribe(event, callback)`. That
  call removes every entry with that callback, not only the entry the handle
  came from. `SubscriptionLaws.SubscribeThenRelease` therefore states the round
  trip only when the callback was not already registered for the event.
- `use` and `useForEvent` catch registration failures and only log them; they
  do not re-throw. In `subscribe`, the only fault that is caught, logged and
  re-thrown is one thrown by the replayed callback. When that happens, the
  subscriber stays registered.
- `emit`, `unsubscribe` and `useForEvent` do not check the event name; only
  `subscribe` rejects a missing, empty or non-string name.
- `src/constants` is not part of this model, so the defaults are assumed:
  `CacheTTL = 60000` ms and `CacheEnabled = true`.

## Model

| member | source | states |
|---|---|---|
| EventBus.NewBus | src/core/eventBus.ts:33-43 | a new bus has no subscribers, middleware or cache entries; a TTL that is undefined or 0 falls back to 60000 and any other TTL is kept; caching is off exactly when `cacheEnabled: false` is passed |
| Subscribers.SortByPriorityIsStableSort | src/core/eventBus.ts:69-70 | the dispatch order is sorted by descending priority, keeps every priority group in registration order, and is a permutation of the registered list |
| Subscribers.StableSortUnique | src/core/eventBus.ts:69-70 | two lists that are both stable descending-priority sorts of one list are equal, so the stable-sort property fixes the dispatch order completely |
| Subscribers.StableSortIsPermutation | src/core/eventBus.ts:69-70 | any stable sort of the list keeps every registration, with its multiplicity |
| EventBus.DispatchInvokesAll | src/core/eventBus.ts:71-77 | the dispatch invokes every subscriber in order, whether or not earlier callbacks threw; each log entry names a callback that threw, and each throwing invocation is logged exactly once |
| EventBus.DispatchLogInOrder | src/core/eventBus.ts:71-77 | the log of a dispatch is exactly one "error in callback" entry per invocation that threw, in invocation order (`Failures` of the invoked callbacks) |
| Pipeline.RunConcat | src/core/eventBus.ts:50-59 | running the global pool and then the event's pool equals one left fold over their concatenation; a fault in the first pool skips the second |
| Pipeline.RunFirst | src/core/eventBus.ts:51-53 | the first middleware receives the emitted payload itself, and the rest run on its output |
| Pipeline.RunAppendOne | src/core/eventBus.ts:51-53 | a middleware appended to a pool runs last, on the output of all the middleware before it |
| Pipeline.RunFailsIffSomeFault | src/core/eventBus.ts:49-59 | the pipeline fails exactly when some middleware is reached and throws |
| EmitLaws.EmitFrame | src/core/eventBus.ts:46-81 | `emit` changes no middleware pool or setting, and no stored list of another event |
| EmitLaws.EmitDeliversPipeline | src/core/eventBus.ts:47-59 | the payload delivered to the subscribers is the left fold of the global middleware and then the event's own middleware, in registration order, starting from the emitted payload |
| EmitLaws.OtherEventsMiddlewareNeverApplied | src/core/eventBus.ts:56-59 | registering middleware for another event changes nothing about an emission: not the payload, the invocations, the log, the registry or the cache |
| EmitLaws.UseRunsLast | src/core/eventBus.ts:134-140 | a middleware added by `use` runs after every global middleware registered before it |
| EmitLaws.UseForEventRunsLast | src/core/eventBus.ts:143-152 | after `useForEvent(e, m)`, emitting `e` delivers `m` applied to what it delivered before, and still fails if the earlier pipeline failed |
| EmitLaws.EmitMiddlewareFaultAborts | src/core/eventBus.ts:49-80 | `emit` fails exactly when some middleware throws; then the bus is unchanged (no cache write, no sort), no callback is invoked and one "error emitting event" entry is logged |
| EmitLaws.EmitCacheWrite | src/core/eventBus.ts:61-64 | with caching on, a successful emission sets the event's entry to the delivered payload and `now`, overwriting any previous entry; no other event's entry changes; with caching off, or when a middleware throws, the cache is unchanged |
| EmitLaws.EmitDispatchOrder | src/core/eventBus.ts:66-77 | for any stable descending-priority sort of the registered list, a successful emission invokes the callbacks in exactly that order and stores that list back (the sort is in place) |
| EmitLaws.EmitKeepsRegistrations | src/core/eventBus.ts:66-70 | after an emission, every event's stored list holds the same registrations, as often as before |
| EmitLaws.EmitIsolatesCallbackFaults | src/core/eventBus.ts:71-77 | a successful emission invokes every registration once, even when some callbacks throw, and logs exactly the throwing invocations, one entry each |
| EmitLaws.EmitLogsFaultsInOrder | src/core/eventBus.ts:71-77 | the log of a successful emission is one "error in callback" entry per throwing invocation, in the order the callbacks were invoked |
| EmitLaws.PriorityExample | src/core/eventBus.ts:69-70 | subscribers with priorities 3, 1, 2, registered in that order, are invoked in the order 3, 2, 1 |
| EmitLaws.TieExample | src/core/eventBus.ts:69-70 | subscribers with equal priority are invoked in registration order, after any subscriber of higher priority |
| EventBus.Subscribe | src/core/eventBus.ts:84-118 | `subscribe` never changes the middleware pools, the cache or the settings |
| SubscriptionLaws.SubscribeValidation | src/core/eventBus.ts:85-93 | a missing, empty or non-string event name is rejected first, and then a callback that is not a function; each rejection logs one entry, throws, replays nothing and leaves the bus unchanged; valid arguments are never rejected |
| SubscriptionLaws.SubscribeAppends | src/core/eventBus.ts:95-100 | a valid subscription appends exactly one `{callback, priority}` entry, with priority defaulting to 0, at the end of the event's list; no other event's list changes, even when the replay throws |
| SubscriptionLaws.SubscribeReplay | src/core/eventBus.ts:102-117 | the new callback is invoked with the cached payload, not run through middleware again, exactly when caching is on, an entry exists and `now - timestamp <= cacheTTL`; a replay that throws is logged and re-thrown; otherwise the handle is returned |
| EventBus.Unsubscribe | src/core/eventBus.ts:121-131 | `unsubscribe` changes only the registry, and always leaves a list for the event |
| SubscriptionLaws.UnsubscribeRemoves | src/core/eventBus.ts:121-127 | `unsubscribe` leaves no entry for the callback, keeps every other entry as often as before and in the same relative order, and changes no other event's list |
| SubscriptionLaws.UnsubscribeAbsentIsNoop | src/core/eventBus.ts:123-127 | unsubscribing a callback that is not registered changes no list, and changes nothing at all when the event already has a list |
| SubscriptionLaws.ReleaseIdempotent | src/core/eventBus.ts:111-113 | calling the returned handle twice has the same effect as calling it once |
| SubscriptionLaws.SubscribeThenRelease | src/core/eventBus.ts:95-113 | subscribing a callback not yet registered for the event and then calling the returned handle restores every event's list |
| Subscribers.WithoutIsFilter | src/core/eventBus.ts:126 | the removal filter deletes exactly the entries of the callback and keeps the others in order |
| Subscribers.WithoutIdempotent | src/core/eventBus.ts:126 | filtering a callback out twice gives the same list as filtering it out once |
| EventBus.Use | src/core/eventBus.ts:134-140 | `use` appends exactly one middleware at the end of the global pool and changes nothing else |
| EventBus.UseForEvent | src/core/eventBus.ts:143-152 | `useForEvent` appends exactly one middleware at the end of that event's pool, creating the pool if needed, and changes no other pool |
| Scenarios.OperationsPreserveWf | src/core/eventBus.ts:40-64 | a new bus has a non-zero TTL and, when caching is off, an empty cache, and every operation keeps both facts |
| Scenarios.DisabledCacheNeverReplays | src/core/eventBus.ts:103-108 | on a bus constructed with caching off, no new subscriber is ever replayed anything |
| Scenarios.EmitThenSubscribe | src/core/eventBus.ts:102-107 | with caching on, a subscriber arriving at most `cacheTTL` ms after a successful emission receives the delivered payload, and one arriving later receives nothing |
| Scenarios.LaterEmitWins | src/core/eventBus.ts:61-64 | after two successful emissions of one event, a later subscriber within the TTL is replayed the second payload |
| Scenarios.MiddlewareOrderExample | src/core/eventBus.ts:50-59 | global `m1` and `m2` then event-specific `m3` run in that order, even when `m3` was registered first, and another event's middleware does not run |
| Scenarios.TransformExample | src/utils/transform.ts:3-7 | the `transformed: true` middleware marks exactly the payloads of the event it is registered for |

## Left out

- Logging I/O (`src/utils/logger.ts`) and the custom `logger` option: the model returns the list of log entries instead of writing them to a sink, and leaves out the message text and the thrown error objects.
- The wall clock: `Date.now()` is the parameter `now` of `Emit` and `Subscribe`.
- Re-entrancy: a callback or middleware that calls `emit`, `subscribe` or `unsubscribe` during a dispatch mutates the live array. The code does not specify what happens then, so it is not modelled.
- JavaScript typing: non-string event names exist only as `subscribe`'s `NonStringEvent` argument. Priorities and the TTL are integers, so NaN and fractional values are not modelled. "Is a function" is the `Callable`/`NotCallable` argument.
- Faults inside the bus's own bookkeeping: array pushes and map writes in `unsubscribe`, `use`, `useForEvent` and `subscribe` cannot fail in the model. The "error unsubscribing" and "error registering middleware" log entries are therefore never produced.
- A logger that throws inside `emit`'s catch blocks is not modelled.
- Cache controls and concurrency: the code has no enable, disable or clear operation, and it runs on one thread.
- The React hooks, context and components, and the module-level singleton bus in `src/utils/transform.ts`: these only call the operations modelled here.
- Shared, mutable payloads: payloads are immutable values in the model. In the code one payload object is passed through every middleware, stored in the cache, handed to every callback and replayed to later subscribers. A middleware or callback that mutates that object changes what later callbacks of the same dispatch see and what later replays deliver; this is not modelled, so `EventBus.DispatchInvokesAll` and `Scenarios.EmitThenSubscribe` describe callers that do not mutate the payload.
