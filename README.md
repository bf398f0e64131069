# axl streams, modelled in Dafny

axl is a small push-based event stream for JavaScript. The `Stream` class
holds an ordered array of listener records, each a pair of `next` and
`error` handlers. `next(v)` and `error(e)` call every record in the array,
synchronously and in order. `subscribe` appends a record and returns a
closure that removes it again. `filter`, `map` and `merge` build a new
stream and attach a forwarding record to the source or sources.
`asPromise` bridges a stream to a one-shot promise.

This project models `index.js` as follows.

- `events.dfy` (module `Events`): values, faults, `next`/`error` calls, and the
  reference traces of the operators. `FilterEvents` and `MapEvents` give what a
  filtered or mapped stream is fed for a trace of calls on its source.
  `FirstOutcome` gives how a one-shot promise settles.
- `listeners.dfy` (module `Listeners`): listener records, and the handler kinds
  a record can hold. Those are the defaults of `subscribe`, consumer callbacks,
  and the forwarding handlers built by `filter`, `map`, `merge`, `sendError`,
  `wrap` and `asPromise`. The module also has the normalisation `subscribe`
  applies and the removal by identity the unsubscribe closure performs.
- `world.dfy` (module `Worlds`): the state all streams share, as a value. It
  holds the module `id` counter and the listener array of every stream. It also
  keeps the identities of records, the promise states, every call of a consumer
  callback, and the faults queued with `setImmediate`. The invariants are
  `Wired` and `Identified`: records forward only to younger streams, and
  record identities are distinct.
- `dispatch.dfy` (module `Dispatch`): `next` and `error` as functions on that
  state. Each walks the array as it is when the call begins. A fault thrown by
  a `next` handler goes to the stream's own `error`. A fault thrown by an
  `error` handler is queued. An `error` on a stream with no records queues the
  fault.
- `stream.dfy` (module `Streams`): the `Stream` class. Class `Registry` holds
  the module scope and the arrays of all streams in mutable fields. Its methods
  are the constructor, `next`, `error`, `filter`, `map`, `merge`, `asPromise`,
  `subscribe` and the unsubscribe closure. Each method updates the fields in
  place, and its contract states the new state through the dispatch functions.
- `properties.dfy` (module `Properties`): end-to-end properties. They cover
  delivery order, fault rerouting, unsubscribe, and the operators feeding
  exactly their reference trace. They also cover `merge` interleaving and
  `asPromise` settling on the first call.
- `consumers.dfy` (module `Consumers`): what one consumer sees on a stream
  whose other records may be of any kind (relays, `asPromise` bridges,
  throwing consumers). A call reaches only records on its stream and younger
  streams. The error path records only faults. A consumer stays attached and
  is called exactly once per call.
- `scenarios.dfy` (module `Scenarios`): each case of `test/index.test.js` is a
  method that drives a `Registry` and proves the result the test asserts. A
  further method does the same for `asPromise`.

Settling the promise of `asPromise` removes only the subscription on the
filtered stream (`index.js:55-64`). The filter record stays on the source
stream. So `check` keeps being called for every later value. Every later
error on the source reaches the filtered stream, which now has no records,
and that stream queues the error to be raised with `setImmediate`.
`Properties.AsPromiseSettlesOnFirst` and `Scenarios.AsPromiseScenario` state
this.

## Model

| member | source | states |
|---|---|---|
| Streams.Registry.constructor | index.js:3 | module load: the id counter is 0, there are no streams, nothing is observed or queued |
| Streams.Registry.NewStream | index.js:6-9 | a new stream gets id `old id + 1`, the counter becomes that id, and its listener array is empty; the invariants are kept |
| Streams.Registry.Subscribe | index.js:68-81 | a bare function is refused with "handlers must be an object" and the state is unchanged; otherwise exactly one record with a fresh identity is appended to this stream's array with the normalised handlers, and the returned closure names that record |
| Streams.Registry.Unsubscribe | index.js:78-80 | the closure removes the records with its identity from its own stream's array and changes nothing else |
| Streams.Registry.Next | index.js:11-19 | the loop over the array snapshot leaves exactly the state `DeliverNext` specifies; the invariants are kept |
| Streams.Registry.NextStep | index.js:12-18 | one record's `next` handler, with the `catch` routing its fault to `this.error`, leaves exactly the state `NextOne` specifies |
| Streams.Registry.Error | index.js:21-33 | with no records the fault is queued; otherwise the loop over the snapshot leaves exactly the state `DeliverError` specifies |
| Streams.Registry.ErrorStep | index.js:25-32 | one record's `error` handler, with a thrown fault queued, leaves exactly the state `ErrorOne` specifies |
| Streams.Registry.Filter | index.js:35-42 | returns a new stream id, and the source gains one record testing the predicate into it (via `wrap`) and forwarding errors (via `sendError`) |
| Streams.Registry.Map | index.js:44-51 | returns a new stream id, and the source gains one record applying the transform into it (via `wrap`) and forwarding errors (via `sendError`) |
| Streams.Registry.Merge | index.js:83-95 | returns a new stream id, and every source, taken from an array argument or the argument list, gains one forwarding record per occurrence, in order |
| Streams.Registry.AsPromise | index.js:53-66 | a new pending promise, a filter of the stream by `check`, and on that filtered stream a record that settles the promise and unsubscribes itself |
| Streams.MergeSubscribesOnce | index.js:88-93 | each stream keeps its own records and gains exactly as many `merge` forwarding records as it occurs among the sources |
| Streams.MergeFormsAgree | index.js:85-87 | an array first argument and the same streams passed one by one give the same sources |
| Listeners.Normalize | index.js:72-75 | a missing `next` becomes a no-op, a missing `error` becomes a rethrow, and given handlers are kept |
| Worlds.Spawn | index.js:6-9 | a new stream takes the next id and an empty array; the older streams, the record counter, the promises and the logs are unchanged |
| Worlds.Attach | index.js:72-76 | the pushed record takes the next record identity and goes to the end of this stream's array; every other array, the promises and the logs are unchanged |
| Worlds.Unsubscribed | index.js:79 | only this stream's array is replaced, by its filtered copy; the other arrays, the counters, the promises and the logs are unchanged |
| Streams.Sources | index.js:85-87 | an array first argument gives its elements as the sources; otherwise the sources are the arguments, one per argument, in order |
| Streams.Bridged | index.js:53-66 | `asPromise` adds one pending promise and one stream; the source gains the filter record testing `check` into that stream, and the new stream holds only the record that settles the promise; nothing else changes |
| Listeners.RemoveMembers | index.js:79 | a record survives unsubscribe exactly when its identity differs |
| Listeners.RemoveSubSeq | index.js:79 | the surviving records keep their relative order |
| Listeners.RemoveGone | index.js:79 | no record with that identity is left |
| Listeners.RemoveIdempotent | index.js:78-80 | calling an unsubscribe closure twice is the same as calling it once |
| Listeners.RemoveExactlyOne | index.js:78-80 | with distinct identities, unsubscribe removes exactly the record at its position and keeps the rest in place |
| Dispatch.NextOne | index.js:12-18 | one record's `next` handler, with a thrown fault sent to this stream's `error`, keeps the invariant and the frame and adds observations only by records attached before it ran or by the record itself |
| Dispatch.ErrorOne | index.js:25-32 | the same for one record's `error` handler, with a thrown fault queued |
| Dispatch.DeliverNext | index.js:11-19 | `next` creates no stream or record, leaves settled promises and older streams alone, only grows the logs, only removes records, and only records observations by records attached when it began |
| Dispatch.DeliverError | index.js:21-33 | the same frame for `error` |
| Dispatch.Emit | index.js:11-33 | a sequence of calls on one stream keeps the same frame and the invariants |
| Worlds.Settle | index.js:54-64 | a promise settles at most once: a pending promise takes the outcome, a settled one is unchanged, and other promises are untouched |
| Events.FilterIsKeep | index.js:35-42 | with a predicate that never throws, the filtered stream is fed exactly the source values that satisfy it, in order |
| Events.KeepMembers | index.js:38 | a value reaches the filtered stream exactly when it was emitted on the source and satisfies the predicate |
| Events.MapIsPointwise | index.js:44-51 | with a transform that never throws, the mapped stream is fed `f(v)` for every source value, in order |
| Events.ErrorsPassThrough | index.js:39 | errors flow through `filter` and `map` unchanged, whatever the predicate or transform |
| Properties.EmitAppend | index.js:11-33 | calls on a stream compose: emitting `a` then `b` is emitting `a + b` |
| Properties.ErrorReachesEveryListener | index.js:21-33 | on a stream of consumers, `error(e)` is seen by every recording handler in array order; a default handler rethrows and what a handler throws is queued; with no records, `e` itself is queued once |
| Properties.NextReachesEveryListener | index.js:11-19 | on a stream of consumers, every record present when `next(v)` begins sees `v` in array order; a throwing consumer sends its fault through the stream's `error` to all records, and delivery of `v` continues |
| Properties.SeenInOrder | index.js:12-14 | one observation per value, by the subscribing record, in call order |
| Consumers.NextReachesConsumer | index.js:11-19 | on a stream with records of any kind, `next(v)` calls a consumer's `next` callback with `v` exactly once and with no other value; the consumer stays attached and identities stay distinct |
| Consumers.ErrorReachesConsumer | index.js:21-33 | on a stream with records of any kind, `error(e)` calls a consumer's `error` callback with `e` exactly once, and a default handler with nothing; the consumer stays attached |
| Consumers.DeliverReachesConsumer | index.js:11-33 | one call of either kind gives a consumer exactly the value of a `next` call and no value for an `error` call |
| Consumers.SubscriberSeesEveryValue | index.js:11-33 | on a stream with records of any kind, over any run of calls a subscriber is called with exactly the values of the `next` calls, in call order, and stays attached; faults thrown by other handlers add no value |
| Consumers.SubscriberSeesEveryNext | test/index.test.js:7-17 | a run of `next` calls reaches a subscriber as exactly those values, in order |
| Consumers.ErrorFaultsOnly | index.js:21-33 | everything an `error` call makes a callback see is a fault; it adds no value |
| Consumers.NextSilent | index.js:11-19 | `next` on a stream calls no record that sits only on older streams |
| Consumers.ErrorSilent | index.js:21-33 | `error` on a stream calls no record that sits only on older streams |
| Consumers.NextStays | index.js:55-64 | `next` removes no consumer from any stream: only the `asPromise` record unsubscribes itself, and only by its own identity |
| Consumers.ErrorStays | index.js:55-64 | `error` removes no consumer from any stream |
| Events.ValuesOfNexts | index.js:11-19 | the values of a run of `next` calls are the values passed, in order |
| Properties.ConsumersSeeEveryCall | index.js:11-19 | on a stream of consumers, a run of `next` calls keeps every record and adds exactly the observations and queued faults of each call in turn |
| Properties.QuietSubscriber | test/index.test.js:7-17 | a subscriber alone on its stream whose callback never throws adds exactly one observation per value, in call order, and nothing is queued |
| Properties.SiblingFaultReachesMerge | index.js:11-19 | a consumer before the `merge` record that throws on `v` makes the merged stream receive the fault as an error, then `v` |
| Properties.SiblingFaultRejects | index.js:53-66 | a consumer before the filter record of `asPromise` that throws on `v` rejects the promise with its fault, whatever `check` says of `v` |
| Properties.ConsumerFaultRejects | index.js:11-33 | a value on a stream whose first record throws on it, followed by a record forwarding errors to a promise bridge, rejects that promise with the fault |
| Properties.UnsubscribeRemovesItsRecord | index.js:78-80 | the closure of the record at position `i` removes exactly that record, keeps the others in order, leaves other streams alone, and a second call changes nothing |
| Properties.UnsubscribedNeverCalled | index.js:78-80 | after its closure runs, no later call on any stream produces an observation by that record |
| Properties.RelayedEmit | index.js:98-106 | a stream whose only record forwards into a younger stream passes every call on as the reference trace says, and keeps its record |
| Properties.FilterForwards | index.js:35-42 | the filtered stream is fed `FilterEvents(pred, evs)`: kept values, a throwing predicate's fault as an error, and source errors unchanged |
| Properties.MapForwards | index.js:44-51 | the mapped stream is fed `MapEvents(f, evs)`: transformed values, a throwing transform's fault as an error, and source errors unchanged |
| Properties.MergeInterleaves | index.js:83-95 | when each source holds only its `merge` record, calls on the sources reach the merged stream in the global order they were made, and sources keep forwarding after another one errs |
| Properties.EmitOrphan | index.js:22-24 | a stream with no records ignores values and queues every error it receives |
| Properties.BridgeSettlesOnFirst | index.js:55-64 | the `asPromise` subscription settles its promise with the first call it receives and removes itself; every later error is queued |
| Properties.AsPromiseSettlesOnFirst | index.js:53-66 | on a source with no other records, the promise settles with the first value `check` accepts or the first error, including one `check` throws; the filter record stays on the source, and every later error that passes it is queued |
| Scenarios.Call | index.js:11-33 | one call of `next` or `error` on the class leaves the state `Deliver` specifies |
| Scenarios.Run | index.js:11-33 | driving the class with a sequence of calls leaves the state `Emit` specifies |
| Scenarios.RunAcross | index.js:11-33 | driving the class with calls on several streams leaves the state `EmitAcross` specifies |
| Scenarios.SubscribeScenario | test/index.test.js:7-17 | the subscriber sees the one emitted value |
| Scenarios.FilterScenario | test/index.test.js:19-33 | of -1, 1, -1 only 1 passes `v >= 0` |
| Scenarios.MapScenario | test/index.test.js:35-50 | `v % 2` of 1, 2, 3, 4 reaches the subscriber as 1, 0, 1, 0 |
| Scenarios.MergeScenario | test/index.test.js:52-67 | values alternating over two sources reach the merged stream as 1, 2, 3, 4 |
| Scenarios.UnsubscribeScenario | test/index.test.js:69-84 | the value emitted after unsubscribing is not seen |
| Scenarios.ErrorHandlerScenario | test/index.test.js:87-99 | the error handler sees the error and nothing is raised |
| Scenarios.ErrorThroughFilterScenario | test/index.test.js:101-114 | an error passes a filter that rejects every value |
| Scenarios.ThrowingFilterScenario | test/index.test.js:116-128 | a throwing filter predicate sends its fault to the filtered stream's error handler |
| Scenarios.FunctionArgumentScenario | test/index.test.js:131-135 | `subscribe` with a function is refused with "must be an object" and attaches nothing |
| Scenarios.AsPromiseScenario | index.js:53-66 | with `check` being `v > 1`, values 1, 2, 3 and then an error settle the promise with 2; the later error is queued to be raised |

## Left out

- Timing of `setImmediate`: a queued raise is a fault appended to the `raises` log. The crash it causes on a later turn is not modelled.
- Promise machinery: a promise is its settlement state. Callbacks run by `then` are not modelled.
- Arbitrary JavaScript closures: handlers are a datatype of the kinds the library builds, plus consumer callbacks. A consumer callback records what it sees and may throw. A callback that calls back into a stream (emitting, subscribing or unsubscribing during dispatch) is not modelled.
- JavaScript values: values are integers and faults carry a message. The truthiness of `fn(v) &&` in `filter` is a boolean result. A handler given as `null` or another falsy value is the same as a missing one.
- JavaScript's `%` truncates toward zero, and Dafny's does not. The map scenario uses only positive values, where the two agree.
- Garbage collection: streams are never freed.
- Streams.Registry.Subscribe: requires forwarding only to younger streams, that is, streams made after the stream the record sits on. Every record the library builds has this shape. This excludes a cycle built from user code, where dispatch does not terminate, and also acyclic forwarding into an older stream, which the source allows.
- Streams.Registry.Merge: requires every source to be an existing stream. An argument that is not a stream, or an array given after the first argument, is not modelled; in the source either makes `subscribe` fail on a value that has no such method.
- Properties.RelayedEmit, Properties.FilterForwards, Properties.MapForwards: each is stated for a source whose only record is the relay. For consumers beside relays, the Consumers lemmas state what each consumer sees. What the relayed stream is fed then is not stated in general: a consumer's thrown fault also reaches the relay as an error.
- Properties.NextReachesEveryListener, Properties.ErrorReachesEveryListener, Properties.ConsumersSeeEveryCall: stated for a stream whose records are all consumers, because they give the exact new state. With a relay on the stream, that state depends on every stream downstream. Consumers.NextReachesConsumer, Consumers.ErrorReachesConsumer and Consumers.SubscriberSeesEveryValue state, for records of any kind, what each consumer sees.
- Properties.MergeInterleaves: stated for sources whose only record is the `merge` record. With a throwing consumer subscribed before the `merge` record, the merged stream is also fed that fault as an error, ahead of the value. A consumer subscribed after the `merge` record lets the value through first, and its fault follows. SiblingFaultReachesMerge proves the first case for one such consumer.
- Properties.AsPromiseSettlesOnFirst: stated for a source with no other records. With a throwing consumer subscribed before the filter record, its fault reaches the filter record and rejects the promise, even for a value `check` accepts. A consumer subscribed after the filter record lets the value through first, so an accepted value still resolves the promise. SiblingFaultRejects proves the first case for one such consumer.
- Listeners.Remove: its properties are stated as lemmas (RemoveMembers, RemoveSubSeq, RemoveGone, RemoveExactlyOne) rather than as its own postcondition, which would be instantiated at every use and make dispatch proofs too costly.
- Stack overflow and exceptions thrown by the runtime itself are not modelled.
