# Omnify: the in-memory containers, modelled in Dafny

Omnify.js is a set of small factories over browser APIs. Four of them keep
state of their own in a closure, and this project models those four:

- `createGlobalState`: an observable state store. It holds a state object and
  a Set of listeners. `setState` merges a patch into the state and calls every
  listener with the new state.
- `createMesh`: a device registry. It is a Map from device id to device, and
  `broadcast` hands a message to every registered device.
- `createCache`: a memoizing cache. `get(key, fetchFn)` calls `fetchFn` only
  when `key` is not cached yet.
- `createARSession.addObject`: appends to an object list.

Each factory is a Dafny class whose fields are the closure's variables
(`global_state.dfy`, `mesh.dfy`, `cache.dfy`, `ar_session.dfy`). The returned
closures are its methods. The `unsubscribe` closure is a small
`Subscription` object that refers to its store.

Both `setState` and `broadcast` run a `forEach` that calls every member of a
collection with one argument. That loop is `Fanout.Notify` (`fanout.dfy`). It
records each call as `Call(target, arg)` and is proved to call every member
exactly once and nobody else. A pass over `n` members makes `n` calls. The
store appends these calls to its `calls` log. `Broadcast` returns them as its
deliveries, since it changes nothing in the registry.

State objects are `map<string, V>`. Listeners are opaque handles compared by
identity, like function references in a JavaScript Set. A device is a value
that carries its `id` and a `handle` standing for its object identity.

The closure returned by `subscribe` is `() => listeners.delete(listener)`
(Omnify.js:17). It therefore returns `Set.prototype.delete`'s boolean: whether
the listener was still subscribed. `Subscription.Unsubscribe` returns that
boolean as well.

## Model

| member | source | states |
|---|---|---|
| `Fanout.CallsTo` | Omnify.js:10 | the number of calls to a target is at most the log's length, and it is zero exactly when no call in the log goes to that target |
| `Fanout.Notify` | Omnify.js:10 | the forEach pass calls each member of the collection exactly once, calls no one else, passes the same argument every time, and makes as many calls as there are members |
| `Fanout.EachOnceSize` | Omnify.js:10 | any pass that calls each of n members exactly once, and no one else, makes exactly n calls |
| `GlobalState.Merge` | Omnify.js:9 | the merged state has the keys of both objects; a key in the patch takes the patch's value; every other key keeps its old value |
| `GlobalState.MergeEmpty` | Omnify.js:9 | `setState({})` leaves a state value-equal to the old one |
| `GlobalState.MergeTwice` | Omnify.js:8-9 | `setState(p)` followed by `setState(q)` leaves the same state as one `setState` with p and q merged |
| `GlobalState.MergeIdempotent` | Omnify.js:8-9 | repeating `setState(p)` leaves the state as after the first call |
| `GlobalState.Store.constructor` | Omnify.js:4-6 | the initial state has exactly the entries of `initialState` (empty when it is omitted), with no listeners and no calls yet |
| `GlobalState.Store.GetState` | Omnify.js:13 | returns the current state and changes nothing |
| `GlobalState.Store.SetState` | Omnify.js:8-11 | the state becomes the old state merged with the patch; each subscribed listener is called exactly once with the new state, and no one else is called; the earlier call log and the listener set are unchanged |
| `GlobalState.Store.Subscribe` | Omnify.js:15-18 | the listener set gains the listener, and subscribing it again changes nothing; the state and call log are unchanged; returns a fresh unsubscribe closure bound to this store and listener |
| `GlobalState.Subscription.constructor` | Omnify.js:17 | the closure captures the store and the listener |
| `GlobalState.Subscription.Unsubscribe` | Omnify.js:17 | removes exactly that listener; returns whether it was subscribed; a repeated call changes nothing; the state and call log are untouched |
| `GlobalState.SubscribeUpdateUnsubscribe` | Omnify.js:4-21 | after create `{a:1}`, subscribe, set `{b:2}`, unsubscribe, set `{a:9}`: the listener was called once, with `{a:1,b:2}`, and the state is `{a:9,b:2}` |
| `GlobalState.UnsubscribeThenSetState` | Omnify.js:8-17 | for any store, listener and patch: after the listener's unsubscribe closure runs, the next `setState` does not call that listener, while every listener still subscribed is called once |
| `MeshNetwork.Mesh.constructor` | Omnify.js:32-33 | a new mesh has no devices |
| `MeshNetwork.Mesh.Broadcast` | Omnify.js:35-37 | each registered device id gets the message exactly once, and the device filed under that id carries that id; no one else gets anything; there are as many deliveries as devices; the registry is unchanged |
| `MeshNetwork.Mesh.Connect` | Omnify.js:39-41 | the device is filed under its id, replacing any earlier device with that id; every other id keeps its device; every device stays filed under its own id |
| `MeshNetwork.Mesh.Disconnect` | Omnify.js:43-45 | only the given id is removed; every other id keeps its device; an absent id changes nothing |
| `DataCache.Cache.constructor` | Omnify.js:73-74 | a new cache is empty |
| `DataCache.Cache.Get` | Omnify.js:76-81 | `fetchFn` is called exactly when the key is missing (reported through a ghost flag; the compiled result is the value alone); on a hit the stored value is returned and the cache is unchanged; on a miss `fetchFn`'s result is stored under the key and returned; afterwards the key is cached under the returned value |
| `DataCache.Cache.Clear` | Omnify.js:83 | the cache is empty |
| `DataCache.GetTwice` | Omnify.js:76-81 | a second `get` of the same key is a hit: it returns what the first returned and does not call its fetch function |
| `ARSession.Session.constructor` | Omnify.js:51-52 | a new session has no objects |
| `ARSession.Session.AddObject` | Omnify.js:54 | the object is appended and the new length is returned |

## Left out

- `createAnimation` (Omnify.js:24-29): a DOM query and `Element.animate`, both browser calls.
- `createARSession.syncObjects` (Omnify.js:56-58): it only writes to the console.
- `simulatePhysics` (Omnify.js:64-70): floating-point arithmetic on caller objects.
- `getUserContext` (Omnify.js:89-94): reads `navigator` globals.
- `loadModel` (Omnify.js:97-100): an asynchronous call into TensorFlow.js.
- `voiceCommand` (Omnify.js:103-113): the SpeechRecognition API and its event callback.
- `trackEvent` (Omnify.js:116-118): a network beacon and host JSON serialisation.
- A listener that subscribes or unsubscribes while `setState` is notifying. The outcome depends on how the host iterates a Set under mutation, and the model does not cover it.
- Iteration order of the Set and the Map: the contracts say every member is called exactly once, not in which order.
- Exceptions: a listener, `device.receive` or `fetchFn` that throws ends the call in the source; here every callee returns normally, and `fetchFn` is a total function.
- What listeners and devices do with their calls: calls are recorded, their effects are not.
- Object identity of state objects. `getState` hands out the stored object itself, and a caller who mutates it bypasses notification. State here is a value, so an earlier snapshot can never change.
- Object spread beyond plain own properties: getters, symbol keys, a `null` or non-object `initialState` or patch.
- JavaScript Map key comparison (SameValueZero, so `NaN` equals `NaN`): keys here use Dafny equality.
