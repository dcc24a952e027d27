/**
 The observable state store of `createGlobalState` (Omnify.js, lines 4-21).

 The factory closes over two variables, the current state object and a Set of
 listener functions, and hands out `getState`, `setState` and `subscribe`. Here
 the closure is a `Store` object whose fields are those two variables plus
 `calls`, the log of every listener invocation made so far. A listener is an
 opaque handle of type `L` (a function reference in the source, compared by
 identity); state objects are maps from property names to values of type `V`.
 The unsubscribe closure returned by `subscribe` is a `Subscription` object.
 */
module GlobalState {
  import opened Fanout

  /** A listener invocation `listener(state)`. */
  type Notification<L, V> = Call<L, map<string, V>>

  /**
   The object spread `{ ...state, ...patch }`: a fresh object holding the
   properties of both, where a property that `patch` has takes its value from
   `patch`, and the others keep the value `state` gave them.
   */
  function Merge<V>(state: map<string, V>, patch: map<string, V>): (r: map<string, V>)
    ensures r.Keys == state.Keys + patch.Keys
    ensures forall k :: k in patch ==> r[k] == patch[k]
    ensures forall k :: k in state && k !in patch ==> r[k] == state[k]
  {
    state + patch
  }

  /** An empty patch leaves the state value-equal to what it was. */
  lemma MergeEmpty<V>(state: map<string, V>)
    ensures Merge(state, map[]) == state
  {
  }

  /** Two `setState` calls in a row leave the state one `setState` of the combined patch would. */
  lemma MergeTwice<V>(state: map<string, V>, p: map<string, V>, q: map<string, V>)
    ensures Merge(Merge(state, p), q) == Merge(state, Merge(p, q))
  {
  }

  /** Repeating a `setState` with the same patch changes nothing more. */
  lemma MergeIdempotent<V>(state: map<string, V>, patch: map<string, V>)
    ensures Merge(Merge(state, patch), patch) == Merge(state, patch)
  {
  }

  class Store<L(==,!new), V> {
    /** The current state object. */
    var state: map<string, V>
    /** The Set of subscribed listeners. */
    var listeners: set<L>
    /** Every listener invocation made so far, oldest first. */
    var calls: seq<Notification<L, V>>

    /** `createGlobalState(initialState = {})`: a copy of the initial state and no listeners. */
    constructor (initialState: map<string, V> := map[])
      ensures state == initialState
      ensures listeners == {} && calls == []
    {
      state := initialState;
      listeners := {};
      calls := [];
    }

    /** `getState()`: the current state; nothing changes. */
    method GetState() returns (s: map<string, V>)
      ensures s == state
    {
      s := state;
    }

    /**
     `setState(patch)`: the state becomes the merge of the old state with
     `patch`; then every subscribed listener is called exactly once with the
     new state. The listener set is not changed.
     */
    method SetState(patch: map<string, V>)
      modifies this
      ensures state == Merge(old(state), patch)
      ensures listeners == old(listeners)
      ensures |calls| == |old(calls)| + |listeners|
      ensures calls[..|old(calls)|] == old(calls)
      ensures EachOnce(calls[|old(calls)|..], listeners, state)
    {
      state := Merge(state, patch);
      var batch := Notify(listeners, state);
      calls := calls + batch;
      assert calls[|old(calls)|..] == batch;
    }

    /**
     `subscribe(listener)`: adds `listener` to the Set (adding a member twice
     keeps one copy) and returns the closure that removes it again.
     */
    method Subscribe(listener: L) returns (unsubscribe: Subscription<L, V>)
      modifies this
      ensures listeners == old(listeners) + {listener}
      ensures listener in old(listeners) ==> listeners == old(listeners)
      ensures state == old(state) && calls == old(calls)
      ensures fresh(unsubscribe)
      ensures unsubscribe.store == this && unsubscribe.listener == listener
    {
      listeners := listeners + {listener};
      unsubscribe := new Subscription(this, listener);
    }
  }

  /** The closure `() => listeners.delete(listener)` that `subscribe` returns. */
  class Subscription<L(==,!new), V> {
    const store: Store<L, V>
    const listener: L

    constructor (store: Store<L, V>, listener: L)
      ensures this.store == store && this.listener == listener
    {
      this.store := store;
      this.listener := listener;
    }

    /**
     Removes exactly this listener and reports, as `Set.prototype.delete`
     does, whether it was subscribed. A second call finds it gone and changes
     nothing. State and the call log are untouched.
     */
    method Unsubscribe() returns (removed: bool)
      modifies store
      ensures store.listeners == old(store.listeners) - {listener}
      ensures removed <==> listener in old(store.listeners)
      ensures !removed ==> store.listeners == old(store.listeners)
      ensures store.state == old(store.state) && store.calls == old(store.calls)
    {
      removed := listener in store.listeners;
      store.listeners := store.listeners - {listener};
    }
  }

  /**
   The usage the store is built for: subscribe, update, unsubscribe, update.
   The listener sees the first update only; the state reflects both.
   */
  method SubscribeUpdateUnsubscribe() returns (seen: seq<Notification<nat, int>>, last: map<string, int>)
    ensures seen == [Call(7, map["a" := 1, "b" := 2])]
    ensures last == map["a" := 9, "b" := 2]
  {
    var store := new Store<nat, int>(map["a" := 1]);
    var subscription := store.Subscribe(7);
    store.SetState(map["b" := 2]);
    assert |store.calls| == 1 && CallsTo(store.calls, store.calls[0].target) != 0;
    assert store.state == map["a" := 1, "b" := 2];
    assert store.calls == [Call(7, map["a" := 1, "b" := 2])];
    var removed := subscription.Unsubscribe();
    store.SetState(map["a" := 9]);
    seen := store.calls;
    last := store.GetState();
  }

  /**
   For any store, listener and patch: once the listener's unsubscribe closure
   has run, the next `setState` does not call it, and every listener still
   subscribed is called once with the new state.
   */
  method UnsubscribeThenSetState<L(==,!new), V>(subscription: Subscription<L, V>, patch: map<string, V>)
    modifies subscription.store
    ensures subscription.listener !in subscription.store.listeners
    ensures |subscription.store.calls| >= |old(subscription.store.calls)|
    ensures CallsTo(subscription.store.calls[|old(subscription.store.calls)|..], subscription.listener) == 0
    ensures EachOnce(subscription.store.calls[|old(subscription.store.calls)|..],
                     old(subscription.store.listeners) - {subscription.listener},
                     subscription.store.state)
  {
    var store := subscription.store;
    var removed := subscription.Unsubscribe();
    store.SetState(patch);
  }
}
