/**
 The memoizing cache of `createCache` (Omnify.js, lines 73-86): a Map from
 keys to values, filled on demand by the caller's fetch function.

 `fetchFn` is a function value that `Get` calls at most once; a ghost
 out-parameter reports whether it did (the source's `get` returns the value
 alone). The factory's `namespace` argument is accepted and,
 as in the source, not used.
 */
module DataCache {

  class Cache<K(==), V> {
    /** The `cache` Map. */
    var entries: map<K, V>

    /** `createCache(namespace)`: an empty cache. */
    constructor (namespace: string)
      ensures entries == map[]
    {
      entries := map[];
    }

    /**
     `get(key, fetchFn)`. On a hit, the stored value, without calling
     `fetchFn` and without changing the cache. On a miss, `fetchFn` is called
     once and its result is stored under `key` and returned. Either way `key`
     is cached afterwards, under the value returned.
     */
    method Get(key: K, fetchFn: () -> V) returns (value: V, ghost fetched: bool)
      modifies this
      ensures fetched <==> key !in old(entries)
      ensures key in entries && entries[key] == value
      ensures !fetched ==> entries == old(entries)
      ensures fetched ==> value == fetchFn() && entries == old(entries)[key := value]
    {
      if key in entries {
        return entries[key], false;
      }
      var data := fetchFn();
      entries := entries[key := data];
      value, fetched := data, true;
    }

    /** `clear()`: the cache holds nothing. */
    method Clear()
      modifies this
      ensures entries == map[]
    {
      entries := map[];
    }
  }

  /**
   Two `get`s of one key: the second is a hit that returns what the first
   returned and does not call its fetch function.
   */
  method GetTwice<K(==), V>(cache: Cache<K, V>, key: K, first: () -> V, second: () -> V)
      returns (a: V, b: V, ghost fetchedAgain: bool)
    modifies cache
    ensures b == a && !fetchedAgain
    ensures key in cache.entries && cache.entries[key] == a
  {
    ghost var fetched;
    a, fetched := cache.Get(key, first);
    b, fetchedAgain := cache.Get(key, second);
  }
}
