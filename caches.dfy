/**
 * The cache contract a data source depends on (LongitudeCache): a static,
 * stateless key derivation from the formatted query, a one-time setup, a
 * readiness probe, and get/put of raw payloads against a backing store.
 * The concrete stores are not part of this model; a cache is described by
 * the class handed to the data source, and its store is a map from key to
 * the raw payload kept verbatim.
 */
module Caches {
  import opened Options

  /** The `cache_class` argument of a data source. `NotALongitudeCache`
      stands for any class that does not derive from LongitudeCache. */
  datatype CacheClass<P> =
    | NotALongitudeCache
    | LongitudeCacheClass(
        generateKey: string -> string,  // static: an arrow without reads cannot see instance state
        readyBeforeSetup: bool,
        readyAfterSetup: bool,
        writable: bool,                 // false: execute_put stores nothing and reports failure
        preloaded: map<string, P>)

  /** The cache the data source falls back to when given no cache class:
      it is always ready, never holds a payload and refuses every put. */
  function NullCache<P>(): (c: CacheClass<P>)
    ensures c.LongitudeCacheClass? && c.preloaded == map[] && !c.writable
    ensures c.readyBeforeSetup && c.readyAfterSetup
  {
    LongitudeCacheClass(formattedQuery => formattedQuery, true, true, false, map[])
  }

  class Cache<P> {
    const generateKey: string -> string
    const readyAfterSetup: bool
    const writable: bool
    var ready: bool
    var store: map<string, P>

    /** An instance of a LongitudeCache class. */
    constructor (cls: CacheClass<P>)
      requires cls.LongitudeCacheClass?
      ensures generateKey == cls.generateKey && readyAfterSetup == cls.readyAfterSetup
      ensures writable == cls.writable
      ensures ready == cls.readyBeforeSetup && store == cls.preloaded
    {
      generateKey := cls.generateKey;
      readyAfterSetup := cls.readyAfterSetup;
      writable := cls.writable;
      ready := cls.readyBeforeSetup;
      store := cls.preloaded;
    }

    method Setup()
      modifies this`ready
      ensures ready == readyAfterSetup
    {
      ready := readyAfterSetup;
    }

    /** The stored raw payload for `key`, or the explicit "absent" signal. */
    method ExecuteGet(key: string) returns (payload: Option<P>)
      ensures payload.Some? <==> key in store
      ensures payload.Some? ==> payload.value == store[key]
    {
      payload := if key in store then Some(store[key]) else None;
    }

    /** Stores (or overwrites) `payload` under `key`; says whether it did. */
    method ExecutePut(key: string, payload: P) returns (stored: bool)
      modifies this`store
      ensures stored == writable
      ensures store == if writable then old(store)[key := payload] else old(store)
    {
      stored := writable;
      if writable {
        store := store[key := payload];
      }
    }
  }
}
