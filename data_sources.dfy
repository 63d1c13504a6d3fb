/**
 * The data-source orchestrator (core.data_sources.base.DataSource): it
 * validates its configuration at construction, answers configuration
 * lookups with a fallback to the adapter's defaults, reports readiness
 * through its cache, and runs read queries through the cache, delegating
 * execution and normalisation to the adapter.
 *
 * Python's abstract methods `execute_query` and `parse_response` are the
 * function-valued fields of an `Adapter`; the module-level write classifier
 * `is_write_query` is a function handed to the data source. Each data source
 * records, as ghost state, the calls a query makes to its cache and adapter.
 */
module DataSources {
  import opened Options
  import opened Values
  import opened Exceptions
  import opened Failures
  import opened Caches
  import opened KeyOrder

  /** What an adapter (a subclass of DataSource) supplies. */
  datatype Adapter<!P, R> = Adapter(
    defaultConfig: map<string, Value>,
    executeQuery: (string, map<string, Value>) -> Result<P, Failure>,
    parseResponse: P -> Result<R, Failure>)

  /** The bare base class: no defaults, and both abstract methods raise
      NotImplementedError. */
  function BareAdapter<P(!new), R>(): (a: Adapter<P, R>)
    ensures a.defaultConfig == map[]
    ensures forall statement, options :: a.executeQuery(statement, options) == Failure(NotImplementedError)
    ensures forall payload: P :: a.parseResponse(payload) == Failure(NotImplementedError)
  {
    Adapter(map[], (statement, options) => Failure(NotImplementedError), payload => Failure(NotImplementedError))
  }

  /** The options a freshly built DataSourceQueryConfig holds. Their names
      are declared by the base module, which is not part of this model, so
      the default instance is modelled with no options. */
  const DefaultQueryOptions: map<string, Value> := map[]

  /** DataSourceQueryConfig: a bag of per-query options. */
  class QueryConfig {
    var attributes: map<string, Value>

    constructor (attributes: map<string, Value>)
      ensures this.attributes == attributes
    {
      this.attributes := attributes;
    }

    /** A distinct object with the same attribute values (`__dict__`). */
    method Copy() returns (c: QueryConfig)
      ensures fresh(c) && c.attributes == attributes
    {
      c := new QueryConfig(attributes);
    }
  }

  /** A call a query makes to the cache or to the adapter. */
  datatype Call<P> =
    | Get(key: string)
    | Execute(statement: string)
    | Put(key: string, payload: P)
    | Parse(payload: P)

  /** The result of a query, the cache store after it, and the calls it made. */
  datatype QueryOutcome<P, R> = QueryOutcome(result: Result<R, Failure>, store: map<string, P>, calls: seq<Call<P>>)

  /** `query(statement)` as a function of the classifier, the cache and the
      adapter: writes are refused; reads are answered from the cache when it
      holds the key, otherwise executed, stored raw and then normalised. */
  function QueryPipeline<P, R>(
    statement: string, options: map<string, Value>, isWriteQuery: string -> bool,
    generateKey: string -> string, store: map<string, P>, writable: bool, adapter: Adapter<P, R>): (o: QueryOutcome<P, R>)
    ensures isWriteQuery(statement) <==> o.calls == []
    ensures o.result.Success? ==> o.calls != [] && o.calls[|o.calls| - 1].Parse?
    ensures !writable ==> o.store == store
    ensures o.store.Keys >= store.Keys
    ensures forall k :: k in store && k != generateKey(statement) ==> o.store[k] == store[k]
  {
    if isWriteQuery(statement) then
      QueryOutcome(Failure(Raised(LongitudeWrongQueryException)), store, [])
    else
      var key := generateKey(statement);
      if key in store then
        QueryOutcome(adapter.parseResponse(store[key]), store, [Get(key), Parse(store[key])])
      else
        match adapter.executeQuery(statement, options)
        case Failure(e) => QueryOutcome(Failure(e), store, [Get(key), Execute(statement)])
        case Success(raw) =>
          QueryOutcome(adapter.parseResponse(raw), if writable then store[key := raw] else store,
                       [Get(key), Execute(statement), Put(key, raw), Parse(raw)])
  }

  /** A write statement is refused with LongitudeWrongQueryException before
      the cache or the adapter is touched. */
  lemma WriteQueryIsRefused<P, R>(
    statement: string, options: map<string, Value>, isWriteQuery: string -> bool,
    generateKey: string -> string, store: map<string, P>, writable: bool, adapter: Adapter<P, R>)
    requires isWriteQuery(statement)
    ensures var o := QueryPipeline(statement, options, isWriteQuery, generateKey, store, writable, adapter);
      o.result == Failure(Raised(LongitudeWrongQueryException)) && o.store == store && o.calls == []
  {
  }

  /** On a hit the answer is the normalised cached payload: parse_response
      is called once, with that payload, and execute_query is never called. */
  lemma CacheHitParsesCachedPayload<P, R>(
    statement: string, options: map<string, Value>, isWriteQuery: string -> bool,
    generateKey: string -> string, store: map<string, P>, writable: bool, adapter: Adapter<P, R>)
    requires !isWriteQuery(statement) && generateKey(statement) in store
    ensures var o := QueryPipeline(statement, options, isWriteQuery, generateKey, store, writable, adapter);
      var cached := store[generateKey(statement)];
      o.result == adapter.parseResponse(cached) && o.store == store &&
      o.calls == [Get(generateKey(statement)), Parse(cached)]
  {
  }

  /** A hit does not depend on the adapter's execute_query: the bare one,
      which would raise NotImplementedError, gives the same answer. */
  lemma CacheHitIgnoresEngine<P(!new), R>(
    statement: string, options: map<string, Value>, isWriteQuery: string -> bool,
    generateKey: string -> string, store: map<string, P>, writable: bool, adapter: Adapter<P, R>)
    requires !isWriteQuery(statement) && generateKey(statement) in store
    ensures var withoutEngine := Adapter(adapter.defaultConfig, BareAdapter<P, R>().executeQuery, adapter.parseResponse);
      QueryPipeline(statement, options, isWriteQuery, generateKey, store, writable, withoutEngine) ==
      QueryPipeline(statement, options, isWriteQuery, generateKey, store, writable, adapter)
  {
  }

  /** On a miss the statement is executed once, the raw server response is
      put in the cache under the key, and the answer is that response
      normalised by a single call to parse_response. */
  lemma CacheMissExecutesStoresAndParses<P, R>(
    statement: string, options: map<string, Value>, isWriteQuery: string -> bool,
    generateKey: string -> string, store: map<string, P>, writable: bool, adapter: Adapter<P, R>)
    requires !isWriteQuery(statement) && generateKey(statement) !in store
    requires adapter.executeQuery(statement, options).Success?
    ensures var o := QueryPipeline(statement, options, isWriteQuery, generateKey, store, writable, adapter);
      var key, raw := generateKey(statement), adapter.executeQuery(statement, options).value;
      o.result == adapter.parseResponse(raw) &&
      o.store == (if writable then store[key := raw] else store) &&
      o.calls == [Get(key), Execute(statement), Put(key, raw), Parse(raw)]
  {
  }

  /** An error raised by execute_query reaches the caller unchanged, and
      nothing is stored or parsed. */
  lemma EngineErrorPropagates<P, R>(
    statement: string, options: map<string, Value>, isWriteQuery: string -> bool,
    generateKey: string -> string, store: map<string, P>, writable: bool, adapter: Adapter<P, R>)
    requires !isWriteQuery(statement) && generateKey(statement) !in store
    requires adapter.executeQuery(statement, options).Failure?
    ensures var o := QueryPipeline(statement, options, isWriteQuery, generateKey, store, writable, adapter);
      o.result == Failure(adapter.executeQuery(statement, options).error) && o.store == store &&
      o.calls == [Get(generateKey(statement)), Execute(statement)]
  {
  }

  /** A bare DataSource cannot answer a read query, hit or miss. */
  lemma BareDataSourceIsNotImplemented<P(!new), R>(
    statement: string, options: map<string, Value>, isWriteQuery: string -> bool,
    generateKey: string -> string, store: map<string, P>, writable: bool)
    requires !isWriteQuery(statement)
    ensures QueryPipeline(statement, options, isWriteQuery, generateKey, store, writable, BareAdapter<P, R>()).result
      == Failure(NotImplementedError)
  {
  }

  /** The warning logged for a configuration key the adapter does not expect. */
  function UnexpectedKeyWarning(key: string): (w: string)
    ensures |w| > |key| && w[..|key|] == key
  {
    key + " is an unexpected config value"
  }

  /** `keys` lists, in sorted order, the configured keys without a default. */
  ghost predicate SortedUnexpectedKeys(config: map<string, Value>, defaults: map<string, Value>, keys: seq<string>)
  {
    StrictlySorted(keys) && forall k :: k in keys <==> k in config && k !in defaults
  }

  /** `warnings` holds one warning per unexpected key, in sorted key order. */
  ghost predicate WarnsAboutUnexpectedKeys(config: map<string, Value>, defaults: map<string, Value>, warnings: seq<string>)
  {
    exists keys :: SortedUnexpectedKeys(config, defaults, keys) && |warnings| == |keys| &&
      forall i :: 0 <= i < |keys| ==> warnings[i] == UnexpectedKeyWarning(keys[i])
  }

  /** The construction-time diagnostics: sort the unexpected keys, then log
      one warning per key. */
  method UnexpectedKeyWarnings(config: map<string, Value>, defaults: map<string, Value>)
    returns (keys: seq<string>, warnings: seq<string>)
    ensures SortedUnexpectedKeys(config, defaults, keys)
    ensures |warnings| == |keys|
    ensures forall i :: 0 <= i < |keys| ==> warnings[i] == UnexpectedKeyWarning(keys[i])
  {
    keys := SortedKeys(config.Keys - defaults.Keys);
    warnings := [];
    for i := 0 to |keys|
      invariant |warnings| == i
      invariant forall j :: 0 <= j < i ==> warnings[j] == UnexpectedKeyWarning(keys[j])
    {
      warnings := warnings + [UnexpectedKeyWarning(keys[i])];
    }
  }

  /** The warnings do not depend on the order in which the dict lists its
      keys: only one list satisfies the description. */
  lemma WarningsAreDetermined(config: map<string, Value>, defaults: map<string, Value>, w1: seq<string>, w2: seq<string>)
    requires WarnsAboutUnexpectedKeys(config, defaults, w1)
    requires WarnsAboutUnexpectedKeys(config, defaults, w2)
    ensures w1 == w2
  {
    var k1 :| SortedUnexpectedKeys(config, defaults, k1) && |w1| == |k1| &&
      forall i :: 0 <= i < |k1| ==> w1[i] == UnexpectedKeyWarning(k1[i]);
    var k2 :| SortedUnexpectedKeys(config, defaults, k2) && |w2| == |k2| &&
      forall i :: 0 <= i < |k2| ==> w2[i] == UnexpectedKeyWarning(k2[i]);
    SortedOrderIsUnique(k1, k2);
  }

  class DataSource<P, R> {
    const config: map<string, Value>
    const adapter: Adapter<P, R>
    const isWriteQuery: string -> bool
    const cache: Cache<P>
    const defaultQueryConfig: QueryConfig
    ghost var calls: seq<Call<P>>

    /** The part of `__init__` that runs once both checks have passed. */
    constructor (config: map<string, Value>, cacheClass: CacheClass<P>, adapter: Adapter<P, R>, isWriteQuery: string -> bool)
      requires cacheClass.LongitudeCacheClass?
      ensures this.config == config && this.adapter == adapter && this.isWriteQuery == isWriteQuery
      ensures fresh(cache) && cache.generateKey == cacheClass.generateKey
      ensures cache.readyAfterSetup == cacheClass.readyAfterSetup && cache.writable == cacheClass.writable
      ensures cache.ready == cacheClass.readyBeforeSetup && cache.store == cacheClass.preloaded
      ensures fresh(defaultQueryConfig) && defaultQueryConfig.attributes == DefaultQueryOptions
      ensures calls == []
    {
      this.config := config;
      this.adapter := adapter;
      this.isWriteQuery := isWriteQuery;
      cache := new Cache(cacheClass);
      defaultQueryConfig := new QueryConfig(DefaultQueryOptions);
      calls := [];
    }

    /** The configured value, else the adapter's default, else None. */
    function GetConfig(name: string): (v: Value)
      ensures name in config ==> v == config[name]
      ensures name !in config && name in adapter.defaultConfig ==> v == adapter.defaultConfig[name]
      ensures name !in config && name !in adapter.defaultConfig ==> v == NoneValue
    {
      if name in config then config[name]
      else if name in adapter.defaultConfig then adapter.defaultConfig[name]
      else NoneValue
    }

    /** The `is_ready` property: the base has no engine of its own, so it is
        ready exactly when its cache is. */
    predicate IsReady()
      reads cache
      ensures IsReady() <==> cache.ready
    {
      cache.ready
    }

    method Setup()
      modifies cache
      ensures IsReady() == cache.readyAfterSetup
      ensures cache.store == old(cache.store)
    {
      cache.Setup();
    }

    /** An independent copy of the default query configuration. */
    method CopyDefaultQueryConfig() returns (c: QueryConfig)
      ensures fresh(c) && c.attributes == defaultQueryConfig.attributes
    {
      c := defaultQueryConfig.Copy();
    }

    /** `query(statement, query_config)`: the query configuration defaults
        to the data source's own. */
    method Query(statement: string, queryConfig: QueryConfig?) returns (r: Result<R, Failure>)
      modifies this, cache
      ensures var options := if queryConfig == null then defaultQueryConfig.attributes else queryConfig.attributes;
        var o := QueryPipeline(statement, options, isWriteQuery, cache.generateKey, old(cache.store), cache.writable, adapter);
        r == o.result && cache.store == o.store && calls == old(calls) + o.calls
      ensures cache.ready == old(cache.ready)
    {
      var options := if queryConfig == null then defaultQueryConfig.attributes else queryConfig.attributes;
      if isWriteQuery(statement) {
        return Failure(Raised(LongitudeWrongQueryException));
      }
      var key := cache.generateKey(statement);
      var cached := cache.ExecuteGet(key);
      calls := calls + [Get(key)];
      if cached.Some? {
        calls := calls + [Parse(cached.value)];
        return adapter.parseResponse(cached.value);
      }
      var executed := adapter.executeQuery(statement, options);
      calls := calls + [Execute(statement)];
      if executed.Failure? {
        return Failure(executed.error);
      }
      var _ := cache.ExecutePut(key, executed.value);
      calls := calls + [Put(key, executed.value), Parse(executed.value)];
      r := adapter.parseResponse(executed.value);
    }
  }

  /** `DataSource(config, cache_class)`: a non-dict configuration and a cache
      class that does not derive from LongitudeCache are refused with a
      TypeError; otherwise one warning is logged per unexpected key, in
      sorted key order, and the data source keeps every key. */
  method NewDataSource<P, R>(config: Value, cacheClass: CacheClass<P>, adapter: Adapter<P, R>, isWriteQuery: string -> bool)
    returns (r: Result<DataSource<P, R>, Failure>, warnings: seq<string>)
    ensures !config.DictValue? ==> r == Failure(TypeError(ConfigIsNotADict)) && warnings == []
    ensures config.DictValue? && cacheClass.NotALongitudeCache? ==>
      r == Failure(TypeError(CacheIsNotALongitudeCache)) && warnings == []
    ensures config.DictValue? && cacheClass.LongitudeCacheClass? ==>
      && r.Success? && fresh(r.value) && fresh(r.value.cache) && fresh(r.value.defaultQueryConfig)
      && r.value.config == config.entries && r.value.adapter == adapter && r.value.isWriteQuery == isWriteQuery
      && r.value.cache.generateKey == cacheClass.generateKey && r.value.cache.writable == cacheClass.writable
      && r.value.cache.readyAfterSetup == cacheClass.readyAfterSetup
      && r.value.IsReady() == cacheClass.readyBeforeSetup && r.value.cache.store == cacheClass.preloaded
      && r.value.defaultQueryConfig.attributes == DefaultQueryOptions && r.value.calls == []
      && WarnsAboutUnexpectedKeys(config.entries, adapter.defaultConfig, warnings)
  {
    if !config.DictValue? {
      return Failure(TypeError(ConfigIsNotADict)), [];
    }
    if cacheClass.NotALongitudeCache? {
      return Failure(TypeError(CacheIsNotALongitudeCache)), [];
    }
    var keys;
    keys, warnings := UnexpectedKeyWarnings(config.entries, adapter.defaultConfig);
    var ds := new DataSource(config.entries, cacheClass, adapter, isWriteQuery);
    r := Success(ds);
  }
}
