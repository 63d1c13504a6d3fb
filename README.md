# Longitude data sources in Dafny

A model of the query pipeline of Longitude's data-source abstraction, with the
Postgres adapter's result handling and the package's exception classes.

- **DataSource** (`data_sources.dfy`). Construction refuses a configuration
  that is not a dict. It also refuses a cache class that does not derive from
  `LongitudeCache`. Both refusals are a `TypeError`. Otherwise the data source
  keeps every configured key and logs one warning per key that the adapter does
  not expect, in sorted key order. `get_config` falls back from the configured
  value, to the adapter's default, to `None`. `is_ready` is the cache's
  readiness. `query` works in four steps:
  1. A write statement is refused with `LongitudeWrongQueryException`.
  2. A read statement derives a cache key through the cache's static
     `generate_key`.
  3. On a hit, the answer is `parse_response` of the cached payload.
  4. On a miss, the statement is executed, the raw result is put in the cache,
     and the answer is `parse_response` of that raw result.

  `execute_query` and `parse_response` are abstract in the base class. Here they
  are the function-valued fields of an `Adapter`; the bare adapter raises
  `NotImplementedError` from both. Each data source keeps a ghost trace of the
  calls it makes to the cache and the adapter. The trace states the tests'
  mock assertions: which call happened, how often, and with what argument.
- **Cache contract** (`caches.dfy`). A cache class is a key function, its
  readiness before and after `setup`, whether puts are kept, and its preloaded
  contents. A cache instance is a class whose store maps keys to raw payloads.
- **Key order** (`key_order.dfy`). Python's `<` on `str` and the sort of the
  unexpected keys. A selection sort is proved to give the unique strictly
  increasing listing of a set.
- **Postgres adapter** (`postgres_default.dfy`). This covers:
  - the default configuration;
  - `setup`, which connects with the five settings read through `get_config`;
  - readiness;
  - the result dict that `execute_query` builds from what the cursor reports;
  - `parse_response`, which turns a raw `{fields, rows, profiling}` dict into a
    field-name → `{'type': …}` map plus rows as field-name → value maps.
- **Exceptions** (`exceptions.dfy`). `LongitudeBaseException` and its four
  subclasses, as a datatype of nullary constructors with the subclass relation.
- **The test cases** (`data_source_tests.dfy`). The cases of the data-source
  test file, restated as methods over the model, with the test's fakes and
  mocks as plain functions.

## Model

| member | source | states |
|---|---|---|
| Exceptions.Parent | longitude/core/common/exceptions.py:1-18 | the base class has no parent inside the package; each of the four other classes is declared directly under `LongitudeBaseException` |
| Exceptions.EveryKindIsABaseException | longitude/core/common/exceptions.py:5-18 | every error kind is a subclass of `LongitudeBaseException` |
| Exceptions.BaseIsNoDerivedKind | longitude/core/common/exceptions.py:1-2 | the base class is a subclass of none of the four derived kinds |
| Exceptions.DerivedKindsAreDisjoint | longitude/core/common/exceptions.py:5-18 | among the four derived kinds, one is a subclass of another only when they are the same kind |
| Caches.NullCache | core/tests/test_data_source_base.py:131-135 | the cache used when no cache class is given is a LongitudeCache, is always ready, starts empty and keeps nothing |
| Caches.Cache.constructor | core/tests/test_data_source_base.py:43-63 | a cache instance takes its key function, readiness, put behaviour and contents from its class |
| Caches.Cache.Setup | core/tests/test_data_source_base.py:50-55 | after `setup` the cache's readiness is its class's readiness after setup |
| Caches.Cache.ExecuteGet | core/tests/test_data_source_base.py:57-60 | returns the stored payload for a key, or absent exactly when the key is not stored |
| Caches.Cache.ExecutePut | core/tests/test_data_source_base.py:62-63 | reports success exactly when the cache keeps puts; a kept put overwrites the key's payload and leaves every other key alone |
| KeyOrder.SortedKeys | core/tests/test_data_source_base.py:118-124 | the result lists every key of the set exactly once, in strictly increasing Python string order |
| KeyOrder.Least | core/tests/test_data_source_base.py:118-124 | returns the member of a non-empty key set that is below every other member |
| KeyOrder.BelowAtFirstDifference | core/tests/test_data_source_base.py:118-124 | two strings that agree up to some position and differ there are ordered by their characters at that position, as Python compares strings |
| KeyOrder.SortedOrderIsUnique | core/tests/test_data_source_base.py:118-124 | two strictly sorted lists with the same elements are equal, so the sorted order of the warnings is determined |
| Dicts.DictFromPairs | longitude/core/data_sources/postgres/default.py:72-73 | a dict comprehension over paired keys and values has exactly the listed keys |
| Dicts.DictFromPairsLastWins | longitude/core/data_sources/postgres/default.py:72-73 | when a key repeats, the value paired with its last occurrence wins |
| DataSources.BareAdapter | core/tests/test_data_source_base.py:131-135 | the bare base class has no defaults; its `execute_query` raises `NotImplementedError` for every statement, and so does its `parse_response` for every payload |
| DataSources.QueryConfig.Copy | core/tests/test_data_source_base.py:32-38 | `copy()` returns a new object with the same attribute values |
| DataSources.QueryPipeline | core/tests/test_data_source_base.py:74-107 | a query makes no call to the cache or the adapter exactly when it is a write; every successful answer comes from a final `parse_response`; a cache that keeps no puts is left as it was; and no stored key is removed or changed except the query's own key |
| DataSources.WriteQueryIsRefused | core/tests/test_data_source_base.py:74-82 | a write statement raises `LongitudeWrongQueryException`, leaves the cache unchanged and calls neither the cache nor the adapter |
| DataSources.CacheHitParsesCachedPayload | core/tests/test_data_source_base.py:84-95 | on a hit the answer is `parse_response(cached payload)`; the calls are the lookup and one parse of that payload, and nothing is executed or stored |
| DataSources.CacheHitIgnoresEngine | core/tests/test_data_source_base.py:84-95 | on a hit, replacing `execute_query` with the bare one that raises `NotImplementedError` changes nothing |
| DataSources.CacheMissExecutesStoresAndParses | core/tests/test_data_source_base.py:97-107 | on a miss the statement is executed once, the raw response is put under the key, and the answer is one `parse_response` of that raw response |
| DataSources.EngineErrorPropagates | core/tests/test_data_source_base.py:97-107 | on a miss, an error from `execute_query` reaches the caller unchanged, with nothing stored or parsed |
| DataSources.BareDataSourceIsNotImplemented | core/tests/test_data_source_base.py:131-135 | a read query on a bare data source raises `NotImplementedError`, on a hit and on a miss |
| DataSources.UnexpectedKeyWarning | core/tests/test_data_source_base.py:122-124 | the warning for a key starts with that key and goes on with a message text after it |
| DataSources.UnexpectedKeyWarnings | core/tests/test_data_source_base.py:118-124 | returns the configured keys without a default in sorted order, with one warning per key in that order |
| DataSources.WarningsAreDetermined | core/tests/test_data_source_base.py:118-124 | the list of warnings is determined by the configuration and the defaults alone |
| DataSources.DataSource.constructor | core/tests/test_data_source_base.py:65-72 | a data source keeps its configuration and adapter, owns a fresh cache built from the cache class, has a fresh default query configuration and has made no calls yet |
| DataSources.DataSource.GetConfig | core/tests/test_data_source_base.py:126-129 | the configured value if there is one, else the adapter's default, else `None`; the lookup never fails |
| DataSources.DataSource.IsReady | core/tests/test_data_source_base.py:137-157 | the `is_ready` property: a data source is ready exactly when its cache is |
| DataSources.DataSource.Setup | core/tests/test_data_source_base.py:76-78 | after `setup` the data source is ready exactly when its cache reports ready, and the cache contents are unchanged |
| DataSources.DataSource.CopyDefaultQueryConfig | core/tests/test_data_source_base.py:159-163 | returns a new object with the attribute values of the default query configuration |
| DataSources.DataSource.Query | core/tests/test_data_source_base.py:74-107 | the answer, the new cache contents and the calls made are those of the query pipeline, for the given query configuration or else the default one; readiness is unchanged |
| DataSources.NewDataSource | core/tests/test_data_source_base.py:109-124 | a non-dict configuration or a cache class that is not a LongitudeCache raises `TypeError` with no warnings; otherwise the source keeps every configured key, is as ready as its cache, and logs one warning per unexpected key in sorted order |
| PostgresDefault.ResultData | longitude/core/data_sources/postgres/default.py:47-67 | the result always has `execute_time`; it has `commit_time` exactly when a commit was asked for; `fields` and `rows` stay empty unless the cursor described a result set |
| PostgresDefault.PostgresDataSource.ExecuteQuery | longitude/core/data_sources/postgres/default.py:47-67 | without a cursor the call raises `AttributeError`; with one, building the dict step by step yields the result dict for what the cursor reported; without a commit that is also what the adapter's execute function on the read path of `query` returns |
| PostgresDefault.ParseResponse | longitude/core/data_sources/postgres/default.py:69-75 | no response gives `None`; a row with more values than there are fields raises `IndexError`; otherwise there is one output row per input row, and profiling passes through unchanged |
| PostgresDefault.ParsedFieldNames | longitude/core/data_sources/postgres/default.py:71-72 | the output `fields` has exactly the names of the raw fields as keys |
| PostgresDefault.ParsedFieldType | longitude/core/data_sources/postgres/default.py:72 | a field name maps to `{'type': name of the type code}` of the last raw field with that name |
| PostgresDefault.ParsedRowValue | longitude/core/data_sources/postgres/default.py:73 | output row n maps the name of field i to the row's i-th value, unless a later value of the row has the same field name |
| PostgresDefault.FullRowHasTheFieldKeys | longitude/core/data_sources/postgres/default.py:72-73 | a row with one value per field has exactly the keys of `fields` |
| PostgresDefault.PostgresAdapter | longitude/core/data_sources/postgres/default.py:13-19 | the adapter's defaults are `_default_config`; its read path executes without a commit; cached and fresh payloads go through the same `parse_response` |
| PostgresDefault.Readiness | longitude/core/data_sources/postgres/default.py:44-45 | ready exactly when the base is ready and both a connection and a cursor are open |
| PostgresDefault.IsReadyAttributeAsWritten | longitude/core/data_sources/postgres/default.py:44-45 | reading `is_ready` as an attribute is always truthy |
| PostgresDefault.IsReadyAttributeIntended | longitude/core/data_sources/postgres/default.py:44-45 | were `is_ready` a property, the attribute would be truthy exactly when the source is ready |
| PostgresDefault.IsReadyAttributeIgnoresConnection | longitude/core/data_sources/postgres/default.py:44-45 | with no connection the attribute as written still reads truthy, while the intended readiness and the intended attribute are false |
| PostgresDefault.PostgresDataSource.constructor | longitude/core/data_sources/postgres/default.py:21-24 | a new Postgres source has no connection and no cursor |
| PostgresDefault.PostgresDataSource.ConnectionArguments | longitude/core/data_sources/postgres/default.py:33-39 | `host`, `port`, `user` and `password` are passed as `get_config` of the same name; `database` is passed as `get_config('db')` |
| PostgresDefault.PostgresDataSource.IsReady | longitude/core/data_sources/postgres/default.py:44-45 | the corrected readiness: ready only with a ready base, a connection and a cursor, and exactly when the intended `is_ready` property would read truthy |
| PostgresDefault.PostgresDataSource.Setup | longitude/core/data_sources/postgres/default.py:32-42 | connects with the five `get_config` settings and opens a cursor on that connection; afterwards the source is ready exactly when its cache is |
| PostgresDefault.NewPostgresDataSource | longitude/core/data_sources/postgres/default.py:21-24 | the base class's construction checks apply with the Postgres defaults, and a refused source logs no warnings; a new source owns a fresh base data source and cache built from the cache class, has made no calls, has no connection or cursor, and is not ready |
| PostgresDefault.ConnectionArgumentsFallBackToDefaults | longitude/core/data_sources/postgres/default.py:13-39 | an unconfigured setting is taken from its default (localhost, 5432, '', postgres, ''); a configured one overrides it |
| DataSourceTests.FakeCache | core/tests/test_data_source_base.py:43-63 | `some_query_in_cache` maps to key `hit` and every other query to `miss`; only `hit` holds a payload, `cache hit` |
| DataSourceTests.ParseMocked | core/tests/test_data_source_base.py:84-95 | the mocked `parse_response` turns the cached payload into the given answer |
| DataSourceTests.CacheMustExtendLongitudeCache | core/tests/test_data_source_base.py:67-72 | a class that is not a LongitudeCache is refused with `TypeError` |
| DataSourceTests.WriteQueriesDoNotUseCache | core/tests/test_data_source_base.py:74-82 | after `setup` the source is ready, and a write query raises `LongitudeWrongQueryException` |
| DataSourceTests.CacheHit | core/tests/test_data_source_base.py:84-95 | the answer is `normalized cache hit`; the calls are the lookup of `hit` and a single parse of `cache hit` |
| DataSourceTests.CacheMiss | core/tests/test_data_source_base.py:97-107 | the answer is `normalized response from data source`, and the server response is parsed exactly once |
| DataSourceTests.ConfigMustBeADict | core/tests/test_data_source_base.py:109-116 | a list, a string and an integer configuration each raise `TypeError` |
| DataSourceTests.TestKeysAreOrdered | core/tests/test_data_source_base.py:122-124 | `some_another_config_value` sorts before `some_config_value` |
| DataSourceTests.TestKeysAreSorted | core/tests/test_data_source_base.py:122-124 | the list of those two keys, in that order, is strictly sorted |
| DataSourceTests.TestKeysAreTheUnexpectedOnes | core/tests/test_data_source_base.py:119-124 | those two keys, in that order, are the sorted unexpected keys of the test configuration |
| DataSourceTests.SortedWarningsOfTestConfig | core/tests/test_data_source_base.py:119-124 | the test's two warnings satisfy the warning contract for the test configuration |
| DataSourceTests.TestConfigWarnings | core/tests/test_data_source_base.py:119-124 | no other list of warnings does |
| DataSourceTests.BareSource | core/tests/test_data_source_base.py:118-121 | a bare data source built from a dict keeps that dict as its configuration, has no defaults, and warns about every key as the warning contract says |
| DataSourceTests.UnexpectedConfigKeys | core/tests/test_data_source_base.py:118-129 | construction logs the two warnings in the test's order; `get_config` gives back 0 and `tomato`, and `None` for an unknown name |
| DataSourceTests.AbstractMethodsAreNotImplemented | core/tests/test_data_source_base.py:131-135 | a bare data source answers a read query with `NotImplementedError` |
| DataSourceTests.IsReady | core/tests/test_data_source_base.py:137-157 | a source is ready with a ready cache and not ready with a not-ready cache |
| DataSourceTests.CopiesAreDistinctAndEqual | core/tests/test_data_source_base.py:159-163 | both copies are new objects whose attributes equal their originals' |

## Left out

- The base module `core.data_sources.base` (DataSource, DataSourceQueryConfig, `is_write_query`) and `core.caches.base` are not part of this model. Their behaviour is taken from what the test file requires of them:
  - Construction checks the configuration before the cache class. Both failures are a `TypeError`, so the order only decides which reason is reported.
  - `config=None`, the Postgres constructor's default, is treated like any other non-dict. How the base treats it cannot be seen.
  - A cache hit is an `execute_get` that returns a payload. The base's exact test, `is not None` or truthiness, cannot be seen.
  - Without a cache class, the data source uses a null cache, which always misses.
  - The option names of DataSourceQueryConfig cannot be seen, so the default instance holds no options.
  - `is_write_query` is a function handed to the data source, as the tests replace it with a mock. Its keyword heuristic is not modelled.
- Statement formatting and parameter binding are not modelled. `query` has no `params`, `needs_commit` or `**opts` arguments in the model. The statement is already formatted, and the cache key is derived from it.
- PostgresDefault.PostgresAdapter: the cached read path of a Postgres source runs the adapter's execute function, which assumes a cursor is open. The `AttributeError` raised when querying before `setup` is modelled only on the direct `ExecuteQuery`. With a cursor open and no commit asked for, the two agree (`PostgresDataSource.ExecuteQuery`).
- DataSourceTests.FakeCache: the test's `execute_put` returns True without storing. The model's fake keeps puts, which changes nothing in the single query each test makes.
- I/O is left out: `psycopg2.connect`, `cursor.execute`, `fetchall`, `commit`, and the closing of the cursor and connection in `__del__`. The database is an oracle from statement to what the cursor reports. A connection is a handle that records its connect arguments.
- `time()` measurements are left out. The two durations are opaque values supplied by that oracle. Only which profiling keys are present is modelled.
- `psycopg2_type_as_string` is a foreign mapping. It is the function parameter `typeName`.
- `preview_top` and `preview_bottom` are left out, along with the golden files they are compared to; neither the renderer nor the files are available. For the same reason, the insertion order of the `fields` dict, which only rendering uses, is not kept.
- `load_raw_text` and the logging framework are left out. Warnings are returned as a list of message strings, without the logger's `WARNING:<module>:` prefix.
- `copy_from` is left out, because it is an empty stub.
- Concurrent cache misses are left out, because the code is single-threaded.
- A raw response always has its three keys in the model. The `KeyError` of a truthy dict missing one of them is not modelled, and neither is an empty dict, which would be falsy.
- Python dict keys are strings in the model, and configuration and cell values are a small datatype of Python values.
- Python object identity (`assertNotEqual` on two configs) is Dafny reference inequality. The Postgres `is_ready` returns the cursor object itself through `and`; the model turns that into a boolean.

## Findings

| source | as written | input that shows it | evidently intended | confidence | as-written member | corrected member |
|---|---|---|---|---|---|---|
| longitude/core/data_sources/postgres/default.py:44-45 | `is_ready` is declared as a plain method. It overrides the base class's `is_ready` property, which the tests read as an attribute (`assertFalse(ds.is_ready)`). Reading `ds.is_ready` on a Postgres source therefore yields the bound method, which is always truthy. | a `DefaultPostgresDataSource` that was never set up: no connection and no cursor, yet `bool(ds.is_ready)` is True | a `@property` whose value is the base readiness, an open connection and a cursor | medium, not executed | PostgresDefault.IsReadyAttributeIgnoresConnection | PostgresDefault.PostgresDataSource.IsReady |

The rest of the model uses the corrected readiness, `PostgresDataSource.IsReady`. A new source is not ready (`NewPostgresDataSource`). After `Setup` it is ready exactly when its cache is.
