/**
 * The cases of core/tests/test_data_source_base.py, restated on the model:
 * each method builds the data sources the test builds, with the test's
 * fakes and mocks as plain functions, and promises what the test asserts.
 */
module DataSourceTests {
  import opened Options
  import opened Values
  import opened Exceptions
  import opened Failures
  import opened Caches
  import opened KeyOrder
  import opened DataSources

  /** The test's FakeCache: "some_query_in_cache" hashes to "hit", every
      other query to "miss", and only "hit" holds a payload. */
  function FakeCache(): (c: CacheClass<string>)
    ensures c.LongitudeCacheClass? && c.readyBeforeSetup && c.readyAfterSetup
    ensures c.generateKey("some_query_in_cache") == "hit"
    ensures forall q :: q != "some_query_in_cache" ==> c.generateKey(q) == "miss"
    ensures c.preloaded == map["hit" := "cache hit"]
  {
    LongitudeCacheClass(
      formattedQuery => if formattedQuery == "some_query_in_cache" then "hit" else "miss",
      true, true, true, map["hit" := "cache hit"])
  }

  /** A bare DataSource whose `parse_response` is mocked. */
  function ParseMocked(parsed: string): (a: Adapter<string, string>)
    ensures a.parseResponse("cache hit") == Success(parsed)
  {
    Adapter(map[], BareAdapter<string, string>().executeQuery, payload => Success(parsed))
  }

  /** test_cache_must_extend_longitude_cache */
  method CacheMustExtendLongitudeCache() returns (r: Result<DataSource<string, string>, Failure>)
    ensures r == Failure(TypeError(CacheIsNotALongitudeCache))
  {
    var warnings;
    r, warnings := NewDataSource(DictValue(map[]), NotALongitudeCache, BareAdapter(), statement => false);
  }

  /** test_write_queries_do_not_use_cache */
  method WriteQueriesDoNotUseCache() returns (ready: bool, r: Result<string, Failure>)
    ensures ready
    ensures r == Failure(Raised(LongitudeWrongQueryException))
  {
    var created, _ := NewDataSource(DictValue(map[]), FakeCache(), BareAdapter<string, string>(), statement => true);
    var ds := created.value;
    ds.Setup();
    ready := ds.IsReady();
    r := ds.Query("some_query", null);
  }

  /** test_cache_hit: the answer is the mocked normalisation, produced by one
      parse of the cached payload; the bare execute_query is never reached. */
  method CacheHit() returns (r: Result<string, Failure>, ghost calls: seq<Call<string>>)
    ensures r == Success("normalized cache hit")
    ensures calls == [Get("hit"), Parse("cache hit")]
  {
    var created, _ := NewDataSource(DictValue(map[]), FakeCache(), ParseMocked("normalized cache hit"), statement => false);
    var ds := created.value;
    ds.Setup();
    r := ds.Query("some_query_in_cache", null);
    calls := ds.calls;
  }

  /** test_cache_miss: the mocked server response is parsed once. */
  method CacheMiss() returns (r: Result<string, Failure>, ghost calls: seq<Call<string>>)
    ensures r == Success("normalized response from data source")
    ensures calls == [Get("miss"), Execute("some_query_not_in_cache"),
                      Put("miss", "some response from the server"), Parse("some response from the server")]
  {
    var adapter := Adapter(map[], (statement, options) => Success("some response from the server"),
                           payload => Success("normalized response from data source"));
    var created, _ := NewDataSource(DictValue(map[]), FakeCache(), adapter, statement => false);
    var ds := created.value;
    ds.Setup();
    r := ds.Query("some_query_not_in_cache", null);
    calls := ds.calls;
  }

  /** test_config, first part: a configuration must be a dict. */
  method ConfigMustBeADict() returns (fromList: Failure, fromString: Failure, fromInt: Failure)
    ensures fromList == fromString == fromInt == TypeError(ConfigIsNotADict)
  {
    var r, w := NewDataSource(ListValue([]), NullCache(), BareAdapter<string, string>(), statement => false);
    fromList := r.error;
    r, w := NewDataSource(StrValue(""), NullCache(), BareAdapter<string, string>(), statement => false);
    fromString := r.error;
    r, w := NewDataSource(IntValue(0), NullCache(), BareAdapter<string, string>(), statement => false);
    fromInt := r.error;
  }

  /** The configuration of test_config. */
  const TestConfig: map<string, Value> :=
    map["some_config_value" := IntValue(0), "some_another_config_value" := StrValue("tomato")]

  /** The defaults of the bare data source. */
  const NoDefaults: map<string, Value> := map[]

  /** The unexpected keys of test_config, in sorted order. */
  const TestKeys: seq<string> := ["some_another_config_value", "some_config_value"]

  /** They agree on "some_" and differ at the next character. */
  lemma TestKeysAreOrdered()
    ensures Below(TestKeys[0], TestKeys[1])
  {
    var a, b := TestKeys[0], TestKeys[1];
    assert forall i :: 0 <= i < 5 ==> a[i] == b[i];
    BelowAtFirstDifference(a, b, 5);
  }

  lemma TestKeysAreSorted()
    ensures StrictlySorted(TestKeys)
  {
    TestKeysAreOrdered();
    forall i, j | 0 <= i < j < |TestKeys|
      ensures Below(TestKeys[i], TestKeys[j])
    {
      assert i == 0 && j == 1;
    }
  }

  lemma TestKeysAreTheUnexpectedOnes()
    ensures SortedUnexpectedKeys(TestConfig, NoDefaults, TestKeys)
  {
    TestKeysAreSorted();
    assert TestConfig.Keys == {TestKeys[0], TestKeys[1]};
  }

  /** The two warnings of test_config, in the order the test expects. */
  const TestWarnings: seq<string> :=
    ["some_another_config_value" + " is an unexpected config value",
     "some_config_value" + " is an unexpected config value"]

  lemma SortedWarningsOfTestConfig()
    ensures WarnsAboutUnexpectedKeys(TestConfig, NoDefaults, TestWarnings)
  {
    TestKeysAreTheUnexpectedOnes();
    assert TestWarnings[0] == UnexpectedKeyWarning(TestKeys[0]);
    assert TestWarnings[1] == UnexpectedKeyWarning(TestKeys[1]);
  }

  /** The only warnings a bare data source may log for that configuration. */
  lemma TestConfigWarnings(warnings: seq<string>)
    requires WarnsAboutUnexpectedKeys(TestConfig, NoDefaults, warnings)
    ensures warnings == TestWarnings
  {
    SortedWarningsOfTestConfig();
    WarningsAreDetermined(TestConfig, NoDefaults, warnings, TestWarnings);
  }

  /** `DataSource(config)` for a dict configuration: the bare data source
      keeps the configuration and warns about every key. */
  method BareSource(config: map<string, Value>) returns (ds: DataSource<string, string>, warnings: seq<string>)
    ensures ds.config == config && ds.adapter.defaultConfig == NoDefaults
    ensures WarnsAboutUnexpectedKeys(config, NoDefaults, warnings)
  {
    var r;
    r, warnings := NewDataSource(DictValue(config), NullCache(), BareAdapter<string, string>(), statement => false);
    ds := r.value;
  }

  /** test_config, second part: unexpected keys are kept, each reported once
      in sorted order, and get_config falls back to None. */
  method UnexpectedConfigKeys()
    returns (warnings: seq<string>, configValue: Value, anotherConfigValue: Value, missing: Value)
    ensures warnings == TestWarnings
    ensures configValue == IntValue(0) && anotherConfigValue == StrValue("tomato")
    ensures missing == NoneValue
  {
    var ds;
    ds, warnings := BareSource(TestConfig);
    TestConfigWarnings(warnings);
    configValue := ds.GetConfig("some_config_value");
    anotherConfigValue := ds.GetConfig("some_another_config_value");
    missing := ds.GetConfig("some_random_value_that_does_not_exist_in_config_or_defaults");
  }

  /** test_abstract_methods_are_not_implemented, for any classifier that
      reads "whatever" as a read statement. */
  method AbstractMethodsAreNotImplemented(isWriteQuery: string -> bool) returns (r: Result<string, Failure>)
    requires !isWriteQuery("whatever")
    ensures r == Failure(NotImplementedError)
  {
    var created, _ := NewDataSource(DictValue(map[]), NullCache(), BareAdapter<string, string>(), isWriteQuery);
    var ds := created.value;
    r := ds.Query("whatever", null);
  }

  /** test_is_ready */
  method IsReady() returns (withReadyCache: bool, withNotReadyCache: bool)
    ensures withReadyCache && !withNotReadyCache
  {
    var ready := LongitudeCacheClass(q => q, true, true, true, map[]);
    var notReady := LongitudeCacheClass(q => q, false, false, true, map[]);
    var created, warnings := NewDataSource(DictValue(map[]), ready, BareAdapter<string, string>(), statement => false);
    withReadyCache := created.value.IsReady();
    created, warnings := NewDataSource(DictValue(map[]), notReady, BareAdapter<string, string>(), statement => false);
    withNotReadyCache := created.value.IsReady();
  }

  /** test_copy_default_query_config and TestDataSourceQueryConfig.test_copy */
  method CopiesAreDistinctAndEqual() returns (distinct: bool, equal: bool)
    ensures distinct && equal
  {
    var created, _ := NewDataSource(DictValue(map[]), NullCache(), BareAdapter<string, string>(), statement => false);
    var ds := created.value;
    var theCopy := ds.CopyDefaultQueryConfig();
    var a := new QueryConfig(DefaultQueryOptions);
    var b := a.Copy();
    distinct := theCopy != ds.defaultQueryConfig && b != a;
    equal := theCopy.attributes == ds.defaultQueryConfig.attributes && b.attributes == a.attributes;
  }
}
