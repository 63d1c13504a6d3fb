/**
 * The Postgres adapter (DefaultPostgresDataSource): its default
 * configuration, the connection set up from it, its readiness, the result
 * dict its `execute_query` builds from what the cursor reports, and the
 * `parse_response` normalisation of such a dict into a query response.
 *
 * The database is an oracle: `server(statement)` is what the cursor reports
 * after executing the statement (its description, the fetched rows, and the
 * two measured durations). psycopg2's mapping from type codes to type names
 * is a function parameter, `typeName`.
 */
module PostgresDefault {
  import opened Options
  import opened Values
  import opened Failures
  import opened Caches
  import opened Dicts
  import opened QueryResponses
  import opened DataSources

  /** `_default_config`. */
  const DefaultConfig: map<string, Value> := map[
    "host" := StrValue("localhost"),
    "port" := IntValue(5432),
    "db" := StrValue(""),
    "user" := StrValue("postgres"),
    "password" := StrValue("")]

  /** An entry of `cursor.description`. */
  datatype Column = Column(name: string, typeCode: int)

  /** The dict built by `execute_query`: keys 'fields', 'rows', 'profiling'. */
  datatype RawResponse = RawResponse(fields: seq<Column>, rows: seq<seq<Value>>, profiling: map<string, Duration>)

  /** What the cursor reports for one statement. */
  datatype EngineReply = EngineReply(
    description: Option<seq<Column>>,
    rows: seq<seq<Value>>,
    executeTime: Duration,
    commitTime: Duration)

  /** The keyword arguments handed to `psycopg2.connect`. */
  datatype ConnectArgs = ConnectArgs(host: Value, port: Value, database: Value, user: Value, password: Value)

  /** Handles standing for the psycopg2 connection and its cursor. */
  datatype Connection = Connection(args: ConnectArgs)
  datatype Cursor = Cursor(conn: Connection)

  /** Python truthiness of `cursor.description`: None or empty means the
      statement produced no result set. */
  predicate HasResultSet(reply: EngineReply)
  {
    reply.description.Some? && reply.description.value != []
  }

  /** The dict `execute_query` returns for a statement, given what the cursor
      reported. */
  function ResultData(reply: EngineReply, needsCommit: bool): (data: RawResponse)
    ensures "execute_time" in data.profiling && data.profiling["execute_time"] == reply.executeTime
    ensures "commit_time" in data.profiling <==> needsCommit
    ensures needsCommit ==> data.profiling["commit_time"] == reply.commitTime
    ensures data.profiling.Keys <= {"execute_time", "commit_time"}
    ensures HasResultSet(reply) ==> data.fields == reply.description.value && data.rows == reply.rows
    ensures !HasResultSet(reply) ==> data.fields == [] && data.rows == []
  {
    var timed := map["execute_time" := reply.executeTime];
    RawResponse(
      if HasResultSet(reply) then reply.description.value else [],
      if HasResultSet(reply) then reply.rows else [],
      if needsCommit then timed["commit_time" := reply.commitTime] else timed)
  }

  /** The names of a list of columns, in order. */
  function Names(columns: seq<Column>): (names: seq<string>)
    ensures |names| == |columns| && forall i :: 0 <= i < |columns| ==> names[i] == columns[i].name
  {
    seq(|columns|, i requires 0 <= i < |columns| => columns[i].name)
  }

  /** Whether no later column has the same name as column i. */
  predicate LastWithItsName(columns: seq<Column>, i: int)
    requires 0 <= i < |columns|
  {
    forall j :: i < j < |columns| ==> columns[j].name != columns[i].name
  }

  lemma LastWithItsNameIsLastOccurrence(columns: seq<Column>, bound: nat, i: int)
    requires 0 <= i < bound <= |columns|
    requires forall j :: i < j < bound ==> columns[j].name != columns[i].name
    ensures LastOccurrence(Names(columns)[..bound], i)
  {
  }

  /** Every row has no more values than there are fields; a longer row makes
      `raw_fields[i]` raise IndexError. */
  predicate RowsFit(raw: RawResponse)
  {
    forall n :: 0 <= n < |raw.rows| ==> |raw.rows[n]| <= |raw.fields|
  }

  /** The type record of each column, in order. */
  function FieldTypes(columns: seq<Column>, typeName: int -> string): (types: seq<FieldType>)
    ensures |types| == |columns|
    ensures forall i :: 0 <= i < |columns| ==> types[i] == FieldType(typeName(columns[i].typeCode))
  {
    seq(|columns|, i requires 0 <= i < |columns| => FieldType(typeName(columns[i].typeCode)))
  }

  /** Maps each column's name to the record of its type name, a later
      column with the same name winning. */
  function ParseFields(columns: seq<Column>, typeName: int -> string): map<string, FieldType>
  {
    DictFromPairs(Names(columns), FieldTypes(columns, typeName))
  }

  /** Maps the name of column i to the row's i-th value, a later value
      under the same name winning. */
  function ParseRow(columns: seq<Column>, values: seq<Value>): map<string, Value>
    requires |values| <= |columns|
  {
    DictFromPairs(Names(columns)[..|values|], values)
  }

  /** `parse_response`: a missing response gives None; otherwise fields,
      rows and profiling are normalised. */
  function ParseResponse(response: Option<RawResponse>, typeName: int -> string): (r: Result<Option<QueryResponse>, Failure>)
    ensures response.None? ==> r == Success(None)
    ensures response.Some? ==> (r.Failure? <==> !RowsFit(response.value))
    ensures r.Failure? ==> r.error == IndexError
    ensures response.Some? && r.Success? ==>
      && r.value.Some?
      && |r.value.value.rows| == |response.value.rows|
      && r.value.value.profiling == response.value.profiling
  {
    match response
    case None => Success(None)
    case Some(raw) =>
      if !RowsFit(raw) then Failure(IndexError)
      else
        Success(Some(QueryResponse(
          seq(|raw.rows|, n requires 0 <= n < |raw.rows| => ParseRow(raw.fields, raw.rows[n])),
          ParseFields(raw.fields, typeName),
          raw.profiling)))
  }

  /** The response's fields are keyed by the column names. */
  lemma ParsedFieldNames(raw: RawResponse, typeName: int -> string)
    requires RowsFit(raw)
    ensures var q := ParseResponse(Some(raw), typeName).value.value;
      forall k :: k in q.fields <==> exists j :: 0 <= j < |raw.fields| && raw.fields[j].name == k
  {
    var names := Names(raw.fields);
    assert ParseResponse(Some(raw), typeName).value.value.fields == ParseFields(raw.fields, typeName);
    forall k
      ensures k in KeySet(names) <==> exists j :: 0 <= j < |raw.fields| && raw.fields[j].name == k
    {
      if k in names {
        var j :| 0 <= j < |names| && names[j] == k;
      }
      if exists j :: 0 <= j < |raw.fields| && raw.fields[j].name == k {
        var j :| 0 <= j < |raw.fields| && raw.fields[j].name == k;
        assert names[j] == k;
      }
    }
  }

  /** A column name maps to the type of the last column carrying it. */
  lemma ParsedFieldType(raw: RawResponse, typeName: int -> string, i: int)
    requires RowsFit(raw) && 0 <= i < |raw.fields| && LastWithItsName(raw.fields, i)
    ensures var q := ParseResponse(Some(raw), typeName).value.value;
      raw.fields[i].name in q.fields && q.fields[raw.fields[i].name] == FieldType(typeName(raw.fields[i].typeCode))
  {
    var types := FieldTypes(raw.fields, typeName);
    var names := Names(raw.fields);
    assert ParseResponse(Some(raw), typeName).value.value.fields == DictFromPairs(names, types);
    LastWithItsNameIsLastOccurrence(raw.fields, |raw.fields|, i);
    assert names[..|raw.fields|] == names;
    DictFromPairsLastWins(names, types, i);
  }

  /** Row n of the response maps the name of column i to the row's i-th
      value, unless a later value of the row carries the same name. */
  lemma ParsedRowValue(raw: RawResponse, typeName: int -> string, n: int, i: int)
    requires RowsFit(raw) && 0 <= n < |raw.rows| && 0 <= i < |raw.rows[n]|
    requires forall j :: i < j < |raw.rows[n]| ==> raw.fields[j].name != raw.fields[i].name
    ensures var q := ParseResponse(Some(raw), typeName).value.value;
      raw.fields[i].name in q.rows[n] && q.rows[n][raw.fields[i].name] == raw.rows[n][i]
  {
    var row := raw.rows[n];
    LastWithItsNameIsLastOccurrence(raw.fields, |row|, i);
    DictFromPairsLastWins(Names(raw.fields)[..|row|], row, i);
  }

  /** A row holding one value per field has exactly the keys of `fields`. */
  lemma FullRowHasTheFieldKeys(raw: RawResponse, typeName: int -> string, n: int)
    requires RowsFit(raw) && 0 <= n < |raw.rows| && |raw.rows[n]| == |raw.fields|
    ensures var q := ParseResponse(Some(raw), typeName).value.value;
      q.rows[n].Keys == q.fields.Keys
  {
    assert Names(raw.fields)[..|raw.rows[n]|] == Names(raw.fields);
  }

  /** Cached and freshly executed payloads are normalised by the same
      function; the read path never asks for a commit. */
  function PostgresAdapter(typeName: int -> string, server: string -> EngineReply): (a: Adapter<RawResponse, Option<QueryResponse>>)
    ensures a.defaultConfig == DefaultConfig
    ensures forall statement, options :: a.executeQuery(statement, options) == Success(ResultData(server(statement), false))
    ensures forall payload :: a.parseResponse(payload) == ParseResponse(Some(payload), typeName)
  {
    Adapter(DefaultConfig,
            (statement, options) => Success(ResultData(server(statement), false)),
            payload => ParseResponse(Some(payload), typeName))
  }

  /** What reading `ds.is_ready` as an attribute yields. */
  datatype Attribute = BoundMethod | Flag(value: bool)

  predicate Truthy(a: Attribute)
  {
    match a
    case BoundMethod => true
    case Flag(b) => b
  }

  /** As written, `is_ready` is a plain method overriding the base class's
      property, so reading the attribute yields the bound method itself,
      whatever the state of the connection. */
  function IsReadyAttributeAsWritten(baseReady: bool, conn: Option<Connection>, cursor: Option<Cursor>): (a: Attribute)
    ensures Truthy(a)
  {
    BoundMethod
  }

  /** The readiness the adapter means to report: the base's readiness, an
      open connection and a cursor. */
  function Readiness(baseReady: bool, conn: Option<Connection>, cursor: Option<Cursor>): (ready: bool)
    ensures ready ==> baseReady && conn.Some? && cursor.Some?
    ensures baseReady && conn.Some? && cursor.Some? ==> ready
  {
    baseReady && conn.Some? && cursor.Some?
  }

  /** Reading the attribute as intended, were `is_ready` a property: the
      flag holds the readiness itself. */
  function IsReadyAttributeIntended(baseReady: bool, conn: Option<Connection>, cursor: Option<Cursor>): (a: Attribute)
    ensures Truthy(a) <==> Readiness(baseReady, conn, cursor)
  {
    Flag(Readiness(baseReady, conn, cursor))
  }

  /** A source that was never set up reads as ready through the attribute,
      where the intended property reads as not ready. */
  lemma IsReadyAttributeIgnoresConnection()
    ensures Truthy(IsReadyAttributeAsWritten(true, None, None))
    ensures !Readiness(true, None, None)
    ensures !Truthy(IsReadyAttributeIntended(true, None, None))
  {
  }

  class PostgresDataSource {
    const source: DataSource<RawResponse, Option<QueryResponse>>
    const server: string -> EngineReply
    var conn: Option<Connection>
    var cursor: Option<Cursor>

    constructor (source: DataSource<RawResponse, Option<QueryResponse>>, server: string -> EngineReply)
      ensures this.source == source && this.server == server
      ensures conn == None && cursor == None
    {
      this.source := source;
      this.server := server;
      conn := None;
      cursor := None;
    }

    /** The five settings `setup` reads through `get_config`. */
    function ConnectionArguments(): (a: ConnectArgs)
      ensures a.host == source.GetConfig("host") && a.port == source.GetConfig("port")
      ensures a.database == source.GetConfig("db")
      ensures a.user == source.GetConfig("user") && a.password == source.GetConfig("password")
    {
      ConnectArgs(source.GetConfig("host"), source.GetConfig("port"), source.GetConfig("db"),
                  source.GetConfig("user"), source.GetConfig("password"))
    }

    /** Connects with the configured (or default) settings, opens a cursor,
        then sets up the base data source. */
    method Setup()
      modifies this, source.cache
      ensures conn == Some(Connection(ConnectionArguments()))
      ensures cursor == Some(Cursor(conn.value))
      ensures IsReady() <==> source.cache.readyAfterSetup
      ensures source.cache.store == old(source.cache.store)
    {
      conn := Some(Connection(ConnectionArguments()));
      cursor := Some(Cursor(conn.value));
      source.Setup();
    }

    predicate IsReady()
      reads this, source.cache
      ensures IsReady() ==> source.IsReady() && conn.Some? && cursor.Some?
      ensures IsReady() <==> Truthy(IsReadyAttributeIntended(source.IsReady(), conn, cursor))
    {
      Readiness(source.IsReady(), conn, cursor)
    }

    /** `execute_query`: runs the statement through the cursor, fills in the
        result set when there is one, and commits when asked to. Without a
        cursor (before setup) the call fails on `None.execute`. */
    method ExecuteQuery(statement: string, needsCommit: bool) returns (r: Result<RawResponse, Failure>)
      ensures cursor.None? ==> r == Failure(AttributeError)
      ensures cursor.Some? ==> r == Success(ResultData(server(statement), needsCommit))
      ensures cursor.Some? && !needsCommit ==>
        forall typeName, options :: r == PostgresAdapter(typeName, server).executeQuery(statement, options)
    {
      if cursor.None? {
        return Failure(AttributeError);
      }
      var data := RawResponse([], [], map[]);
      var reply := server(statement);
      data := data.(profiling := data.profiling["execute_time" := reply.executeTime]);
      if HasResultSet(reply) {
        data := data.(fields := reply.description.value);
        data := data.(rows := reply.rows);
      }
      if needsCommit {
        data := data.(profiling := data.profiling["commit_time" := reply.commitTime]);
      }
      r := Success(data);
    }
  }

  /** `DefaultPostgresDataSource(config, cache_class)`: the base checks with
      the adapter's defaults, and no connection until `setup`. */
  method NewPostgresDataSource(
    config: Value, cacheClass: CacheClass<RawResponse>, typeName: int -> string,
    server: string -> EngineReply, isWriteQuery: string -> bool)
    returns (r: Result<PostgresDataSource, Failure>, warnings: seq<string>)
    ensures r.Success? <==> config.DictValue? && cacheClass.LongitudeCacheClass?
    ensures !config.DictValue? ==> r == Failure(TypeError(ConfigIsNotADict))
    ensures config.DictValue? && cacheClass.NotALongitudeCache? ==> r == Failure(TypeError(CacheIsNotALongitudeCache))
    ensures !r.Success? ==> warnings == []
    ensures r.Success? ==>
      && fresh(r.value) && fresh(r.value.source) && fresh(r.value.source.cache)
      && fresh(r.value.source.defaultQueryConfig)
      && r.value.source.config == config.entries && r.value.source.adapter == PostgresAdapter(typeName, server)
      && r.value.source.isWriteQuery == isWriteQuery
      && r.value.source.cache.generateKey == cacheClass.generateKey && r.value.source.cache.writable == cacheClass.writable
      && r.value.source.cache.readyAfterSetup == cacheClass.readyAfterSetup
      && r.value.source.IsReady() == cacheClass.readyBeforeSetup && r.value.source.cache.store == cacheClass.preloaded
      && r.value.source.defaultQueryConfig.attributes == DefaultQueryOptions && r.value.source.calls == []
      && r.value.server == server && r.value.conn == None && r.value.cursor == None
      && !r.value.IsReady()
      && WarnsAboutUnexpectedKeys(config.entries, DefaultConfig, warnings)
  {
    var base;
    base, warnings := NewDataSource(config, cacheClass, PostgresAdapter(typeName, server), isWriteQuery);
    if base.Failure? {
      return Failure(base.error), warnings;
    }
    var ds := new PostgresDataSource(base.value, server);
    r := Success(ds);
  }

  /** With none of the five settings configured, `setup` connects to
      localhost:5432 as user postgres, with an empty database name and
      password; a configured setting overrides its default. */
  lemma ConnectionArgumentsFallBackToDefaults(ds: PostgresDataSource)
    requires ds.source.adapter.defaultConfig == DefaultConfig
    ensures "host" !in ds.source.config ==> ds.ConnectionArguments().host == StrValue("localhost")
    ensures "port" !in ds.source.config ==> ds.ConnectionArguments().port == IntValue(5432)
    ensures "db" !in ds.source.config ==> ds.ConnectionArguments().database == StrValue("")
    ensures "user" !in ds.source.config ==> ds.ConnectionArguments().user == StrValue("postgres")
    ensures "password" !in ds.source.config ==> ds.ConnectionArguments().password == StrValue("")
    ensures "host" in ds.source.config ==> ds.ConnectionArguments().host == ds.source.config["host"]
    ensures "port" in ds.source.config ==> ds.ConnectionArguments().port == ds.source.config["port"]
    ensures "db" in ds.source.config ==> ds.ConnectionArguments().database == ds.source.config["db"]
    ensures "user" in ds.source.config ==> ds.ConnectionArguments().user == ds.source.config["user"]
    ensures "password" in ds.source.config ==> ds.ConnectionArguments().password == ds.source.config["password"]
  {
  }
}
