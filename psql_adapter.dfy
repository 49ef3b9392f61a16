/**
 * The PostgreSQL adapter (src/adapters/dbt_adapter_psql.c): the catalog
 * loaders, the database connect, the query runner and the initialiser that
 * binds them to a session, over the libpq oracle. Every call through the
 * adapter is appended to a ghost call log.
 */
module PsqlAdapter {
  import opened Wrappers
  import opened Libpq
  import opened Dbt

  /** The login dbt_adapter_psql_init attempts: the server's host, user and password on database "postgres". */
  function ServerLogin(server: ServerEntry): Login {
    Login(server.host, "postgres", server.user, server.pass)
  }

  /** The login connect_to_db attempts: the stored credentials on the named database. */
  function DatabaseLogin(h: Handles, database: string): Login {
    Login(h.host, database, h.user, h.pass)
  }

  /**
   * The handles after dbt_adapter_psql_init: both connections are dropped;
   * a server login that succeeds becomes the server connection and its
   * credentials are stored, a failed one leaves the old credentials in place.
   */
  function InitHandles(h: Handles, e: Engine, server: Option<ServerEntry>): (r: Handles)
    ensures r.dbConn == None
    ensures r.conn.Some? <==> server.Some? && e.accepts(ServerLogin(server.value))
    ensures r.conn.Some? ==>
      && r.conn == Some(ServerLogin(server.value))
      && r.host == server.value.host && r.user == server.value.user && r.pass == server.value.pass
    ensures r.conn.None? ==> r.host == h.host && r.user == h.user && r.pass == h.pass
  {
    if server.Some? && e.accepts(ServerLogin(server.value)) then
      Handles(Some(ServerLogin(server.value)), None, server.value.host, server.value.user, server.value.pass)
    else
      Handles(None, None, h.host, h.user, h.pass)
  }

  /** The handles after connect_to_db: only a successful login replaces the database connection. */
  function ConnectHandles(h: Handles, e: Engine, database: string): (r: Handles)
    ensures r.conn == h.conn && r.host == h.host && r.user == h.user && r.pass == h.pass
    ensures e.accepts(DatabaseLogin(h, database)) ==> r.dbConn == Some(DatabaseLogin(h, database))
    ensures !e.accepts(DatabaseLogin(h, database)) ==> r == h
  {
    var login := DatabaseLogin(h, database);
    if e.accepts(login) then h.(dbConn := Some(login)) else h
  }

  /** Connecting twice to the same database leaves the handles as connecting once does. */
  lemma ConnectIdempotent(h: Handles, e: Engine, database: string)
    ensures ConnectHandles(ConnectHandles(h, e, database), e, database) == ConnectHandles(h, e, database)
  {
  }

  /**
   * What a name loader returns for a result: null unless the status is
   * TUPLES_OK, otherwise field 0 of every tuple in tuple order (a result
   * without fields appends nothing, since PQgetvalue then yields null).
   */
  function NameList(r: PgResult): (list: Option<seq<string>>)
    ensures list.None? <==> r.status != TuplesOk
    ensures list.Some? ==> |list.value| == (if |r.fieldNames| == 0 then 0 else r.ntuples)
    ensures list.Some? ==> forall i :: 0 <= i < |list.value| ==> list.value[i] == r.value(i, 0)
  {
    if r.status != TuplesOk then None
    else Some(seq(if |r.fieldNames| == 0 then 0 else r.ntuples, i requires 0 <= i => r.value(i, 0)))
  }

  /** A catalog result with its one field gives exactly one name per tuple. */
  lemma NameListOnePerTuple(r: PgResult)
    requires r.status == TuplesOk && |r.fieldNames| == 1
    ensures NameList(r).Some? && |NameList(r).value| == r.ntuples
  {
  }

  /** The column object built from tuple i: fields 0 to 5 under their six keys. */
  function ColumnAt(r: PgResult, i: nat): ColumnInfo {
    ColumnInfo(r.value(i, 0), r.value(i, 1), r.value(i, 2), r.value(i, 3), r.value(i, 4), r.value(i, 5))
  }

  /** What load_column_list returns for a result of its six-column statement. */
  function ColumnList(r: PgResult): (list: Option<seq<ColumnInfo>>)
    requires r.status == TuplesOk ==> |r.fieldNames| == 6
    ensures list.None? <==> r.status != TuplesOk
    ensures list.Some? ==> |list.value| == r.ntuples
    ensures list.Some? ==> forall i :: 0 <= i < |list.value| ==>
      && list.value[i].name == r.value(i, 0) && list.value[i].ordinal == r.value(i, 1)
      && list.value[i].nullable == r.value(i, 2) && list.value[i].dataType == r.value(i, 3)
      && list.value[i].maxLength == r.value(i, 4) && list.value[i].isIdentity == r.value(i, 5)
  {
    if r.status != TuplesOk then None
    else Some(seq(r.ntuples, i requires 0 <= i => ColumnAt(r, i)))
  }

  /** What load_column_list answers on a handle: the oracle's catalog statements always carry six fields. */
  function ColumnAnswer(e: SoundEngine, handle: Option<Conn>, schema: Option<string>, table: Option<string>): Option<seq<ColumnInfo>> {
    ExecSound(e, handle, ColumnCatalog(schema, table));
    ColumnList(Exec(e, handle, ColumnCatalog(schema, table)))
  }

  /** What perform_query returns: null unless TUPLES_OK, else the field names and one row of nfields cells per tuple. */
  function QueryOutcome(r: PgResult): (q: Option<QueryResult>)
    ensures q.None? <==> r.status != TuplesOk
    ensures q.Some? ==> q.value.columns == r.fieldNames && |q.value.rows| == r.ntuples
    ensures q.Some? ==> forall i :: 0 <= i < |q.value.rows| ==> |q.value.rows[i]| == |q.value.columns|
    ensures q.Some? ==> forall i, j :: 0 <= i < |q.value.rows| && 0 <= j < |q.value.rows[i]| ==> q.value.rows[i][j] == r.value(i, j)
  {
    if r.status != TuplesOk then None
    else Some(QueryResult(r.fieldNames, seq(r.ntuples, i requires 0 <= i => seq(|r.fieldNames|, j requires 0 <= j => r.value(i, j)))))
  }

  /** The loop of load_database_list, load_schema_list and load_table_list: append field 0 of each tuple. */
  method CollectNames(res: PgResult) returns (list: Option<seq<string>>)
    ensures list == NameList(res)
  {
    if res.status != TuplesOk {
      return None;
    }
    var names: seq<string> := [];
    var i := 0;
    while i < res.ntuples
      invariant 0 <= i <= res.ntuples
      invariant |names| == if |res.fieldNames| == 0 then 0 else i
      invariant forall k :: 0 <= k < |names| ==> names[k] == res.value(k, 0)
    {
      var v := GetValue(res, i, 0);
      if v.Some? {
        names := names + [v.value];
      }
      i := i + 1;
    }
    assert names == NameList(res).value;
    list := Some(names);
  }

  /** The loop of load_column_list: one six-key object per tuple. */
  method CollectColumns(res: PgResult) returns (list: Option<seq<ColumnInfo>>)
    requires res.status == TuplesOk ==> |res.fieldNames| == 6
    ensures list == ColumnList(res)
  {
    if res.status != TuplesOk {
      return None;
    }
    var columns: seq<ColumnInfo> := [];
    var i := 0;
    while i < res.ntuples
      invariant 0 <= i <= res.ntuples
      invariant |columns| == i
      invariant forall k :: 0 <= k < i ==> columns[k] == ColumnAt(res, k)
    {
      var column := ColumnInfo(
        GetValue(res, i, 0).value, GetValue(res, i, 1).value, GetValue(res, i, 2).value,
        GetValue(res, i, 3).value, GetValue(res, i, 4).value, GetValue(res, i, 5).value);
      columns := columns + [column];
      i := i + 1;
    }
    assert columns == ColumnList(res).value;
    list := Some(columns);
  }

  /** The loops of perform_query: the field names, then for every tuple a row of all its fields. */
  method CollectQuery(res: PgResult) returns (result: Option<QueryResult>)
    ensures result == QueryOutcome(res)
    ensures result.Some? ==> forall row :: row in result.value.rows ==> |row| == |result.value.columns|
  {
    if res.status != TuplesOk {
      return None;
    }
    var cols := |res.fieldNames|;
    var columns: seq<string> := [];
    var i := 0;
    while i < cols
      invariant 0 <= i <= cols
      invariant columns == res.fieldNames[..i]
    {
      columns := columns + [res.fieldNames[i]];
      i := i + 1;
    }
    var rows: seq<seq<string>> := [];
    i := 0;
    while i < res.ntuples
      invariant 0 <= i <= res.ntuples
      invariant |rows| == i
      invariant forall k :: 0 <= k < i ==> |rows[k]| == cols
      invariant forall k, j :: 0 <= k < i && 0 <= j < cols ==> rows[k][j] == res.value(k, j)
    {
      var row: seq<string> := [];
      var j := 0;
      while j < cols
        invariant 0 <= j <= cols
        invariant |row| == j
        invariant forall m :: 0 <= m < j ==> row[m] == res.value(i, m)
      {
        row := row + [GetValue(res, i, j).value];
        j := j + 1;
      }
      rows := rows + [row];
      i := i + 1;
    }
    ghost var expected := QueryOutcome(res).value.rows;
    forall k | 0 <= k < |rows|
      ensures rows[k] == expected[k]
    {
      assert |rows[k]| == |expected[k]| == cols;
    }
    assert rows == expected;
    assert columns == res.fieldNames;
    result := Some(QueryResult(columns, rows));
  }

  /** struct dbt_adapter bound to the psql functions: its handles, its credentials and its call log. */
  class Adapter {
    const engine: SoundEngine
    var connHandle: Option<Conn>
    var dbConnHandle: Option<Conn>
    var host: Option<string>
    var user: Option<string>
    var pass: Option<string>
    ghost var calls: seq<Call>

    ghost function State(): Handles
      reads this
    {
      Handles(connHandle, dbConnHandle, host, user, pass)
    }

    /** The adapter before any server is selected: no connections, no credentials, no calls. */
    constructor (engine: SoundEngine)
      ensures this.engine == engine && State() == Handles(None, None, None, None, None) && calls == []
    {
      this.engine := engine;
      connHandle, dbConnHandle := None, None;
      host, user, pass := None, None, None;
      calls := [];
    }

    /** dbt_adapter_psql_init: drop both handles, then log in to the server's "postgres" database. */
    method Init(server: Option<ServerEntry>)
      modifies this
      ensures State() == InitHandles(old(State()), engine, server)
      ensures calls == old(calls) + [InitCall(server)]
    {
      calls := calls + [InitCall(server)];
      connHandle := None;
      dbConnHandle := None;
      if server.None? {
        return;
      }
      var login := ServerLogin(server.value);
      if !engine.accepts(login) {
        return;
      }
      connHandle := Some(login);
      host, user, pass := server.value.host, server.value.user, server.value.pass;
    }

    method LoadDatabaseList() returns (list: Option<seq<string>>)
      modifies this`calls
      ensures list == NameList(Exec(engine, connHandle, DatabaseCatalog))
      ensures calls == old(calls) + [DatabaseListCall]
    {
      calls := calls + [DatabaseListCall];
      list := CollectNames(Exec(engine, connHandle, DatabaseCatalog));
    }

    /** connect_to_db: a failed login keeps the previous database handle (the old one is never released). */
    method ConnectToDb(database: string)
      modifies this`dbConnHandle, this`calls
      ensures State() == ConnectHandles(old(State()), engine, database)
      ensures calls == old(calls) + [ConnectCall(database)]
    {
      calls := calls + [ConnectCall(database)];
      var login := Login(host, database, user, pass);
      if !engine.accepts(login) {
        return;
      }
      dbConnHandle := Some(login);
    }

    method LoadSchemaList() returns (list: Option<seq<string>>)
      modifies this`calls
      ensures list == NameList(Exec(engine, dbConnHandle, SchemaCatalog))
      ensures calls == old(calls) + [SchemaListCall]
    {
      calls := calls + [SchemaListCall];
      list := CollectNames(Exec(engine, dbConnHandle, SchemaCatalog));
    }

    method LoadTableList(schema: Option<string>) returns (list: Option<seq<string>>)
      modifies this`calls
      ensures list == NameList(Exec(engine, dbConnHandle, TableCatalog(schema)))
      ensures calls == old(calls) + [TableListCall(schema)]
    {
      calls := calls + [TableListCall(schema)];
      list := CollectNames(Exec(engine, dbConnHandle, TableCatalog(schema)));
    }

    method LoadColumnList(schema: Option<string>, table: Option<string>) returns (list: Option<seq<ColumnInfo>>)
      modifies this`calls
      ensures list == ColumnAnswer(engine, dbConnHandle, schema, table)
      ensures calls == old(calls) + [ColumnListCall(schema, table)]
    {
      calls := calls + [ColumnListCall(schema, table)];
      ExecSound(engine, dbConnHandle, ColumnCatalog(schema, table));
      list := CollectColumns(Exec(engine, dbConnHandle, ColumnCatalog(schema, table)));
    }

    method PerformQuery(sql: string) returns (result: Option<QueryResult>)
      modifies this`calls
      ensures result == QueryOutcome(Exec(engine, dbConnHandle, UserQuery(sql)))
      ensures calls == old(calls) + [QueryCall(sql)]
    {
      calls := calls + [QueryCall(sql)];
      result := CollectQuery(Exec(engine, dbConnHandle, UserQuery(sql)));
    }
  }
}
