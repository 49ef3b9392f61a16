/** src/dbt_databases.c: the database level, whose refresh binds the adapter and whose selection connects. */
module Databases {
  import opened Wrappers
  import opened Libpq
  import opened Dbt
  import opened PsqlAdapter
  import opened SessionState
  import Schemas

  predicate IsPsql(server: ServerEntry) {
    server.typ == Some("psql")
  }

  /**
   * dbt_databases_refresh: without a current server nothing happens;
   * a "psql" server re-initialises the adapter first (any other type keeps
   * the adapter as it was); then the database list is fetched over the
   * server connection and replaces database_list.
   */
  function RefreshEffect(nav: Nav, e: SoundEngine): Outcome {
    if nav.currentServer.None? then Outcome(nav, [], 1)
    else
      var psql := IsPsql(nav.currentServer.value);
      var h := if psql then InitHandles(nav.handles, e, nav.currentServer) else nav.handles;
      var list := NameList(Exec(e, h.conn, DatabaseCatalog));
      Outcome(nav.(handles := h, databaseList := list),
        (if psql then [InitCall(nav.currentServer)] else []) + [DatabaseListCall],
        if list.Some? then 0 else 1)
  }

  /**
   * Refresh calls the adapter only with a current server, initialises it
   * only for "psql" and then before the list is loaded, touches nothing but
   * the handles and database_list, and fails exactly when no list came back.
   */
  lemma RefreshCalls(nav: Nav, e: SoundEngine)
    ensures var o := RefreshEffect(nav, e);
      && (nav.currentServer.None? <==> o.calls == [])
      && (nav.currentServer.None? ==> o.nav == nav && o.rc == 1)
      && (nav.currentServer.Some? ==>
            o.calls[|o.calls| - 1] == DatabaseListCall
            && (IsPsql(nav.currentServer.value) <==> o.calls == [InitCall(nav.currentServer), DatabaseListCall])
            && (IsPsql(nav.currentServer.value) ==> o.nav.handles == InitHandles(nav.handles, e, nav.currentServer))
            && (!IsPsql(nav.currentServer.value) ==> o.nav.handles == nav.handles)
            && o.nav.databaseList == NameList(Exec(e, o.nav.handles.conn, DatabaseCatalog))
            && (o.rc == 0 <==> o.nav.databaseList.Some?))
      && o.nav == nav.(handles := o.nav.handles, databaseList := o.nav.databaseList)
  {
  }

  /** What one matching entry does: store it as current, connect to it, then refresh the schemas. */
  function Cascade(nav: Nav, e: SoundEngine, name: string): Outcome {
    var connected := nav.(currentDatabase := Some(name), handles := ConnectHandles(nav.handles, e, name));
    var schemas := Schemas.RefreshEffect(connected, e);
    Outcome(schemas.nav, [ConnectCall(name)] + schemas.calls, schemas.rc)
  }

  /** Connecting twice to the same database leaves the handles as connecting once. */
  lemma {:induction false} CascadeIdempotent(nav: Nav, e: SoundEngine, name: string)
    ensures Cascade(Cascade(nav, e, name).nav, e, name) == Cascade(nav, e, name)
  {
    ConnectIdempotent(nav.handles, e, name);
  }

  /**
   * dbt_databases_select: nothing happens without a database list; every
   * entry equal to the name connects and refreshes the schemas once, with
   * no short cut for the current database; without a match only
   * current_database is cleared.
   */
  function SelectEffect(nav: Nav, e: SoundEngine, name: string): Outcome {
    if nav.databaseList.None? then Outcome(nav, [], 1)
    else
      var k := multiset(nav.databaseList.value)[name];
      if k == 0 then Outcome(nav.(currentDatabase := None), [], 1)
      else Outcome(Cascade(nav, e, name).nav, Repeat(k, Cascade(nav, e, name).calls), 0)
  }

  /**
   * Selection succeeds exactly for a listed name. It changes only
   * current_database, the database connection and schema_list; on failure
   * with a list it clears current_database and nothing else.
   */
  lemma SelectListed(nav: Nav, e: SoundEngine, name: string)
    ensures var o := SelectEffect(nav, e, name);
      && (o.rc == 0 <==> nav.databaseList.Some? && name in nav.databaseList.value)
      && o.nav == nav.(currentDatabase := o.nav.currentDatabase, schemaList := o.nav.schemaList, handles := o.nav.handles)
      && (o.rc == 0 ==> o.nav.currentDatabase == Some(name) && o.nav.handles == ConnectHandles(nav.handles, e, name))
      && (o.rc != 0 ==> o.calls == [] && o.nav.schemaList == nav.schemaList && o.nav.handles == nav.handles)
      && (o.rc != 0 && nav.databaseList.Some? ==> o.nav.currentDatabase == None)
      && (nav.databaseList.None? ==> o == Outcome(nav, [], 1))
  {
  }

  /**
   * Every cascade connects before it loads the schemas, and the schemas
   * come over the connection just made.
   */
  lemma {:induction false} ConnectBeforeSchemas(nav: Nav, e: SoundEngine, name: string)
    requires SelectEffect(nav, e, name).rc == 0
    ensures var o := SelectEffect(nav, e, name);
      && |o.calls| >= 2 && |o.calls| % 2 == 0
      && (forall i :: 0 <= i < |o.calls| ==>
            o.calls[i] == if i % 2 == 0 then ConnectCall(name) else SchemaListCall)
      && o.nav.schemaList == NameList(Exec(e, ConnectHandles(nav.handles, e, name).dbConn, SchemaCatalog))
  {
    var k := multiset(nav.databaseList.value)[name];
    assert Cascade(nav, e, name).calls == [ConnectCall(name), SchemaListCall];
    CascadeCalls(k, name);
    assert |SelectEffect(nav, e, name).calls| == 2 * k;
  }

  /** k cascades make the calls connect, schemas, connect, schemas, ... */
  lemma {:induction false} CascadeCalls(k: nat, name: string)
    ensures var calls := Repeat(k, [ConnectCall(name), SchemaListCall]);
      && |calls| == 2 * k
      && forall i :: 0 <= i < |calls| ==> calls[i] == if i % 2 == 0 then ConnectCall(name) else SchemaListCall
  {
    if k > 0 {
      CascadeCalls(k - 1, name);
    }
  }

  /** In a list without repeats a listed name connects and loads the schemas exactly once. */
  lemma DistinctListOneCascade(nav: Nav, e: SoundEngine, name: string)
    requires nav.databaseList.Some? && Distinct(nav.databaseList.value) && name in nav.databaseList.value
    ensures SelectEffect(nav, e, name).calls == [ConnectCall(name), SchemaListCall]
  {
    DistinctCount(nav.databaseList.value, name);
    var calls := Cascade(nav, e, name).calls;
    assert Repeat(1, calls) == Repeat(0, calls) + calls == calls;
  }

  /** Selecting the same database again connects again but leaves the state as the first selection left it. */
  lemma {:induction false} ReselectIdempotent(nav: Nav, e: SoundEngine, name: string)
    ensures SelectEffect(SelectEffect(nav, e, name).nav, e, name).nav == SelectEffect(nav, e, name).nav
    ensures SelectEffect(SelectEffect(nav, e, name).nav, e, name).calls == SelectEffect(nav, e, name).calls
  {
    CascadeIdempotent(nav, e, name);
  }

  method Refresh(s: Session) returns (rc: int)
    modifies s`databaseList, s.adapter
    ensures var o := RefreshEffect(old(s.Hierarchy()), s.adapter.engine);
      s.Hierarchy() == o.nav && s.adapter.calls == old(s.adapter.calls) + o.calls && rc == o.rc
  {
    if s.currentServer.None? {
      return 1;
    }
    if IsPsql(s.currentServer.value) {
      s.adapter.Init(s.currentServer);
    }
    var list := s.adapter.LoadDatabaseList();
    s.databaseList := list;
    rc := if list.Some? then 0 else 1;
  }

  method Select(name: string, s: Session) returns (rc: int)
    modifies s`currentDatabase, s`schemaList, s.adapter`dbConnHandle, s.adapter`calls
    ensures var o := SelectEffect(old(s.Hierarchy()), s.adapter.engine, name);
      s.Hierarchy() == o.nav && s.adapter.calls == old(s.adapter.calls) + o.calls && rc == o.rc
  {
    if s.databaseList.None? {
      return 1;
    }
    var list := s.databaseList.value;
    ghost var nav0 := s.Hierarchy();
    ghost var calls0 := s.adapter.calls;
    ghost var c := Cascade(nav0, s.adapter.engine, name);
    var found := false;
    for i := 0 to |list|
      invariant found <==> multiset(list[..i])[name] > 0
      invariant s.Hierarchy() == if found then c.nav else nav0
      invariant s.adapter.calls == calls0 + Repeat(multiset(list[..i])[name], c.calls)
    {
      assert list[..i + 1] == list[..i] + [list[i]];
      if list[i] == name {
        Store(list[i], s);
        CascadeIdempotent(nav0, s.adapter.engine, name);
        found := true;
      }
    }
    assert list[..|list|] == list;
    if !found {
      s.currentDatabase := None;
    }
    rc := if found then 0 else 1;
  }

  /** The body of a match: store the name as current_database, connect to it and refresh the schemas. */
  method Store(name: string, s: Session)
    modifies s`currentDatabase, s`schemaList, s.adapter`dbConnHandle, s.adapter`calls
    ensures var o := Cascade(old(s.Hierarchy()), s.adapter.engine, name);
      s.Hierarchy() == o.nav && s.adapter.calls == old(s.adapter.calls) + o.calls
  {
    s.currentDatabase := Some(name);
    s.adapter.ConnectToDb(name);
    var schemasRc := Schemas.Refresh(s);
  }
}
