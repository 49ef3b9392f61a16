/** src/dbt_schemas.c: the schema level, whose selection refreshes the tables. */
module Schemas {
  import opened Wrappers
  import opened Libpq
  import opened Dbt
  import opened PsqlAdapter
  import opened SessionState
  import Tables

  /** dbt_schemas_refresh: list the schemas over the database connection and replace schema_list. */
  function RefreshEffect(nav: Nav, e: SoundEngine): (o: Outcome)
    ensures o.calls == [SchemaListCall]
    ensures o.nav == nav.(schemaList := NameList(Exec(e, nav.handles.dbConn, SchemaCatalog)))
    ensures o.rc == 0 <==> o.nav.schemaList.Some?
  {
    var list := NameList(Exec(e, nav.handles.dbConn, SchemaCatalog));
    Outcome(nav.(schemaList := list), [SchemaListCall], if list.Some? then 0 else 1)
  }

  /** What one matching entry does: store it as current_schema and refresh the tables. */
  function Cascade(nav: Nav, e: SoundEngine, name: string): Outcome {
    Tables.RefreshEffect(nav.(currentSchema := Some(name)), e)
  }

  /** A second cascade for the same name finds everything as the first left it. */
  lemma CascadeIdempotent(nav: Nav, e: SoundEngine, name: string)
    ensures Cascade(Cascade(nav, e, name).nav, e, name) == Cascade(nav, e, name)
  {
  }

  /**
   * dbt_schemas_select: nothing happens without a schema list; every entry
   * equal to the name runs the cascade once; without a match only
   * current_schema is cleared.
   */
  function SelectEffect(nav: Nav, e: SoundEngine, name: string): Outcome {
    if nav.schemaList.None? then Outcome(nav, [], 1)
    else
      var k := multiset(nav.schemaList.value)[name];
      if k == 0 then Outcome(nav.(currentSchema := None), [], 1)
      else Outcome(Cascade(nav, e, name).nav, Repeat(k, Cascade(nav, e, name).calls), 0)
  }

  /**
   * Selection succeeds exactly for a listed name. It changes only
   * current_schema and table_list: on success the schema is current and its
   * tables are loaded; on failure with a list the schema is cleared and
   * the old tables stay.
   */
  lemma SelectListed(nav: Nav, e: SoundEngine, name: string)
    ensures var o := SelectEffect(nav, e, name);
      && (o.rc == 0 <==> nav.schemaList.Some? && name in nav.schemaList.value)
      && o.nav == nav.(currentSchema := o.nav.currentSchema, tableList := o.nav.tableList)
      && (o.rc == 0 ==>
            o.nav.currentSchema == Some(name)
            && o.nav.tableList == NameList(Exec(e, nav.handles.dbConn, TableCatalog(Some(name)))))
      && (o.rc != 0 ==> o.calls == [] && o.nav.tableList == nav.tableList)
      && (o.rc != 0 && nav.schemaList.Some? ==> o.nav.currentSchema == None)
      && (nav.schemaList.None? ==> o == Outcome(nav, [], 1))
  {
  }

  /** In a list without repeats a listed name loads the tables exactly once. */
  lemma DistinctListOneCascade(nav: Nav, e: SoundEngine, name: string)
    requires nav.schemaList.Some? && Distinct(nav.schemaList.value) && name in nav.schemaList.value
    ensures SelectEffect(nav, e, name).calls == [TableListCall(Some(name))]
  {
    DistinctCount(nav.schemaList.value, name);
    var calls := Cascade(nav, e, name).calls;
    assert Repeat(1, calls) == Repeat(0, calls) + calls == calls;
  }

  /** Selecting the same schema again leaves the state as the first selection left it. */
  lemma ReselectIdempotent(nav: Nav, e: SoundEngine, name: string)
    ensures SelectEffect(SelectEffect(nav, e, name).nav, e, name).nav == SelectEffect(nav, e, name).nav
    ensures SelectEffect(SelectEffect(nav, e, name).nav, e, name).calls == SelectEffect(nav, e, name).calls
  {
  }

  method Refresh(s: Session) returns (rc: int)
    modifies s`schemaList, s.adapter`calls
    ensures var o := RefreshEffect(old(s.Hierarchy()), s.adapter.engine);
      s.Hierarchy() == o.nav && s.adapter.calls == old(s.adapter.calls) + o.calls && rc == o.rc
  {
    var list := s.adapter.LoadSchemaList();
    s.schemaList := list;
    rc := if list.Some? then 0 else 1;
  }

  method Select(name: string, s: Session) returns (rc: int)
    modifies s`currentSchema, s`tableList, s.adapter`calls
    ensures var o := SelectEffect(old(s.Hierarchy()), s.adapter.engine, name);
      s.Hierarchy() == o.nav && s.adapter.calls == old(s.adapter.calls) + o.calls && rc == o.rc
  {
    if s.schemaList.None? {
      return 1;
    }
    var list := s.schemaList.value;
    ghost var nav0 := s.Hierarchy();
    ghost var calls0 := s.adapter.calls;
    ghost var c := Cascade(nav0, s.adapter.engine, name);
    var found := false;
    for i := 0 to |list|
      invariant found <==> multiset(list[..i])[name] > 0
      invariant s.Hierarchy() == if found then c.nav else nav0
      invariant s.adapter.calls == calls0 + Repeat(multiset(list[..i])[name], c.calls)
    {
      assert list[..i + 1] == list[..i] + [list[i]];
      if list[i] == name {
        s.currentSchema := Some(list[i]);
        var tablesRc := Tables.Refresh(s);
        CascadeIdempotent(nav0, s.adapter.engine, name);
        found := true;
      }
    }
    assert list[..|list|] == list;
    if !found {
      s.currentSchema := None;
    }
    rc := if found then 0 else 1;
  }
}
