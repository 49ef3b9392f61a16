/** src/dbt_tables.c: the table level, whose selection refreshes the columns. */
module Tables {
  import opened Wrappers
  import opened Libpq
  import opened Dbt
  import opened PsqlAdapter
  import opened SessionState
  import Columns

  /** dbt_tables_refresh: list the tables of the current schema (passed on unchecked) and replace table_list. */
  function RefreshEffect(nav: Nav, e: SoundEngine): (o: Outcome)
    ensures o.calls == [TableListCall(nav.currentSchema)]
    ensures o.nav == nav.(tableList := NameList(Exec(e, nav.handles.dbConn, TableCatalog(nav.currentSchema))))
    ensures o.rc == 0 <==> o.nav.tableList.Some?
  {
    var list := NameList(Exec(e, nav.handles.dbConn, TableCatalog(nav.currentSchema)));
    Outcome(nav.(tableList := list), [TableListCall(nav.currentSchema)], if list.Some? then 0 else 1)
  }

  /** What one matching entry does: store it as current_table and refresh the columns. */
  function Cascade(nav: Nav, e: SoundEngine, name: string): Outcome {
    Columns.RefreshEffect(nav.(currentTable := Some(name)), e)
  }

  /** A second cascade for the same name finds everything as the first left it. */
  lemma CascadeIdempotent(nav: Nav, e: SoundEngine, name: string)
    ensures Cascade(Cascade(nav, e, name).nav, e, name) == Cascade(nav, e, name)
  {
  }

  /**
   * dbt_tables_select: nothing happens without a table list; every entry
   * equal to the name runs the cascade once; without a match only
   * current_table is cleared.
   */
  function SelectEffect(nav: Nav, e: SoundEngine, name: string): Outcome {
    if nav.tableList.None? then Outcome(nav, [], 1)
    else
      var k := multiset(nav.tableList.value)[name];
      if k == 0 then Outcome(nav.(currentTable := None), [], 1)
      else Outcome(Cascade(nav, e, name).nav, Repeat(k, Cascade(nav, e, name).calls), 0)
  }

  /**
   * Selection succeeds exactly for a listed name. It changes only
   * current_table and column_list: on success the table is current and its
   * columns are loaded; on failure with a list the table is cleared and the
   * old columns stay.
   */
  lemma SelectListed(nav: Nav, e: SoundEngine, name: string)
    ensures var o := SelectEffect(nav, e, name);
      && (o.rc == 0 <==> nav.tableList.Some? && name in nav.tableList.value)
      && o.nav == nav.(currentTable := o.nav.currentTable, columnList := o.nav.columnList)
      && (o.rc == 0 ==>
            o.nav.currentTable == Some(name)
            && o.nav.columnList == ColumnAnswer(e, nav.handles.dbConn, nav.currentSchema, Some(name)))
      && (o.rc != 0 ==> o.calls == [] && o.nav.columnList == nav.columnList)
      && (o.rc != 0 && nav.tableList.Some? ==> o.nav.currentTable == None)
      && (nav.tableList.None? ==> o == Outcome(nav, [], 1))
  {
  }

  /** In a list without repeats a listed name loads the columns exactly once. */
  lemma DistinctListOneCascade(nav: Nav, e: SoundEngine, name: string)
    requires nav.tableList.Some? && Distinct(nav.tableList.value) && name in nav.tableList.value
    ensures SelectEffect(nav, e, name).calls == [ColumnListCall(nav.currentSchema, Some(name))]
  {
    DistinctCount(nav.tableList.value, name);
    var calls := Cascade(nav, e, name).calls;
    assert Repeat(1, calls) == Repeat(0, calls) + calls == calls;
  }

  /** Selecting the same table again leaves the state as the first selection left it. */
  lemma ReselectIdempotent(nav: Nav, e: SoundEngine, name: string)
    ensures SelectEffect(SelectEffect(nav, e, name).nav, e, name).nav == SelectEffect(nav, e, name).nav
    ensures SelectEffect(SelectEffect(nav, e, name).nav, e, name).calls == SelectEffect(nav, e, name).calls
  {
  }

  method Refresh(s: Session) returns (rc: int)
    modifies s`tableList, s.adapter`calls
    ensures var o := RefreshEffect(old(s.Hierarchy()), s.adapter.engine);
      s.Hierarchy() == o.nav && s.adapter.calls == old(s.adapter.calls) + o.calls && rc == o.rc
  {
    var list := s.adapter.LoadTableList(s.currentSchema);
    s.tableList := list;
    rc := if list.Some? then 0 else 1;
  }

  method Select(name: string, s: Session) returns (rc: int)
    modifies s`currentTable, s`columnList, s.adapter`calls
    ensures var o := SelectEffect(old(s.Hierarchy()), s.adapter.engine, name);
      s.Hierarchy() == o.nav && s.adapter.calls == old(s.adapter.calls) + o.calls && rc == o.rc
  {
    if s.tableList.None? {
      return 1;
    }
    var list := s.tableList.value;
    ghost var nav0 := s.Hierarchy();
    ghost var calls0 := s.adapter.calls;
    ghost var c := Cascade(nav0, s.adapter.engine, name);
    var found := false;
    for i := 0 to |list|
      invariant found <==> multiset(list[..i])[name] > 0
      invariant s.Hierarchy() == if found then c.nav else nav0
      invariant s.adapter.calls == calls0 + Repeat(multiset(list[..i])[name], c.calls)
    {
      assert list[..i + 1] == list[..i] + [list[i]];
      if list[i] == name {
        s.currentTable := Some(list[i]);
        var columnsRc, labels := Columns.Refresh(s);
        CascadeIdempotent(nav0, s.adapter.engine, name);
        found := true;
      }
    }
    assert list[..|list|] == list;
    if !found {
      s.currentTable := None;
    }
    rc := if found then 0 else 1;
  }
}
