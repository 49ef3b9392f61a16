/**
 * dbt_session_handle_input and its two commit paths (src/dbt_session.c):
 * one keystroke's effect on the session, the dispatch of a committed name
 * to the select of the current mode, and the query commit.
 */
module Input {
  import opened Wrappers
  import opened Libpq
  import opened Dbt
  import opened Editor
  import opened PsqlAdapter
  import opened SessionState
  import Servers
  import Databases
  import Schemas
  import Tables
  import Columns

  /** dbt_session_commit_input: the select of the mode's level, applied to the typed name; other modes return 0. */
  function CommitEffect(m: Mode, nav: Nav, e: SoundEngine, config: ParsedConfig, name: string): Outcome {
    match m
    case ServerSelect => Servers.SelectEffect(nav, e, config, name)
    case DatabaseSelect => Databases.SelectEffect(nav, e, name)
    case SchemaSelect => Schemas.SelectEffect(nav, e, name)
    case TableViewSelect => Tables.SelectEffect(nav, e, name)
    case ColumnSelect => Columns.SelectEffect(nav, name)
    case _ => Outcome(nav, [], 0)
  }

  /** Whether the list of level l holds the name, as the select of that level looks for it. */
  predicate ListedAt(l: Level, nav: Nav, config: ParsedConfig, name: string) {
    match l
    case Server => config.servers.Some? && exists r :: r in Servers.Rows(config.servers.value) && r.name == name
    case Database => nav.databaseList.Some? && name in nav.databaseList.value
    case Schema => nav.schemaList.Some? && name in nav.schemaList.value
    case TableView => nav.tableList.Some? && name in nav.tableList.value
    case Column => nav.columnList.Some? && exists c :: c in nav.columnList.value && c.name == name
  }

  /** The selections and lists above level l agree in a and b. */
  predicate SameAbove(a: Nav, b: Nav, l: Level) {
    && (Depth(l) >= 1 ==> a.currentServer == b.currentServer && a.databaseList == b.databaseList)
    && (Depth(l) >= 2 ==> a.currentDatabase == b.currentDatabase && a.schemaList == b.schemaList && a.handles == b.handles)
    && (Depth(l) >= 3 ==> a.currentSchema == b.currentSchema && a.tableList == b.tableList)
    && (Depth(l) >= 4 ==> a.currentTable == b.currentTable && a.columnList == b.columnList)
  }

  /**
   * A commit in a select mode succeeds exactly when the name is listed at
   * that mode's level, and never changes a selection or a list above it.
   */
  lemma {:induction false} CommitSelects(m: Mode, nav: Nav, e: SoundEngine, config: ParsedConfig, name: string)
    requires m.IsSelect()
    ensures var o := CommitEffect(m, nav, e, config, name);
      && (o.rc == 0 <==> ListedAt(ModeLevel(m), nav, config, name))
      && SameAbove(o.nav, nav, ModeLevel(m))
  {
    match m
    case ServerSelect => Servers.SelectableIffListed(nav, e, config, name);
    case DatabaseSelect => Databases.SelectListed(nav, e, name);
    case SchemaSelect => Schemas.SelectListed(nav, e, name);
    case TableViewSelect => Tables.SelectListed(nav, e, name);
    case ColumnSelect => Columns.SelectListed(nav, name);
  }

  /**
   * What one keystroke does to the hierarchy and the adapter: Enter in a
   * select mode commits the typed name, the execute key in the editor runs
   * the active slot's text, and every other key leaves both alone.
   */
  function KeyEffect(ed: Editor, nav: Nav, e: SoundEngine, config: ParsedConfig, input: int): Outcome
    requires EditorOk(ed)
  {
    if ed.mode.IsSelect() && input == 13 then CommitEffect(ed.mode, nav, e, config, CString(ed.line.bytes))
    else if ed.mode == Query && input == Ctrl(13) then Outcome(nav, [QueryCall(CString(QueryBuffer(ed).bytes))], 0)
    else Outcome(nav, [], 0)
  }

  /** Only Enter in a select mode and the execute key in the editor reach the adapter or the hierarchy. */
  lemma KeyEffectQuiet(ed: Editor, nav: Nav, e: SoundEngine, config: ParsedConfig, input: int)
    requires EditorOk(ed)
    requires input != 13
    ensures KeyEffect(ed, nav, e, config, input) == Outcome(nav, [], 0)
  {
    CtrlFacts(13);
  }

  /** NORMAL mode reaches neither the adapter nor the hierarchy. */
  lemma KeyEffectNormal(ed: Editor, nav: Nav, e: SoundEngine, config: ParsedConfig, input: int)
    requires EditorOk(ed) && ed.mode == Normal
    ensures KeyEffect(ed, nav, e, config, input) == Outcome(nav, [], 0)
  {
  }

  /** dbt_session_commit_input, handed the line as the C string it holds. */
  method CommitInput(s: Session) returns (rc: int)
    requires s.Valid()
    modifies s`currentServer, s`databaseList, s`currentDatabase, s`schemaList, s`currentSchema
    modifies s`tableList, s`currentTable, s`columnList, s`currentColumn, s.adapter
    ensures var o := CommitEffect(s.mode, old(s.Hierarchy()), s.adapter.engine, s.config, CString(s.inputBuffer[..]));
      s.Hierarchy() == o.nav && s.adapter.calls == old(s.adapter.calls) + o.calls && rc == o.rc
  {
    CleanText(Buffer(s.inputBuffer[..], s.bufferHead), LineSize);
    var name := s.inputBuffer[..s.bufferHead];
    match s.mode
    case ServerSelect =>
      var marked;
      rc, marked := Servers.Select(name, s);
    case DatabaseSelect =>
      rc := Databases.Select(name, s);
    case SchemaSelect =>
      rc := Schemas.Select(name, s);
    case TableViewSelect =>
      rc := Tables.Select(name, s);
    case ColumnSelect =>
      rc := Columns.Select(name, s);
    case _ =>
      rc := 0;
  }

  /**
   * The guard of dbt_session_commit_query: the active slot's text goes to
   * perform_query, and 1 comes back when the result is not an object. The
   * result is what the result window would draw.
   */
  method CommitQuery(s: Session) returns (rc: int, result: Option<QueryResult>)
    requires s.Valid() && s.qBuffers[s.qBufferInd] != null
    modifies s.adapter`calls
    ensures var sql := CString(s.qBuffers[s.qBufferInd][..]);
      && result == QueryOutcome(Exec(s.adapter.engine, s.adapter.dbConnHandle, UserQuery(sql)))
      && s.adapter.calls == old(s.adapter.calls) + [QueryCall(sql)]
    ensures rc == 0 <==> result.Some?
  {
    var slot := s.qBuffers[s.qBufferInd];
    CleanText(Buffer(slot[..], s.qBufferHead), QuerySize);
    result := s.adapter.PerformQuery(slot[..s.qBufferHead]);
    rc := if result.Some? then 0 else 1;
  }

  /**
   * dbt_session_handle_input: 1 for a missing session; otherwise 0, the
   * editing state after Step and the hierarchy after KeyEffect.
   */
  method HandleInput(input: int, s: Session?) returns (rc: int)
    requires s != null ==> s.Valid()
    modifies if s == null then {} else {s, s.adapter} + s.Repr
    ensures s == null ==> rc == 1
    ensures s != null ==> rc == 0 && s.Valid() && fresh(s.Repr - old(s.Repr))
    ensures s != null ==> s.EditorView() == Step(old(s.EditorView()), input)
    ensures s != null ==>
      var o := KeyEffect(old(s.EditorView()), old(s.Hierarchy()), s.adapter.engine, s.config, input);
      s.Hierarchy() == o.nav && s.adapter.calls == old(s.adapter.calls) + o.calls
  {
    if s == null {
      return 1;
    }
    if s.mode == Normal {
      KeyEffectNormal(s.EditorView(), s.Hierarchy(), s.adapter.engine, s.config, input);
      NormalInput(input, s);
    } else if s.mode == Query {
      QueryInput(input, s);
    } else {
      LineInput(input, s);
    }
    rc := 0;
  }

  /** The NORMAL-mode branch: the key map, and the slot allocation on entering the editor. */
  method NormalInput(input: int, s: Session)
    requires s.Valid() && s.mode == Normal
    modifies s`mode, s`qBufferHead, s`Repr, s.qBuffers
    ensures s.Valid() && fresh(s.Repr - old(s.Repr))
    ensures s.EditorView() == Step(old(s.EditorView()), input)
    ensures s.Hierarchy() == old(s.Hierarchy())
  {
    ghost var ed := s.EditorView();
    var m := NormalKey(input);
    if m == Query {
      s.AllocateSlot();
    }
    s.SetMode(m);
    NormalStep(ed, input);
  }

  /** The QUERY-mode branch: execute, backspace, the range filter and the bounded append, all on the active slot. */
  method QueryInput(input: int, s: Session)
    requires s.Valid() && s.mode == Query
    modifies s`qBufferHead, s.qBuffers[s.qBufferInd], s.adapter`calls
    ensures s.Valid()
    ensures s.EditorView() == Step(old(s.EditorView()), input)
    ensures var o := KeyEffect(old(s.EditorView()), old(s.Hierarchy()), s.adapter.engine, s.config, input);
      s.Hierarchy() == o.nav && s.adapter.calls == old(s.adapter.calls) + o.calls
  {
    if input == Ctrl(13) {
      var queryRc, result := CommitQuery(s);
    } else if input == 8 || input == 127 {
      s.EraseQuery();
    } else if input < ' ' as int || input > '~' as int {
    } else {
      s.AppendQuery(input as char);
    }
  }

  /** The select-mode branch: commit and reset on Enter, otherwise backspace, the range filter and the bounded append. */
  method LineInput(input: int, s: Session)
    requires s.Valid() && s.mode.IsSelect()
    modifies s`mode, s`bufferHead, s.inputBuffer
    modifies s`currentServer, s`databaseList, s`currentDatabase, s`schemaList, s`currentSchema
    modifies s`tableList, s`currentTable, s`columnList, s`currentColumn, s.adapter
    ensures s.Valid()
    ensures s.EditorView() == Step(old(s.EditorView()), input)
    ensures var o := KeyEffect(old(s.EditorView()), old(s.Hierarchy()), s.adapter.engine, s.config, input);
      s.Hierarchy() == o.nav && s.adapter.calls == old(s.adapter.calls) + o.calls
  {
    if input == 13 {
      SubmitLine(s);
    } else if input == 8 || input == 127 {
      s.EraseLine();
    } else if input < ' ' as int || input > '~' as int {
    } else {
      s.AppendLine(input as char);
    }
  }

  /** Enter at a select prompt: commit the line, return to NORMAL and clear the line. */
  method SubmitLine(s: Session)
    requires s.Valid() && s.mode.IsSelect()
    modifies s`mode, s`bufferHead, s.inputBuffer
    modifies s`currentServer, s`databaseList, s`currentDatabase, s`schemaList, s`currentSchema
    modifies s`tableList, s`currentTable, s`columnList, s`currentColumn, s.adapter
    ensures s.Valid()
    ensures s.EditorView() == Step(old(s.EditorView()), 13)
    ensures var o := KeyEffect(old(s.EditorView()), old(s.Hierarchy()), s.adapter.engine, s.config, 13);
      s.Hierarchy() == o.nav && s.adapter.calls == old(s.adapter.calls) + o.calls
  {
    ghost var ed := s.EditorView();
    var commitRc := CommitInput(s);
    assert s.EditorView() == ed;
    ghost var nav := s.Hierarchy();
    ghost var calls := s.adapter.calls;
    s.SetMode(Normal);
    s.ResetLine();
    assert s.Hierarchy() == nav && s.adapter.calls == calls;
    assert s.EditorView() == ed.(mode := Normal, line := Reset(ed.line));
  }
}
