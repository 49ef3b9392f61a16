/** src/dbt_columns.c: the leaf level of the hierarchy and the column label rule. */
module Columns {
  import opened Wrappers
  import opened Libpq
  import opened Dbt
  import opened PsqlAdapter
  import opened SessionState

  predicate HasLength(dataType: string) {
    dataType == "varchar" || dataType == "nvarchar"
  }

  /** The label a column row shows after its mark: "name - datatype" and then its suffixes. */
  function Label(c: ColumnInfo): string {
    c.name + " - " + c.dataType + Suffixes(c)
  }

  /** "(max_length)" for the two character types, then "/REQ" for a non-nullable column, then "/ID" for an identity column. */
  function Suffixes(c: ColumnInfo): string {
    (if HasLength(c.dataType) then "(" + c.maxLength + ")" else "")
    + (if c.nullable == "NO" then "/REQ" else "")
    + (if c.isIdentity == "YES" then "/ID" else "")
  }

  /** What the suffixes of a label tell about its column. */
  datatype Marks = Marks(length: Option<string>, required: bool, identity: bool)

  function MarksOf(c: ColumnInfo): Marks {
    Marks(if HasLength(c.dataType) then Some(c.maxLength) else None, c.nullable == "NO", c.isIdentity == "YES")
  }

  predicate EndsWith(s: string, tag: string) {
    |tag| <= |s| && s[|s| - |tag|..] == tag
  }

  /** A length part as a label writes it: nothing, or a parenthesised length. */
  predicate LengthPart(inner: string) {
    inner == [] || (|inner| >= 2 && inner[0] == '(' && inner[|inner| - 1] == ')')
  }

  /**
   * Reads the suffixes back, from the right: "/ID", then "/REQ", then what
   * remains must be empty or a parenthesised length; anything else is not a
   * suffix a label writes.
   */
  function ReadMarks(suffix: string): Option<Marks> {
    var identity := EndsWith(suffix, "/ID");
    var rest := if identity then suffix[..|suffix| - 3] else suffix;
    var required := EndsWith(rest, "/REQ");
    var inner := if required then rest[..|rest| - 4] else rest;
    if !LengthPart(inner) then None
    else Some(Marks(if inner == [] then None else Some(inner[1..|inner| - 1]), required, identity))
  }

  /** A tag is recognised, and stripped, exactly when it was appended to a text that does not end like it. */
  lemma TagRoundTrip(a: string, tag: string, present: bool)
    requires |tag| > 0 && (|a| == 0 || a[|a| - 1] != tag[|tag| - 1])
    ensures var s := a + (if present then tag else "");
      EndsWith(s, tag) == present && (present ==> s[..|s| - |tag|] == a)
  {
    var s := a + (if present then tag else "");
    if present {
      assert s[|s| - |tag|..] == tag;
      assert s[..|s| - |tag|] == a;
    } else if |tag| <= |s| {
      assert s[|s| - |tag|..][|tag| - 1] == a[|a| - 1];
    }
  }

  /**
   * A label starts with "name - datatype", and what follows determines the
   * three suffix decisions: the suffixes are distinct for distinct
   * decisions and come in the fixed order length, "/REQ", "/ID".
   */
  lemma LabelMarks(c: ColumnInfo)
    ensures var head := c.name + " - " + c.dataType;
      && |head| <= |Label(c)| && Label(c)[..|head|] == head
      && ReadMarks(Label(c)[|head|..]) == Some(MarksOf(c))
  {
    var head := c.name + " - " + c.dataType;
    assert Label(c) == head + Suffixes(c);
    assert Label(c)[|head|..] == Suffixes(c);
    SuffixMarks(c);
  }

  /** The suffixes alone read back as the column's marks. */
  lemma SuffixMarks(c: ColumnInfo)
    ensures ReadMarks(Suffixes(c)) == Some(MarksOf(c))
  {
    var len := if HasLength(c.dataType) then "(" + c.maxLength + ")" else "";
    ReadTags(len, c.nullable == "NO", c.isIdentity == "YES");
    if HasLength(c.dataType) {
      assert len[1..|len| - 1] == c.maxLength;
    }
  }

  /** "/REQ" and "/ID" appended to a length part (empty or parenthesised) are read back, and so is the length part. */
  lemma ReadTags(len: string, required: bool, identity: bool)
    requires LengthPart(len)
    ensures var rest := len + (if required then "/REQ" else "");
      ReadMarks(rest + (if identity then "/ID" else ""))
      == Some(Marks(if len == [] then None else Some(len[1..|len| - 1]), required, identity))
  {
    var rest := len + (if required then "/REQ" else "");
    TagRoundTrip(len, "/REQ", required);
    assert |rest| == 0 || rest[|rest| - 1] == ')' || rest[|rest| - 1] == 'Q';
    TagRoundTrip(rest, "/ID", identity);
    ReadMarksParts(rest + (if identity then "/ID" else ""), rest, len, required, identity);
  }

  lemma ReadMarksParts(s: string, rest: string, inner: string, required: bool, identity: bool)
    requires EndsWith(s, "/ID") == identity && (if identity then s[..|s| - 3] else s) == rest
    requires EndsWith(rest, "/REQ") == required && (if required then rest[..|rest| - 4] else rest) == inner
    requires LengthPart(inner)
    ensures ReadMarks(s) == Some(Marks(if inner == [] then None else Some(inner[1..|inner| - 1]), required, identity))
  {
  }

  /** Only the rendering a label writes reads back: other brackets or a stray character are refused. */
  lemma ReadMarksStrict()
    ensures ReadMarks("(255)/REQ") == Some(Marks(Some("255"), true, false))
    ensures ReadMarks("[255]/REQ") == None && ReadMarks("?") == None && ReadMarks("?/ID") == None
  {
    assert EndsWith("(255)/REQ", "/REQ") && !EndsWith("(255)/REQ", "/ID");
    assert "(255)/REQ"[..5] == "(255)";
    assert "(255)"[1..4] == "255";
    assert LengthPart("(255)");
    assert EndsWith("[255]/REQ", "/REQ") && !EndsWith("[255]/REQ", "/ID");
    assert "[255]/REQ"[..5] == "[255]";
    assert EndsWith("?/ID", "/ID") && "?/ID"[..1] == "?";
  }

  /** The two columns of a users table: "id" carries no length but both markers, "email" its length and only "/REQ". */
  lemma UsersTableLabels()
    ensures Label(ColumnInfo("id", "1", "NO", "int4", "", "YES")) == "id - int4/REQ/ID"
    ensures Label(ColumnInfo("email", "2", "NO", "varchar", "255", "NO")) == "email - varchar(255)/REQ"
  {
  }

  /** dbt_columns_refresh: ask the adapter for the columns of (current schema, current table) and replace the list. */
  function RefreshEffect(nav: Nav, e: SoundEngine): (o: Outcome)
    ensures o.calls == [ColumnListCall(nav.currentSchema, nav.currentTable)]
    ensures o.nav == nav.(columnList := ColumnAnswer(e, nav.handles.dbConn, nav.currentSchema, nav.currentTable))
    ensures o.rc == 0 <==> o.nav.columnList.Some?
  {
    var list := ColumnAnswer(e, nav.handles.dbConn, nav.currentSchema, nav.currentTable);
    Outcome(nav.(columnList := list), [ColumnListCall(nav.currentSchema, nav.currentTable)], if list.Some? then 0 else 1)
  }

  predicate Listed(list: seq<ColumnInfo>, name: string) {
    exists k :: 0 <= k < |list| && list[k].name == name
  }

  /** dbt_columns_select: the leaf level selects without any further refresh or adapter call. */
  function SelectEffect(nav: Nav, name: string): (o: Outcome)
  {
    if nav.columnList.None? then Outcome(nav, [], 1)
    else if Listed(nav.columnList.value, name) then Outcome(nav.(currentColumn := Some(name)), [], 0)
    else Outcome(nav.(currentColumn := None), [], 1)
  }

  /** Selection succeeds exactly for a name in the loaded list; it changes only current_column and calls nothing. */
  lemma SelectListed(nav: Nav, name: string)
    ensures var o := SelectEffect(nav, name);
      && (o.rc == 0 <==> nav.columnList.Some? && exists c :: c in nav.columnList.value && c.name == name)
      && o.calls == []
      && o.nav == nav.(currentColumn := o.nav.currentColumn)
      && (o.rc == 0 ==> o.nav.currentColumn == Some(name))
      && (o.rc != 0 && nav.columnList.Some? ==> o.nav.currentColumn == None)
      && (nav.columnList.None? ==> o == Outcome(nav, [], 1))
  {
    if nav.columnList.Some? && exists c :: c in nav.columnList.value && c.name == name {
      var c :| c in nav.columnList.value && c.name == name;
      var k :| 0 <= k < |nav.columnList.value| && nav.columnList.value[k] == c;
      assert Listed(nav.columnList.value, name);
    }
  }

  /** The labels refresh draws, one per column in list order. */
  method Refresh(s: Session) returns (rc: int, labels: seq<string>)
    modifies s`columnList, s.adapter`calls
    ensures var o := RefreshEffect(old(s.Hierarchy()), s.adapter.engine);
      s.Hierarchy() == o.nav && s.adapter.calls == old(s.adapter.calls) + o.calls && rc == o.rc
    ensures s.columnList.Some? ==>
      |labels| == |s.columnList.value| && forall i :: 0 <= i < |labels| ==> labels[i] == Label(s.columnList.value[i])
    ensures s.columnList.None? ==> labels == []
  {
    var list := s.adapter.LoadColumnList(s.currentSchema, s.currentTable);
    s.columnList := list;
    if list.None? {
      return 1, [];
    }
    labels := [];
    var i := 0;
    while i < |list.value|
      invariant 0 <= i <= |list.value|
      invariant |labels| == i && forall k :: 0 <= k < i ==> labels[k] == Label(list.value[k])
    {
      labels := labels + [Label(list.value[i])];
      i := i + 1;
    }
    rc := 0;
  }

  method Select(name: string, s: Session) returns (rc: int)
    modifies s`currentColumn
    ensures var o := SelectEffect(old(s.Hierarchy()), name);
      s.Hierarchy() == o.nav && rc == o.rc
  {
    if s.columnList.None? {
      return 1;
    }
    var list := s.columnList.value;
    var found := false;
    for i := 0 to |list|
      invariant found <==> exists k :: 0 <= k < i && list[k].name == name
      invariant s.currentColumn == if found then Some(name) else old(s.currentColumn)
    {
      if list[i].name == name {
        found := true;
        s.currentColumn := Some(list[i].name);
      }
    }
    if !found {
      s.currentColumn := None;
    }
    rc := if found then 0 else 1;
  }
}
