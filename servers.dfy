/** src/dbt_servers.c: the configured servers, the top of the hierarchy. */
module Servers {
  import opened Wrappers
  import opened Libpq
  import opened Dbt
  import opened PsqlAdapter
  import opened SessionState
  import Databases

  /** One drawn row of the server window: the server's name and its type. */
  datatype Row = Row(name: string, typ: string)

  /**
   * The rows refresh draws: one per server whose "type" is a string, in
   * configuration order; a server without one is skipped and takes no row.
   */
  function Rows(ms: seq<Member>): (rows: seq<Row>)
    ensures |rows| <= |ms|
    ensures forall r :: r in rows <==> exists m :: m in ms && m.info.typ.Some? && r == Row(m.name, m.info.typ.value)
  {
    if ms == [] then []
    else
      var m := ms[|ms| - 1];
      assert ms == ms[..|ms| - 1] + [m];
      Rows(ms[..|ms| - 1]) + if m.info.typ.Some? then [Row(m.name, m.info.typ.value)] else []
  }

  /**
   * The rows in order: an entry whose type is a string gets the row
   * numbered by the typed entries before it, and every row is such an
   * entry's row, so entries without a type take no number.
   */
  lemma RowsOrder(ms: seq<Member>)
    ensures forall i :: 0 <= i < |ms| && ms[i].info.typ.Some? ==>
      |Rows(ms[..i])| < |Rows(ms)| && Rows(ms)[|Rows(ms[..i])|] == Row(ms[i].name, ms[i].info.typ.value)
    ensures forall j :: 0 <= j < |Rows(ms)| ==> RowAt(ms, j)
  {
    forall i | 0 <= i < |ms| && ms[i].info.typ.Some?
      ensures |Rows(ms[..i])| < |Rows(ms)| && Rows(ms)[|Rows(ms[..i])|] == Row(ms[i].name, ms[i].info.typ.value)
    {
      RowIndex(ms, i);
    }
    forall j | 0 <= j < |Rows(ms)|
      ensures RowAt(ms, j)
    {
      RowsCovered(ms, j);
    }
  }

  /** A typed entry's row sits after the rows of the entries before it. */
  lemma {:induction false} RowIndex(ms: seq<Member>, i: nat)
    requires i < |ms| && ms[i].info.typ.Some?
    ensures |Rows(ms[..i])| < |Rows(ms)| && Rows(ms)[|Rows(ms[..i])|] == Row(ms[i].name, ms[i].info.typ.value)
  {
    RowsPrefix(ms, i + 1);
    assert ms[..i + 1][..i] == ms[..i];
  }

  /** Every row is the row of some typed entry, numbered by the typed entries before it. */
  lemma {:induction false} RowsCovered(ms: seq<Member>, j: nat)
    requires j < |Rows(ms)|
    ensures RowAt(ms, j)
  {
    var last := |ms| - 1;
    var init := ms[..last];
    assert ms[..last] == init;
    if j < |Rows(init)| {
      RowsCovered(init, j);
      var i :| 0 <= i < |init| && init[i].info.typ.Some? && |Rows(init[..i])| == j
        && Rows(init)[j] == Row(init[i].name, init[i].info.typ.value);
      assert init[..i] == ms[..i];
      assert ms[i] == init[i];
      assert Rows(ms)[j] == Rows(init)[j];
    } else {
      assert j == |Rows(ms[..last])| && ms[last].info.typ.Some?;
    }
  }

  /** Row j is the row of the typed entry preceded by exactly j typed entries. */
  ghost predicate RowAt(ms: seq<Member>, j: nat)
    requires j < |Rows(ms)|
  {
    exists i :: 0 <= i < |ms| && ms[i].info.typ.Some? && |Rows(ms[..i])| == j
      && Rows(ms)[j] == Row(ms[i].name, ms[i].info.typ.value)
  }

  /** The rows of a prefix of the servers are the first rows of all of them. */
  lemma {:induction false} RowsPrefix(ms: seq<Member>, i: nat)
    requires i <= |ms|
    ensures Rows(ms[..i]) <= Rows(ms)
    decreases |ms| - i
  {
    if i < |ms| {
      RowsPrefix(ms, i + 1);
      assert ms[..i + 1][..i] == ms[..i];
    } else {
      assert ms[..i] == ms;
    }
  }

  predicate Matches(m: Member, name: string) {
    m.name == name && m.info.typ.Some?
  }

  /** The entry select stores: the last selectable server with that name, of which there is at most one. */
  function Lookup(ms: seq<Member>, name: string): (r: Option<ServerEntry>)
    ensures r.Some? <==> exists k :: 0 <= k < |ms| && Matches(ms[k], name)
  {
    if ms == [] then None
    else if Matches(ms[|ms| - 1], name) then Some(ms[|ms| - 1].info)
    else
      var r := Lookup(ms[..|ms| - 1], name);
      assert forall k :: 0 <= k < |ms| - 1 ==> ms[..|ms| - 1][k] == ms[k];
      r
  }

  /**
   * dbt_servers_refresh: 1 when "servers" is not an object, otherwise 0
   * and the rows as they are drawn.
   */
  method Refresh(s: Session) returns (rc: int, rows: seq<Row>)
    ensures rc == 0 <==> s.config.servers.Some?
    ensures rows == if s.config.servers.Some? then Rows(s.config.servers.value) else []
  {
    if s.config.servers.None? {
      return 1, [];
    }
    var ms := s.config.servers.value;
    rows := [];
    for i := 0 to |ms|
      invariant rows == Rows(ms[..i])
    {
      assert ms[..i + 1][..i] == ms[..i];
      var m := ms[i];
      if m.info.typ.Some? {
        rows := rows + [Row(m.name, m.info.typ.value)];
      }
    }
    assert ms[..|ms|] == ms;
    rc := 0;
  }

  /** What the matching entry does: store it as current_server and refresh the databases. */
  function Cascade(nav: Nav, e: SoundEngine, server: ServerEntry): Outcome {
    Databases.RefreshEffect(nav.(currentServer := Some(server)), e)
  }

  /**
   * dbt_servers_select: nothing happens when "servers" is not an object;
   * the selectable entry with that name is stored and refreshes the
   * databases; without one only current_server is cleared. The return
   * value ignores the refresh's own.
   */
  function SelectEffect(nav: Nav, e: SoundEngine, config: ParsedConfig, name: string): Outcome {
    if config.servers.None? then Outcome(nav, [], 1)
    else match Lookup(config.servers.value, name)
      case None => Outcome(nav.(currentServer := None), [], 1)
      case Some(server) => Cascade(nav, e, server).(rc := 0)
  }

  /**
   * A name can be selected exactly when refresh drew a row for it. A
   * failed selection clears current_server, makes no adapter call and
   * leaves every other level untouched.
   */
  lemma {:induction false} SelectableIffListed(nav: Nav, e: SoundEngine, config: ParsedConfig, name: string)
    ensures var o := SelectEffect(nav, e, config, name);
      && (o.rc == 0 <==> config.servers.Some? && exists r :: r in Rows(config.servers.value) && r.name == name)
      && (o.rc != 0 ==> o.calls == [] && o.nav == nav.(currentServer := o.nav.currentServer))
      && (o.rc != 0 && config.servers.Some? ==> o.nav.currentServer == None)
      && (config.servers.None? ==> o == Outcome(nav, [], 1))
      && (forall k :: config.servers.Some? && 0 <= k < |config.servers.value| && Matches(config.servers.value[k], name) ==>
            var r := Databases.RefreshEffect(nav.(currentServer := Some(config.servers.value[k].info)), e);
            o.rc == 0 && o.nav == r.nav && o.nav.currentServer == Some(config.servers.value[k].info) && o.calls == r.calls)
  {
    if config.servers.Some? {
      var ms := config.servers.value;
      LookupIffRow(ms, name);
      forall k | 0 <= k < |ms| && Matches(ms[k], name)
        ensures Lookup(ms, name) == Some(ms[k].info)
      {
        LookupUnique(ms, name, k);
      }
    }
  }

  /** An entry is found exactly when a drawn row carries the name. */
  lemma LookupIffRow(ms: seq<Member>, name: string)
    ensures Lookup(ms, name).Some? <==> exists r :: r in Rows(ms) && r.name == name
  {
    if exists r :: r in Rows(ms) && r.name == name {
      var r :| r in Rows(ms) && r.name == name;
      var m :| m in ms && m.info.typ.Some? && r == Row(m.name, m.info.typ.value);
      var k :| 0 <= k < |ms| && ms[k] == m;
      assert Matches(ms[k], name);
    }
    if Lookup(ms, name).Some? {
      var k :| 0 <= k < |ms| && Matches(ms[k], name);
      assert ms[k] in ms;
      assert Row(ms[k].name, ms[k].info.typ.value) in Rows(ms);
    }
  }

  /** Because no server name occurs twice, the one with that name is the one stored. */
  lemma {:induction false} LookupUnique(ms: seq<Member>, name: string, k: nat)
    requires k < |ms| && Matches(ms[k], name)
    requires forall i, j :: 0 <= i < j < |ms| ==> ms[i].name != ms[j].name
    ensures Lookup(ms, name) == Some(ms[k].info)
  {
    var last := |ms| - 1;
    if k < last {
      assert !Matches(ms[last], name);
      var prefix := ms[..last];
      assert prefix[k] == ms[k];
      LookupUnique(prefix, name, k);
    }
  }

  method Select(name: string, s: Session) returns (rc: int, marked: Option<nat>)
    modifies s`currentServer, s`databaseList, s.adapter
    ensures var o := SelectEffect(old(s.Hierarchy()), s.adapter.engine, s.config, name);
      s.Hierarchy() == o.nav && s.adapter.calls == old(s.adapter.calls) + o.calls && rc == o.rc
    ensures marked.Some? <==> rc == 0
    ensures marked.Some? ==>
      var rows := Rows(s.config.servers.value);
      marked.value < |rows| && rows[marked.value].name == name
  {
    if s.config.servers.None? {
      return 1, None;
    }
    var ms := s.config.servers.value;
    ghost var nav0 := s.Hierarchy();
    ghost var calls0 := s.adapter.calls;
    ghost var at: nat := 0;
    var ind := 0;
    var found := false;
    marked := None;
    for i := 0 to |ms|
      invariant ind == |Rows(ms[..i])|
      invariant found == marked.Some? == Lookup(ms[..i], name).Some?
      invariant found ==>
        && at < i && ms[at].name == name
        && s.Hierarchy() == Cascade(nav0, s.adapter.engine, Lookup(ms[..i], name).value).nav
        && s.adapter.calls == calls0 + Cascade(nav0, s.adapter.engine, Lookup(ms[..i], name).value).calls
        && marked.value < ind && Rows(ms[..i])[marked.value].name == name
      invariant !found ==> s.Hierarchy() == nav0 && s.adapter.calls == calls0
    {
      assert ms[..i + 1][..i] == ms[..i];
      var m := ms[i];
      if m.info.typ.Some? {
        assert Rows(ms[..i + 1]) == Rows(ms[..i]) + [Row(m.name, m.info.typ.value)];
        if m.name == name {
          Store(m.info, s);
          at := i;
          marked := Some(ind);
          found := true;
        }
        ind := ind + 1;
      } else {
        assert Rows(ms[..i + 1]) == Rows(ms[..i]);
      }
    }
    assert ms[..|ms|] == ms;
    if !found {
      s.currentServer := None;
    }
    rc := if found then 0 else 1;
  }

  /** The body of a match: store the entry as current_server and refresh the databases. */
  method Store(server: ServerEntry, s: Session)
    modifies s`currentServer, s`databaseList, s.adapter
    ensures var o := Cascade(old(s.Hierarchy()), s.adapter.engine, server);
      s.Hierarchy() == o.nav && s.adapter.calls == old(s.adapter.calls) + o.calls
  {
    s.currentServer := Some(server);
    var databasesRc := Databases.Refresh(s);
  }
}
