/**
 * The definitions of src/dbt.h: the CTRL macro, the input modes, the buffer
 * sizes and the shape of the session and adapter state, as the .c files use
 * them (the header itself predates the query editor and the column level).
 */
module Dbt {
  import opened Wrappers
  import opened Libpq

  /**
   * CTRL(c) is c & 037. On two's-complement integers, masking with 2^5 - 1
   * is the non-negative remainder modulo 32, which is what Dafny's % gives.
   */
  function Ctrl(c: int): (r: int)
    ensures 0 <= r < 32
    ensures 0 <= c < 32 ==> r == c
  {
    c % 32
  }

  lemma CtrlFacts(c: int)
    ensures Ctrl(13) == 13 && Ctrl('c' as int) == 3 && Ctrl('C' as int) == 3
    ensures Ctrl(Ctrl(c)) == Ctrl(c)
  {
  }

  /** The five levels of the hierarchy, parent before child. */
  datatype Level = Server | Database | Schema | TableView | Column

  function Depth(l: Level): nat {
    match l
    case Server => 0
    case Database => 1
    case Schema => 2
    case TableView => 3
    case Column => 4
  }

  /** enum dbt_mode, with the query-editor mode the .c files add. */
  datatype Mode = Normal | ServerSelect | DatabaseSelect | SchemaSelect | TableViewSelect | ColumnSelect | Query {
    predicate IsSelect() { this != Normal && this != Query }
  }

  function SelectMode(l: Level): (m: Mode)
    ensures m.IsSelect()
  {
    match l
    case Server => ServerSelect
    case Database => DatabaseSelect
    case Schema => SchemaSelect
    case TableView => TableViewSelect
    case Column => ColumnSelect
  }

  /** The level a select mode prompts for. */
  function ModeLevel(m: Mode): (l: Level)
    requires m.IsSelect()
    ensures SelectMode(l) == m
  {
    match m
    case ServerSelect => Server
    case DatabaseSelect => Database
    case SchemaSelect => Schema
    case TableViewSelect => TableView
    case ColumnSelect => Column
  }

  /** The value of each enumerator declared in the header (the query mode is not declared there). */
  function HeaderCode(m: Mode): nat
    requires m != Query
  {
    match m
    case Normal => 0
    case ServerSelect => 1
    case DatabaseSelect => 2
    case SchemaSelect => 3
    case TableViewSelect => 4
    case ColumnSelect => 5
  }

  /** NORMAL is enumerator 0 and the select modes follow in hierarchy order. */
  lemma {:induction false} HeaderOrder(l: Level)
    ensures HeaderCode(Normal) == 0
    ensures HeaderCode(SelectMode(l)) == Depth(l) + 1
  {
    match l
    case Server =>
    case Database =>
    case Schema =>
    case TableView =>
    case Column =>
  }

  /** char input_buffer[64]: the select prompt's line. */
  const LineSize: nat := 64
  /** Each query slot is calloc(4096, 1). */
  const QuerySize: nat := 4096
  /** q_buffers has seven slots. */
  const SlotCount: nat := 7

  /** One server object of the configuration; None stands for a missing or non-string member. */
  datatype ServerEntry = ServerEntry(typ: Option<string>, host: Option<string>, user: Option<string>, pass: Option<string>)

  /** One member of the "servers" object: its key is the server's name. */
  datatype Member = Member(name: string, info: ServerEntry)

  /** The configuration document; servers is None when "servers" is missing or not an object. */
  datatype Config = Config(servers: Option<seq<Member>>)

  predicate DistinctNames(c: Config) {
    c.servers.Some? ==>
      forall i, j :: 0 <= i < j < |c.servers.value| ==> c.servers.value[i].name != c.servers.value[j].name
  }

  /** The configuration is read with JSON_REJECT_DUPLICATES, so no key occurs twice. */
  type ParsedConfig = c: Config | DistinctNames(c) witness Config(None)

  /** One element of column_list, as load_column_list builds it. */
  datatype ColumnInfo = ColumnInfo(name: string, ordinal: string, nullable: string, dataType: string, maxLength: string, isIdentity: string)

  /** The object perform_query returns: column names and rows of text cells. */
  datatype QueryResult = QueryResult(columns: seq<string>, rows: seq<seq<string>>)

  /** The data part of struct dbt_adapter. */
  datatype Handles = Handles(conn: Option<Conn>, dbConn: Option<Conn>, host: Option<string>, user: Option<string>, pass: Option<string>)

  /** One call through the adapter's function table, as recorded in the adapter's call log. */
  datatype Call =
    | InitCall(server: Option<ServerEntry>)
    | DatabaseListCall
    | ConnectCall(database: string)
    | SchemaListCall
    | TableListCall(schema: Option<string>)
    | ColumnListCall(schema: Option<string>, table: Option<string>)
    | QueryCall(sql: string)

  /** The hierarchy part of struct dbt_session, together with the adapter's handles. */
  datatype Nav = Nav(
    currentServer: Option<ServerEntry>,
    databaseList: Option<seq<string>>,
    currentDatabase: Option<string>,
    schemaList: Option<seq<string>>,
    currentSchema: Option<string>,
    tableList: Option<seq<string>>,
    currentTable: Option<string>,
    columnList: Option<seq<ColumnInfo>>,
    currentColumn: Option<string>,
    handles: Handles)

  /** What a refresh or select does: the new state, the adapter calls it makes in order, and its return code. */
  datatype Outcome = Outcome(nav: Nav, calls: seq<Call>, rc: int)

  /** k copies of xs, one after the other. */
  function Repeat<T>(k: nat, xs: seq<T>): seq<T> {
    if k == 0 then [] else Repeat(k - 1, xs) + xs
  }

  predicate Distinct<T(==)>(xs: seq<T>) {
    forall i, j :: 0 <= i < j < |xs| ==> xs[i] != xs[j]
  }

  /** In a list without repeats every name occurs at most once. */
  lemma {:induction false} DistinctCount<T>(xs: seq<T>, x: T)
    requires Distinct(xs)
    ensures multiset(xs)[x] <= 1
    ensures x in xs ==> multiset(xs)[x] == 1
  {
    if xs != [] {
      var tail := xs[1..];
      assert xs == [xs[0]] + tail;
      assert Distinct(tail) by {
        forall i, j | 0 <= i < j < |tail| ensures tail[i] != tail[j] {
          assert tail[i] == xs[i + 1] && tail[j] == xs[j + 1];
        }
      }
      DistinctCount(tail, x);
      if x == xs[0] {
        assert x !in tail by {
          forall k | 0 <= k < |tail| ensures tail[k] != x {
            assert tail[k] == xs[k + 1];
          }
        }
      }
    }
  }
}
