/**
 * The part of libpq that the PostgreSQL adapter relies on, modelled as an
 * oracle: whether a login succeeds, and the result a statement produces on
 * an open connection. The catalog the oracle answers from is fixed for the
 * session.
 */
module Libpq {
  import opened Wrappers

  /** The parameters the adapter passes to PQsetdbLogin (port, options and tty are always null). */
  datatype Login = Login(host: Option<string>, dbName: string, user: Option<string>, pass: Option<string>)

  /** An open connection is identified by the parameters it was opened with. */
  type Conn = Login

  datatype ExecStatus = EmptyQuery | CommandOk | TuplesOk | BadResponse | NonfatalError | FatalError

  /**
   * A PGresult: its status, the field names and an ntuples x nfields table
   * of text values (libpq reports SQL NULL as the empty string). The table
   * is a total function, so every tuple has exactly one value per field.
   */
  datatype PgResult = PgResult(status: ExecStatus, fieldNames: seq<string>, ntuples: nat, value: (nat, nat) -> string)

  /** The statements the adapter sends: four fixed catalog queries and the user's SQL text. */
  datatype Statement =
    | DatabaseCatalog
    | SchemaCatalog
    | TableCatalog(schema: Option<string>)
    | ColumnCatalog(schema: Option<string>, table: Option<string>)
    | UserQuery(sql: string)

  /** Number of columns in the select list of a catalog statement. */
  function CatalogArity(st: Statement): nat
    requires !st.UserQuery?
  {
    if st.ColumnCatalog? then 6 else 1
  }

  datatype Engine = Engine(accepts: Login -> bool, exec: (Conn, Statement) -> PgResult)

  /** A successful catalog query returns exactly the columns its select list names. */
  ghost predicate Sound(e: Engine) {
    forall c: Conn, st: Statement ::
      !st.UserQuery? && e.exec(c, st).status == TuplesOk ==> |e.exec(c, st).fieldNames| == CatalogArity(st)
  }

  type SoundEngine = e: Engine | Sound(e) witness Engine(_ => false, (c, st) => Failed())

  /** The result of PQexec on a null connection: libpq returns no result, whose status reads as fatal. */
  function Failed(): PgResult {
    PgResult(FatalError, [], 0, (i, j) => "")
  }

  /** PQexec / PQexecParams on a possibly null connection handle. */
  function Exec(e: Engine, handle: Option<Conn>, st: Statement): PgResult {
    match handle
    case None => Failed()
    case Some(c) => e.exec(c, st)
  }

  lemma ExecSound(e: SoundEngine, handle: Option<Conn>, st: Statement)
    requires !st.UserQuery?
    ensures var r := Exec(e, handle, st); r.status == TuplesOk ==> |r.fieldNames| == CatalogArity(st)
  {
  }

  /** PQgetvalue: null when the tuple or field number is out of range. */
  function GetValue(r: PgResult, row: int, field: int): (v: Option<string>)
    ensures v.Some? <==> 0 <= row < r.ntuples && 0 <= field < |r.fieldNames|
  {
    if 0 <= row < r.ntuples && 0 <= field < |r.fieldNames| then Some(r.value(row, field)) else None
  }
}
