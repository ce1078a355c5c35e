/**
 * The catalog reads: how introspection rows become `TableColumn` and
 * `DatabaseTable` values, how the version reply is shortened, and how
 * `test_connection` shapes its outcome.
 *
 * Every row field is the outcome of one typed read (`try_get`): `None`
 * when the read failed or met SQL NULL.
 */
module Catalog {

  import opened Outcomes
  import opened Text
  import opened Json
  import opened Models
  import opened ConnString

  // ---------------------------------------------------------------------
  // Columns

  /** A row of `PRAGMA table_info`: columns 1 to 5 (name, type, notnull, dflt_value, pk). */
  datatype TableInfoRow = TableInfoRow(
    name: Option<string>, dataType: Option<string>, notNull: Option<int>,
    defaultValue: Option<string>, pk: Option<int>)

  /** A row of `information_schema.columns`: name, type, is_nullable, default. */
  datatype InfoSchemaRow = InfoSchemaRow(
    name: Option<string>, dataType: Option<string>, isNullable: Option<string>,
    defaultValue: Option<string>)

  /** SQLite: nullable unless `notnull` reads non-zero; a key when `pk` reads positive. */
  function SqliteColumn(row: TableInfoRow): (c: TableColumn)
    ensures c.name == UnwrapOr(row.name, "") && c.dataType == UnwrapOr(row.dataType, "")
    ensures c.isNullable <==> row.notNull.None? || row.notNull.value == 0
    ensures c.isPrimaryKey <==> row.pk.Some? && row.pk.value > 0
    ensures c.defaultValue == row.defaultValue
  {
    TableColumn(UnwrapOr(row.name, ""), UnwrapOr(row.dataType, ""),
                UnwrapOr(row.notNull, 0) == 0, row.defaultValue, UnwrapOr(row.pk, 0) > 0)
  }

  /** `is_nullable` compared with "YES" after upper-casing. */
  predicate SaysYes(s: string)
  {
    ToUpper(s) == "YES"
  }

  /** The comparison ignores ASCII case and nothing else. */
  lemma SaysYesSpec(s: string)
    ensures SaysYes(s) <==>
      |s| == 3 && (s[0] == 'y' || s[0] == 'Y') && (s[1] == 'e' || s[1] == 'E')
      && (s[2] == 's' || s[2] == 'S')
  {
    if |s| == 3 {
      var u := ToUpper(s);
      if SaysYes(s) {
        assert u[0] == 'Y' && u[1] == 'E' && u[2] == 'S';
      } else {
        assert u != "YES";
      }
    }
  }

  /** PostgreSQL and MySQL: nullability from "YES" in any case; never a key. */
  function InfoSchemaColumn(row: InfoSchemaRow): (c: TableColumn)
    ensures c.name == UnwrapOr(row.name, "") && c.dataType == UnwrapOr(row.dataType, "")
    ensures c.isNullable <==> row.isNullable.Some? && SaysYes(row.isNullable.value)
    ensures !c.isPrimaryKey
    ensures c.defaultValue == row.defaultValue
  {
    assert !SaysYes("") by { assert |ToUpper("")| == 0; }
    TableColumn(UnwrapOr(row.name, ""), UnwrapOr(row.dataType, ""),
                SaysYes(UnwrapOr(row.isNullable, "")), row.defaultValue, false)
  }

  function SqliteColumns(rows: seq<TableInfoRow>): (cs: seq<TableColumn>)
    ensures |cs| == |rows|
    ensures forall i | 0 <= i < |rows| :: cs[i] == SqliteColumn(rows[i])
  {
    seq(|rows|, i requires 0 <= i < |rows| => SqliteColumn(rows[i]))
  }

  function InfoSchemaColumns(rows: seq<InfoSchemaRow>): (cs: seq<TableColumn>)
    ensures |cs| == |rows|
    ensures forall i | 0 <= i < |rows| :: cs[i] == InfoSchemaColumn(rows[i])
  {
    seq(|rows|, i requires 0 <= i < |rows| => InfoSchemaColumn(rows[i]))
  }

  // ---------------------------------------------------------------------
  // Integer conversions of the MySQL table listing

  const TwoTo64: int := 0x1_0000_0000_0000_0000

  type U64 = n: int | 0 <= n < TwoTo64

  /** `v as i64`: the same 64 bits read as two's complement. */
  function U64AsI64(v: U64): (i: int)
    ensures InI64(i)
    ensures i % TwoTo64 == v
    ensures v <= I64Max ==> i == v
  {
    if v <= I64Max then v else v - TwoTo64
  }

  /** The reinterpretation loses nothing: distinct inputs stay distinct. */
  lemma U64AsI64Injective(v: U64, w: U64)
    requires U64AsI64(v) == U64AsI64(w)
    ensures v == w
  {
    assert v == U64AsI64(v) % TwoTo64;
  }

  /** `r as i64` for a finite float: toward zero, saturating at the i64 bounds. */
  function F64AsI64(r: real): (i: int)
    ensures InI64(i)
    ensures r <= I64Min as real ==> i == I64Min
    ensures r >= I64Max as real ==> i == I64Max
    ensures I64Min as real < r < I64Max as real && r >= 0.0 ==> i as real <= r < i as real + 1.0
    ensures I64Min as real < r < I64Max as real && r < 0.0 ==> i as real - 1.0 < r <= i as real
  {
    var t := if r >= 0.0 then r.Floor else -((-r).Floor);
    if t < I64Min then I64Min else if t > I64Max then I64Max else t
  }

  // ---------------------------------------------------------------------
  // Table listings

  /** A row of the `sqlite_master` listing: name and type. */
  datatype MasterRow = MasterRow(name: Option<string>, tableType: Option<string>)

  /**
   * The SQLite listing loop: tables (not views) get a row count from a
   * per-table `COUNT(*)` query, whose outcome is `countOf(name)` (`None` when
   * the query or its read failed); schema and size are never known.
   */
  method SqliteTables(rows: seq<MasterRow>, countOf: string -> Option<int>)
    returns (tables: seq<DatabaseTable>)
    ensures |tables| == |rows|
    ensures forall i | 0 <= i < |rows| ::
      var name := UnwrapOr(rows[i].name, "");
      var kind := UnwrapOr(rows[i].tableType, "");
      tables[i] == DatabaseTable(name, None, if kind == "table" then countOf(name) else None,
                                 None, Some(ToUpper(kind)))
  {
    tables := [];
    var i := 0;
    while i < |rows|
      invariant 0 <= i <= |rows|
      invariant |tables| == i
      invariant forall k | 0 <= k < i ::
        var name := UnwrapOr(rows[k].name, "");
        var kind := UnwrapOr(rows[k].tableType, "");
        tables[k] == DatabaseTable(name, None, if kind == "table" then countOf(name) else None,
                                   None, Some(ToUpper(kind)))
    {
      var name := UnwrapOr(rows[i].name, "");
      var kind := UnwrapOr(rows[i].tableType, "");
      var rowCount: Option<int> := None;
      if kind == "table" {
        rowCount := countOf(name);
      }
      tables := tables + [DatabaseTable(name, None, rowCount, None, Some(ToUpper(kind)))];
      i := i + 1;
    }
  }

  /** A row of the PostgreSQL listing: name, type, live tuples, size in KiB. */
  datatype PgTableRow = PgTableRow(
    name: Option<string>, tableType: Option<string>, rowCount: Option<int>, sizeKb: Option<int>)

  /** PostgreSQL: always schema "public", type upper-cased, counts as read. */
  function PgTable(row: PgTableRow): (t: DatabaseTable)
    ensures t.schema == Some("public")
    ensures t.tableType == Some(ToUpper(UnwrapOr(row.tableType, "")))
    ensures t.name == UnwrapOr(row.name, "") && t.rowCount == row.rowCount && t.sizeKb == row.sizeKb
  {
    DatabaseTable(UnwrapOr(row.name, ""), Some("public"), row.rowCount, row.sizeKb,
                  Some(ToUpper(UnwrapOr(row.tableType, ""))))
  }

  /** A row of the MySQL listing: `table_rows` as `u64`, the rounded size as `f64`. */
  datatype MySqlTableRow = MySqlTableRow(
    name: Option<string>, tableType: Option<string>, tableRows: Option<U64>, sizeKb: Option<real>)

  /** MySQL: no schema, the type as the server spells it, both numbers cast to `i64`. */
  function MySqlTable(row: MySqlTableRow): (t: DatabaseTable)
    ensures t.schema == None
    ensures t.tableType == Some(UnwrapOr(row.tableType, ""))
    ensures t.rowCount.Some? <==> row.tableRows.Some?
    ensures t.rowCount.Some? ==> InI64(t.rowCount.value) && t.rowCount.value % TwoTo64 == row.tableRows.value
    ensures t.sizeKb.Some? <==> row.sizeKb.Some?
    ensures t.sizeKb.Some? ==> t.sizeKb.value == F64AsI64(row.sizeKb.value)
  {
    DatabaseTable(
      UnwrapOr(row.name, ""), None,
      match row.tableRows case Some(v) => Some(U64AsI64(v)) case None => None,
      match row.sizeKb case Some(r) => Some(F64AsI64(r)) case None => None,
      Some(UnwrapOr(row.tableType, "")))
  }

  // ---------------------------------------------------------------------
  // Server version

  function Min(a: int, b: int): int { if a < b then a else b }

  /**
   * The first two whitespace-separated words of `version()`, joined by one
   * space: its words are exactly the first (at most two) words of the reply.
   */
  function ShortVersion(v: string): (s: string)
    ensures var ws := Words(v); Words(s) == ws[..Min(2, |ws|)]
  {
    var ws := Words(v);
    WordsOfJoin(ws[..Min(2, |ws|)]);
    Join(ws[..Min(2, |ws|)], " ")
  }

  /** Shortening an already short version changes nothing. */
  lemma ShortVersionIdempotent(v: string)
    ensures ShortVersion(ShortVersion(v)) == ShortVersion(v)
  {
    var ws := Words(v);
    var short := ws[..Min(2, |ws|)];
    assert short[..Min(2, |short|)] == short;
  }

  /** The version text of a successful probe. */
  function VersionText(e: Engine, version: string): (t: string)
    ensures e == SQLite ==> t == "SQLite " + version
    ensures e == MySQL ==> t == "MySQL " + version
    ensures e == PostgreSQL ==> var ws := Words(version); Words(t) == ws[..Min(2, |ws|)]
  {
    match e
    case SQLite => "SQLite " + version
    case PostgreSQL => ShortVersion(version)
    case MySQL => "MySQL " + version
  }

  // ---------------------------------------------------------------------
  // test_connection

  /**
   * What the probe met once the configuration was accepted: the connect
   * failed, the version query failed, or the version row came back (its
   * text read may still fail).
   */
  datatype Probe =
    | ConnectFailed(error: string)
    | VersionQueryFailed(error: string)
    | VersionRow(version: Option<string>)

  /**
   * `test_connection`: configuration errors and a failed version query are
   * errors; a failed connect is a successful call reporting failure.
   * `latency` is the measured wall-clock time.
   */
  function TestConnection(c: ConnectionConfig, probe: Probe, latency: nat): (r: Result<ConnectionTestResult>)
    ensures BuildConnectionString(c).Err? ==> r == Err(BuildConnectionString(c).msg)
    ensures BuildConnectionString(c).Ok? && probe.ConnectFailed? ==>
      r == Ok(ConnectionTestResult(false, 0, "", Some(probe.error)))
    ensures BuildConnectionString(c).Ok? && probe.VersionQueryFailed? ==> r == Err(probe.error)
    ensures BuildConnectionString(c).Ok? && probe.VersionRow? ==>
      r == Ok(ConnectionTestResult(true, latency, VersionText(c.dbType, UnwrapOr(probe.version, "Unknown")), None))
    ensures r.Ok? ==> (r.value.success <==> r.value.error.None?)
  {
    match c.dbType
    case SQLite =>
      if c.filePath.None? then Err("SQLite file path is required")
      else Shape(SQLite, probe, latency)
    case _ =>
      match BuildConnectionString(c)
      case Err(e) => Err(e)
      case Ok(_) => Shape(c.dbType, probe, latency)
  }

  /** The outcome once a connection string exists. */
  function Shape(e: Engine, probe: Probe, latency: nat): Result<ConnectionTestResult>
  {
    match probe
    case ConnectFailed(err) => Ok(ConnectionTestResult(false, 0, "", Some(err)))
    case VersionQueryFailed(err) => Err(err)
    case VersionRow(v) => Ok(ConnectionTestResult(true, latency, VersionText(e, UnwrapOr(v, "Unknown")), None))
  }
}
