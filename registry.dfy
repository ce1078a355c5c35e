/**
 * `ConnectionManager`: the map from connection id to an open pool, and
 * every operation that goes through it.
 *
 * The driver is not modelled. Opening a pool is the parameter `connected`
 * (an opaque handle, or the driver's error); what a statement or catalog
 * query returns is a parameter of the operation that sends it (`exec` for
 * the affected-row count of `execute`, `reply` for fetched rows). Each
 * operation that sends a statement built from its arguments (a query, an
 * EXPLAIN, a row or table change) returns it as `sent`; the catalog and
 * version queries are not modelled as texts.
 */
module Registry {

  import opened Outcomes
  import opened Text
  import opened Json
  import opened Models
  import opened ConnString
  import opened RowDecoder
  import opened SqlBuilders
  import opened Catalog
  import opened Export
  import opened Plans

  /** `DatabasePool`: the engine the pool speaks and an opaque driver handle. */
  datatype Pool = Pool(engine: Engine, handle: nat)

  /** The rows of a table listing, in the dialect of the pool that answered. */
  datatype Listing =
    | MasterListing(master: seq<MasterRow>, countOf: string -> Option<int>)
    | PostgresListing(pgRows: seq<PgTableRow>)
    | MySqlListing(myRows: seq<MySqlTableRow>)

  /** The rows describing a table's columns, in the dialect of the pool. */
  datatype Structure =
    | PragmaRows(pragma: seq<TableInfoRow>)
    | SchemaRows(schema: seq<InfoSchemaRow>)

  /** The rows naming a table's primary-key columns. */
  datatype KeyRows =
    | PragmaKeyRows(info: seq<TableInfoRow>)
    | KeyNameRows(names: seq<Option<string>>)

  /**
   * The rows describing a table's indexes. For MySQL, `order` is the
   * iteration order of the `HashMap` the rows are grouped into.
   */
  datatype IndexRows =
    | SqliteIndexList(list: seq<IndexListRow>)
    | IndexDefRows(defs: seq<Option<string>>)
    | StatisticsRows(stats: seq<StatisticsRow>, order: seq<string>)

  function ListingEngine(l: Listing): Engine
  {
    match l
    case MasterListing(_, _) => SQLite
    case PostgresListing(_) => PostgreSQL
    case MySqlListing(_) => MySQL
  }

  /** Whether rows of this shape can come from a pool of engine `e`. */
  predicate StructureFrom(s: Structure, e: Engine)
  {
    s.PragmaRows? <==> e == SQLite
  }

  predicate KeysFrom(k: KeyRows, e: Engine)
  {
    k.PragmaKeyRows? <==> e == SQLite
  }

  /** MySQL rows come with an iteration order naming every grouped index once. */
  predicate WellGrouped(ix: IndexRows)
  {
    ix.StatisticsRows? ==>
      (forall i, j | 0 <= i < j < |ix.order| :: ix.order[i] != ix.order[j])
      && (set name | name in ix.order) == IndexNames(ix.stats)
  }

  /** Every `index_info` query of a SQLite listing answered. */
  predicate Answered(ix: IndexRows)
  {
    ix.SqliteIndexList? ==> forall k | 0 <= k < |ix.list| :: ix.list[k].info.Ok?
  }

  predicate IndexesFrom(ix: IndexRows, e: Engine)
  {
    WellGrouped(ix)
    && match ix
       case SqliteIndexList(_) => e == SQLite
       case IndexDefRows(_) => e == PostgreSQL
       case StatisticsRows(_, _) => e == MySQL
  }

  /** The columns a structure reply describes. */
  function StructureColumns(s: Structure): (cs: seq<TableColumn>)
    ensures s.PragmaRows? ==> cs == SqliteColumns(s.pragma)
    ensures s.SchemaRows? ==> cs == InfoSchemaColumns(s.schema) && forall k | 0 <= k < |cs| :: !cs[k].isPrimaryKey
  {
    match s
    case PragmaRows(rows) => SqliteColumns(rows)
    case SchemaRows(rows) => InfoSchemaColumns(rows)
  }

  /** `get_primary_keys`: the flagged columns of `table_info`, or the names returned. */
  function KeysOf(k: KeyRows): (keys: seq<string>)
    ensures k.PragmaKeyRows? ==> keys == FlaggedKeys(SqliteColumns(k.info))
    ensures k.KeyNameRows? ==>
      |keys| == |k.names| && forall i | 0 <= i < |keys| :: keys[i] == UnwrapOr(k.names[i], "")
  {
    match k
    case PragmaKeyRows(rows) => PragmaKeysAgree(rows); PragmaPrimaryKeys(rows)
    case KeyNameRows(names) => ReadOrEmpty(names)
  }

  /** The MySQL index map: each named index with its columns in row order. */
  function IndexGroups(stats: seq<StatisticsRow>): map<string, seq<string>>
  {
    map ix | ix in IndexNames(stats) :: ColumnsOf(stats, ix)
  }

  /** The statements `get_indexes` reconstructs when every query succeeds. */
  function IndexStatements(table: string, ix: IndexRows): seq<string>
    requires WellGrouped(ix) && Answered(ix)
  {
    match ix
    case SqliteIndexList(list) => SqliteIndexSqls(table, list)
    case IndexDefRows(defs) => ReadOrEmpty(defs)
    case StatisticsRows(stats, order) =>
      assert EnumeratesKeys(order, IndexGroups(stats)) by {
        assert IndexGroups(stats).Keys == IndexNames(stats);
      }
      MySqlIndexSqls(table, IndexGroups(stats), order)
  }

  /** The `Successfully …` messages. */
  function Inserted(table: string): string { "Successfully inserted 1 row into " + table }
  function BulkInserted(n: nat, table: string): string
  {
    "Successfully inserted " + NatToString(n) + " rows into " + table
  }
  function Updated(n: nat): string { "Successfully updated " + NatToString(n) + " row(s)" }
  function Deleted(n: nat): string { "Successfully deleted " + NatToString(n) + " row(s)" }
  function Created(table: string): string { "Successfully created table " + table }
  function Dropped(table: string): string { "Successfully dropped table " + table }
  function ColumnAdded(column: string, table: string): string
  {
    "Successfully added column " + column + " to " + table
  }
  function ColumnDropped(column: string, table: string): string
  {
    "Successfully dropped column " + column + " from " + table
  }
  function Renamed(oldName: string, newName: string): string
  {
    "Successfully renamed table " + oldName + " to " + newName
  }

  const NoRows: string := "No rows to insert"
  const NotAnObject: string := "Data must be a JSON object"
  const RowNotAnObject: string := "Row data must be a JSON object"
  const NoColumns: string := "Table has no columns or does not exist"

  /** Counts written back into a message read back as the same count. */
  lemma CountsReadBack(n: nat, m: nat)
    ensures Updated(n) == Updated(m) ==> n == m
    ensures Deleted(n) == Deleted(m) ==> n == m
  {
    var p := "Successfully updated ";
    var q := " row(s)";
    if Updated(n) == Updated(m) {
      assert p + NatToString(n) + q == p + NatToString(m) + q;
      assert NatToString(n) == Updated(n)[|p|..|Updated(n)| - |q|];
      assert NatToString(m) == Updated(m)[|p|..|Updated(m)| - |q|];
      NatToStringInjective(n, m);
    }
    var d := "Successfully deleted ";
    if Deleted(n) == Deleted(m) {
      assert NatToString(n) == Deleted(n)[|d|..|Deleted(n)| - |q|];
      assert NatToString(m) == Deleted(m)[|d|..|Deleted(m)| - |q|];
      NatToStringInjective(n, m);
    }
  }

  /**
   * `get_indexes`: the rows are read according to the pool's engine; on
   * SQLite the first failed `index_info` query fails the whole call.
   */
  method GetIndexes(table: string, reply: Result<IndexRows>) returns (r: Result<seq<string>>)
    requires reply.Ok? ==> WellGrouped(reply.value)
    ensures reply.Err? ==> r == Err(reply.msg)
    ensures reply.Ok? && reply.value.SqliteIndexList? ==>
      (r.Err? <==> exists k | 0 <= k < |reply.value.list| :: reply.value.list[k].info.Err?)
    ensures reply.Ok? && reply.value.SqliteIndexList? && r.Err? ==>
      exists k :: FirstFailure(reply.value.list, k) && r.msg == reply.value.list[k].info.msg
    ensures reply.Ok? && !reply.value.SqliteIndexList? ==> r.Ok?
    ensures r.Ok? ==> reply.Ok? && Answered(reply.value) && r.value == IndexStatements(table, reply.value)
    ensures reply.Ok? && reply.value.StatisticsRows? ==>
      |r.value| == |reply.value.order|
      && forall i | 0 <= i < |r.value| ::
           var ix := reply.value.order[i];
           r.value[i] == "CREATE INDEX " + ix + " ON " + table + " ("
                         + Join(ColumnsOf(reply.value.stats, ix), ", ") + ")"
  {
    if reply.Err? {
      return Err(reply.msg);
    }
    match reply.value {
      case SqliteIndexList(rows) =>
        r := SqliteIndexes(table, rows);
      case IndexDefRows(defs) =>
        r := Ok(ReadOrEmpty(defs));
      case StatisticsRows(stats, order) =>
        var groups := GroupIndexColumns(stats);
        assert groups == IndexGroups(stats);
        r := Ok(MySqlIndexSqls(table, groups, order));
    }
  }

  class ConnectionManager {

    /** The open pools, by connection id. */
    var connections: map<string, Pool>

    /** `new`: no connection is open. */
    constructor ()
      ensures connections == map[]
    {
      connections := map[];
    }

    /**
     * `connect`: a pool for the engine of `config`, stored under its id and
     * replacing any pool stored there before. The SQLite URL is formatted
     * inline and agrees with `build_connection_string`; nothing is stored
     * when the URL cannot be built or the driver fails.
     */
    method Connect(config: ConnectionConfig, connected: Result<nat>) returns (dialed: Option<string>, r: Result<()>)
      modifies this
      ensures BuildConnectionString(config).Err? ==>
        dialed.None? && r == Err(BuildConnectionString(config).msg) && connections == old(connections)
      ensures BuildConnectionString(config).Ok? ==> dialed == Some(BuildConnectionString(config).value)
      ensures dialed.Some? && connected.Err? ==> r == Err(connected.msg) && connections == old(connections)
      ensures dialed.Some? && connected.Ok? ==>
        r == Ok(()) && connections == old(connections)[config.id := Pool(config.dbType, connected.value)]
    {
      var target: string;
      match config.dbType {
        case SQLite =>
          if config.filePath.None? {
            return None, Err("SQLite file path is required");
          }
          target := "sqlite://" + config.filePath.value;
        case _ =>
          var url := BuildConnectionString(config);
          if url.Err? {
            return None, Err(url.msg);
          }
          target := url.value;
      }
      dialed := Some(target);
      if connected.Err? {
        return dialed, Err(connected.msg);
      }
      connections := connections[config.id := Pool(config.dbType, connected.value)];
      r := Ok(());
    }

    /** `disconnect`: removes exactly `id`, or fails when it is not open. */
    method Disconnect(id: string) returns (r: Result<()>)
      modifies this
      ensures id in old(connections) ==> r == Ok(()) && connections == old(connections) - {id}
      ensures id !in old(connections) ==> r == Err(NotFound) && connections == old(connections)
      ensures id !in connections
    {
      if id !in connections {
        return Err(NotFound);
      }
      connections := connections - {id};
      r := Ok(());
    }

    /** `execute_query`: the statement as given, its rows normalised. */
    method ExecuteQuery(id: string, query: string, reply: Result<seq<seq<Cell>>>)
      returns (sent: Option<string>, r: Result<QueryResult>)
      ensures id !in connections ==> sent.None? && r == Err(NotFound)
      ensures id in connections ==> sent == Some(query)
      ensures id in connections && reply.Err? ==> r == Err(reply.msg)
      ensures id in connections && reply.Ok? ==> r == Ok(ProcessRows(reply.value))
    {
      if id !in connections {
        return None, Err(NotFound);
      }
      sent := Some(query);
      if reply.Err? {
        return sent, Err(reply.msg);
      }
      r := Ok(ProcessRows(reply.value));
    }

    /** `list_tables`: the rows are read according to the engine of the stored pool. */
    method ListTables(id: string, reply: Result<Listing>) returns (r: Result<seq<DatabaseTable>>)
      requires id in connections && reply.Ok? ==> ListingEngine(reply.value) == connections[id].engine
      ensures id !in connections ==> r == Err(NotFound)
      ensures id in connections && reply.Err? ==> r == Err(reply.msg)
      ensures id in connections && reply.Ok? ==> r.Ok?
      ensures id in connections && reply.Ok? && reply.value.MasterListing? ==>
        |r.value| == |reply.value.master|
        && forall i | 0 <= i < |r.value| ::
             r.value[i].name == UnwrapOr(reply.value.master[i].name, "")
             && r.value[i].schema.None? && r.value[i].sizeKb.None?
             && r.value[i].tableType == Some(ToUpper(UnwrapOr(reply.value.master[i].tableType, "")))
             && r.value[i].rowCount == (if UnwrapOr(reply.value.master[i].tableType, "") == "table"
                                        then reply.value.countOf(r.value[i].name) else None)
      ensures id in connections && reply.Ok? && reply.value.PostgresListing? ==>
        |r.value| == |reply.value.pgRows|
        && forall i | 0 <= i < |r.value| :: r.value[i] == PgTable(reply.value.pgRows[i])
      ensures id in connections && reply.Ok? && reply.value.MySqlListing? ==>
        |r.value| == |reply.value.myRows|
        && forall i | 0 <= i < |r.value| :: r.value[i] == MySqlTable(reply.value.myRows[i])
    {
      if id !in connections {
        return Err(NotFound);
      }
      if reply.Err? {
        return Err(reply.msg);
      }
      match reply.value {
        case MasterListing(rows, countOf) =>
          var tables := SqliteTables(rows, countOf);
          r := Ok(tables);
        case PostgresListing(rows) =>
          r := Ok(seq(|rows|, i requires 0 <= i < |rows| => PgTable(rows[i])));
        case MySqlListing(rows) =>
          r := Ok(seq(|rows|, i requires 0 <= i < |rows| => MySqlTable(rows[i])));
      }
    }

    /** `get_table_structure`: the column rows, read according to the pool's engine. */
    method GetTableStructure(id: string, reply: Result<Structure>) returns (r: Result<seq<TableColumn>>)
      requires id in connections && reply.Ok? ==> StructureFrom(reply.value, connections[id].engine)
      ensures id !in connections ==> r == Err(NotFound)
      ensures id in connections && reply.Err? ==> r == Err(reply.msg)
      ensures id in connections && reply.Ok? ==> r == Ok(StructureColumns(reply.value))
      ensures id in connections && r.Ok? && connections[id].engine != SQLite ==> forall k | 0 <= k < |r.value| :: !r.value[k].isPrimaryKey
    {
      if id !in connections {
        return Err(NotFound);
      }
      if reply.Err? {
        return Err(reply.msg);
      }
      r := Ok(StructureColumns(reply.value));
    }

    /** `explain_query` on the stored pool. */
    method ExplainQuery(id: string, query: string, analyze: bool, dbType: Engine,
                        reply: Result<seq<Result<string>>>, parse: string -> Result<Json>,
                        elapsedMs: nat, fmt2: real -> string)
      returns (sent: Option<string>, r: Result<ExecutionPlan>)
      ensures id !in connections ==> sent.None? && r == Err(NotFound)
      ensures id in connections && connections[id].engine != dbType ==> sent.None? && r == Err(Mismatch)
      ensures id in connections && connections[id].engine == dbType ==>
        sent == Some(ExplainStatement(dbType, query, analyze))
      ensures id in connections && connections[id].engine == dbType && reply.Err? ==> r == Err(reply.msg)
      ensures id in connections && connections[id].engine == dbType == SQLite && reply.Ok? ==>
        r.Ok? && |r.value.planSteps| == |reply.value|
      ensures r.Ok? ==>
        r.value.query == query
        && r.value.recommendations == Recommendations(r.value.planSteps, fmt2)
        && r.value.executionTimeMs == (if analyze then Some(elapsedMs as real) else None)
    {
      if id !in connections {
        return None, Err(NotFound);
      }
      sent, r := Plans.ExplainQuery(connections[id].engine, dbType, query, analyze, reply, parse, elapsedMs, fmt2);
    }

    /** `insert_row`: one object, its keys as the column list. */
    method InsertRow(id: string, table: string, data: Json, exec: Result<nat>, jsonText: Json -> string)
      returns (sent: Option<string>, r: Result<string>)
      ensures id !in connections ==> sent.None? && r == Err(NotFound)
      ensures id in connections && !data.JObject? ==> sent.None? && r == Err(NotAnObject)
      ensures id in connections && data.JObject? ==> sent == Some(InsertStatement(table, data.fields, jsonText))
      ensures sent.Some? && exec.Err? ==> r == Err(exec.msg)
      ensures sent.Some? && exec.Ok? ==> r == Ok(Inserted(table))
    {
      if id !in connections {
        return None, Err(NotFound);
      }
      if !data.JObject? {
        return None, Err(NotAnObject);
      }
      sent := Some(InsertStatement(table, data.fields, jsonText));
      if exec.Err? {
        return sent, Err(exec.msg);
      }
      r := Ok(Inserted(table));
    }

    /**
     * `bulk_insert_rows`: an empty list succeeds before the id is even looked
     * up; otherwise the first row's keys are the column list for every row.
     */
    method BulkInsertRows(id: string, table: string, rows: seq<Json>, exec: Result<nat>, jsonText: Json -> string)
      returns (sent: Option<string>, r: Result<string>)
      ensures rows == [] ==> sent.None? && r == Ok(NoRows)
      ensures rows != [] && id !in connections ==> sent.None? && r == Err(NotFound)
      ensures rows != [] && id in connections && (exists i | 0 <= i < |rows| :: !rows[i].JObject?) ==>
        sent.None? && r == Err(RowNotAnObject)
      ensures rows != [] && id in connections && (forall i | 0 <= i < |rows| :: rows[i].JObject?) ==>
        var columns := Keys(rows[0].fields);
        sent == Some(BulkInsertStatement(table, columns,
                       seq(|rows|, i requires 0 <= i < |rows| => ValueGroup(columns, rows[i].fields, jsonText))))
      ensures sent.Some? && exec.Err? ==> r == Err(exec.msg)
      ensures sent.Some? && exec.Ok? ==> r == Ok(BulkInserted(|rows|, table))
    {
      if rows == [] {
        return None, Ok(NoRows);
      }
      if id !in connections {
        return None, Err(NotFound);
      }
      if !rows[0].JObject? {
        return None, Err(RowNotAnObject);
      }
      var columns := Keys(rows[0].fields);
      var lists := BuildValueLists(columns, rows, jsonText);
      if lists.Err? {
        return None, Err(lists.msg);
      }
      assert lists.value == seq(|rows|, i requires 0 <= i < |rows| => ValueGroup(columns, rows[i].fields, jsonText));
      sent := Some(BulkInsertStatement(table, columns, lists.value));
      if exec.Err? {
        return sent, Err(exec.msg);
      }
      r := Ok(BulkInserted(|rows|, table));
    }

    /** `update_row`: one assignment per key of the object, the condition verbatim. */
    method UpdateRow(id: string, table: string, data: Json, whereClause: string, exec: Result<nat>,
                     jsonText: Json -> string)
      returns (sent: Option<string>, r: Result<string>)
      ensures id !in connections ==> sent.None? && r == Err(NotFound)
      ensures id in connections && !data.JObject? ==> sent.None? && r == Err(NotAnObject)
      ensures id in connections && data.JObject? ==>
        sent == Some(UpdateStatement(table, data.fields, whereClause, jsonText))
      ensures sent.Some? && exec.Err? ==> r == Err(exec.msg)
      ensures sent.Some? && exec.Ok? ==> r == Ok(Updated(exec.value))
    {
      if id !in connections {
        return None, Err(NotFound);
      }
      if !data.JObject? {
        return None, Err(NotAnObject);
      }
      sent := Some(UpdateStatement(table, data.fields, whereClause, jsonText));
      if exec.Err? {
        return sent, Err(exec.msg);
      }
      r := Ok(Updated(exec.value));
    }

    /** `delete_rows`. */
    method DeleteRows(id: string, table: string, whereClause: string, exec: Result<nat>)
      returns (sent: Option<string>, r: Result<string>)
      ensures id !in connections ==> sent.None? && r == Err(NotFound)
      ensures id in connections ==> sent == Some(DeleteStatement(table, whereClause))
      ensures sent.Some? && exec.Err? ==> r == Err(exec.msg)
      ensures sent.Some? && exec.Ok? ==> r == Ok(Deleted(exec.value))
    {
      if id !in connections {
        return None, Err(NotFound);
      }
      sent := Some(DeleteStatement(table, whereClause));
      if exec.Err? {
        return sent, Err(exec.msg);
      }
      r := Ok(Deleted(exec.value));
    }

    /** `create_table`: column definitions, then the key entry when some column is a key. */
    method CreateTable(id: string, table: string, columns: seq<ColumnSpec>, exec: Result<nat>)
      returns (sent: Option<string>, r: Result<string>)
      ensures id !in connections ==> sent.None? && r == Err(NotFound)
      ensures id in connections ==>
        sent == Some(CreateTableStatement(table, ColumnDefs(columns), PrimaryKeyNames(columns)))
      ensures sent.Some? && exec.Err? ==> r == Err(exec.msg)
      ensures sent.Some? && exec.Ok? ==> r == Ok(Created(table))
    {
      if id !in connections {
        return None, Err(NotFound);
      }
      var defs, pks := BuildColumnDefs(columns);
      sent := Some(CreateTableStatement(table, defs, pks));
      if exec.Err? {
        return sent, Err(exec.msg);
      }
      r := Ok(Created(table));
    }

    /** `drop_table`. */
    method DropTable(id: string, table: string, exec: Result<nat>)
      returns (sent: Option<string>, r: Result<string>)
      ensures id !in connections ==> sent.None? && r == Err(NotFound)
      ensures id in connections ==> sent == Some(DropTableStatement(table))
      ensures sent.Some? && exec.Err? ==> r == Err(exec.msg)
      ensures sent.Some? && exec.Ok? ==> r == Ok(Dropped(table))
    {
      if id !in connections {
        return None, Err(NotFound);
      }
      sent := Some(DropTableStatement(table));
      if exec.Err? {
        return sent, Err(exec.msg);
      }
      r := Ok(Dropped(table));
    }

    /** `alter_table_add_column`: the statement follows the requested engine. */
    method AddColumn(id: string, table: string, column: string, dataType: string, nullable: bool,
                     dbType: Engine, exec: Result<nat>)
      returns (sent: Option<string>, r: Result<string>)
      ensures id !in connections ==> sent.None? && r == Err(NotFound)
      ensures id in connections ==> sent == Some(AddColumnStatement(dbType, table, column, dataType, nullable))
      ensures sent.Some? && exec.Err? ==> r == Err(exec.msg)
      ensures sent.Some? && exec.Ok? ==> r == Ok(ColumnAdded(column, table))
    {
      if id !in connections {
        return None, Err(NotFound);
      }
      sent := Some(AddColumnStatement(dbType, table, column, dataType, nullable));
      if exec.Err? {
        return sent, Err(exec.msg);
      }
      r := Ok(ColumnAdded(column, table));
    }

    /** `alter_table_drop_column`: refused for SQLite once the id is found, nothing sent. */
    method DropColumn(id: string, table: string, column: string, dbType: Engine, exec: Result<nat>)
      returns (sent: Option<string>, r: Result<string>)
      ensures id !in connections ==> sent.None? && r == Err(NotFound)
      ensures id in connections && dbType == SQLite ==> sent.None? && r == Err(DropColumnUnsupported)
      ensures id in connections && dbType != SQLite ==>
        sent == Some("ALTER TABLE " + table + " DROP COLUMN " + column)
      ensures sent.Some? && exec.Err? ==> r == Err(exec.msg)
      ensures sent.Some? && exec.Ok? ==> r == Ok(ColumnDropped(column, table))
    {
      if id !in connections {
        return None, Err(NotFound);
      }
      var stmt := DropColumnStatement(dbType, table, column);
      if stmt.Err? {
        return None, Err(stmt.msg);
      }
      sent := Some(stmt.value);
      if exec.Err? {
        return sent, Err(exec.msg);
      }
      r := Ok(ColumnDropped(column, table));
    }

    /** `rename_table`. */
    method RenameTable(id: string, oldName: string, newName: string, dbType: Engine, exec: Result<nat>)
      returns (sent: Option<string>, r: Result<string>)
      ensures id !in connections ==> sent.None? && r == Err(NotFound)
      ensures id in connections ==> sent == Some(RenameStatement(dbType, oldName, newName))
      ensures sent.Some? && exec.Err? ==> r == Err(exec.msg)
      ensures sent.Some? && exec.Ok? ==> r == Ok(Renamed(oldName, newName))
    {
      if id !in connections {
        return None, Err(NotFound);
      }
      sent := Some(RenameStatement(dbType, oldName, newName));
      if exec.Err? {
        return sent, Err(exec.msg);
      }
      r := Ok(Renamed(oldName, newName));
    }


    /**
     * `export_table_structure`: the columns (an empty list is an error before
     * the keys are asked for), the primary keys, the indexes, then the script.
     */
    method ExportTableStructure(id: string, table: string, structure: Result<Structure>,
                                keys: Result<KeyRows>, indexes: Result<IndexRows>)
      returns (r: Result<string>)
      requires id in connections ==>
        (structure.Ok? ==> StructureFrom(structure.value, connections[id].engine))
        && (keys.Ok? ==> KeysFrom(keys.value, connections[id].engine))
        && (indexes.Ok? ==> IndexesFrom(indexes.value, connections[id].engine))
      ensures id !in connections ==> r == Err(NotFound)
      ensures id in connections && structure.Err? ==> r == Err(structure.msg)
      ensures id in connections && structure.Ok? && StructureColumns(structure.value) == [] ==> r == Err(NoColumns)
      ensures id in connections && structure.Ok? && StructureColumns(structure.value) != [] && keys.Err? ==>
        r == Err(keys.msg)
      ensures id in connections && structure.Ok? && StructureColumns(structure.value) != [] && keys.Ok? && indexes.Err? ==>
        r == Err(indexes.msg)
      ensures id in connections && structure.Ok? && StructureColumns(structure.value) != [] && keys.Ok? && indexes.Ok? ==>
        (r.Ok? <==> Answered(indexes.value))
      ensures id in connections && structure.Ok? && StructureColumns(structure.value) != [] && keys.Ok? && indexes.Ok?
              && indexes.value.SqliteIndexList? && !Answered(indexes.value) ==>
        exists k :: FirstFailure(indexes.value.list, k) && r == Err(indexes.value.list[k].info.msg)
      ensures r.Ok? ==>
        id in connections && structure.Ok? && keys.Ok? && indexes.Ok? && Answered(indexes.value)
        && r.value == "CREATE TABLE " + table + " (\n"
                      + Join(Entries(StructureColumns(structure.value), KeysOf(keys.value)), ",\n") + "\n" + ");\n"
                      + IndexBlock(IndexStatements(table, indexes.value))
    {
      if id !in connections {
        return Err(NotFound);
      }
      var columns := GetTableStructure(id, structure);
      if columns.Err? {
        return Err(columns.msg);
      }
      if columns.value == [] {
        return Err(NoColumns);
      }
      if keys.Err? {
        return Err(keys.msg);
      }
      var pks := KeysOf(keys.value);
      var ixs := GetIndexes(table, indexes);
      if ixs.Err? {
        return Err(ixs.msg);
      }
      r := ExportScript(table, columns.value, pks, ixs.value);
    }
  }
}
