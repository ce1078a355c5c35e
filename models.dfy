/**
 * The records that cross the boundary of the database core: the connection
 * descriptor, the engine tag, introspected columns and tables, query
 * results and execution plans.
 */
module Models {

  import opened Outcomes
  import opened Json

  /** `DatabaseType`: the three supported engines. */
  datatype Engine = SQLite | PostgreSQL | MySQL

  /** A TCP port (`u16`). */
  type Port = p: int | 0 <= p < 0x1_0000

  /** `ConnectionConfig`. */
  datatype ConnectionConfig = ConnectionConfig(
    id: string,
    name: string,
    dbType: Engine,
    host: Option<string>,
    port: Option<Port>,
    username: Option<string>,
    password: Option<string>,
    database: Option<string>,
    filePath: Option<string>)

  /** `TableColumn`: one introspected column. */
  datatype TableColumn = TableColumn(
    name: string,
    dataType: string,
    isNullable: bool,
    defaultValue: Option<string>,
    isPrimaryKey: bool)

  /** `DatabaseTable`: one entry of a table listing. */
  datatype DatabaseTable = DatabaseTable(
    name: string,
    schema: Option<string>,
    rowCount: Option<int>,
    sizeKb: Option<int>,
    tableType: Option<string>)

  /** `QueryResult`: column names, one JSON object per row, affected count. */
  datatype QueryResult = QueryResult(columns: seq<string>, rows: seq<Json>, rowsAffected: nat)

  /** `PlanStep`: one node of a normalised execution-plan tree. */
  datatype PlanStep = PlanStep(
    stepType: string,
    tableName: Option<string>,
    rows: Option<int>,
    cost: Option<real>,
    filterCondition: Option<string>,
    indexUsed: Option<string>,
    children: seq<PlanStep>)

  /** `ExecutionPlan`. */
  datatype ExecutionPlan = ExecutionPlan(
    query: string,
    planSteps: seq<PlanStep>,
    totalCost: Option<real>,
    executionTimeMs: Option<real>,
    recommendations: seq<string>)

  /** `ConnectionTestResult`. */
  datatype ConnectionTestResult = ConnectionTestResult(
    success: bool,
    latencyMs: nat,
    dbVersion: string,
    error: Option<string>)
}
