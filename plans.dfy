/**
 * `explain_query` and its helpers: engine plans normalised into `PlanStep`
 * trees, and the advice derived from them.
 *
 * The `{:.2}` rendering of a cost is the parameter `fmt2`.
 */
module Plans {

  import opened Outcomes
  import opened Text
  import opened Json
  import opened Models

  // ---------------------------------------------------------------------
  // PostgreSQL plans

  /** The position of the first field named `key`. */
  function FieldIndex(fs: seq<Field>, key: string): (r: Option<nat>)
    ensures r.Some? ==> r.value < |fs| && fs[r.value].key == key && Lookup(fs, key) == Some(fs[r.value].value)
    ensures r.None? ==> Lookup(fs, key).None?
  {
    if fs == [] then None
    else if fs[0].key == key then Some(0)
    else match FieldIndex(fs[1..], key)
      case Some(i) => Some(i + 1)
      case None => None
  }

  /** One node of a `FORMAT JSON` plan and, recursively, the nodes under "Plans". */
  function PostgresStep(plan: Json): (step: PlanStep)
    ensures step.stepType == UnwrapOr(GetStr(plan, "Node Type"), "Unknown")
    ensures step.tableName == GetStr(plan, "Relation Name")
    ensures step.rows == GetI64(plan, "Plan Rows")
    ensures step.cost == GetF64(plan, "Total Cost")
    ensures step.filterCondition == GetStr(plan, "Filter")
    ensures step.indexUsed == GetStr(plan, "Index Name")
    ensures |step.children| == match GetArray(plan, "Plans") case Some(items) => |items| case None => 0
    decreases plan
  {
    var children :=
      if !plan.JObject? then []
      else match FieldIndex(plan.fields, "Plans")
        case None => []
        case Some(i) =>
          match plan.fields[i].value
          case JArray(items) => seq(|items|, j requires 0 <= j < |items| => PostgresStep(items[j]))
          case _ => [];
    PlanStep(UnwrapOr(GetStr(plan, "Node Type"), "Unknown"), GetStr(plan, "Relation Name"),
             GetI64(plan, "Plan Rows"), GetF64(plan, "Total Cost"), GetStr(plan, "Filter"),
             GetStr(plan, "Index Name"), children)
  }

  /** `parse_postgres_plan`: exactly one step for the node it is given. */
  function ParsePostgresPlan(plan: Json): (steps: seq<PlanStep>)
    ensures |steps| == 1
    ensures steps[0].stepType == UnwrapOr(GetStr(plan, "Node Type"), "Unknown")
    ensures steps[0].tableName == GetStr(plan, "Relation Name")
    ensures steps[0].rows == GetI64(plan, "Plan Rows")
    ensures steps[0].cost == GetF64(plan, "Total Cost")
    ensures steps[0].filterCondition == GetStr(plan, "Filter")
    ensures steps[0].indexUsed == GetStr(plan, "Index Name")
  {
    [PostgresStep(plan)]
  }

  /** One child per element of "Plans", in order; none when it is absent or not an array. */
  lemma PostgresChildren(plan: Json)
    ensures var step := PostgresStep(plan);
      match GetArray(plan, "Plans")
      case Some(items) =>
        |step.children| == |items| &&
        forall j | 0 <= j < |items| :: step.children[j] == PostgresStep(items[j])
      case None => step.children == []
  {
    if plan.JObject? {
      var r := FieldIndex(plan.fields, "Plans");
    }
  }

  /** The number of plan nodes in a JSON plan tree. */
  function JsonNodes(plan: Json): nat
    decreases plan
  {
    1 + (if !plan.JObject? then 0
         else match FieldIndex(plan.fields, "Plans")
           case None => 0
           case Some(i) =>
             match plan.fields[i].value
             case JArray(items) => SumNodes(plan, items)
             case _ => 0)
  }

  function SumNodes(ghost plan: Json, items: seq<Json>): nat
    requires forall j | 0 <= j < |items| :: items[j] < plan
    decreases plan, |items|
  {
    if items == [] then 0 else SumNodes(plan, items[..|items| - 1]) + JsonNodes(items[|items| - 1])
  }

  /** The number of steps in a step tree. */
  function StepCount(step: PlanStep): nat
  {
    1 + SumSteps(step.children)
  }

  function SumSteps(steps: seq<PlanStep>): nat
  {
    if steps == [] then 0 else SumSteps(steps[..|steps| - 1]) + StepCount(steps[|steps| - 1])
  }

  /** The step tree has exactly one step per node of the JSON plan tree. */
  lemma {:induction false} OneStepPerNode(plan: Json)
    ensures StepCount(PostgresStep(plan)) == JsonNodes(plan)
    decreases plan, 1
  {
    if plan.JObject? {
      match FieldIndex(plan.fields, "Plans")
      case None =>
      case Some(i) =>
        match plan.fields[i].value
        case JArray(items) =>
          var children := PostgresStep(plan).children;
          StepSumsAgree(plan, items, children);
        case _ =>
    }
  }

  lemma {:induction false} StepSumsAgree(plan: Json, items: seq<Json>, children: seq<PlanStep>)
    requires forall j | 0 <= j < |items| :: items[j] < plan
    requires |children| == |items|
    requires forall j | 0 <= j < |items| :: children[j] == PostgresStep(items[j])
    ensures SumSteps(children) == SumNodes(plan, items)
    decreases plan, 0, |items|
  {
    if items != [] {
      var n := |items|;
      StepSumsAgree(plan, items[..n - 1], children[..n - 1]);
      OneStepPerNode(items[n - 1]);
    }
  }

  // ---------------------------------------------------------------------
  // MySQL and SQLite plans

  /** `parse_mysql_plan`: the single table entry of `query_block`, if any. */
  function ParseMySqlPlan(plan: Json): (steps: seq<PlanStep>)
    ensures |steps| <= 1
    ensures |steps| == 1 <==> Get(plan, "query_block").Some? && Get(Get(plan, "query_block").value, "table").Some?
    ensures forall k | 0 <= k < |steps| ::
      steps[k].children == [] && steps[k].cost.None? && steps[k].filterCondition.None?
    ensures |steps| == 1 ==>
      var table := Get(Get(plan, "query_block").value, "table").value;
      steps[0].stepType == UnwrapOr(GetStr(table, "access_type"), "Unknown")
      && steps[0].tableName == GetStr(table, "table_name")
      && steps[0].rows == GetI64(table, "rows_examined_per_scan")
      && steps[0].indexUsed == GetStr(table, "key")
  {
    match Get(plan, "query_block")
    case None => []
    case Some(block) =>
      match Get(block, "table")
      case None => []
      case Some(table) =>
        [PlanStep(UnwrapOr(GetStr(table, "access_type"), "Unknown"), GetStr(table, "table_name"),
                  GetI64(table, "rows_examined_per_scan"), None, None, GetStr(table, "key"), [])]
  }

  /** The step SQLite reports for every `EXPLAIN QUERY PLAN` row. */
  const SqlitePlanStep: PlanStep := PlanStep("SQLite Plan", None, None, None, None, None, [])

  /** The SQLite loop: one empty "SQLite Plan" step per returned row, the row itself unused. */
  method SqliteSteps<R>(rows: seq<R>) returns (steps: seq<PlanStep>)
    ensures |steps| == |rows|
    ensures forall k | 0 <= k < |steps| :: steps[k] == SqlitePlanStep
  {
    steps := [];
    var i := 0;
    while i < |rows|
      invariant 0 <= i <= |rows|
      invariant |steps| == i
      invariant forall k | 0 <= k < i :: steps[k] == SqlitePlanStep
    {
      steps := steps + [SqlitePlanStep];
      i := i + 1;
    }
  }

  // ---------------------------------------------------------------------
  // Recommendations

  const WellOptimized: string := "Query appears to be well optimized"

  function IndexAdvice(table: string): string
  {
    "Consider adding an index to table '" + table + "' to avoid sequential scan"
  }

  function RowsAdvice(rows: int): string
  {
    "High row count (" + IntToString(rows) + ") detected. Consider adding WHERE clause to filter data"
  }

  function CostAdvice(costText: string): string
  {
    "High cost operation detected (cost: " + costText + "). Review query optimization"
  }

  /** A sequential scan of a named table. */
  predicate ScansTable(step: PlanStep)
  {
    (Contains(step.stepType, "Seq Scan") || Contains(step.stepType, "ALL")) && step.tableName.Some?
  }

  /** The message of the sequential-scan rule, if it fires. */
  function ScanAdvice(step: PlanStep): seq<string>
  {
    if ScansTable(step) then [IndexAdvice(step.tableName.value)] else []
  }

  /** More than 10000 estimated rows. */
  predicate ManyRows(step: PlanStep)
  {
    step.rows.Some? && step.rows.value > 10000
  }

  /** An estimated cost above 1000. */
  predicate Costly(step: PlanStep)
  {
    step.cost.Some? && step.cost.value > 1000.0
  }

  /** The message of the row-count rule, if it fires. */
  function RowCountAdvice(step: PlanStep): seq<string>
  {
    if ManyRows(step) then [RowsAdvice(step.rows.value)] else []
  }

  /** The message of the cost rule, if it fires. */
  function HighCostAdvice(step: PlanStep, fmt2: real -> string): seq<string>
  {
    if Costly(step) then [CostAdvice(fmt2(step.cost.value))] else []
  }

  /**
   * The messages a step's own rules push: one per rule that fires, in rule
   * order (scan, row count, cost), and none when no rule fires.
   */
  function OwnAdvice(step: PlanStep, fmt2: real -> string): (msgs: seq<string>)
    ensures |msgs| == (if ScansTable(step) then 1 else 0) + (if ManyRows(step) then 1 else 0)
                      + (if Costly(step) then 1 else 0)
    ensures ScansTable(step) ==> msgs[0] == IndexAdvice(step.tableName.value)
    ensures ManyRows(step) ==> RowsAdvice(step.rows.value) in msgs
    ensures Costly(step) ==> msgs[|msgs| - 1] == CostAdvice(fmt2(step.cost.value))
  {
    var scan, many, costly := ScanAdvice(step), RowCountAdvice(step), HighCostAdvice(step, fmt2);
    assert ManyRows(step) ==> (scan + many + costly)[|scan|] == many[0];
    scan + many + costly
  }

  /** `recs` appended to `acc` one by one, each only if not yet present. */
  function MergeNew(acc: seq<string>, recs: seq<string>): seq<string>
  {
    if recs == [] then acc
    else
      var a := MergeNew(acc, recs[..|recs| - 1]);
      var last := recs[|recs| - 1];
      if last in a then a else a + [last]
  }

  /**
   * Merging keeps `acc` as a prefix, appends only messages `acc` lacks, and
   * loses none of `recs`.
   */
  lemma {:induction false} MergeNewSpec(acc: seq<string>, recs: seq<string>)
    ensures |MergeNew(acc, recs)| >= |acc| && MergeNew(acc, recs)[..|acc|] == acc
    ensures forall k | |acc| <= k < |MergeNew(acc, recs)| :: MergeNew(acc, recs)[k] !in acc
    ensures forall x | x in recs :: x in MergeNew(acc, recs)
    ensures forall x | x in MergeNew(acc, recs) :: x in acc || x in recs
  {
    if recs != [] {
      var init := recs[..|recs| - 1];
      MergeNewSpec(acc, init);
      assert recs == init + [recs[|recs| - 1]];
      var a := MergeNew(acc, init);
      var r := MergeNew(acc, recs);
      assert r == a || r == a + [recs[|recs| - 1]];
      assert r[..|a|] == a;
      assert r[..|acc|] == a[..|acc|];
    }
  }

  /** The rule set of `generate_recommendations`, as a function of a step. */
  function Rules(fmt2: real -> string): PlanStep -> seq<string>
  {
    step => OwnAdvice(step, fmt2)
  }

  /**
   * The messages gathered from the first `k` sibling steps: each step's own
   * messages, then its subtree's messages that are not yet present.
   */
  function Collect(steps: seq<PlanStep>, k: nat, own: PlanStep -> seq<string>): seq<string>
    requires k <= |steps|
    decreases steps, 0, k
  {
    if k == 0 then []
    else
      var step := steps[k - 1];
      MergeNew(Collect(steps, k - 1, own) + own(step), Gather(step.children, own))
  }

  /** The traversal of `generate_recommendations` over any rule set `own`. */
  function Gather(steps: seq<PlanStep>, own: PlanStep -> seq<string>): (r: seq<string>)
    ensures r != []
    ensures steps == [] ==> r == [WellOptimized]
    decreases steps, 1
  {
    var acc := Collect(steps, |steps|, own);
    if acc == [] then [WellOptimized] else acc
  }

  /** What `generate_recommendations` returns for a list of sibling steps. */
  function Recommendations(steps: seq<PlanStep>, fmt2: real -> string): seq<string>
  {
    Gather(steps, Rules(fmt2))
  }

  /**
   * `generate_recommendations`: own rules pushed as they fire, the subtree's
   * messages appended when new, the fallback message when nothing was pushed.
   */
  method GenerateRecommendations(steps: seq<PlanStep>, fmt2: real -> string) returns (recs: seq<string>)
    ensures recs == Recommendations(steps, fmt2)
    decreases steps
  {
    ghost var own := Rules(fmt2);
    recs := [];
    var i := 0;
    while i < |steps|
      invariant 0 <= i <= |steps|
      invariant recs == Collect(steps, i, own)
    {
      var step := steps[i];
      ghost var before := recs;
      recs := recs + OwnAdvice(step, fmt2);
      assert own(step) == OwnAdvice(step, fmt2);
      ghost var base := recs;
      assert base == before + own(step);
      var childRecs := GenerateRecommendations(step.children, fmt2);
      recs := AppendNew(recs, childRecs);
      CollectStep(steps, i, own);
      i := i + 1;
    }
    if recs == [] {
      recs := [WellOptimized];
    }
  }

  /** The inner loop: each subtree message appended unless already present. */
  method AppendNew(acc: seq<string>, childRecs: seq<string>) returns (recs: seq<string>)
    ensures recs == MergeNew(acc, childRecs)
  {
    recs := acc;
    var j := 0;
    while j < |childRecs|
      invariant 0 <= j <= |childRecs|
      invariant recs == MergeNew(acc, childRecs[..j])
    {
      MergeNewStep(acc, childRecs, j);
      if childRecs[j] !in recs {
        recs := recs + [childRecs[j]];
      }
      j := j + 1;
    }
    assert childRecs[..j] == childRecs;
  }

  lemma MergeNewStep(acc: seq<string>, recs: seq<string>, j: nat)
    requires j < |recs|
    ensures MergeNew(acc, recs[..j + 1]) ==
      var a := MergeNew(acc, recs[..j]); if recs[j] in a then a else a + [recs[j]]
  {
    assert recs[..j + 1][..j] == recs[..j];
  }

  lemma CollectStep(steps: seq<PlanStep>, i: nat, own: PlanStep -> seq<string>)
    requires i < |steps|
    ensures Collect(steps, i + 1, own) == MergeNew(Collect(steps, i, own) + own(steps[i]), Gather(steps[i].children, own))
  {
  }

  /** Gathering more siblings only appends messages. */
  lemma {:induction false} CollectGrows(steps: seq<PlanStep>, k: nat, m: nat, own: PlanStep -> seq<string>)
    requires k <= m <= |steps|
    ensures |Collect(steps, k, own)| <= |Collect(steps, m, own)|
    ensures Collect(steps, m, own)[..|Collect(steps, k, own)|] == Collect(steps, k, own)
    decreases m
  {
    if k < m {
      CollectGrows(steps, k, m - 1, own);
      var a := Collect(steps, m - 1, own);
      var b := a + own(steps[m - 1]);
      MergeNewSpec(b, Gather(steps[m - 1].children, own));
      var c := Collect(steps, m, own);
      var p := |Collect(steps, k, own)|;
      assert c[..p] == b[..p] == a[..p];
    }
  }

  /** Every message of step `k`'s own rules and of its subtree reaches the result. */
  lemma StepMessagesKept(steps: seq<PlanStep>, k: nat, own: PlanStep -> seq<string>)
    requires k < |steps|
    ensures forall x | x in own(steps[k]) :: x in Gather(steps, own)
    ensures forall x | x in Gather(steps[k].children, own) :: x in Gather(steps, own)
  {
    var a := Collect(steps, k, own) + own(steps[k]);
    var c := Collect(steps, k + 1, own);
    var g := Gather(steps[k].children, own);
    var all := Collect(steps, |steps|, own);
    CollectStep(steps, k, own);
    MergeNewSpec(a, g);
    PrefixMembers(a, c);
    CollectGrows(steps, k + 1, |steps|, own);
    PrefixMembers(c, all);
    assert g[0] in all;
    assert all == Gather(steps, own);
    forall x | x in own(steps[k]) ensures x in all {
      assert x in a;
    }
    forall x | x in g ensures x in all {
      assert x in c;
    }
  }

  /** A sequence's elements are elements of any extension of it. */
  lemma PrefixMembers(c: seq<string>, all: seq<string>)
    requires |c| <= |all| && all[..|c|] == c
    ensures forall x | x in c :: x in all
  {
    forall x | x in c ensures x in all {
      var j :| 0 <= j < |c| && c[j] == x;
      assert all[..|c|][j] == x;
    }
  }

  /** Every message of a step's own rules, and of its subtree, is recommended. */
  lemma StepAdviceKept(steps: seq<PlanStep>, k: nat, fmt2: real -> string)
    requires k < |steps|
    ensures forall x | x in OwnAdvice(steps[k], fmt2) :: x in Recommendations(steps, fmt2)
    ensures forall x | x in Recommendations(steps[k].children, fmt2) :: x in Recommendations(steps, fmt2)
  {
    StepMessagesKept(steps, k, Rules(fmt2));
    assert Rules(fmt2)(steps[k]) == OwnAdvice(steps[k], fmt2);
  }

  /**
   * As written, every result holds the fallback message: the recursive call
   * on a leaf's empty child list returns it, and it is then appended.
   */
  lemma {:induction false} AlwaysWellOptimized(steps: seq<PlanStep>, fmt2: real -> string)
    ensures WellOptimized in Recommendations(steps, fmt2)
    decreases steps
  {
    if steps != [] {
      AlwaysWellOptimized(steps[0].children, fmt2);
      StepMessagesKept(steps, 0, Rules(fmt2));
    }
  }

  /**
   * Own-rule messages are not de-duplicated: two sequential scans of the same
   * table report the index advice twice, around the fallback message.
   */
  lemma OwnAdviceRepeats(fmt2: real -> string)
    ensures var scan := PlanStep("Seq Scan", Some("t"), None, None, None, None, []);
      Recommendations([scan, scan], fmt2) == [IndexAdvice("t"), WellOptimized, IndexAdvice("t")]
  {
    var scan := PlanStep("Seq Scan", Some("t"), None, None, None, None, []);
    var own := Rules(fmt2);
    var ix := IndexAdvice("t");
    assert OccursAt(scan.stepType, "Seq Scan", 0);
    assert own(scan) == [ix];
    assert ix != WellOptimized by {
      assert ix[0] != WellOptimized[0];
    }
    var steps := [scan, scan];
    CollectStep(steps, 0, own);
    assert Collect(steps, 0, own) + own(steps[0]) == [ix];
    assert MergeNew([ix], [WellOptimized]) == [ix, WellOptimized] by {
      assert [WellOptimized][..0] == [];
    }
    CollectStep(steps, 1, own);
    assert Collect(steps, 1, own) + own(steps[1]) == [ix, WellOptimized, ix];
    assert MergeNew([ix, WellOptimized, ix], [WellOptimized]) == [ix, WellOptimized, ix] by {
      assert [WellOptimized][..0] == [];
    }
  }

  // ---------------------------------------------------------------------
  // explain_query

  const Mismatch: string := "Database type mismatch"
  const NoPlanReturned: string := "No execution plan returned"
  const InvalidPlanFormat: string := "Invalid plan format"
  const NoPlanField: string := "No Plan field found"

  /** What follows `EXPLAIN ` for each engine; only PostgreSQL distinguishes `analyze`. */
  function ExplainOptions(engine: Engine, analyze: bool): string
  {
    match engine
    case PostgreSQL => if analyze then "(FORMAT JSON, ANALYZE true, BUFFERS true) " else "(FORMAT JSON) "
    case MySQL => "FORMAT=JSON "
    case SQLite => "QUERY PLAN "
  }

  /** The statement sent for `query`. */
  function ExplainStatement(engine: Engine, query: string, analyze: bool): string
  {
    "EXPLAIN " + ExplainOptions(engine, analyze) + query
  }

  /** Every explain statement is an `EXPLAIN` prefix followed by the query unchanged. */
  lemma ExplainStatementShape(engine: Engine, query: string, analyze: bool)
    ensures var s := ExplainStatement(engine, query, analyze);
      |s| > |query| + 8 && s[..8] == "EXPLAIN " && s[|s| - |query|..] == query
    ensures engine != PostgreSQL ==> ExplainStatement(engine, query, true) == ExplainStatement(engine, query, false)
    ensures ExplainStatement(PostgreSQL, query, true) != ExplainStatement(PostgreSQL, query, false)
  {
    var s := ExplainStatement(engine, query, analyze);
    var options := ExplainOptions(engine, analyze);
    assert |options| > 0;
    assert s == "EXPLAIN " + (options + query);
    assert |ExplainStatement(PostgreSQL, query, true)| != |ExplainStatement(PostgreSQL, query, false)|;
  }

  /**
   * The JSON document in the first returned row: none without rows, the
   * column read's error, or the parser's verdict on its text.
   */
  function FirstDocument(rows: seq<Result<string>>, parse: string -> Result<Json>): (r: Result<Json>)
    ensures rows == [] ==> r == Err(NoPlanReturned)
    ensures rows != [] && rows[0].Err? ==> r == Err(rows[0].msg)
    ensures rows != [] && rows[0].Ok? ==> r == parse(rows[0].value)
  {
    if rows == [] then Err(NoPlanReturned)
    else match rows[0]
      case Err(m) => Err(m)
      case Ok(text) => parse(text)
  }

  /**
   * A PostgreSQL plan document: an array whose first element holds the root
   * node under "Plan". The total cost is the root node's own "Total Cost".
   */
  function PostgresDocument(doc: Json): (r: Result<(seq<PlanStep>, Option<real>)>)
    ensures !doc.JArray? ==> r == Err(InvalidPlanFormat)
    ensures doc == JArray([]) ==> r == Ok(([], None))
    ensures doc.JArray? && doc.items != [] ==>
      (Get(doc.items[0], "Plan").None? <==> r == Err(NoPlanField))
    ensures doc.JArray? && doc.items != [] && Get(doc.items[0], "Plan").Some? ==>
      r.Ok? && r.value.0 == ParsePostgresPlan(Get(doc.items[0], "Plan").value)
    ensures r.Ok? ==> |r.value.0| <= 1 && (r.value.0 == [] <==> r.value.1.None? && doc == JArray([]))
    ensures r.Ok? && r.value.0 != [] ==> r.value.1 == r.value.0[0].cost
  {
    if !doc.JArray? then Err(InvalidPlanFormat)
    else if doc.items == [] then Ok(([], None))
    else match Get(doc.items[0], "Plan")
      case None => Err(NoPlanField)
      case Some(plan) => Ok((ParsePostgresPlan(plan), GetF64(plan, "Total Cost")))
  }

  /**
   * `explain_query` once the connection is found: `pool` is the engine of
   * the stored pool, `dbType` the one the caller names; `reply` stands for
   * the driver's answer (each row's first column read as text), `parse` for
   * `serde_json::from_str` and `elapsedMs` for the whole milliseconds
   * measured since the start.
   */
  method ExplainQuery(pool: Engine, dbType: Engine, query: string, analyze: bool,
                      reply: Result<seq<Result<string>>>, parse: string -> Result<Json>,
                      elapsedMs: nat, fmt2: real -> string)
    returns (sent: Option<string>, r: Result<ExecutionPlan>)
    ensures pool != dbType ==> sent.None? && r == Err(Mismatch)
    ensures pool == dbType ==> sent == Some(ExplainStatement(dbType, query, analyze))
    ensures pool == dbType && reply.Err? ==> r == Err(reply.msg)
    ensures pool == dbType == SQLite && reply.Ok? ==>
      r.Ok? && |r.value.planSteps| == |reply.value| && r.value.totalCost.None?
      && (forall k | 0 <= k < |reply.value| :: r.value.planSteps[k] == SqlitePlanStep)
    ensures pool == dbType != SQLite && reply.Ok? && FirstDocument(reply.value, parse).Err? ==>
      r == Err(FirstDocument(reply.value, parse).msg)
    ensures pool == dbType == MySQL && reply.Ok? && FirstDocument(reply.value, parse).Ok? ==>
      r.Ok? && r.value.planSteps == ParseMySqlPlan(FirstDocument(reply.value, parse).value)
      && r.value.totalCost.None?
    ensures pool == dbType == PostgreSQL && reply.Ok? && FirstDocument(reply.value, parse).Ok? ==>
      var d := PostgresDocument(FirstDocument(reply.value, parse).value);
      (d.Err? ==> r == Err(d.msg)) && (d.Ok? ==> r.Ok? && r.value.planSteps == d.value.0 && r.value.totalCost == d.value.1)
    ensures r.Ok? ==>
      r.value.query == query
      && r.value.recommendations == Recommendations(r.value.planSteps, fmt2)
      && r.value.executionTimeMs == (if analyze then Some(elapsedMs as real) else None)
  {
    if pool != dbType {
      return None, Err(Mismatch);
    }
    sent := Some(ExplainStatement(dbType, query, analyze));
    if reply.Err? {
      return sent, Err(reply.msg);
    }
    var rows := reply.value;
    var steps: seq<PlanStep>;
    var totalCost: Option<real>;
    match dbType {
      case PostgreSQL =>
        var doc := FirstDocument(rows, parse);
        if doc.Err? {
          return sent, Err(doc.msg);
        }
        var d := PostgresDocument(doc.value);
        if d.Err? {
          return sent, Err(d.msg);
        }
        steps, totalCost := d.value.0, d.value.1;
      case MySQL =>
        var doc := FirstDocument(rows, parse);
        if doc.Err? {
          return sent, Err(doc.msg);
        }
        steps, totalCost := ParseMySqlPlan(doc.value), None;
      case SQLite =>
        steps := SqliteSteps(rows);
        totalCost := None;
    }
    var executionTime := if analyze then Some(elapsedMs as real) else None;
    var recommendations := GenerateRecommendations(steps, fmt2);
    r := Ok(ExecutionPlan(query, steps, totalCost, executionTime, recommendations));
  }
}
