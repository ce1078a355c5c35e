/**
 * `export_table_structure` and its helpers `get_primary_keys` and
 * `get_indexes`: a `CREATE TABLE` script rebuilt from introspection rows.
 */
module Export {

  import opened Outcomes
  import opened Text
  import opened Models
  import opened SqlBuilders
  import opened Catalog

  // ---------------------------------------------------------------------
  // Primary keys

  /** SQLite: the names of the `PRAGMA table_info` rows whose `pk` reads positive, in order. */
  function PragmaPrimaryKeys(rows: seq<TableInfoRow>): (keys: seq<string>)
    ensures |keys| <= |rows|
    ensures forall x :: x in keys <==>
      exists k | 0 <= k < |rows| :: UnwrapOr(rows[k].pk, 0) > 0 && UnwrapOr(rows[k].name, "") == x
  {
    if rows == [] then []
    else
      var last := rows[|rows| - 1];
      PragmaPrimaryKeys(rows[..|rows| - 1])
        + (if UnwrapOr(last.pk, 0) > 0 then [UnwrapOr(last.name, "")] else [])
  }

  /** The names of the columns flagged as keys, in order. */
  function FlaggedKeys(cs: seq<TableColumn>): seq<string>
  {
    if cs == [] then []
    else
      var last := cs[|cs| - 1];
      FlaggedKeys(cs[..|cs| - 1]) + (if last.isPrimaryKey then [last.name] else [])
  }

  /**
   * On SQLite the exported key list names exactly the columns the structure
   * query flags as keys, in the same order.
   */
  lemma {:induction false} PragmaKeysAgree(rows: seq<TableInfoRow>)
    ensures PragmaPrimaryKeys(rows) == FlaggedKeys(SqliteColumns(rows))
  {
    if rows != [] {
      var init := rows[..|rows| - 1];
      PragmaKeysAgree(init);
      assert SqliteColumns(rows)[..|rows| - 1] == SqliteColumns(init);
    }
  }

  /** One column read from each row (PostgreSQL and MySQL), empty where the read fails. */
  function ReadOrEmpty(rows: seq<Option<string>>): (names: seq<string>)
    ensures |names| == |rows|
    ensures forall i | 0 <= i < |rows| :: names[i] == UnwrapOr(rows[i], "")
  {
    seq(|rows|, i requires 0 <= i < |rows| => UnwrapOr(rows[i], ""))
  }

  // ---------------------------------------------------------------------
  // SQLite indexes

  /**
   * A row of `PRAGMA index_list` (name, unique flag) with the reply of the
   * `PRAGMA index_info` query issued for it: the column names, or the
   * query's error.
   */
  datatype IndexListRow = IndexListRow(name: Option<string>, unique: Option<int>,
                                       info: Result<seq<Option<string>>>)

  /** `CREATE [UNIQUE ]INDEX name ON table (c1, c2)`. */
  function SqliteIndexSql(table: string, name: string, unique: int, cols: seq<string>): string
  {
    "CREATE " + ((if unique == 1 then "UNIQUE " else "")
      + ("INDEX " + (name + " ON " + table + " (" + Join(cols, ", ") + ")")))
  }

  /** The statement says `UNIQUE` exactly when the flag reads 1. */
  lemma SqliteIndexUnique(table: string, name: string, unique: int, cols: seq<string>)
    ensures var s := SqliteIndexSql(table, name, unique, cols);
      |s| >= 14 && (s[..14] == "CREATE UNIQUE " <==> unique == 1)
  {
    var s := SqliteIndexSql(table, name, unique, cols);
    assert s[7] == if unique == 1 then 'U' else 'I';
    assert unique == 1 ==> s[..14] == "CREATE UNIQUE ";
  }

  /** The statement one index-list row contributes: none when it has no columns. */
  function IndexOf(table: string, row: IndexListRow): Option<string>
    requires row.info.Ok?
  {
    var cols := ReadOrEmpty(row.info.value);
    if cols == [] then None
    else Some(SqliteIndexSql(table, UnwrapOr(row.name, ""), UnwrapOr(row.unique, 0), cols))
  }

  /** The statements of all rows, in order, skipping those without columns. */
  function SqliteIndexSqls(table: string, rows: seq<IndexListRow>): seq<string>
    requires forall i | 0 <= i < |rows| :: rows[i].info.Ok?
  {
    if rows == [] then []
    else
      var last := rows[|rows| - 1];
      SqliteIndexSqls(table, rows[..|rows| - 1])
        + (match IndexOf(table, last) case Some(s) => [s] case None => [])
  }

  /** Row `row` contributes statement `s`. */
  predicate Contributes(table: string, row: IndexListRow, s: string)
  {
    row.info.Ok? && IndexOf(table, row) == Some(s)
  }

  /** Only indexes with columns appear, and each of them does. */
  lemma {:induction false} SqliteIndexSqlsSpec(table: string, rows: seq<IndexListRow>, s: string)
    requires forall i | 0 <= i < |rows| :: rows[i].info.Ok?
    ensures s in SqliteIndexSqls(table, rows) <==>
      exists i | 0 <= i < |rows| :: Contributes(table, rows[i], s)
  {
    if rows != [] {
      var init := rows[..|rows| - 1];
      var last := rows[|rows| - 1];
      SqliteIndexSqlsSpec(table, init, s);
      var tail := match IndexOf(table, last) case Some(t) => [t] case None => [];
      assert SqliteIndexSqls(table, rows) == SqliteIndexSqls(table, init) + tail;
      if s in SqliteIndexSqls(table, init) {
        var i :| 0 <= i < |init| && Contributes(table, init[i], s);
        assert rows[i] == init[i];
      } else if s in tail {
        assert Contributes(table, rows[|rows| - 1], s);
      }
      if exists i | 0 <= i < |rows| :: Contributes(table, rows[i], s) {
        var i :| 0 <= i < |rows| && Contributes(table, rows[i], s);
        if i < |init| {
          assert Contributes(table, init[i], s);
        } else {
          assert s in tail;
        }
      }
    }
  }

  /** Row `k` is the first whose `index_info` query failed. */
  predicate FirstFailure(rows: seq<IndexListRow>, k: int)
  {
    0 <= k < |rows| && rows[k].info.Err? && forall j | 0 <= j < k :: rows[j].info.Ok?
  }

  /** The SQLite loop of `get_indexes`: the first failed `index_info` query aborts it. */
  method SqliteIndexes(table: string, rows: seq<IndexListRow>) returns (r: Result<seq<string>>)
    ensures r.Err? <==> exists k | 0 <= k < |rows| :: rows[k].info.Err?
    ensures r.Err? ==> exists k :: FirstFailure(rows, k) && r.msg == rows[k].info.msg
    ensures r.Ok? ==> r.value == SqliteIndexSqls(table, rows)
  {
    var sqls: seq<string> := [];
    var i := 0;
    while i < |rows|
      invariant 0 <= i <= |rows|
      invariant forall j | 0 <= j < i :: rows[j].info.Ok?
      invariant sqls == SqliteIndexSqls(table, rows[..i])
    {
      var row := rows[i];
      if row.info.Err? {
        assert FirstFailure(rows, i);
        return Err(row.info.msg);
      }
      var cols := ReadOrEmpty(row.info.value);
      if cols != [] {
        sqls := sqls + [SqliteIndexSql(table, UnwrapOr(row.name, ""), UnwrapOr(row.unique, 0), cols)];
      }
      assert rows[..i + 1][..i] == rows[..i];
      i := i + 1;
    }
    assert rows[..i] == rows;
    r := Ok(sqls);
  }

  // ---------------------------------------------------------------------
  // MySQL indexes

  /** A row of the `information_schema.STATISTICS` query: index name, column name. */
  datatype StatisticsRow = StatisticsRow(index: Option<string>, column: Option<string>)

  /** The column names listed for index `ix`, in row order. */
  function ColumnsOf(rows: seq<StatisticsRow>, ix: string): seq<string>
  {
    if rows == [] then []
    else
      var last := rows[|rows| - 1];
      ColumnsOf(rows[..|rows| - 1], ix)
        + (if UnwrapOr(last.index, "") == ix then [UnwrapOr(last.column, "")] else [])
  }

  /** The index names mentioned by the rows. */
  function IndexNames(rows: seq<StatisticsRow>): set<string>
  {
    set i | 0 <= i < |rows| :: UnwrapOr(rows[i].index, "")
  }

  /** An index is listed exactly when some row names it. */
  lemma {:induction false} ColumnsOfEmpty(rows: seq<StatisticsRow>, ix: string)
    ensures ColumnsOf(rows, ix) != [] <==> ix in IndexNames(rows)
  {
    if rows != [] {
      var init := rows[..|rows| - 1];
      ColumnsOfEmpty(init, ix);
      if ix in IndexNames(init) {
        var i :| 0 <= i < |init| && UnwrapOr(init[i].index, "") == ix;
        assert rows[i] == init[i];
      }
      if ix in IndexNames(rows) && UnwrapOr(rows[|rows| - 1].index, "") != ix {
        var i :| 0 <= i < |rows| && UnwrapOr(rows[i].index, "") == ix;
        assert init[i] == rows[i];
      }
    }
  }

  /** The grouping loop of the MySQL branch: columns collected per index name. */
  method GroupIndexColumns(rows: seq<StatisticsRow>) returns (groups: map<string, seq<string>>)
    ensures groups.Keys == IndexNames(rows)
    ensures forall ix | ix in groups :: groups[ix] == ColumnsOf(rows, ix)
  {
    groups := map[];
    var i := 0;
    while i < |rows|
      invariant 0 <= i <= |rows|
      invariant groups.Keys == IndexNames(rows[..i])
      invariant forall ix | ix in groups :: groups[ix] == ColumnsOf(rows[..i], ix)
    {
      var name := UnwrapOr(rows[i].index, "");
      var column := UnwrapOr(rows[i].column, "");
      var prefix := rows[..i + 1];
      assert prefix[..i] == rows[..i];
      assert IndexNames(prefix) == IndexNames(rows[..i]) + {name} by {
        forall x | x in IndexNames(prefix) ensures x in IndexNames(rows[..i]) + {name} {
          var j :| 0 <= j < |prefix| && UnwrapOr(prefix[j].index, "") == x;
          if j < i { assert rows[..i][j] == prefix[j]; }
        }
        forall x | x in IndexNames(rows[..i]) ensures x in IndexNames(prefix) {
          var j :| 0 <= j < i && UnwrapOr(rows[..i][j].index, "") == x;
          assert prefix[j] == rows[..i][j];
        }
        assert UnwrapOr(prefix[i].index, "") == name;
      }
      if name !in groups {
        ColumnsOfEmpty(rows[..i], name);
        groups := groups[name := [column]];
      } else {
        groups := groups[name := groups[name] + [column]];
      }
      i := i + 1;
    }
    assert rows[..i] == rows;
  }

  /** `index_names` enumerates the keys of `groups` once each: the map's iteration order. */
  predicate EnumeratesKeys(order: seq<string>, groups: map<string, seq<string>>)
  {
    (forall i, j | 0 <= i < j < |order| :: order[i] != order[j])
    && groups.Keys == set ix | ix in order
  }

  /** One `CREATE INDEX` per group, in the given iteration order (never `UNIQUE`). */
  function MySqlIndexSqls(table: string, groups: map<string, seq<string>>, order: seq<string>): (sqls: seq<string>)
    requires EnumeratesKeys(order, groups)
    ensures |sqls| == |order|
    ensures forall i | 0 <= i < |order| ::
      sqls[i] == "CREATE INDEX " + order[i] + " ON " + table + " (" + Join(groups[order[i]], ", ") + ")"
  {
    seq(|order|, i requires 0 <= i < |order| =>
      "CREATE INDEX " + order[i] + " ON " + table + " (" + Join(groups[order[i]], ", ") + ")")
  }

  // ---------------------------------------------------------------------
  // The script

  /**
   * A column's declaration: the definition `create_table` would write for the
   * same column, followed by its default when that is non-empty.
   */
  function ColumnDecl(col: TableColumn): (decl: string)
    ensures var def := ColumnDef(ColumnSpec(col.name, col.dataType, col.isNullable, col.isPrimaryKey));
      decl == if col.defaultValue.Some? && col.defaultValue.value != "" then def + " DEFAULT " + col.defaultValue.value
              else def
  {
    var base := col.name + " " + col.dataType + (if !col.isNullable then " NOT NULL" else "");
    match col.defaultValue
    case Some(dflt) => if dflt != "" then base + " DEFAULT " + dflt else base
    case None => base
  }

  /** One indented declaration per column. */
  function Decls(columns: seq<TableColumn>): (ds: seq<string>)
    ensures |ds| == |columns|
  {
    if columns == [] then []
    else Decls(columns[..|columns| - 1]) + ["  " + ColumnDecl(columns[|columns| - 1])]
  }

  /** The entries between the parentheses: one per column, then the key entry if any. */
  function Entries(columns: seq<TableColumn>, pks: seq<string>): (es: seq<string>)
  {
    Decls(columns) + KeyLines(pks)
  }

  function KeyLines(pks: seq<string>): seq<string>
  {
    if pks == [] then [] else ["  " + KeyEntry(pks)]
  }

  /** `\n` then `index;` for each index statement. */
  function IndexBlock(indexes: seq<string>): string
  {
    if indexes == [] then ""
    else IndexBlock(indexes[..|indexes| - 1]) + ("\n" + indexes[|indexes| - 1] + ";")
  }

  lemma Assoc(a: string, b: string, c: string)
    ensures a + b + c == a + (b + c)
  {
  }

  lemma Assoc3(a: string, b: string, c: string, d: string)
    ensures a + b + c + d == a + (b + c + d)
  {
  }

  lemma KeyLine(pks: seq<string>)
    ensures "  PRIMARY KEY (" + Join(pks, ", ") + ")\n" == ("  " + KeyEntry(pks)) + "\n"
  {
  }

  lemma IndexBlockStep(indexes: seq<string>, k: nat)
    requires k < |indexes|
    ensures IndexBlock(indexes[..k + 1]) == IndexBlock(indexes[..k]) + ("\n" + indexes[k] + ";")
  {
    assert indexes[..k + 1][..k] == indexes[..k];
  }

  /** What follows a column line: a comma unless nothing comes after it, then a line break. */
  function LineEnd(more: bool): string
  {
    if more then ",\n" else "\n"
  }

  /** The first `k` of `lines`, each followed by its `LineEnd`. */
  function Terminated(lines: seq<string>, k: nat, trailing: bool): string
    requires k <= |lines|
  {
    if k == 0 then ""
    else Terminated(lines, k - 1, trailing) + (lines[k - 1] + LineEnd(k < |lines| || trailing))
  }

  /** The comma rule amounts to joining with `,` and a line break. */
  lemma {:induction false} TerminatedJoin(lines: seq<string>, k: nat, trailing: bool)
    requires 0 < k <= |lines|
    ensures Terminated(lines, k, trailing) ==
      Join(lines[..k], ",\n") + LineEnd(k < |lines| || trailing)
  {
    if k == 1 {
      assert lines[..1] == [lines[0]];
    } else {
      TerminatedJoin(lines, k - 1, trailing);
      JoinPrefix(lines, k - 1, ",\n");
      Assoc(Join(lines[..k - 1], ",\n") + ",\n", lines[k - 1], LineEnd(k < |lines| || trailing));
    }
  }

  /**
   * The column loop of `export_table_structure`: each declaration pushed,
   * then a comma unless it is the last one and no key line follows, then a
   * line break.
   */
  method AppendColumnLines(sql0: string, decls: seq<string>, hasPk: bool) returns (sql: string)
    ensures sql == sql0 + Terminated(decls, |decls|, hasPk)
  {
    var n := |decls|;
    sql := sql0;
    var i := 0;
    while i < n
      invariant 0 <= i <= n
      invariant sql == sql0 + Terminated(decls, i, hasPk)
    {
      var line := decls[i];
      ghost var done := Terminated(decls, i, hasPk);
      var more := i < n - 1 || hasPk;
      sql := sql + line;
      if more {
        sql := sql + ",";
      }
      sql := sql + "\n";
      assert sql == sql0 + Terminated(decls, i + 1, hasPk) by {
        LineStep(sql0, done, line, more);
      }
      i := i + 1;
    }
  }

  /** The terminated column lines and the optional key line are the joined entries. */
  lemma EntriesText(header: string, columns: seq<TableColumn>, pks: seq<string>)
    requires columns != []
    ensures var body := header + Terminated(Decls(columns), |columns|, pks != []);
      (if pks != [] then body + ("  PRIMARY KEY (" + Join(pks, ", ") + ")\n") else body)
        == header + Join(Entries(columns, pks), ",\n") + "\n"
  {
    var lines := Decls(columns);
    if pks != [] {
      var key := "  " + KeyEntry(pks);
      assert Entries(columns, pks) == lines + [key];
      KeyLine(pks);
      TerminatedWithKey(header, lines, key);
    } else {
      assert Entries(columns, pks) == lines + [];
      TerminatedAlone(header, lines);
    }
  }

  lemma TerminatedAlone(header: string, lines: seq<string>)
    requires lines != []
    ensures header + Terminated(lines, |lines|, false) == header + Join(lines + [], ",\n") + "\n"
  {
    var joined := Join(lines, ",\n");
    TerminatedJoin(lines, |lines|, false);
    assert lines[..|lines|] == lines == lines + [];
    assert Terminated(lines, |lines|, false) == joined + "\n";
    Assoc(header, joined, "\n");
  }

  lemma TerminatedWithKey(header: string, lines: seq<string>, key: string)
    requires lines != []
    ensures header + Terminated(lines, |lines|, true) + (key + "\n") == header + Join(lines + [key], ",\n") + "\n"
  {
    var joined := Join(lines, ",\n");
    TerminatedJoin(lines, |lines|, true);
    assert lines[..|lines|] == lines;
    assert Terminated(lines, |lines|, true) == joined + ",\n";
    JoinSnoc(lines, key, ",\n");
    Regroup(header, joined, ",\n", key, "\n");
  }

  lemma Regroup(header: string, joined: string, sep: string, last: string, nl: string)
    ensures header + (joined + sep) + (last + nl) == header + (joined + sep + last) + nl
  {
  }

  /** Pushing a line, an optional comma and a break extends `Terminated` by one line. */
  lemma LineStep(header: string, done: string, line: string, more: bool)
    ensures header + done + line + (if more then "," else "") + "\n" ==
      header + (done + (line + LineEnd(more)))
  {
    if more {
      assert "," + "\n" == ",\n";
    }
  }

  /** The index loop of `export_table_structure`: a line break, the statement and `;` each. */
  method AppendIndexes(sql0: string, indexes: seq<string>) returns (sql: string)
    ensures sql == sql0 + IndexBlock(indexes)
  {
    sql := sql0;
    var k := 0;
    while k < |indexes|
      invariant 0 <= k <= |indexes|
      invariant sql == sql0 + IndexBlock(indexes[..k])
    {
      var index := indexes[k];
      ghost var done := sql;
      sql := sql + "\n";
      sql := sql + index;
      sql := sql + ";";
      Assoc3(done, "\n", index, ";");
      IndexBlockStep(indexes, k);
      Assoc(sql0, IndexBlock(indexes[..k]), "\n" + index + ";");
      k := k + 1;
    }
    assert indexes[..k] == indexes;
  }

  /** `export_table_structure` once its three queries have answered. */
  method ExportScript(table: string, columns: seq<TableColumn>, pks: seq<string>, indexes: seq<string>)
    returns (r: Result<string>)
    ensures columns == [] ==> r == Err("Table has no columns or does not exist")
    ensures columns != [] ==>
      r == Ok("CREATE TABLE " + table + " (\n" + Join(Entries(columns, pks), ",\n") + "\n" + ");\n"
              + IndexBlock(indexes))
  {
    if columns == [] {
      return Err("Table has no columns or does not exist");
    }
    var header := "CREATE TABLE " + table + " (\n";
    var sql := AppendColumnLines(header, Decls(columns), pks != []);
    if pks != [] {
      ghost var body := sql;
      sql := sql + "  PRIMARY KEY (";
      sql := sql + Join(pks, ", ");
      sql := sql + ")\n";
      Assoc3(body, "  PRIMARY KEY (", Join(pks, ", "), ")\n");
    }
    EntriesText(header, columns, pks);
    sql := sql + ");\n";
    sql := AppendIndexes(sql, indexes);
    r := Ok(sql);
  }
}
