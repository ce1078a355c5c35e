/**
 * The statements the mutation and DDL operations send to the engine, built
 * by string concatenation. The only escaping is the doubling of single
 * quotes inside string literals.
 *
 * serde_json's compact serialisation of a value (`Value::to_string`) is the
 * parameter `jsonText`.
 */
module SqlBuilders {

  import opened Outcomes
  import opened Text
  import opened Json
  import opened Models

  // ---------------------------------------------------------------------
  // Values

  /** How a JSON value is written into a statement. */
  function SqlLiteral(v: Json, jsonText: Json -> string): (lit: string)
    ensures v == JNull ==> lit == "NULL"
    ensures v.JString? ==> ReadSqlString(lit) == Some((v.s, ""))
    ensures !v.JNull? && !v.JString? ==> lit == jsonText(v)
  {
    if v.JNull? then "NULL"
    else if v.JString? then
      QuoteIsOneToken(v.s, "");
      assert Quote(v.s) + "" == Quote(v.s);
      Quote(v.s)
    else jsonText(v)
  }

  /** The literals of an object's values, in its key order. */
  function Literals(fields: seq<Field>, jsonText: Json -> string): (lits: seq<string>)
    ensures |lits| == |fields|
    ensures forall k | 0 <= k < |fields| :: lits[k] == SqlLiteral(fields[k].value, jsonText)
  {
    seq(|fields|, k requires 0 <= k < |fields| => SqlLiteral(fields[k].value, jsonText))
  }

  /**
   * `INSERT INTO t (k1, k2) VALUES (v1, v2)` for one object: the i-th column
   * is the i-th key and the i-th value its literal (`Keys`, `Literals`). An
   * empty object still gives a statement, with empty lists.
   */
  function InsertStatement(table: string, fields: seq<Field>, jsonText: Json -> string): (stmt: string)
    ensures |stmt| > 12 + |table| && stmt[..12] == "INSERT INTO " && stmt[12..12 + |table|] == table
    ensures fields == [] ==> stmt == "INSERT INTO " + table + " () VALUES ()"
    ensures |fields| == 1 ==>
      stmt == "INSERT INTO " + table + " (" + fields[0].key + ") VALUES ("
              + SqlLiteral(fields[0].value, jsonText) + ")"
  {
    "INSERT INTO " + table + " (" + Join(Keys(fields), ", ") + ") VALUES ("
      + Join(Literals(fields, jsonText), ", ") + ")"
  }

  // ---------------------------------------------------------------------
  // Bulk insert

  /** `obj.get(col).unwrap_or(&Null)`. */
  function FieldOrNull(fields: seq<Field>, col: string): Json
  {
    match Lookup(fields, col)
    case Some(v) => v
    case None => JNull
  }

  /** One row's literals, for the column list taken from the first row. */
  function RowLiterals(columns: seq<string>, fields: seq<Field>, jsonText: Json -> string): (lits: seq<string>)
    ensures |lits| == |columns|
    ensures forall j | 0 <= j < |columns| ::
      lits[j] == SqlLiteral(FieldOrNull(fields, columns[j]), jsonText)
  {
    seq(|columns|, j requires 0 <= j < |columns| => SqlLiteral(FieldOrNull(fields, columns[j]), jsonText))
  }

  /** A column the row lacks is written as `NULL`; a present one as its value. */
  lemma RowLiteralOf(columns: seq<string>, fields: seq<Field>, jsonText: Json -> string, j: nat)
    requires j < |columns|
    ensures columns[j] !in Keys(fields) ==> RowLiterals(columns, fields, jsonText)[j] == "NULL"
    ensures forall k | 0 <= k < |fields| && fields[k].key == columns[j] && DistinctKeys(fields) ::
      RowLiterals(columns, fields, jsonText)[j] == SqlLiteral(fields[k].value, jsonText)
  {
    forall k | 0 <= k < |fields| && fields[k].key == columns[j] && DistinctKeys(fields)
      ensures Lookup(fields, columns[j]) == Some(fields[k].value)
    {
      var r := Lookup(fields, columns[j]);
      var k' :| 0 <= k' < |fields| && fields[k'] == Field(columns[j], r.value);
      assert k' == k;
    }
    if columns[j] !in Keys(fields) {
      assert forall k | 0 <= k < |fields| :: fields[k].key != columns[j] by {
        forall k | 0 <= k < |fields| ensures fields[k].key != columns[j] {
          assert Keys(fields)[k] == fields[k].key;
        }
      }
    }
  }

  /** The parenthesised group of one row. */
  function ValueGroup(columns: seq<string>, fields: seq<Field>, jsonText: Json -> string): string
  {
    "(" + Join(RowLiterals(columns, fields, jsonText), ", ") + ")"
  }

  /**
   * The loop of `bulk_insert_rows`: one group per row, in input order; the
   * first row that is not an object stops it.
   */
  method BuildValueLists(columns: seq<string>, rows: seq<Json>, jsonText: Json -> string)
    returns (r: Result<seq<string>>)
    ensures r.Err? <==> exists i | 0 <= i < |rows| :: !rows[i].JObject?
    ensures r.Err? ==> r.msg == "Row data must be a JSON object"
    ensures r.Ok? ==>
      |r.value| == |rows| &&
      (forall i | 0 <= i < |rows| :: r.value[i] == ValueGroup(columns, rows[i].fields, jsonText))
  {
    var lists: seq<string> := [];
    var i := 0;
    while i < |rows|
      invariant 0 <= i <= |rows|
      invariant forall k | 0 <= k < i :: rows[k].JObject?
      invariant |lists| == i
      invariant forall k | 0 <= k < i :: lists[k] == ValueGroup(columns, rows[k].fields, jsonText)
    {
      if !rows[i].JObject? {
        return Err("Row data must be a JSON object");
      }
      lists := lists + [ValueGroup(columns, rows[i].fields, jsonText)];
      i := i + 1;
    }
    r := Ok(lists);
  }

  /** `INSERT INTO t (cols) VALUES (…), (…)`. */
  function BulkInsertStatement(table: string, columns: seq<string>, groups: seq<string>): (stmt: string)
    ensures |stmt| > 12 + |table| && stmt[..12] == "INSERT INTO " && stmt[12..12 + |table|] == table
    ensures |groups| == 1 ==>
      stmt == "INSERT INTO " + table + " (" + Join(columns, ", ") + ") VALUES " + groups[0]
  {
    "INSERT INTO " + table + " (" + Join(columns, ", ") + ") VALUES " + Join(groups, ", ")
  }

  /**
   * A bulk insert of one object, whose keys are then the column list, sends
   * the same statement as inserting that object alone.
   */
  lemma BulkOfOneIsInsert(table: string, fields: seq<Field>, jsonText: Json -> string)
    requires DistinctKeys(fields)
    ensures BulkInsertStatement(table, Keys(fields), [ValueGroup(Keys(fields), fields, jsonText)])
            == InsertStatement(table, fields, jsonText)
  {
    var ks := Keys(fields);
    forall k | 0 <= k < |fields|
      ensures RowLiterals(ks, fields, jsonText)[k] == Literals(fields, jsonText)[k]
    {
      RowLiteralOf(ks, fields, jsonText, k);
    }
    assert RowLiterals(ks, fields, jsonText) == Literals(fields, jsonText);
  }

  // ---------------------------------------------------------------------
  // Update and delete

  /** One `k = v` assignment of an UPDATE. */
  function SetClause(key: string, v: Json, jsonText: Json -> string): (c: string)
    ensures c == key + " = " + SqlLiteral(v, jsonText)
  {
    if v.JNull? then key + " = NULL"
    else if v.JString? then key + " = '" + EscapeQuotes(v.s) + "'"
    else key + " = " + jsonText(v)
  }

  /** The outer parts of a three-part text read back at their positions. */
  lemma Framed(head: string, mid: string, tail: string)
    ensures (head + mid + tail)[..|head|] == head
    ensures (head + mid + tail)[|head| + |mid|..] == tail
  {
    assert (head + mid + tail)[..|head|] == head;
  }

  /** The assignments of an UPDATE, one per field, in the object's order. */
  function SetClauses(fields: seq<Field>, jsonText: Json -> string): (cs: seq<string>)
    ensures |cs| == |fields|
    ensures forall k | 0 <= k < |fields| :: cs[k] == SetClause(fields[k].key, fields[k].value, jsonText)
  {
    seq(|fields|, k requires 0 <= k < |fields| => SetClause(fields[k].key, fields[k].value, jsonText))
  }

  /**
   * `UPDATE t SET k1 = v1, k2 = v2 WHERE w`: the table follows `UPDATE `,
   * the condition ends the text unchanged, and an empty object leaves the
   * SET list empty.
   */
  function UpdateStatement(table: string, fields: seq<Field>, whereClause: string,
                           jsonText: Json -> string): (stmt: string)
    ensures |stmt| >= 7 + |table| + 7 + |whereClause|
    ensures stmt[..7] == "UPDATE " && stmt[7..7 + |table|] == table
    ensures stmt[|stmt| - |whereClause| - 7..] == " WHERE " + whereClause
    ensures fields == [] ==> stmt == "UPDATE " + table + " SET " + " WHERE " + whereClause
    ensures |fields| == 1 ==>
      stmt == "UPDATE " + table + " SET " + SetClause(fields[0].key, fields[0].value, jsonText)
              + " WHERE " + whereClause
  {
    var clauses := SetClauses(fields, jsonText);
    assert |fields| == 1 ==> clauses == [SetClause(fields[0].key, fields[0].value, jsonText)];
    var head := "UPDATE " + table;
    var tail := " WHERE " + whereClause;
    var mid := " SET " + Join(clauses, ", ");
    Framed(head, mid, tail);
    assert head[..7] == "UPDATE " && head[7..] == table;
    head + mid + tail
  }

  /** `DELETE FROM t WHERE w`: the table and the condition read back from the text. */
  function DeleteStatement(table: string, whereClause: string): (stmt: string)
    ensures |stmt| == 19 + |table| + |whereClause|
    ensures stmt[..12] == "DELETE FROM " && stmt[12..12 + |table|] == table
    ensures stmt[12 + |table|..19 + |table|] == " WHERE " && stmt[19 + |table|..] == whereClause
  {
    "DELETE FROM " + table + " WHERE " + whereClause
  }

  // ---------------------------------------------------------------------
  // DDL

  /** One `(name, type, nullable, primary_key)` entry of `create_table`. */
  datatype ColumnSpec = ColumnSpec(name: string, dataType: string, nullable: bool, isPk: bool)

  /** `name type`, then ` NOT NULL` for a column that is not nullable. */
  function ColumnDef(c: ColumnSpec): string
  {
    var base := c.name + " " + c.dataType;
    if c.nullable then base else base + " NOT NULL"
  }

  /** A definition starts with the name and type; ` NOT NULL` follows exactly when not nullable. */
  lemma ColumnDefShape(c: ColumnSpec)
    ensures var d := ColumnDef(c); var k := |c.name| + 1 + |c.dataType|;
      |d| >= k && d[..k] == c.name + " " + c.dataType
      && d[k..] == if c.nullable then "" else " NOT NULL"
  {
    var base := c.name + " " + c.dataType;
    assert ColumnDef(c)[..|base|] == base;
  }

  /** The names of the primary-key columns, in input order. */
  function PrimaryKeyNames(cs: seq<ColumnSpec>): seq<string>
  {
    if cs == [] then []
    else PrimaryKeyNames(cs[..|cs| - 1]) + (if cs[|cs| - 1].isPk then [cs[|cs| - 1].name] else [])
  }

  /**
   * Exactly the primary-key columns' names appear, none for a table without
   * one, and never more names than columns.
   */
  lemma {:induction false} PrimaryKeyNamesSpec(cs: seq<ColumnSpec>)
    ensures forall x :: x in PrimaryKeyNames(cs) <==>
      exists i | 0 <= i < |cs| :: cs[i].isPk && cs[i].name == x
    ensures PrimaryKeyNames(cs) == [] <==> forall i | 0 <= i < |cs| :: !cs[i].isPk
    ensures |PrimaryKeyNames(cs)| <= |cs|
  {
    if cs != [] {
      var init := cs[..|cs| - 1];
      PrimaryKeyNamesSpec(init);
      forall x ensures x in PrimaryKeyNames(cs) <==>
        exists i | 0 <= i < |cs| :: cs[i].isPk && cs[i].name == x
      {
        if x in PrimaryKeyNames(init) {
          var i :| 0 <= i < |init| && init[i].isPk && init[i].name == x;
          assert cs[i] == init[i];
        }
        if exists i | 0 <= i < |cs| :: cs[i].isPk && cs[i].name == x {
          var i :| 0 <= i < |cs| && cs[i].isPk && cs[i].name == x;
          if i < |init| { assert init[i] == cs[i]; }
        }
      }
      if !cs[|cs| - 1].isPk && PrimaryKeyNames(cs) == [] {
        forall i | 0 <= i < |cs| ensures !cs[i].isPk {
          if i < |init| { assert init[i] == cs[i]; }
        }
      }
    }
  }

  /** The definitions of `cs`, in order. */
  function ColumnDefs(cs: seq<ColumnSpec>): seq<string>
  {
    if cs == [] then [] else ColumnDefs(cs[..|cs| - 1]) + [ColumnDef(cs[|cs| - 1])]
  }

  lemma {:induction false} ColumnDefsSpec(cs: seq<ColumnSpec>)
    ensures |ColumnDefs(cs)| == |cs|
    ensures forall i | 0 <= i < |cs| :: ColumnDefs(cs)[i] == ColumnDef(cs[i])
  {
    if cs != [] {
      ColumnDefsSpec(cs[..|cs| - 1]);
    }
  }

  lemma ColumnStep(cs: seq<ColumnSpec>, i: nat)
    requires i < |cs|
    ensures ColumnDefs(cs[..i + 1]) == ColumnDefs(cs[..i]) + [ColumnDef(cs[i])]
    ensures PrimaryKeyNames(cs[..i + 1]) == PrimaryKeyNames(cs[..i]) + (if cs[i].isPk then [cs[i].name] else [])
  {
    assert cs[..i + 1][..i] == cs[..i];
  }

  /** The loop of `create_table`: one definition per column and the key names. */
  method BuildColumnDefs(columns: seq<ColumnSpec>) returns (defs: seq<string>, pks: seq<string>)
    ensures |defs| == |columns|
    ensures forall i | 0 <= i < |columns| :: defs[i] == ColumnDef(columns[i])
    ensures defs == ColumnDefs(columns)
    ensures pks == PrimaryKeyNames(columns)
  {
    defs, pks := [], [];
    var i := 0;
    while i < |columns|
      invariant 0 <= i <= |columns|
      invariant defs == ColumnDefs(columns[..i])
      invariant pks == PrimaryKeyNames(columns[..i])
    {
      var c := columns[i];
      ColumnStep(columns, i);
      if c.isPk {
        pks := pks + [c.name];
      }
      defs := defs + [ColumnDef(c)];
      i := i + 1;
    }
    assert columns[..i] == columns;
    ColumnDefsSpec(columns);
  }

  /** The trailing `PRIMARY KEY (…)` entry, present only when some column is a key. */
  function KeyClause(pks: seq<string>): seq<string>
  {
    if pks == [] then [] else [KeyEntry(pks)]
  }

  function KeyEntry(pks: seq<string>): string
  {
    "PRIMARY KEY (" + Join(pks, ", ") + ")"
  }

  /**
   * `CREATE TABLE t (def, def[, PRIMARY KEY (…)])`: the column definitions,
   * then a key entry only when there are key columns.
   */
  function CreateTableStatement(table: string, defs: seq<string>, pks: seq<string>): (stmt: string)
    ensures pks == [] ==> stmt == "CREATE TABLE " + table + " (" + (Join(defs, ", ") + ")")
    ensures pks != [] && defs != [] ==>
      stmt == "CREATE TABLE " + table + " (" + (Join(defs, ", ") + ", " + KeyEntry(pks) + ")")
  {
    var entries := defs + KeyClause(pks);
    if pks == [] then
      assert entries == defs;
      "CREATE TABLE " + table + " (" + (Join(entries, ", ") + ")")
    else if defs == [] then
      "CREATE TABLE " + table + " (" + (Join(entries, ", ") + ")")
    else
      assert entries == defs + [KeyEntry(pks)];
      JoinSnoc(defs, KeyEntry(pks), ", ");
      "CREATE TABLE " + table + " (" + (Join(entries, ", ") + ")")
  }

  /** `DROP TABLE t`: the table reads back from the text, so distinct tables give distinct statements. */
  function DropTableStatement(table: string): (stmt: string)
    ensures |stmt| == 11 + |table| && stmt[..11] == "DROP TABLE " && stmt[11..] == table
  {
    "DROP TABLE " + table
  }

  /** `ALTER TABLE … ADD COLUMN …`; SQLite never gets ` NOT NULL`. */
  function AddColumnStatement(engine: Engine, table: string, column: string, dataType: string,
                              nullable: bool): (stmt: string)
    ensures var base := "ALTER TABLE " + table + " ADD COLUMN " + column + " " + dataType;
      stmt == if engine == SQLite || nullable then base else base + " NOT NULL"
  {
    var nullableClause := if nullable then "" else " NOT NULL";
    match engine
    case SQLite => "ALTER TABLE " + table + " ADD COLUMN " + column + " " + dataType
    case _ => "ALTER TABLE " + table + " ADD COLUMN " + column + " " + dataType + nullableClause
  }

  const DropColumnUnsupported: string :=
    "SQLite does not support dropping columns directly. Please recreate the table."

  /** `ALTER TABLE … DROP COLUMN …`, refused for SQLite before anything is built. */
  function DropColumnStatement(engine: Engine, table: string, column: string): (r: Result<string>)
    ensures r.Err? <==> engine == SQLite
    ensures r.Err? ==> r.msg == DropColumnUnsupported
    ensures r.Ok? ==> r.value == "ALTER TABLE " + table + " DROP COLUMN " + column
  {
    match engine
    case SQLite => Err(DropColumnUnsupported)
    case _ => Ok("ALTER TABLE " + table + " DROP COLUMN " + column)
  }

  /** `RENAME TABLE … TO …` on MySQL, `ALTER TABLE … RENAME TO …` elsewhere. */
  function RenameStatement(engine: Engine, oldName: string, newName: string): (stmt: string)
    ensures |stmt| >= 7
    ensures engine == MySQL <==> stmt[..7] == "RENAME "
    ensures engine == MySQL ==> stmt == "RENAME TABLE " + oldName + " TO " + newName
    ensures engine != MySQL ==> stmt == "ALTER TABLE " + oldName + " RENAME TO " + newName
  {
    var alter := "ALTER TABLE " + oldName + " RENAME TO " + newName;
    var rename := "RENAME TABLE " + oldName + " TO " + newName;
    assert alter[..7] == "ALTER T" && rename[..7] == "RENAME ";
    match engine
    case SQLite => alter
    case MySQL => rename
    case PostgreSQL => alter
  }
}
