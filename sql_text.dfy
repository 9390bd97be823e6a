/**
 * The SQL text the loader builds: the ALTER COLUMN DDL, the reorganisation
 * check and command, the MERGE upsert, the INSERT and the DROP statements.
 * Identifier quoting is the SQLAlchemy preparer's, passed in as `quote`.
 */
module SqlText {
  import opened Results
  import opened Text
  import opened SqlTypes

  /** `get_column_alter_ddl` (connector.py lines 92-116), on already quoted names. */
  function AlterColumnDdl(quotedTable: string, quotedColumn: string, t: SqlType): string
  {
    "ALTER TABLE " + quotedTable + " ALTER COLUMN " + quotedColumn + " SET DATA TYPE " + Render(t)
  }

  /** The widening to VARCHAR(20) made by tests/test_core.py lines 189-194, on any table and column. */
  lemma AlterToVarcharExample(quotedTable: string, quotedColumn: string)
    ensures AlterColumnDdl(quotedTable, quotedColumn, Varchar(Some(20)))
         == "ALTER TABLE " + quotedTable + " ALTER COLUMN " + quotedColumn + " SET DATA TYPE VARCHAR(20)"
  {
    RenderExamples();
    var head := "ALTER TABLE " + quotedTable + " ALTER COLUMN " + quotedColumn;
    assert head + " SET DATA TYPE " + "VARCHAR(20)" == head + (" SET DATA TYPE " + "VARCHAR(20)");
  }

  /** The DECIMAL(10, 3) alteration: precision and scale in the DDL, separated by ", ". */
  lemma AlterToDecimalExample(quotedTable: string, quotedColumn: string)
    ensures AlterColumnDdl(quotedTable, quotedColumn, Decimal(Some(10), Some(3)))
         == "ALTER TABLE " + quotedTable + " ALTER COLUMN " + quotedColumn + " SET DATA TYPE DECIMAL(10, 3)"
  {
    RenderExamples();
    var head := "ALTER TABLE " + quotedTable + " ALTER COLUMN " + quotedColumn;
    assert head + " SET DATA TYPE " + "DECIMAL(10, 3)" == head + (" SET DATA TYPE " + "DECIMAL(10, 3)");
  }

  function FirstDot(s: string): (i: nat)
    requires '.' in s
    ensures i < |s| && s[i] == '.' && '.' !in s[..i]
  {
    if s[0] == '.' then 0 else 1 + FirstDot(s[1..])
  }

  /** `full.split(".", 1)`: the schema part when there is a dot, and the last part. */
  function SplitTableName(full: string): (r: (Option<string>, string))
    ensures r.0.Some? ==> r.0.value + "." + r.1 == full && '.' !in r.0.value
    ensures r.0.None? ==> r.1 == full && '.' !in full
  {
    if '.' in full then
      var i := FirstDot(full);
      assert full == full[..i] + "." + full[i + 1..];
      (Some(full[..i]), full[i + 1..])
    else (None, full)
  }

  /** The fixed head of the REORG-pending query. */
  const ReorgPendingQuery := "SELECT true FROM SYSIBMADM.ADMINTABINFO WHERE REORG_PENDING "

  /** The REORG-pending query of lines 173-183. */
  function ReorgCheckSql(fullTableName: string): string
  {
    var (schema, table) := SplitTableName(fullTableName);
    var schemaClause := if schema.Some? then "AND tabschema = '" + schema.value + "'" else "";
    ReorgPendingQuery + schemaClause
      + " AND lower(tabname) = '" + table + "';"
  }

  /** `split(".", 1)` cuts at the first dot: a dot-free schema part is recovered whole. */
  lemma {:induction false} SplitTableNameAtFirstDot(schema: string, table: string)
    requires '.' !in schema
    ensures SplitTableName(schema + "." + table) == (Some(schema), table)
  {
    var full := schema + "." + table;
    assert full[|schema|] == '.';
    var i := FirstDot(full);
    assert i == |schema|;
    assert full[..i] == schema;
    assert full[i + 1..] == table;
  }

  /**
   * For a qualified name the query filters on the schema part as given and on
   * the table part as given, which it compares with the lower-cased catalogue name.
   */
  lemma ReorgCheckWithSchema(schema: string, table: string)
    requires '.' !in schema
    ensures ReorgCheckSql(schema + "." + table)
         == ReorgPendingQuery + ("AND tabschema = '" + schema + "'") + " AND lower(tabname) = '" + table + "';"
  {
    SplitTableNameAtFirstDot(schema, table);
  }

  /** For an unqualified name the schema clause is empty, leaving two spaces. */
  lemma ReorgCheckWithoutSchema(table: string)
    requires '.' !in table
    ensures ReorgCheckSql(table) == ReorgPendingQuery + " AND lower(tabname) = '" + table + "';"
  {
  }

  /** The reorganisation command of lines 184-186, on the quoted table name. */
  function ReorgCommand(quotedTable: string): string
  {
    "CALL SYSPROC.ADMIN_CMD ('REORG TABLE " + quotedTable + "')"
  }

  /** `generate_drop_table_statement` (lines 668-672), on the quoted table name. */
  function DropTableSql(quotedTable: string): string
  {
    "DROP TABLE " + quotedTable
  }

  /** `generate_load_table_name` (lines 455-458) with the five random letters given. */
  function LoadTableName(tableName: string, letters: string): string
  {
    "load_" + tableName + "_" + letters
  }

  predicate IsLowercaseLetters(s: string)
  {
    forall i :: 0 <= i < |s| ==> 'a' <= s[i] <= 'z'
  }

  /**
   * A load table name is the target name between `load_` and `_` plus five
   * lowercase letters, so two names for one table differ exactly when their letters do.
   */
  lemma LoadTableNameShape(tableName: string, letters: string, other: string)
    requires |letters| == 5 && |other| == 5
    ensures |LoadTableName(tableName, letters)| == |tableName| + 11
    ensures LoadTableName(tableName, letters)[..5] == "load_"
    ensures LoadTableName(tableName, letters)[|tableName| + 6..] == letters
    ensures LoadTableName(tableName, letters) == LoadTableName(tableName, other) <==> letters == other
  {
    var a, b := LoadTableName(tableName, letters), LoadTableName(tableName, other);
    if a == b {
      assert a[|tableName| + 6..] == b[|tableName| + 6..];
    }
  }

  /** `a` lists some of the elements of `b`, in `b`'s order. */
  predicate Subsequence(a: seq<string>, b: seq<string>)
    decreases |b|
  {
    if a == [] then true
    else if b == [] then false
    else (a[0] == b[0] && Subsequence(a[1..], b[1..])) || Subsequence(a, b[1..])
  }

  /** `ft.<k> = lt.<k>` for every join key (lines 587-590). */
  function JoinConditions(joinKeys: seq<string>, quote: string -> string): (r: seq<string>)
    ensures |r| == |joinKeys|
  {
    seq(|joinKeys|, i requires 0 <= i < |joinKeys| => "ft." + quote(joinKeys[i]) + " = lt." + quote(joinKeys[i]))
  }

  /** The schema properties that are not join keys, in order (lines 595-599). */
  function UpdateColumns(properties: seq<string>, joinKeys: seq<string>): seq<string>
  {
    if properties == [] then []
    else if properties[0] in joinKeys then UpdateColumns(properties[1..], joinKeys)
    else [properties[0]] + UpdateColumns(properties[1..], joinKeys)
  }

  /** The SET list: the properties minus the join keys, kept in schema order. */
  lemma {:induction false} UpdateColumnsAreNonKeys(properties: seq<string>, joinKeys: seq<string>)
    ensures forall c :: c in UpdateColumns(properties, joinKeys) <==> c in properties && c !in joinKeys
    ensures Subsequence(UpdateColumns(properties, joinKeys), properties)
    ensures (forall c :: c in properties ==> c !in joinKeys) ==> UpdateColumns(properties, joinKeys) == properties
    ensures (forall c :: c in properties ==> c in joinKeys) ==> UpdateColumns(properties, joinKeys) == []
  {
    if properties != [] {
      UpdateColumnsAreNonKeys(properties[1..], joinKeys);
      var rest := UpdateColumns(properties[1..], joinKeys);
      assert forall c :: c in properties <==> c == properties[0] || c in properties[1..];
      if properties[0] in joinKeys {
        SubsequenceSkip(rest, properties);
      } else {
        assert UpdateColumns(properties, joinKeys) == [properties[0]] + rest;
        assert ([properties[0]] + rest)[1..] == rest;
      }
    }
  }

  lemma SubsequenceSkip(a: seq<string>, b: seq<string>)
    requires b != [] && Subsequence(a, b[1..])
    ensures Subsequence(a, b)
  {
  }

  function UpdateAssignments(properties: seq<string>, joinKeys: seq<string>, quote: string -> string): seq<string>
  {
    var cols := UpdateColumns(properties, joinKeys);
    seq(|cols|, i requires 0 <= i < |cols| => quote(cols[i]) + " = lt." + quote(cols[i]))
  }

  /** The INSERT column list: every property, quoted, in schema order (lines 591-593). */
  function InsertColumns(properties: seq<string>, quote: string -> string): (r: seq<string>)
    ensures |r| == |properties|
  {
    seq(|properties|, i requires 0 <= i < |properties| => quote(properties[i]))
  }

  /** Each name with `prefix` in front: the `lt.` alias of the MERGE's VALUES list (line 594), the `:` of a bind parameter (line 663). */
  function Prefixed(prefix: string, names: seq<string>): (r: seq<string>)
    ensures |r| == |names|
  {
    seq(|names|, i requires 0 <= i < |names| => prefix + names[i])
  }

  /** INSERT and VALUES name the same properties in the same positions. */
  lemma InsertAndValuesAlign(properties: seq<string>, quote: string -> string)
    ensures |Prefixed("lt.", InsertColumns(properties, quote))| == |InsertColumns(properties, quote)| == |properties|
    ensures forall i :: 0 <= i < |properties| ==>
      Prefixed("lt.", InsertColumns(properties, quote))[i] == "lt." + InsertColumns(properties, quote)[i]
      && InsertColumns(properties, quote)[i] == quote(properties[i])
  {
  }

  /**
   * `merge_upsert_from_table` (lines 565-611): the lines of the dedented and
   * stripped MERGE statement, one clause per line.
   */
  function MergeUpsertLines(targetTable: string, fromTable: string, joinKeys: seq<string>,
                            properties: seq<string>, quote: string -> string): (r: seq<string>)
    ensures |r| == 8
  {
    var finalColumns := InsertColumns(properties, quote);
    [
      "MERGE INTO " + targetTable + " ft",
      "USING " + fromTable + " lt",
      "ON (" + Join(JoinConditions(joinKeys, quote), " AND ") + ")",
      "WHEN MATCHED THEN UPDATE",
      "  SET " + Join(UpdateAssignments(properties, joinKeys, quote), ", "),
      "WHEN NOT MATCHED THEN",
      "  INSERT (" + Join(finalColumns, ", ") + ")",
      "  VALUES (" + Join(Prefixed("lt.", finalColumns), ", ") + ");"
    ]
  }

  /** The MERGE statement text: its lines joined by line breaks. */
  function MergeUpsertSql(targetTable: string, fromTable: string, joinKeys: seq<string>,
                          properties: seq<string>, quote: string -> string): string
  {
    Join(MergeUpsertLines(targetTable, fromTable, joinKeys, properties, quote), "\n")
  }

  /** Identity quoting, for examples whose names need no quotes. */
  function Bare(name: string): string { name }

  /** The ON condition of the docstring's example: key `col1`. */
  lemma MergeExampleOn()
    ensures Join(JoinConditions(["col1"], Bare), " AND ") == "ft.col1 = lt.col1"
  {
    var on := JoinConditions(["col1"], Bare);
    assert "ft." + "col1" + " = lt." + "col1" == "ft.col1 = lt.col1";
    assert on == ["ft.col1 = lt.col1"];
  }

  /** Joining two parts puts one separator between them. */
  lemma JoinTwo(x: string, y: string, sep: string)
    ensures Join([x, y], sep) == x + sep + y
  {
    assert [x, y][1..] == [y];
  }

  /** Joining three parts puts one separator between each neighbouring pair. */
  lemma JoinThree(x: string, y: string, z: string, sep: string)
    ensures Join([x, y, z], sep) == x + sep + (y + sep + z)
  {
    assert [x, y, z][1..] == [y, z];
    JoinTwo(y, z, sep);
  }

  /** The properties of the docstring's example that are not the key `col1`. */
  lemma MergeExampleUpdateColumns()
    ensures UpdateColumns(["col1", "col2", "col3"], ["col1"]) == ["col2", "col3"]
  {
    var props := ["col1", "col2", "col3"];
    assert "col2"[3] != "col1"[3] && "col3"[3] != "col1"[3];
    assert props[1..] == ["col2", "col3"] && props[1..][1..] == ["col3"];
    assert UpdateColumns(["col3"], ["col1"]) == ["col3"];
  }

  /** The SET list of the docstring's example: properties `col1`, `col2`, `col3` with key `col1`. */
  lemma MergeExampleSet()
    ensures Join(UpdateAssignments(["col1", "col2", "col3"], ["col1"], Bare), ", ") == "col2 = lt.col2, col3 = lt.col3"
  {
    MergeExampleUpdateColumns();
    var cols: seq<string> := ["col2", "col3"];
    var upd := UpdateAssignments(["col1", "col2", "col3"], ["col1"], Bare);
    assert |upd| == 2;
    assert upd[0] == Bare(cols[0]) + " = lt." + Bare(cols[0]) == "col2" + " = lt." + "col2";
    assert upd[1] == Bare(cols[1]) + " = lt." + Bare(cols[1]) == "col3" + " = lt." + "col3";
    assert upd == ["col2" + " = lt." + "col2", "col3" + " = lt." + "col3"];
    JoinTwo("col2" + " = lt." + "col2", "col3" + " = lt." + "col3", ", ");
    MergeExampleSetText();
  }

  lemma MergeExampleSetText()
    ensures "col2" + " = lt." + "col2" + ", " + ("col3" + " = lt." + "col3") == "col2 = lt.col2, col3 = lt.col3"
  {
    assert "col2" + " = lt." + "col2" == "col2 = lt.col2";
    assert "col3" + " = lt." + "col3" == "col3 = lt.col3";
    assert "col2 = lt.col2" + ", " == "col2 = lt.col2, ";
  }

  /** The INSERT and VALUES lists of the docstring's example. */
  lemma MergeExampleColumns()
    ensures InsertColumns(["col1", "col2", "col3"], Bare) == ["col1", "col2", "col3"]
    ensures Prefixed("lt.", ["col1", "col2", "col3"]) == ["lt.col1", "lt.col2", "lt.col3"]
  {
    var q := Bare;
    assert q("col1") == "col1" && q("col2") == "col2" && q("col3") == "col3";
    var ins := InsertColumns(["col1", "col2", "col3"], q);
    assert ins[0] == "col1" && ins[1] == "col2" && ins[2] == "col3";
    var vals := Prefixed("lt.", ["col1", "col2", "col3"]);
    assert vals[0] == "lt.col1" && vals[1] == "lt.col2" && vals[2] == "lt.col3";
  }

  lemma MergeExampleJoins()
    ensures Join(["col1", "col2", "col3"], ", ") == "col1, col2, col3"
    ensures Join(["lt.col1", "lt.col2", "lt.col3"], ", ") == "lt.col1, lt.col2, lt.col3"
  {
    JoinThree("col1", "col2", "col3", ", ");
    JoinThree("lt.col1", "lt.col2", "lt.col3", ", ");
  }

  lemma MergeExampleHeadLine()
    ensures "MERGE INTO " + "final_tbl" + " ft" == "MERGE INTO final_tbl ft"
  {
    assert "MERGE INTO " + "final_tbl" == "MERGE INTO final_tbl";
    assert "MERGE INTO final_tbl" + " ft" == "MERGE INTO final_tbl ft";
  }

  lemma MergeExampleUsingLine()
    ensures "USING " + "load_final_tbl_abc" + " lt" == "USING load_final_tbl_abc lt"
  {
    assert "USING " + "load_final_tbl_abc" == "USING load_final_tbl_abc";
    assert "USING load_final_tbl_abc" + " lt" == "USING load_final_tbl_abc lt";
  }

  lemma MergeExampleOnLine()
    ensures "ON (" + "ft.col1 = lt.col1" + ")" == "ON (ft.col1 = lt.col1)"
  {
    assert "ON (" + "ft.col1 = lt.col1" == "ON (ft.col1 = lt.col1";
    assert "ON (ft.col1 = lt.col1" + ")" == "ON (ft.col1 = lt.col1)";
  }

  lemma MergeExampleSetLine()
    ensures "  SET " + "col2 = lt.col2, col3 = lt.col3" == "  SET col2 = lt.col2, col3 = lt.col3"
  {
    assert "  SET " + "col2 = lt.col2, col3 = lt.col3" == "  SET col2 = lt.col2, col3 = lt.col3";
  }

  lemma MergeExampleInsertLine()
    ensures "  INSERT (" + "col1, col2, col3" + ")" == "  INSERT (col1, col2, col3)"
  {
    assert "  INSERT (" + "col1, col2, col3" == "  INSERT (col1, col2, col3";
    assert "  INSERT (col1, col2, col3" + ")" == "  INSERT (col1, col2, col3)";
  }

  lemma MergeExampleValuesLine()
    ensures "  VALUES (" + "lt.col1, lt.col2, lt.col3" + ");" == "  VALUES (lt.col1, lt.col2, lt.col3);"
  {
    assert "  VALUES (" + "lt.col1, lt.col2, lt.col3" == "  VALUES (lt.col1, lt.col2, lt.col3";
    assert "  VALUES (lt.col1, lt.col2, lt.col3" + ");" == "  VALUES (lt.col1, lt.col2, lt.col3);";
  }

  /** The statement of the method's own docstring, with names left unquoted. */
  lemma MergeUpsertExample()
    ensures MergeUpsertLines("final_tbl", "load_final_tbl_abc", ["col1"], ["col1", "col2", "col3"], Bare)
         == ["MERGE INTO final_tbl ft",
             "USING load_final_tbl_abc lt",
             "ON (ft.col1 = lt.col1)",
             "WHEN MATCHED THEN UPDATE",
             "  SET col2 = lt.col2, col3 = lt.col3",
             "WHEN NOT MATCHED THEN",
             "  INSERT (col1, col2, col3)",
             "  VALUES (lt.col1, lt.col2, lt.col3);"]
  {
    MergeExampleOn();
    MergeExampleSet();
    MergeExampleColumns();
    MergeExampleJoins();
    MergeExampleHeadLine();
    MergeExampleUsingLine();
    MergeExampleOnLine();
    MergeExampleSetLine();
    MergeExampleInsertLine();
    MergeExampleValuesLine();
  }

  /**
   * When every property is a join key the SET list is empty, so the UPDATE
   * clause reads `SET` followed by nothing.
   */
  lemma MergeWithOnlyKeysLeavesSetEmpty(targetTable: string, fromTable: string, joinKeys: seq<string>,
                                        properties: seq<string>, quote: string -> string)
    requires forall p :: p in properties ==> p in joinKeys
    ensures MergeUpsertLines(targetTable, fromTable, joinKeys, properties, quote)[4] == "  SET "
  {
    UpdateColumnsAreNonKeys(properties, joinKeys);
    assert UpdateAssignments(properties, joinKeys, quote) == [];
  }

  /**
   * `generate_insert_statement` (lines 640-666): the quoted table, each property
   * quoted as a column identifier, and one `:name` bind parameter per property,
   * on three lines with the trailing line break stripped.
   */
  function InsertStatement(fullTableName: string, propertyNames: seq<string>, quote: string -> string): string
  {
    "INSERT INTO " + quote(fullTableName) + "\n(" + Join(InsertColumns(propertyNames, quote), ", ") + ")\nVALUES ("
      + Join(Prefixed(":", propertyNames), ", ") + ")"
  }

  /**
   * For every table, property list and quoting, the INSERT lists exactly the
   * quoted properties and the VALUES list exactly their bind parameters, in the
   * same positions.
   */
  lemma InsertStatementAligns(fullTableName: string, propertyNames: seq<string>, quote: string -> string)
    ensures |InsertColumns(propertyNames, quote)| == |Prefixed(":", propertyNames)| == |propertyNames|
    ensures forall i :: 0 <= i < |propertyNames| ==>
      && InsertColumns(propertyNames, quote)[i] == quote(propertyNames[i])
      && Prefixed(":", propertyNames)[i] == ":" + propertyNames[i]
    ensures InsertStatement(fullTableName, propertyNames, quote)
         == "INSERT INTO " + quote(fullTableName) + "\n(" + Join(InsertColumns(propertyNames, quote), ", ")
            + ")\nVALUES (" + Join(Prefixed(":", propertyNames), ", ") + ")"
  {
  }

  /** How often `c` occurs in `s`. */
  function Occurrences(s: string, c: char): nat
  {
    if s == [] then 0 else (if s[0] == c then 1 else 0) + Occurrences(s[1..], c)
  }

  lemma {:induction false} OccurrencesAppend(a: string, b: string, c: char)
    ensures Occurrences(a + b, c) == Occurrences(a, c) + Occurrences(b, c)
  {
    if a == [] {
      assert a + b == b;
    } else {
      assert (a + b)[0] == a[0];
      assert (a + b)[1..] == a[1..] + b;
      OccurrencesAppend(a[1..], b, c);
    }
  }

  /**
   * When no property name holds a colon, the VALUES list holds exactly one
   * colon per property: one bind parameter for each column of the INSERT.
   */
  lemma {:induction false} OnePlaceholderPerColumn(propertyNames: seq<string>)
    requires forall i :: 0 <= i < |propertyNames| ==> Occurrences(propertyNames[i], ':') == 0
    ensures Occurrences(Join(Prefixed(":", propertyNames), ", "), ':') == |propertyNames|
    decreases |propertyNames|
  {
    var binds := Prefixed(":", propertyNames);
    if |propertyNames| == 1 {
      OccurrencesAppend(":", propertyNames[0], ':');
    } else if |propertyNames| > 1 {
      var rest := propertyNames[1..];
      assert binds[1..] == Prefixed(":", rest);
      OnePlaceholderPerColumn(rest);
      OccurrencesAppend(":", propertyNames[0], ':');
      OccurrencesAppend(binds[0], ", ", ':');
      OccurrencesAppend(binds[0] + ", ", Join(binds[1..], ", "), ':');
      assert Occurrences(", ", ':') == 0;
    }
  }

  /** Identifier quoting with double quotes, as Db2 quotes a name that needs it. */
  function DoubleQuoted(name: string): string
  {
    "\"" + name + "\""
  }

  /** The column and bind lists of the example below. */
  lemma InsertExampleLists()
    ensures Join(InsertColumns(["id", "name"], DoubleQuoted), ", ") == "\"id\", \"name\""
    ensures Join(Prefixed(":", ["id", "name"]), ", ") == ":id, :name"
  {
    var q := DoubleQuoted;
    assert q("id") == "\"id\"" && q("name") == "\"name\"";
    var cols := InsertColumns(["id", "name"], q);
    assert cols[0] == "\"id\"" && cols[1] == "\"name\"";
    assert cols[1..] == ["\"name\""];
    var binds := Prefixed(":", ["id", "name"]);
    assert binds[0] == ":id" && binds[1] == ":name";
    assert binds[1..] == [":name"];
  }

  /** Two properties `id` and `name` of any table, with double-quoted identifiers. */
  lemma InsertStatementExample(table: string)
    ensures InsertStatement(table, ["id", "name"], DoubleQuoted)
         == "INSERT INTO " + DoubleQuoted(table) + "\n(" + "\"id\", \"name\"" + ")\nVALUES (" + ":id, :name" + ")"
  {
    InsertExampleLists();
  }
}
