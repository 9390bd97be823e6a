/**
 * What the connector's DDL steps do to the database, as pure functions: the
 * catalogue of tables and their columns, and the log of statements sent to
 * Db2. `_adapt_column_type`, `_create_empty_column`, the SDK's `prepare_column`,
 * `create_empty_table` and `prepare_table` (target_db2/connector.py lines
 * 118-268 and 386-436) are each a function from the database before to the
 * database after, plus the exception raised, if any.
 */
module Evolution {
  import opened Results
  import opened SqlTypes
  import opened Errors
  import opened TypeMerge
  import opened TypeMapping
  import opened SqlText
  import opened Records

  /** One column of a table: its name, type and primary-key flag. */
  datatype Column = Column(name: string, sqlType: SqlType, primaryKey: bool)

  /** A statement run through `execute_queries`: the MERGE text, or a DROP of a named table. */
  datatype Statement =
    | MergeStatement(sql: string)
    | DropStatement(table: string, sql: string)

  /** What the connector sends to Db2, in order. */
  datatype Action =
    | CreateTable(table: string, columns: seq<Column>)
    | DropTable(table: string)
    | AddColumn(table: string, column: string, sqlType: SqlType)
    | AlterColumn(table: string, column: string, sqlType: SqlType, ddl: string)
    | ReorgCheck(table: string, query: string)
    | Reorg(table: string, command: string)
    | BulkInsert(table: string, rows: seq<map<string, Value>>)
    | ExecuteQueries(statements: seq<Statement>)

  /** The catalogue (table name to columns) and the log of everything sent so far. */
  datatype Db = Db(tables: map<string, seq<Column>>, trace: seq<Action>)

  /**
   * The capability flags the modelled code reads: `allow_column_alter`
   * (connector.py line 53) and the SDK's `allow_column_add`.
   */
  datatype Capabilities = Capabilities(allowColumnAlter: bool, allowColumnAdd: bool)

  /** The flags of the current connector; `allow_column_add` keeps the SDK's default. */
  const ConnectorCapabilities := Capabilities(true, true)

  /** The `load_method` setting. */
  datatype LoadMethod = AppendOnly | Upsert | Overwrite

  /**
   * Everything the DDL steps take from outside: the capability flags, the
   * `varchar_size` and `load_method` settings, the SDK's `_sort_types`, the
   * identifier quoting, the SDK's base type mapping, and Db2's answer to a
   * REORG-pending query.
   */
  datatype Env = Env(
    caps: Capabilities,
    varcharSize: nat,
    loadMethod: LoadMethod,
    order: seq<SqlType> -> seq<SqlType>,
    quote: string -> string,
    base: JsonSchemaType -> SqlType,
    reorgPending: string -> bool)

  ghost predicate ValidEnv(env: Env)
  {
    Permutes(env.order)
  }

  // ---------------------------------------------------------------------------
  // Columns and the effect of one action

  /** The type of the first column called `column`, if any. */
  function ColumnTypeOf(cols: seq<Column>, column: string): (r: Option<SqlType>)
    ensures r.Some? ==> exists i :: 0 <= i < |cols| && cols[i].name == column && cols[i].sqlType == r.value
    ensures r.None? <==> forall i :: 0 <= i < |cols| ==> cols[i].name != column
  {
    if cols == [] then None
    else if cols[0].name == column then Some(cols[0].sqlType)
    else ColumnTypeOf(cols[1..], column)
  }

  /** The columns with every column called `column` retyped to `t`. */
  function WithColumnType(cols: seq<Column>, column: string, t: SqlType): (r: seq<Column>)
    ensures |r| == |cols|
    ensures forall i :: 0 <= i < |cols| ==>
      r[i] == (if cols[i].name == column then cols[i].(sqlType := t) else cols[i])
  {
    seq(|cols|, i requires 0 <= i < |cols| => if cols[i].name == column then cols[i].(sqlType := t) else cols[i])
  }

  /** The tables a list of executed statements drops. */
  function Dropped(statements: seq<Statement>): (r: set<string>)
    ensures forall t :: t in r <==> exists i :: 0 <= i < |statements| && statements[i] == DropStatement(t, statements[i].sql)
  {
    set i | 0 <= i < |statements| && statements[i].DropStatement? :: statements[i].table
  }

  /** One action: it is logged, and the catalogue changes as the DDL says. */
  function Apply(db: Db, a: Action): (r: Db)
    ensures r.trace == db.trace + [a]
  {
    var tables :=
      match a
      case CreateTable(t, cols) => db.tables[t := cols]
      case DropTable(t) => db.tables - {t}
      case AddColumn(t, c, ty) =>
        if t in db.tables then db.tables[t := db.tables[t] + [Column(c, ty, false)]] else db.tables
      case AlterColumn(t, c, ty, _) =>
        if t in db.tables then db.tables[t := WithColumnType(db.tables[t], c, ty)] else db.tables
      case ExecuteQueries(stmts) => db.tables - Dropped(stmts)
      case _ => db.tables;
    Db(tables, db.trace + [a])
  }

  /** Several actions, in order. */
  function Run(db: Db, acts: seq<Action>): (r: Db)
    ensures r.trace == db.trace + acts
    decreases |acts|
  {
    if acts == [] then db
    else
      var r := Run(db, acts[..|acts| - 1]);
      assert acts == acts[..|acts| - 1] + [acts[|acts| - 1]];
      Apply(r, acts[|acts| - 1])
  }

  lemma {:induction false} RunAppend(db: Db, a: seq<Action>, b: seq<Action>)
    ensures Run(db, a + b) == Run(Run(db, a), b)
    decreases |b|
  {
    if b == [] {
      assert a + b == a;
    } else {
      assert (a + b)[..|a + b| - 1] == a + b[..|b| - 1];
      RunAppend(db, a, b[..|b| - 1]);
    }
  }

  // ---------------------------------------------------------------------------
  // `_adapt_column_type`

  /** What `_adapt_column_type` decides for a column of type `cur` asked to hold `incoming`. */
  datatype AdaptPlan =
    | Keep                      // lines 143-154: nothing to do
    | Refuse(to: SqlType)       // lines 160-166: altering is not allowed
    | Widen(to: SqlType)        // lines 168-196: ALTER, then the REORG check
    | MergeFailed(e: Error)     // merge_sql_types raised

  function PlanAdapt(env: Env, cur: SqlType, incoming: SqlType): AdaptPlan
    requires ValidEnv(env)
  {
    if Render(incoming) == Render(cur) then Keep
    else
      match MergeTypes([cur, incoming], env.order)
      case Err(e) => MergeFailed(e)
      case Ok(m) =>
        if Render(m) == Render(cur) then Keep
        else if !env.caps.allowColumnAlter then Refuse(m)
        else Widen(m)
  }

  /** The statements an alteration sends: the ALTER, the REORG check, and the REORG when one is pending. */
  function AlterActions(env: Env, table: string, column: string, t: SqlType): (r: seq<Action>)
    ensures 2 <= |r| <= 3
  {
    var check := ReorgCheckSql(table);
    [AlterColumn(table, column, t, AlterColumnDdl(env.quote(table), env.quote(column), t)), ReorgCheck(table, check)]
      + (if env.reorgPending(check) then [Reorg(table, ReorgCommand(env.quote(table)))] else [])
  }

  /** The database after, and the exception from, `_adapt_column_type(table, column, incoming)`. */
  datatype Outcome = Outcome(db: Db, err: Option<Error>)

  function AdaptColumn(env: Env, db: Db, table: string, column: string, incoming: SqlType): Outcome
    requires ValidEnv(env)
  {
    var cur := if table in db.tables then ColumnTypeOf(db.tables[table], column) else None;
    if cur.None? then Outcome(db, Some(NoSuchColumn(table, column)))
    else
      match PlanAdapt(env, cur.value, incoming)
      case Keep => Outcome(db, None)
      case Refuse(m) => Outcome(db, Some(AlterNotSupported(table, column, cur.value, m)))
      case MergeFailed(e) => Outcome(db, Some(e))
      case Widen(m) => Outcome(Run(db, AlterActions(env, table, column, m)), None)
  }

  /** `_create_empty_column` (lines 198-224): refused when adding columns is not allowed. */
  function CreateEmptyColumn(env: Env, db: Db, table: string, column: string, t: SqlType): Outcome
  {
    if !env.caps.allowColumnAdd then Outcome(db, Some(AddNotSupported))
    else Outcome(Apply(db, AddColumn(table, column, t)), None)
  }

  /** The SDK's `prepare_column`: add the column when it is missing, otherwise adapt it. */
  function PrepareColumn(env: Env, db: Db, table: string, column: string, t: SqlType): Outcome
    requires ValidEnv(env)
  {
    if table !in db.tables then Outcome(db, Some(NoSuchTable(table)))
    else if ColumnTypeOf(db.tables[table], column).None? then CreateEmptyColumn(env, db, table, column, t)
    else AdaptColumn(env, db, table, column, t)
  }

  /**
   * The decision of lines 143-166: merging never fails, nothing is done exactly
   * when the new type renders like the current one or the merge keeps the current
   * one, and otherwise the column is to become exactly the new type, which is
   * refused unless altering is allowed.
   */
  lemma {:induction false} PlanAdaptDecides(env: Env, cur: SqlType, incoming: SqlType)
    requires ValidEnv(env)
    ensures !PlanAdapt(env, cur, incoming).MergeFailed?
    ensures PlanAdapt(env, cur, incoming).Keep?
        <==> Render(incoming) == Render(cur) || MergeTypes([cur, incoming], env.order) == Ok(cur)
    ensures PlanAdapt(env, cur, incoming).Refuse?
        ==> PlanAdapt(env, cur, incoming).to == incoming && !env.caps.allowColumnAlter
    ensures PlanAdapt(env, cur, incoming).Widen?
        ==> PlanAdapt(env, cur, incoming).to == incoming && env.caps.allowColumnAlter
  {
    MergeResultIsInput([cur, incoming], env.order);
  }

  /**
   * With the current connector's flags a change is never refused: a column is
   * kept, or altered to exactly the requested type.
   */
  lemma ConnectorNeverRefuses(env: Env, cur: SqlType, incoming: SqlType)
    requires ValidEnv(env) && env.caps == ConnectorCapabilities
    ensures PlanAdapt(env, cur, incoming).Keep? || PlanAdapt(env, cur, incoming) == Widen(incoming)
  {
    PlanAdaptDecides(env, cur, incoming);
  }

  /** `WithColumnType` retypes the named column and leaves the others' types as they were. */
  lemma {:induction false} ColumnTypeOfRetyped(cols: seq<Column>, column: string, t: SqlType, other: string)
    ensures ColumnTypeOf(cols, column).Some? ==> ColumnTypeOf(WithColumnType(cols, column, t), column) == Some(t)
    ensures ColumnTypeOf(cols, column).None? ==> ColumnTypeOf(WithColumnType(cols, column, t), column).None?
    ensures other != column ==> ColumnTypeOf(WithColumnType(cols, column, t), other) == ColumnTypeOf(cols, other)
    decreases |cols|
  {
    if cols != [] {
      var r := WithColumnType(cols, column, t);
      assert r[1..] == WithColumnType(cols[1..], column, t);
      ColumnTypeOfRetyped(cols[1..], column, t, other);
      if cols[0].name == column {
        assert r[0] == cols[0].(sqlType := t);
      } else {
        assert r[0] == cols[0];
        assert ColumnTypeOf(r, column) == ColumnTypeOf(r[1..], column);
        assert ColumnTypeOf(cols, column) == ColumnTypeOf(cols[1..], column);
      }
    }
  }

  /** Sending the alteration's statements one by one is running them. */
  lemma AlterActionsRun(env: Env, db: Db, table: string, column: string, t: SqlType)
    ensures var check := ReorgCheckSql(table);
      var d := Apply(Apply(db, AlterColumn(table, column, t, AlterColumnDdl(env.quote(table), env.quote(column), t))), ReorgCheck(table, check));
      Run(db, AlterActions(env, table, column, t)) == if env.reorgPending(check) then Apply(d, Reorg(table, ReorgCommand(env.quote(table)))) else d
  {
    var acts := AlterActions(env, table, column, t);
    var d1 := Apply(db, acts[0]);
    assert Run(db, acts[..1]) == d1 by {
      assert acts[..1][..0] == [];
    }
    assert Run(db, acts[..2]) == Apply(d1, acts[1]) by {
      assert acts[..2][..1] == acts[..1];
    }
    if |acts| == 3 {
      assert acts[..3][..2] == acts[..2];
      assert acts[..3] == acts;
    } else {
      assert acts[..2] == acts;
    }
  }

  /** An alteration retypes the column in the catalogue; the REORG check and the REORG change no table. */
  lemma AlterActionsEffect(env: Env, db: Db, table: string, column: string, t: SqlType)
    requires table in db.tables
    ensures Run(db, AlterActions(env, table, column, t)).tables
         == db.tables[table := WithColumnType(db.tables[table], column, t)]
  {
    AlterActionsRun(env, db, table, column, t);
  }

  /**
   * `_adapt_column_type` has three outcomes: nothing sent, an exception with
   * nothing sent, or the ALTER to exactly the new type followed by the REORG
   * check and, only when that query answers true, the REORG. The last needs
   * altering to be allowed.
   */
  lemma AdaptColumnOutcomes(env: Env, db: Db, table: string, column: string, incoming: SqlType)
    requires ValidEnv(env)
    ensures var o := AdaptColumn(env, db, table, column, incoming);
      || o == Outcome(db, None)
      || (o.db == db && o.err.Some?)
      || (&& env.caps.allowColumnAlter
          && o.err.None?
          && o.db == Run(db, AlterActions(env, table, column, incoming))
          && table in db.tables
          && o.db.tables == db.tables[table := WithColumnType(db.tables[table], column, incoming)])
    ensures !env.caps.allowColumnAlter ==> AdaptColumn(env, db, table, column, incoming).db == db
  {
    if table in db.tables && ColumnTypeOf(db.tables[table], column).Some? {
      var cur := ColumnTypeOf(db.tables[table], column).value;
      PlanAdaptDecides(env, cur, incoming);
      AlterActionsEffect(env, db, table, column, incoming);
    }
  }

  /** Adapting a column a second time to the same type sends nothing and raises nothing. */
  lemma AdaptColumnTwiceIsNoOp(env: Env, db: Db, table: string, column: string, incoming: SqlType)
    requires ValidEnv(env)
    requires AdaptColumn(env, db, table, column, incoming).err.None?
    ensures var db1 := AdaptColumn(env, db, table, column, incoming).db;
      AdaptColumn(env, db1, table, column, incoming) == Outcome(db1, None)
  {
    var cur := ColumnTypeOf(db.tables[table], column).value;
    PlanAdaptDecides(env, cur, incoming);
    if PlanAdapt(env, cur, incoming).Widen? {
      AlterActionsEffect(env, db, table, column, incoming);
      ColumnTypeOfRetyped(db.tables[table], column, incoming, column);
    }
  }

  // ---------------------------------------------------------------------------
  // `create_empty_table` and `prepare_table`

  /** A property as `schema["properties"]` lists it: its name and its JSON schema. */
  type PropertyView = (string, JsonSchemaType)

  /** The property's JSON schema after `to_sql_type` has written its default `maxLength`. */
  function Defaulted(env: Env, p: PropertyView, primaryKeys: seq<string>): JsonSchemaType
  {
    WithDefaultLength(p.1, p.0 in primaryKeys, env.varcharSize)
  }

  /** `to_sql_type(property, name in primary_keys)`. */
  function PropertyType(env: Env, p: PropertyView, primaryKeys: seq<string>): Result<SqlType, Error>
  {
    MapType(Defaulted(env, p, primaryKeys), env.varcharSize, env.base)
  }

  /**
   * The properties after `to_sql_type` ran on the first `n` of them: those carry
   * their default `maxLength`, the rest are untouched.
   */
  function DefaultedPrefix(env: Env, props: seq<PropertyView>, primaryKeys: seq<string>, n: nat): (r: seq<PropertyView>)
    ensures |r| == |props|
  {
    seq(|props|, i requires 0 <= i < |props| =>
      if i < n then (props[i].0, Defaulted(env, props[i], primaryKeys)) else props[i])
  }

  /** The columns built so far, the exception raised, and how many properties `to_sql_type` has seen. */
  datatype Built = Built(columns: seq<Column>, err: Option<Error>, visited: nat)

  /** The column loop of `create_empty_table` (lines 423-433), stopping at the first failing property. */
  function TableColumns(env: Env, props: seq<PropertyView>, primaryKeys: seq<string>): (b: Built)
    ensures b.visited <= |props|
    decreases |props|
  {
    if props == [] then Built([], None, 0)
    else
      var b := TableColumns(env, props[..|props| - 1], primaryKeys);
      var p := props[|props| - 1];
      if b.err.Some? then b
      else
        match PropertyType(env, p, primaryKeys)
        case Err(e) => Built(b.columns, Some(e), |props|)
        case Ok(t) => Built(b.columns + [Column(p.0, t, p.0 in primaryKeys)], None, |props|)
  }

  /** The database after, the exception from, and the properties visited by one step. */
  datatype Progress = Progress(db: Db, err: Option<Error>, visited: nat)

  /**
   * `create_empty_table` (lines 386-436): temporary tables are refused before the
   * schema is read, a schema without `properties` is an error, and `create_all`
   * leaves an existing table alone.
   */
  function CreateEmptyTable(env: Env, db: Db, table: string, props: Option<seq<PropertyView>>,
                            primaryKeys: seq<string>, asTempTable: bool): (r: Progress)
    ensures props.Some? ==> r.visited <= |props.value|
  {
    if asTempTable then Progress(db, Some(TempTablesNotSupported), 0)
    else if props.None? then Progress(db, Some(MissingProperties(table)), 0)
    else
      var b := TableColumns(env, props.value, primaryKeys);
      if b.err.Some? then Progress(db, b.err, b.visited)
      else if table in db.tables then Progress(db, None, b.visited)
      else Progress(Apply(db, CreateTable(table, b.columns)), None, b.visited)
  }

  /** The loop of lines 263-268: `prepare_column` for each property in order, stopping at the first exception. */
  function PrepareColumns(env: Env, db: Db, table: string, props: seq<PropertyView>, primaryKeys: seq<string>): (r: Progress)
    requires ValidEnv(env)
    ensures r.visited <= |props|
    decreases |props|
  {
    if props == [] then Progress(db, None, 0)
    else
      var r := PrepareColumns(env, db, table, props[..|props| - 1], primaryKeys);
      var p := props[|props| - 1];
      if r.err.Some? then r
      else
        match PropertyType(env, p, primaryKeys)
        case Err(e) => Progress(r.db, Some(e), |props|)
        case Ok(t) =>
          var o := PrepareColumn(env, r.db, table, p.0, t);
          Progress(o.db, o.err, |props|)
  }

  /** One step of the column loop: a loop that raises nothing had a front that raised nothing and a typed last property. */
  lemma PrepareColumnsLast(env: Env, db: Db, table: string, props: seq<PropertyView>, primaryKeys: seq<string>)
    requires ValidEnv(env) && props != []
    requires PrepareColumns(env, db, table, props, primaryKeys).err.None?
    ensures PrepareColumns(env, db, table, props[..|props| - 1], primaryKeys).err.None?
    ensures PropertyType(env, props[|props| - 1], primaryKeys).Ok?
    ensures var f := PrepareColumns(env, db, table, props[..|props| - 1], primaryKeys);
      var p := props[|props| - 1];
      var o := PrepareColumn(env, f.db, table, p.0, PropertyType(env, p, primaryKeys).value);
      PrepareColumns(env, db, table, props, primaryKeys) == Progress(o.db, o.err, |props|)
  {
  }

  /**
   * `prepare_table` (lines 226-268): an absent table is created; with OVERWRITE
   * an existing one is dropped and created again; otherwise every property is
   * prepared as a column.
   */
  function PrepareTable(env: Env, db: Db, table: string, props: Option<seq<PropertyView>>,
                        primaryKeys: seq<string>, asTempTable: bool): (r: Progress)
    requires ValidEnv(env)
    ensures props.Some? ==> r.visited <= |props.value|
  {
    if table !in db.tables then CreateEmptyTable(env, db, table, props, primaryKeys, asTempTable)
    else if env.loadMethod == Overwrite then
      CreateEmptyTable(env, Apply(db, DropTable(table)), table, props, primaryKeys, asTempTable)
    else if props.None? then Progress(db, Some(MissingProperties(table)), 0)
    else PrepareColumns(env, db, table, props.value, primaryKeys)
  }

  /**
   * The columns of a new table follow the properties in order, named after them,
   * flagged as primary key exactly when listed in `primary_keys`, typed by
   * `to_sql_type`; a failing property stops the loop and is the last one visited.
   */
  lemma {:induction false} TableColumnsShape(env: Env, props: seq<PropertyView>, primaryKeys: seq<string>)
    ensures var b := TableColumns(env, props, primaryKeys);
      b.err.None? ==>
        && b.visited == |props| && |b.columns| == |props|
        && forall i :: 0 <= i < |props| ==>
             && b.columns[i].name == props[i].0
             && b.columns[i].primaryKey == (props[i].0 in primaryKeys)
             && PropertyType(env, props[i], primaryKeys) == Ok(b.columns[i].sqlType)
    ensures var b := TableColumns(env, props, primaryKeys);
      b.err.Some? ==>
        && 1 <= b.visited
        && PropertyType(env, props[b.visited - 1], primaryKeys) == Err(b.err.value)
        && forall i :: 0 <= i < b.visited - 1 ==> PropertyType(env, props[i], primaryKeys).Ok?
    decreases |props|
  {
    if props != [] {
      var front := props[..|props| - 1];
      TableColumnsShape(env, front, primaryKeys);
      assert forall i :: 0 <= i < |front| ==> front[i] == props[i];
    }
  }

  /** With distinct names, a column is found by its own name. */
  lemma {:induction false} ColumnTypeOfDistinct(cols: seq<Column>, i: nat)
    requires i < |cols|
    requires forall j, k :: 0 <= j < k < |cols| ==> cols[j].name != cols[k].name
    ensures ColumnTypeOf(cols, cols[i].name) == Some(cols[i].sqlType)
    decreases i
  {
    if i > 0 {
      assert cols[0].name != cols[i].name;
      assert cols[1..][i - 1] == cols[i];
      ColumnTypeOfDistinct(cols[1..], i - 1);
    }
  }

  /** Appending a column does not change the type found for a name already present. */
  lemma {:induction false} ColumnTypeOfAppend(cols: seq<Column>, c: Column, name: string)
    ensures ColumnTypeOf(cols, name).Some? ==> ColumnTypeOf(cols + [c], name) == ColumnTypeOf(cols, name)
    ensures ColumnTypeOf(cols, name).None? ==>
      ColumnTypeOf(cols + [c], name) == (if c.name == name then Some(c.sqlType) else None)
    decreases |cols|
  {
    if cols != [] {
      assert (cols + [c])[1..] == cols[1..] + [c];
      ColumnTypeOfAppend(cols[1..], c, name);
    } else {
      assert ([c])[1..] == [];
    }
  }

  // ---------------------------------------------------------------------------
  // A second `prepare_table` sends nothing

  /** Property names are dict keys, so distinct. */
  predicate DistinctNames(props: seq<PropertyView>)
  {
    forall i, j :: 0 <= i < j < |props| ==> props[i].0 != props[j].0
  }

  /** Every property has a column that `_adapt_column_type` would keep as it is. */
  ghost predicate Settled(env: Env, cols: seq<Column>, props: seq<PropertyView>, primaryKeys: seq<string>)
    requires ValidEnv(env)
  {
    forall i :: 0 <= i < |props| ==>
      && PropertyType(env, props[i], primaryKeys).Ok?
      && ColumnTypeOf(cols, props[i].0).Some?
      && PlanAdapt(env, ColumnTypeOf(cols, props[i].0).value, PropertyType(env, props[i], primaryKeys).value) == Keep
  }

  /** Adding a column for a new property keeps the others settled and settles it. */
  lemma AddedColumnSettles(env: Env, cols: seq<Column>, front: seq<PropertyView>, p: PropertyView,
                           t: SqlType, primaryKeys: seq<string>)
    requires ValidEnv(env)
    requires Settled(env, cols, front, primaryKeys)
    requires ColumnTypeOf(cols, p.0).None? && PropertyType(env, p, primaryKeys) == Ok(t)
    ensures Settled(env, cols + [Column(p.0, t, false)], front + [p], primaryKeys)
  {
    var c := Column(p.0, t, false);
    var props := front + [p];
    forall i | 0 <= i < |props|
      ensures ColumnTypeOf(cols + [c], props[i].0).Some?
      ensures PlanAdapt(env, ColumnTypeOf(cols + [c], props[i].0).value, PropertyType(env, props[i], primaryKeys).value) == Keep
    {
      ColumnTypeOfAppend(cols, c, props[i].0);
      if i < |front| {
        assert props[i] == front[i];
      }
    }
  }

  /** Retyping a property's column to its new type keeps the others settled and settles it. */
  lemma RetypedColumnSettles(env: Env, cols: seq<Column>, front: seq<PropertyView>, p: PropertyView,
                             t: SqlType, primaryKeys: seq<string>)
    requires ValidEnv(env)
    requires Settled(env, cols, front, primaryKeys)
    requires forall i :: 0 <= i < |front| ==> front[i].0 != p.0
    requires ColumnTypeOf(cols, p.0).Some? && PropertyType(env, p, primaryKeys) == Ok(t)
    ensures Settled(env, WithColumnType(cols, p.0, t), front + [p], primaryKeys)
  {
    var cols' := WithColumnType(cols, p.0, t);
    var props := front + [p];
    forall i | 0 <= i < |props|
      ensures ColumnTypeOf(cols', props[i].0).Some?
      ensures PlanAdapt(env, ColumnTypeOf(cols', props[i].0).value, PropertyType(env, props[i], primaryKeys).value) == Keep
    {
      ColumnTypeOfRetyped(cols, p.0, t, props[i].0);
      if i < |front| {
        assert props[i] == front[i];
      }
    }
  }

  /** One `prepare_column` that raises nothing keeps the earlier properties settled and settles its own. */
  lemma PrepareColumnSettles(env: Env, db: Db, table: string, front: seq<PropertyView>, p: PropertyView,
                             t: SqlType, primaryKeys: seq<string>)
    requires ValidEnv(env)
    requires table in db.tables && Settled(env, db.tables[table], front, primaryKeys)
    requires forall i :: 0 <= i < |front| ==> front[i].0 != p.0
    requires PropertyType(env, p, primaryKeys) == Ok(t)
    requires PrepareColumn(env, db, table, p.0, t).err.None?
    ensures var o := PrepareColumn(env, db, table, p.0, t);
      table in o.db.tables && Settled(env, o.db.tables[table], front + [p], primaryKeys)
  {
    var cols := db.tables[table];
    if ColumnTypeOf(cols, p.0).None? {
      AddedColumnSettles(env, cols, front, p, t, primaryKeys);
    } else {
      var cur := ColumnTypeOf(cols, p.0).value;
      PlanAdaptDecides(env, cur, t);
      if PlanAdapt(env, cur, t).Widen? {
        AlterActionsEffect(env, db, table, p.0, t);
        RetypedColumnSettles(env, cols, front, p, t, primaryKeys);
      } else {
        assert PlanAdapt(env, cur, t).Keep?;
        assert PlanAdapt(env, ColumnTypeOf(cols, p.0).value, PropertyType(env, p, primaryKeys).value) == Keep;
        assert forall i :: 0 <= i < |front| ==> (front + [p])[i] == front[i];
      }
    }
  }

  /** A `prepare_table` column loop that raises nothing leaves every property settled. */
  lemma {:induction false} PrepareColumnsSettles(env: Env, db: Db, table: string, props: seq<PropertyView>,
                                                 primaryKeys: seq<string>)
    requires ValidEnv(env)
    requires table in db.tables && DistinctNames(props)
    requires PrepareColumns(env, db, table, props, primaryKeys).err.None?
    ensures var r := PrepareColumns(env, db, table, props, primaryKeys);
      && r.visited == |props|
      && table in r.db.tables
      && Settled(env, r.db.tables[table], props, primaryKeys)
    decreases |props|
  {
    if props != [] {
      var front := props[..|props| - 1];
      var p := props[|props| - 1];
      assert props == front + [p];
      PrepareColumnsLast(env, db, table, props, primaryKeys);
      DistinctNamesFront(front, p);
      PrepareColumnsSettles(env, db, table, front, primaryKeys);
      var rf := PrepareColumns(env, db, table, front, primaryKeys);
      var t := PropertyType(env, p, primaryKeys).value;
      PrepareColumnSettles(env, rf.db, table, front, p, t, primaryKeys);
    }
  }

  /** Dropping the last property keeps the names distinct, and the last name is not among the others. */
  lemma DistinctNamesFront(front: seq<PropertyView>, p: PropertyView)
    requires DistinctNames(front + [p])
    ensures DistinctNames(front)
    ensures forall i :: 0 <= i < |front| ==> front[i].0 != p.0
  {
    assert forall i :: 0 <= i < |front| ==> (front + [p])[i] == front[i];
    assert (front + [p])[|front|] == p;
  }

  /** When every property is settled, the column loop sends nothing and raises nothing. */
  lemma {:induction false} SettledColumnsAreQuiet(env: Env, db: Db, table: string, props: seq<PropertyView>,
                                                  primaryKeys: seq<string>)
    requires ValidEnv(env)
    requires table in db.tables && Settled(env, db.tables[table], props, primaryKeys)
    ensures PrepareColumns(env, db, table, props, primaryKeys) == Progress(db, None, |props|)
    decreases |props|
  {
    if props != [] {
      var front := props[..|props| - 1];
      assert forall i :: 0 <= i < |front| ==> front[i] == props[i];
      SettledColumnsAreQuiet(env, db, table, front, primaryKeys);
    }
  }

  /** `to_sql_type` gives the same type for a property it has already defaulted. */
  lemma DefaultedPrefixSameTypes(env: Env, props: seq<PropertyView>, primaryKeys: seq<string>, n: nat)
    ensures forall i :: 0 <= i < |props| ==>
      && DefaultedPrefix(env, props, primaryKeys, n)[i].0 == props[i].0
      && PropertyType(env, DefaultedPrefix(env, props, primaryKeys, n)[i], primaryKeys) == PropertyType(env, props[i], primaryKeys)
  {
    forall i | 0 <= i < |props| && i < n {
      DefaultingIsIdempotent(props[i].1, props[i].0 in primaryKeys, props[i].0 in primaryKeys, env.varcharSize);
    }
  }

  /** A table just created from the properties has every property settled. */
  lemma CreatedTableIsSettled(env: Env, props: seq<PropertyView>, primaryKeys: seq<string>)
    requires ValidEnv(env) && DistinctNames(props)
    requires TableColumns(env, props, primaryKeys).err.None?
    ensures Settled(env, TableColumns(env, props, primaryKeys).columns, props, primaryKeys)
  {
    TableColumnsShape(env, props, primaryKeys);
    var cols := TableColumns(env, props, primaryKeys).columns;
    forall i | 0 <= i < |props|
      ensures ColumnTypeOf(cols, props[i].0) == Some(cols[i].sqlType)
    {
      ColumnTypeOfDistinct(cols, i);
    }
  }

  /**
   * Without OVERWRITE, running `prepare_table` again on the schema it has just
   * applied (with the `maxLength` values it wrote) sends no statement and raises
   * nothing: every column already has a type the merge keeps.
   */
  lemma PrepareTableTwiceIsQuiet(env: Env, db: Db, table: string, props: seq<PropertyView>, primaryKeys: seq<string>)
    requires ValidEnv(env) && env.loadMethod != Overwrite && DistinctNames(props)
    requires PrepareTable(env, db, table, Some(props), primaryKeys, false).err.None?
    ensures var r := PrepareTable(env, db, table, Some(props), primaryKeys, false);
      && r.visited == |props|
      && PrepareTable(env, r.db, table, Some(DefaultedPrefix(env, props, primaryKeys, r.visited)), primaryKeys, false)
         == Progress(r.db, None, |props|)
  {
    var r := PrepareTable(env, db, table, Some(props), primaryKeys, false);
    if table !in db.tables {
      TableColumnsShape(env, props, primaryKeys);
      CreatedTableIsSettled(env, props, primaryKeys);
    } else {
      PrepareColumnsSettles(env, db, table, props, primaryKeys);
    }
    var props2 := DefaultedPrefix(env, props, primaryKeys, r.visited);
    DefaultedPrefixSameTypes(env, props, primaryKeys, r.visited);
    assert Settled(env, r.db.tables[table], props2, primaryKeys);
    SettledColumnsAreQuiet(env, r.db, table, props2, primaryKeys);
  }

  // ---------------------------------------------------------------------------
  // The routes of `create_empty_table` and `prepare_table`

  /**
   * `create_empty_table` refuses a temporary table before reading the schema,
   * then a schema without properties; whatever raises sends nothing. On success
   * every property was visited, and the table is created from the columns
   * unless it already exists.
   */
  lemma CreateEmptyTableOutcomes(env: Env, db: Db, table: string, props: Option<seq<PropertyView>>,
                                 primaryKeys: seq<string>, asTempTable: bool)
    ensures var r := CreateEmptyTable(env, db, table, props, primaryKeys, asTempTable);
      && (asTempTable ==> r == Progress(db, Some(TempTablesNotSupported), 0))
      && (!asTempTable && props.None? ==> r == Progress(db, Some(MissingProperties(table)), 0))
      && (r.err.Some? || table in db.tables ==> r.db == db)
      && (r.err.None? ==> props.Some? && r.visited == |props.value|)
      && (r.err.None? && table !in db.tables ==>
            r.db == Apply(db, CreateTable(table, TableColumns(env, props.value, primaryKeys).columns)))
  {
    if props.Some? {
      TableColumnsShape(env, props.value, primaryKeys);
    }
  }

  /**
   * The statements the column loop may send: ADD COLUMN and the ALTER of lines
   * 108-115 on the table, and the REORG check and command of lines 173-186 for
   * that same table.
   */
  predicate ColumnLevel(env: Env, a: Action, table: string)
  {
    || (a.AddColumn? && a.table == table)
    || (a.AlterColumn? && a.table == table && a.ddl == AlterColumnDdl(env.quote(table), env.quote(a.column), a.sqlType))
    || (a.ReorgCheck? && a.table == table && a.query == ReorgCheckSql(table))
    || (a.Reorg? && a.table == table && a.command == ReorgCommand(env.quote(table)))
  }

  /** What staying within one table means: the log only grows by column DDL, and no other table changes. */
  predicate OnlyColumnsOf(env: Env, before: Db, after: Db, table: string)
  {
    && |before.trace| <= |after.trace|
    && after.trace[..|before.trace|] == before.trace
    && (forall k :: |before.trace| <= k < |after.trace| ==> ColumnLevel(env, after.trace[k], table))
    && after.tables.Keys == before.tables.Keys
    && (forall t :: t in before.tables && t != table ==> after.tables[t] == before.tables[t])
  }

  lemma OnlyColumnsOfTransitive(env: Env, a: Db, b: Db, c: Db, table: string)
    requires OnlyColumnsOf(env, a, b, table) && OnlyColumnsOf(env, b, c, table)
    ensures OnlyColumnsOf(env, a, c, table)
  {
    assert c.trace[..|a.trace|] == c.trace[..|b.trace|][..|a.trace|];
    forall k | |a.trace| <= k < |c.trace|
      ensures ColumnLevel(env, c.trace[k], table)
    {
      if k < |b.trace| {
        assert c.trace[k] == c.trace[..|b.trace|][k] == b.trace[k];
      }
    }
  }

  /** Widening a column stays within its table. */
  lemma AlterActionsOnlyColumns(env: Env, db: Db, table: string, column: string, t: SqlType)
    requires table in db.tables
    ensures OnlyColumnsOf(env, db, Run(db, AlterActions(env, table, column, t)), table)
  {
    var acts := AlterActions(env, table, column, t);
    var after := Run(db, acts);
    AlterActionsEffect(env, db, table, column, t);
    AlterActionsColumnLevel(env, table, column, t);
    assert after.tables.Keys == db.tables.Keys;
    assert after.trace == db.trace + acts;
    assert after.trace[..|db.trace|] == db.trace;
    forall k | |db.trace| <= k < |after.trace|
      ensures ColumnLevel(env, after.trace[k], table)
    {
      assert after.trace[k] == acts[k - |db.trace|];
    }
  }

  /** The ALTER, the REORG check and the REORG are all column-level statements on the table. */
  lemma AlterActionsColumnLevel(env: Env, table: string, column: string, t: SqlType)
    ensures forall i :: 0 <= i < |AlterActions(env, table, column, t)| ==> ColumnLevel(env, AlterActions(env, table, column, t)[i], table)
  {
  }

  /** `_create_empty_column`'s ADD COLUMN stays within its table. */
  lemma AddColumnOnlyColumns(env: Env, db: Db, table: string, column: string, t: SqlType)
    requires table in db.tables
    ensures OnlyColumnsOf(env, db, Apply(db, AddColumn(table, column, t)), table)
  {
    var after := Apply(db, AddColumn(table, column, t));
    assert after.trace == db.trace + [AddColumn(table, column, t)];
  }

  /** One `prepare_column` stays within its table. */
  lemma PrepareColumnOnlyColumns(env: Env, db: Db, table: string, column: string, t: SqlType)
    requires ValidEnv(env) && table in db.tables
    ensures OnlyColumnsOf(env, db, PrepareColumn(env, db, table, column, t).db, table)
  {
    var o := PrepareColumn(env, db, table, column, t);
    var cur := ColumnTypeOf(db.tables[table], column);
    if cur.None? {
      if env.caps.allowColumnAdd {
        assert o.db == Apply(db, AddColumn(table, column, t));
        AddColumnOnlyColumns(env, db, table, column, t);
      } else {
        assert o.db == db;
      }
    } else {
      match PlanAdapt(env, cur.value, t)
      case Widen(m) =>
        assert o.db == Run(db, AlterActions(env, table, column, m));
        AlterActionsOnlyColumns(env, db, table, column, m);
      case _ =>
        assert o.db == db;
    }
  }

  /** The column loop stays within its table. */
  lemma {:induction false} PrepareColumnsOnlyColumns(env: Env, db: Db, table: string, props: seq<PropertyView>,
                                                     primaryKeys: seq<string>)
    requires ValidEnv(env) && table in db.tables
    ensures OnlyColumnsOf(env, db, PrepareColumns(env, db, table, props, primaryKeys).db, table)
    decreases |props|
  {
    if props != [] {
      var front := props[..|props| - 1];
      PrepareColumnsOnlyColumns(env, db, table, front, primaryKeys);
      var rf := PrepareColumns(env, db, table, front, primaryKeys);
      var p := props[|props| - 1];
      if rf.err.None? && PropertyType(env, p, primaryKeys).Ok? {
        PrepareColumnOnlyColumns(env, rf.db, table, p.0, PropertyType(env, p, primaryKeys).value);
        OnlyColumnsOfTransitive(env, db, rf.db, PrepareColumns(env, db, table, props, primaryKeys).db, table);
      }
    }
  }

  /**
   * The three routes of `prepare_table`: an absent table is only created; with
   * OVERWRITE the first statement drops the table, which is created afresh from
   * the schema on success and stays dropped when creation raises; otherwise only
   * column DDL on this table is sent.
   */
  lemma PrepareTableRoutes(env: Env, db: Db, table: string, props: Option<seq<PropertyView>>,
                           primaryKeys: seq<string>, asTempTable: bool)
    requires ValidEnv(env)
    ensures var r := PrepareTable(env, db, table, props, primaryKeys, asTempTable);
      && (table !in db.tables ==> r == CreateEmptyTable(env, db, table, props, primaryKeys, asTempTable))
      && (table in db.tables && env.loadMethod == Overwrite ==>
            && |r.db.trace| > |db.trace| && r.db.trace[|db.trace|] == DropTable(table)
            && (r.err.None? ==> r.db.tables == (db.tables - {table})[table := TableColumns(env, props.value, primaryKeys).columns])
            && (r.err.Some? ==> table !in r.db.tables))
      && (table in db.tables && env.loadMethod != Overwrite ==> OnlyColumnsOf(env, db, r.db, table))
  {
    if table in db.tables {
      if env.loadMethod == Overwrite {
        var dropped := Apply(db, DropTable(table));
        CreateEmptyTableOutcomes(env, dropped, table, props, primaryKeys, asTempTable);
        var r := PrepareTable(env, db, table, props, primaryKeys, asTempTable);
        assert r.db.trace[..|dropped.trace|] == dropped.trace;
        assert r.db.trace[|db.trace|] == dropped.trace[|db.trace|];
      } else if props.Some? {
        PrepareColumnsOnlyColumns(env, db, table, props.value, primaryKeys);
      }
    }
  }

  /** A column loop that raises nothing visited every property, and each one had a column type. */
  lemma {:induction false} PrepareColumnsSucceeds(env: Env, db: Db, table: string, props: seq<PropertyView>,
                                                  primaryKeys: seq<string>)
    requires ValidEnv(env) && table in db.tables
    requires PrepareColumns(env, db, table, props, primaryKeys).err.None?
    ensures var r := PrepareColumns(env, db, table, props, primaryKeys);
      r.visited == |props| && table in r.db.tables
    ensures forall i :: 0 <= i < |props| ==> PropertyType(env, props[i], primaryKeys).Ok?
    decreases |props|
  {
    PrepareColumnsOnlyColumns(env, db, table, props, primaryKeys);
    if props != [] {
      var front := props[..|props| - 1];
      PrepareColumnsLast(env, db, table, props, primaryKeys);
      PrepareColumnsSucceeds(env, db, table, front, primaryKeys);
      forall i | 0 <= i < |props|
        ensures PropertyType(env, props[i], primaryKeys).Ok?
      {
        if i < |front| {
          assert front[i] == props[i];
        } else {
          assert i == |props| - 1;
        }
      }
    }
  }

  /**
   * A `prepare_table` that raises nothing visited every property, each one had
   * a column type, and the table exists afterwards.
   */
  lemma PrepareTableSucceeds(env: Env, db: Db, table: string, props: seq<PropertyView>,
                             primaryKeys: seq<string>, asTempTable: bool)
    requires ValidEnv(env)
    requires PrepareTable(env, db, table, Some(props), primaryKeys, asTempTable).err.None?
    ensures var r := PrepareTable(env, db, table, Some(props), primaryKeys, asTempTable);
      r.visited == |props| && table in r.db.tables
    ensures forall i :: 0 <= i < |props| ==> PropertyType(env, props[i], primaryKeys).Ok?
  {
    TableColumnsShape(env, props, primaryKeys);
    if table !in db.tables {
      CreateEmptyTableOutcomes(env, db, table, Some(props), primaryKeys, asTempTable);
    } else if env.loadMethod == Overwrite {
      CreateEmptyTableOutcomes(env, Apply(db, DropTable(table)), table, Some(props), primaryKeys, asTempTable);
    } else {
      PrepareColumnsSucceeds(env, db, table, props, primaryKeys);
    }
  }

  /** The tables an action creates, drops, changes or fills. */
  function ActionTables(a: Action): set<string>
  {
    match a
    case CreateTable(t, _) => {t}
    case DropTable(t) => {t}
    case AddColumn(t, _, _) => {t}
    case AlterColumn(t, _, _, _) => {t}
    case ReorgCheck(t, _) => {t}
    case Reorg(t, _) => {t}
    case BulkInsert(t, _) => {t}
    case ExecuteQueries(statements) => Dropped(statements)
  }

  /** `after` extends `before`'s log with actions on `table` alone, and no other table changes. */
  predicate TouchesOnly(before: Db, after: Db, table: string)
  {
    && |before.trace| <= |after.trace|
    && after.trace[..|before.trace|] == before.trace
    && (forall k :: |before.trace| <= k < |after.trace| ==> ActionTables(after.trace[k]) <= {table})
    && after.tables.Keys - {table} == before.tables.Keys - {table}
    && (forall t :: t != table && t in before.tables ==> t in after.tables && after.tables[t] == before.tables[t])
  }

  /** `prepare_table` sends statements about its own table only. */
  lemma PrepareTableTouchesOnly(env: Env, db: Db, table: string, props: Option<seq<PropertyView>>,
                                primaryKeys: seq<string>, asTempTable: bool)
    requires ValidEnv(env)
    ensures TouchesOnly(db, PrepareTable(env, db, table, props, primaryKeys, asTempTable).db, table)
  {
    var r := PrepareTable(env, db, table, props, primaryKeys, asTempTable);
    PrepareTableRoutes(env, db, table, props, primaryKeys, asTempTable);
    if table !in db.tables {
      CreateEmptyTableOutcomes(env, db, table, props, primaryKeys, asTempTable);
    } else if env.loadMethod == Overwrite {
      var dropped := Apply(db, DropTable(table));
      CreateEmptyTableOutcomes(env, dropped, table, props, primaryKeys, asTempTable);
      assert dropped.trace == db.trace + [DropTable(table)];
      assert r.db.trace[..|dropped.trace|] == dropped.trace;
      assert r.db.trace[..|db.trace|] == dropped.trace[..|db.trace|];
      forall k | |db.trace| <= k < |r.db.trace|
        ensures ActionTables(r.db.trace[k]) <= {table}
      {
        if k == |db.trace| {
          assert r.db.trace[k] == dropped.trace[k];
        }
      }
    } else {
      assert forall k :: |db.trace| <= k < |r.db.trace| && ColumnLevel(env, r.db.trace[k], table) ==>
        ActionTables(r.db.trace[k]) <= {table};
    }
  }

  /** Defaulting a prefix of properties again defaults the longer prefix. */
  lemma DefaultedPrefixTwice(env: Env, props: seq<PropertyView>, primaryKeys: seq<string>, n: nat, m: nat)
    ensures DefaultedPrefix(env, DefaultedPrefix(env, props, primaryKeys, n), primaryKeys, m)
         == DefaultedPrefix(env, props, primaryKeys, if n < m then m else n)
  {
    var once := DefaultedPrefix(env, props, primaryKeys, n);
    forall i | 0 <= i < |props| && i < n && i < m {
      DefaultingIsIdempotent(props[i].1, props[i].0 in primaryKeys, props[i].0 in primaryKeys, env.varcharSize);
    }
  }
}
