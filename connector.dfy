/**
 * `DB2Connector` (target_db2/connector.py lines 49-441) as an object: the
 * database it talks to is the catalogue of tables and the log of statements
 * sent, both of which its DDL methods extend step by step. Each method is
 * proved to do exactly what the matching function of `Evolution` says.
 */
module Connector {
  import opened Results
  import opened SqlTypes
  import opened Errors
  import opened TypeMerge
  import opened TypeMapping
  import opened SqlText
  import opened Schema
  import opened Evolution

  class DB2Connector {
    /** The capability flags, settings and SDK collaborators. */
    const env: Env
    /** The catalogue: table name to columns. */
    var tables: map<string, seq<Column>>
    /** Every statement sent so far, in order. */
    var trace: seq<Action>

    function State(): Db
      reads this
    {
      Db(tables, trace)
    }

    constructor (env: Env, db: Db)
      requires ValidEnv(env)
      ensures this.env == env && State() == db
    {
      this.env := env;
      tables, trace := db.tables, db.trace;
    }

    /** Sends one statement to Db2. */
    method Execute(a: Action)
      modifies this
      ensures State() == Apply(old(State()), a)
    {
      var after := Apply(State(), a);
      tables, trace := after.tables, after.trace;
    }

    /**
     * `to_sql_type` (lines 291-316): writes the default `maxLength` into the
     * property's dict, then maps the updated dict to a column type.
     */
    method ToSqlType(p: PropertySchema, isPrimaryKey: bool) returns (r: Result<SqlType, Error>)
      modifies p
      ensures p.View() == WithDefaultLength(old(p.View()), isPrimaryKey, env.varcharSize)
      ensures r == MapType(p.View(), env.varcharSize, env.base)
    {
      var stringLength := if isPrimaryKey then MaxPkStringSize else env.varcharSize;
      if "string" in p.types && !p.datelike && p.maxLength.None? {
        p.maxLength := Some(stringLength as int);
      }
      r := MapType(p.View(), env.varcharSize, env.base);
    }

    /**
     * `_adapt_column_type` (lines 118-196): keep the column, refuse to alter it,
     * or send the ALTER and the REORG check, and the REORG when one is pending.
     */
    method AdaptColumnType(table: string, column: string, incoming: SqlType) returns (err: Option<Error>)
      requires ValidEnv(env)
      modifies this
      ensures Outcome(State(), err) == AdaptColumn(env, old(State()), table, column, incoming)
    {
      AdaptColumnBranches(env, State(), table, column, incoming);
      var current := if table in tables then ColumnTypeOf(tables[table], column) else None;
      if current.None? {
        return Some(NoSuchColumn(table, column));
      }
      var cur := current.value;
      if Render(incoming) == Render(cur) {
        return None;
      }
      var merged := MergeTypes([cur, incoming], env.order);
      if merged.Err? {
        return Some(merged.error);
      }
      var m := merged.value;
      if Render(m) == Render(cur) {
        return None;
      }
      if !env.caps.allowColumnAlter {
        return Some(AlterNotSupported(table, column, cur, m));
      }
      ghost var db := State();
      var check := ReorgCheckSql(table);
      Execute(AlterColumn(table, column, m, AlterColumnDdl(env.quote(table), env.quote(column), m)));
      Execute(ReorgCheck(table, check));
      if env.reorgPending(check) {
        Execute(Reorg(table, ReorgCommand(env.quote(table))));
      }
      AlterActionsRun(env, db, table, column, m);
      err := None;
    }

    /** `_create_empty_column` (lines 198-224). */
    method CreateEmptyColumn(table: string, column: string, t: SqlType) returns (err: Option<Error>)
      modifies this
      ensures Outcome(State(), err) == Evolution.CreateEmptyColumn(env, old(State()), table, column, t)
    {
      if !env.caps.allowColumnAdd {
        return Some(AddNotSupported);
      }
      Execute(AddColumn(table, column, t));
      err := None;
    }

    /** The SDK's `prepare_column`: add a missing column, adapt an existing one. */
    method PrepareColumn(table: string, column: string, t: SqlType) returns (err: Option<Error>)
      requires ValidEnv(env)
      modifies this
      ensures Outcome(State(), err) == Evolution.PrepareColumn(env, old(State()), table, column, t)
    {
      if table !in tables {
        return Some(NoSuchTable(table));
      }
      if ColumnTypeOf(tables[table], column).None? {
        err := CreateEmptyColumn(table, column, t);
      } else {
        err := AdaptColumnType(table, column, t);
      }
    }

    /**
     * `create_empty_table` (lines 386-436): one column per property, in order,
     * each typed by `to_sql_type` (which writes the default `maxLength` into
     * the property), then the table is created unless it exists.
     */
    method CreateEmptyTable(table: string, schema: TableSchema, primaryKeys: seq<string>, asTempTable: bool)
      returns (err: Option<Error>)
      requires SchemaWellFormed(schema)
      modifies this, SchemaObjects(schema)
      ensures var r := Evolution.CreateEmptyTable(env, old(State()), table, old(SchemaViews(schema)), primaryKeys, asTempTable);
        && State() == r.db && err == r.err
        && (schema.properties.Some? ==>
              Views(schema.properties.value) == DefaultedPrefix(env, old(Views(schema.properties.value)), primaryKeys, r.visited))
    {
      if asTempTable {
        return Some(TempTablesNotSupported);
      }
      if schema.properties.None? {
        return Some(MissingProperties(table));
      }
      var b := TableColumnsOf(schema.properties.value, primaryKeys);
      if b.err.Some? {
        return b.err;
      }
      if table !in tables {
        Execute(CreateTable(table, b.columns));
      }
      err := None;
    }

    /** The column loop of `create_empty_table` (lines 422-433), stopping at the first exception of `to_sql_type`. */
    method TableColumnsOf(props: Properties, primaryKeys: seq<string>) returns (b: Built)
      requires WellFormed(props)
      modifies Objects(props)
      ensures b == TableColumns(env, old(Views(props)), primaryKeys)
      ensures Views(props) == DefaultedPrefix(env, old(Views(props)), primaryKeys, b.visited)
    {
      ghost var views := Views(props);
      var columns: seq<Column> := [];
      var i := 0;
      while i < |props|
        invariant 0 <= i <= |props|
        invariant TableColumns(env, views[..i], primaryKeys) == Built(columns, None, i)
        invariant Views(props) == DefaultedPrefix(env, views, primaryKeys, i)
      {
        var name := props[i].0;
        var t := TypeProperty(props, views, i, primaryKeys);
        TableColumnsStep(env, views, primaryKeys, i);
        if t.Err? {
          TableColumnsStopped(env, views, primaryKeys, i + 1);
          return Built(columns, Some(t.error), i + 1);
        }
        columns := columns + [Column(name, t.value, name in primaryKeys)];
        i := i + 1;
      }
      assert views[..|props|] == views;
      b := Built(columns, None, |props|);
    }

    /**
     * `to_sql_type` on the i-th property, as both loops call it: the property is
     * defaulted in place and the others are left alone.
     */
    method TypeProperty(props: Properties, ghost views: seq<PropertyView>, i: nat, primaryKeys: seq<string>)
      returns (t: Result<SqlType, Error>)
      requires WellFormed(props) && i < |props| && |views| == |props|
      requires Views(props) == DefaultedPrefix(env, views, primaryKeys, i)
      modifies Objects(props)
      ensures Views(props) == DefaultedPrefix(env, views, primaryKeys, i + 1)
      ensures t == PropertyType(env, views[i], primaryKeys)
    {
      var p := props[i].1;
      assert Views(props)[i] == views[i];
      t := ToSqlType(p, props[i].0 in primaryKeys);
      forall j | 0 <= j < |props|
        ensures Views(props)[j] == DefaultedPrefix(env, views, primaryKeys, i + 1)[j]
      {
        if j != i {
          assert props[j].1 != p;
          assert Views(props)[j] == old(Views(props))[j];
        }
      }
    }

    /**
     * `prepare_table` (lines 226-268): create an absent table; with OVERWRITE drop
     * and create it again; otherwise `prepare_column` for each property in order.
     */
    method PrepareTable(table: string, schema: TableSchema, primaryKeys: seq<string>, asTempTable: bool)
      returns (err: Option<Error>)
      requires ValidEnv(env) && SchemaWellFormed(schema)
      modifies this, SchemaObjects(schema)
      ensures var r := Evolution.PrepareTable(env, old(State()), table, old(SchemaViews(schema)), primaryKeys, asTempTable);
        && State() == r.db && err == r.err
        && (schema.properties.Some? ==>
              Views(schema.properties.value) == DefaultedPrefix(env, old(Views(schema.properties.value)), primaryKeys, r.visited))
    {
      if table !in tables {
        err := CreateEmptyTable(table, schema, primaryKeys, asTempTable);
        return;
      }
      if env.loadMethod == Overwrite {
        Execute(DropTable(table));
        err := CreateEmptyTable(table, schema, primaryKeys, asTempTable);
        return;
      }
      if schema.properties.None? {
        return Some(MissingProperties(table));
      }
      err := PrepareColumns(table, schema.properties.value, primaryKeys);
    }

    /** Lines 263-268 of `prepare_table`: `prepare_column` for each property in order, stopping at the first exception. */
    method PrepareColumns(table: string, props: Properties, primaryKeys: seq<string>) returns (err: Option<Error>)
      requires ValidEnv(env) && WellFormed(props) && table in tables
      modifies this, Objects(props)
      ensures var r := Evolution.PrepareColumns(env, old(State()), table, old(Views(props)), primaryKeys);
        && State() == r.db && err == r.err
        && Views(props) == DefaultedPrefix(env, old(Views(props)), primaryKeys, r.visited)
    {
      ghost var views := Views(props);
      ghost var db := State();
      var i := 0;
      while i < |props|
        invariant 0 <= i <= |props|
        invariant Evolution.PrepareColumns(env, db, table, views[..i], primaryKeys) == Progress(State(), None, i)
        invariant Views(props) == DefaultedPrefix(env, views, primaryKeys, i)
      {
        var name := props[i].0;
        var t := TypeProperty(props, views, i, primaryKeys);
        PrepareColumnsStep(env, db, table, views, primaryKeys, i);
        if t.Err? {
          PrepareColumnsStopped(env, db, table, views, primaryKeys, i + 1);
          return Some(t.error);
        }
        var e := PrepareColumn(table, name, t.value);
        if e.Some? {
          PrepareColumnsStopped(env, db, table, views, primaryKeys, i + 1);
          return e;
        }
        i := i + 1;
      }
      assert views[..|props|] == views;
      err := None;
    }

    /** `execute_queries` (lines 438-441): the statements, sent in one transaction. */
    method ExecuteQueries(statements: seq<Statement>)
      modifies this
      ensures State() == Apply(old(State()), Evolution.ExecuteQueries(statements))
    {
      Execute(Evolution.ExecuteQueries(statements));
    }
  }

  /** `AdaptColumn` branch by branch, in the order `_adapt_column_type` tests them. */
  lemma AdaptColumnBranches(env: Env, db: Db, table: string, column: string, incoming: SqlType)
    requires ValidEnv(env)
    ensures var current := if table in db.tables then ColumnTypeOf(db.tables[table], column) else None;
      var a := AdaptColumn(env, db, table, column, incoming);
      && (current.None? ==> a == Outcome(db, Some(NoSuchColumn(table, column))))
      && (current.Some? && Render(incoming) == Render(current.value) ==> a == Outcome(db, None))
      && (current.Some? && Render(incoming) != Render(current.value) ==>
            var merged := MergeTypes([current.value, incoming], env.order);
            && (merged.Err? ==> a == Outcome(db, Some(merged.error)))
            && (merged.Ok? && Render(merged.value) == Render(current.value) ==> a == Outcome(db, None))
            && (merged.Ok? && Render(merged.value) != Render(current.value) && !env.caps.allowColumnAlter ==>
                  a == Outcome(db, Some(AlterNotSupported(table, column, current.value, merged.value))))
            && (merged.Ok? && Render(merged.value) != Render(current.value) && env.caps.allowColumnAlter ==>
                  a == Outcome(Run(db, AlterActions(env, table, column, merged.value)), None)))
  {
  }

  /** Once a property fails, the rest of the column loop is skipped. */
  lemma {:induction false} TableColumnsStopped(env: Env, views: seq<PropertyView>, primaryKeys: seq<string>, n: nat)
    requires 0 < n <= |views| && TableColumns(env, views[..n], primaryKeys).err.Some?
    ensures TableColumns(env, views, primaryKeys) == TableColumns(env, views[..n], primaryKeys)
    decreases |views| - n
  {
    if n < |views| {
      assert views[..n + 1][..n] == views[..n];
      TableColumnsStopped(env, views, primaryKeys, n + 1);
    } else {
      assert views[..n] == views;
    }
  }

  /** One turn of the loop of `create_empty_table`, on the prefix of the properties it has visited. */
  lemma TableColumnsStep(env: Env, views: seq<PropertyView>, primaryKeys: seq<string>, i: nat)
    requires i < |views| && TableColumns(env, views[..i], primaryKeys).err.None?
    ensures var b := TableColumns(env, views[..i], primaryKeys);
      TableColumns(env, views[..i + 1], primaryKeys) ==
        match PropertyType(env, views[i], primaryKeys)
        case Err(e) => Built(b.columns, Some(e), i + 1)
        case Ok(t) => Built(b.columns + [Column(views[i].0, t, views[i].0 in primaryKeys)], None, i + 1)
  {
    assert views[..i + 1][..i] == views[..i];
  }

  /** One turn of the column loop, on the prefix of the properties it has visited. */
  lemma PrepareColumnsStep(env: Env, db: Db, table: string, views: seq<PropertyView>, primaryKeys: seq<string>, i: nat)
    requires ValidEnv(env) && i < |views|
    requires PrepareColumns(env, db, table, views[..i], primaryKeys).err.None?
    ensures var f := PrepareColumns(env, db, table, views[..i], primaryKeys);
      PrepareColumns(env, db, table, views[..i + 1], primaryKeys) ==
        match PropertyType(env, views[i], primaryKeys)
        case Err(e) => Progress(f.db, Some(e), i + 1)
        case Ok(t) =>
          var o := PrepareColumn(env, f.db, table, views[i].0, t);
          Progress(o.db, o.err, i + 1)
  {
    assert views[..i + 1][..i] == views[..i];
  }

  /** Once a column fails, the rest of `prepare_table`'s loop is skipped. */
  lemma {:induction false} PrepareColumnsStopped(env: Env, db: Db, table: string, views: seq<PropertyView>,
                                                 primaryKeys: seq<string>, n: nat)
    requires ValidEnv(env)
    requires 0 < n <= |views| && PrepareColumns(env, db, table, views[..n], primaryKeys).err.Some?
    ensures PrepareColumns(env, db, table, views, primaryKeys) == PrepareColumns(env, db, table, views[..n], primaryKeys)
    decreases |views| - n
  {
    if n < |views| {
      assert views[..n + 1][..n] == views[..n];
      PrepareColumnsStopped(env, db, table, views, primaryKeys, n + 1);
    } else {
      assert views[..n] == views;
    }
  }
}
