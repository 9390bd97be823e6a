/**
 * `Db2Sink` (target_db2/connector.py lines 445-672): one stream's sink, which
 * turns a batch of records into statements on its connector.
 */
module Sink {
  import opened Results
  import opened Errors
  import opened TypeMapping
  import opened SqlText
  import opened Schema
  import opened Records
  import opened Evolution
  import opened Batch
  import opened Connector

  /** The one `execute_queries` transaction of a keyed batch: the MERGE, then the load table's DROP. */
  function UpsertStatements(quote: string -> string, fullTable: string, fullLoadTable: string,
                            keyProperties: seq<string>, names: seq<string>): (r: seq<Statement>)
    ensures Dropped(r) == {fullLoadTable}
  {
    var r := [ MergeStatement(MergeUpsertSql(quote(fullTable), quote(fullLoadTable), keyProperties, names, quote)),
               DropStatement(fullLoadTable, DropTableSql(quote(fullLoadTable))) ];
    assert r[1] == DropStatement(fullLoadTable, r[1].sql);
    r
  }

  /**
   * Lines 533-563 of `process_batch` on the batch rows: prepare the target
   * table; without key properties insert into it; with key properties create
   * the load table, insert into it, then MERGE into the target and DROP the load
   * table in one transaction.
   */
  function LoadBatch(env: Env, db: Db, fullTable: string, fullLoadTable: string, keyProperties: seq<string>,
                     props: seq<PropertyView>, rows: seq<map<string, Value>>): (r: Progress)
    requires ValidEnv(env)
    ensures r.visited <= |props|
  {
    var p := PrepareTable(env, db, fullTable, Some(props), keyProperties, false);
    if p.err.Some? then p
    else if keyProperties == [] then Progress(Apply(p.db, BulkInsert(fullTable, rows)), None, p.visited)
    else
      var c := CreateEmptyTable(env, p.db, fullLoadTable, Some(DefaultedPrefix(env, props, keyProperties, p.visited)),
                                keyProperties, false);
      if c.err.Some? then Progress(c.db, c.err, p.visited)
      else
        var statements := UpsertStatements(env.quote, fullTable, fullLoadTable, keyProperties, Names(props));
        Progress(Apply(Apply(c.db, BulkInsert(fullLoadTable, rows)), ExecuteQueries(statements)), None, p.visited)
  }

  /** Once every property has a column type, creating the load table cannot raise. */
  lemma LoadTableCreationSucceeds(env: Env, db: Db, fullLoadTable: string, props: seq<PropertyView>,
                                  keyProperties: seq<string>, n: nat)
    requires forall i :: 0 <= i < |props| ==> PropertyType(env, props[i], keyProperties).Ok?
    ensures var c := CreateEmptyTable(env, db, fullLoadTable, Some(DefaultedPrefix(env, props, keyProperties, n)), keyProperties, false);
      c.err.None? && c.visited == |props|
  {
    var props' := DefaultedPrefix(env, props, keyProperties, n);
    DefaultedPrefixSameTypes(env, props, keyProperties, n);
    TableColumnsShape(env, props', keyProperties);
    CreateEmptyTableOutcomes(env, db, fullLoadTable, Some(props'), keyProperties, false);
  }

  /**
   * Without key properties the batch goes straight into the target table: no
   * statement concerns any other table (the load table in particular), and a
   * batch that raises nothing ends with the insert into the target.
   */
  lemma LoadWithoutKeys(env: Env, db: Db, fullTable: string, fullLoadTable: string, props: seq<PropertyView>,
                        rows: seq<map<string, Value>>)
    requires ValidEnv(env)
    ensures var r := LoadBatch(env, db, fullTable, fullLoadTable, [], props, rows);
      && TouchesOnly(db, r.db, fullTable)
      && (r.err.None? ==> |r.db.trace| > |db.trace| && r.db.trace[|r.db.trace| - 1] == BulkInsert(fullTable, rows))
  {
    var p := PrepareTable(env, db, fullTable, Some(props), [], false);
    PrepareTableTouchesOnly(env, db, fullTable, Some(props), [], false);
    if p.err.None? {
      var r := LoadBatch(env, db, fullTable, fullLoadTable, [], props, rows);
      assert r.db.trace == p.db.trace + [BulkInsert(fullTable, rows)];
      assert r.db.trace[..|p.db.trace|] == p.db.trace;
      assert r.db.trace[..|db.trace|] == p.db.trace[..|db.trace|];
    }
  }

  /**
   * With key properties, a batch whose target table was prepared runs, in
   * order, the load table's creation (unless it exists), the insert into the
   * load table, and one transaction holding the MERGE and the load table's
   * DROP; the load table is gone afterwards and the target's columns are as
   * prepared.
   */
  /** The four ways `LoadBatch` can end, one per branch. */
  lemma LoadBatchBranches(env: Env, db: Db, fullTable: string, fullLoadTable: string, keyProperties: seq<string>,
                          props: seq<PropertyView>, rows: seq<map<string, Value>>)
    requires ValidEnv(env)
    ensures var p := PrepareTable(env, db, fullTable, Some(props), keyProperties, false);
      var r := LoadBatch(env, db, fullTable, fullLoadTable, keyProperties, props, rows);
      var c := CreateEmptyTable(env, p.db, fullLoadTable, Some(DefaultedPrefix(env, props, keyProperties, p.visited)),
                                keyProperties, false);
      var statements := UpsertStatements(env.quote, fullTable, fullLoadTable, keyProperties, Names(props));
      && (p.err.Some? ==> r == p)
      && (p.err.None? && keyProperties == [] ==>
            r == Progress(Apply(p.db, BulkInsert(fullTable, rows)), None, p.visited))
      && (p.err.None? && keyProperties != [] && c.err.Some? ==> r == Progress(c.db, c.err, p.visited))
      && (p.err.None? && keyProperties != [] && c.err.None? ==>
            r == Progress(Apply(Apply(c.db, BulkInsert(fullLoadTable, rows)), ExecuteQueries(statements)), None, p.visited))
  {
  }

  /** Inserting and then running the upsert transaction drops the load table and nothing else. */
  lemma InsertThenUpsert(c: Db, fullTable: string, fullLoadTable: string, rows: seq<map<string, Value>>,
                         statements: seq<Statement>)
    requires Dropped(statements) == {fullLoadTable}
    ensures var r := Apply(Apply(c, BulkInsert(fullLoadTable, rows)), ExecuteQueries(statements));
      && r.trace == c.trace + [BulkInsert(fullLoadTable, rows), ExecuteQueries(statements)]
      && r.tables == c.tables - {fullLoadTable}
  {
  }

  lemma LoadWithKeys(env: Env, db: Db, fullTable: string, fullLoadTable: string, keyProperties: seq<string>,
                     props: seq<PropertyView>, rows: seq<map<string, Value>>)
    requires ValidEnv(env) && keyProperties != [] && fullLoadTable != fullTable
    requires PrepareTable(env, db, fullTable, Some(props), keyProperties, false).err.None?
    ensures var p := PrepareTable(env, db, fullTable, Some(props), keyProperties, false);
      var r := LoadBatch(env, db, fullTable, fullLoadTable, keyProperties, props, rows);
      var created := if fullLoadTable in p.db.tables then []
                     else [CreateTable(fullLoadTable, TableColumns(env, DefaultedPrefix(env, props, keyProperties, |props|), keyProperties).columns)];
      && fullTable in p.db.tables
      && r.err.None?
      && r.db.trace == p.db.trace + created
           + [BulkInsert(fullLoadTable, rows),
              ExecuteQueries(UpsertStatements(env.quote, fullTable, fullLoadTable, keyProperties, Names(props)))]
      && fullLoadTable !in r.db.tables
      && fullTable in r.db.tables && r.db.tables[fullTable] == p.db.tables[fullTable]
  {
    var p := PrepareTable(env, db, fullTable, Some(props), keyProperties, false);
    PrepareTableSucceeds(env, db, fullTable, props, keyProperties, false);
    var props' := DefaultedPrefix(env, props, keyProperties, |props|);
    LoadTableCreationSucceeds(env, p.db, fullLoadTable, props, keyProperties, |props|);
    CreateEmptyTableOutcomes(env, p.db, fullLoadTable, Some(props'), keyProperties, false);
    var c := CreateEmptyTable(env, p.db, fullLoadTable, Some(props'), keyProperties, false);
    var statements := UpsertStatements(env.quote, fullTable, fullLoadTable, keyProperties, Names(props));
    LoadBatchBranches(env, db, fullTable, fullLoadTable, keyProperties, props, rows);
    InsertThenUpsert(c.db, fullTable, fullLoadTable, rows, statements);
  }

  /** One stream's sink, with the randomness and the SDK's collaborators injected. */
  class Db2Sink {
    const connector: DB2Connector
    const schema: TableSchema
    const keyProperties: seq<string>
    const tableName: string
    const fullTableName: string
    /** Generated once, when the sink is made, and reused by every batch. */
    const loadTableName: string
    const fullLoadTableName: string
    /** `json.dumps`. */
    const serialize: Value -> string

    /**
     * `__init__` (lines 450-453) with `generate_load_table_name` (lines 455-458):
     * the five random lowercase letters are passed in, and `qualify` stands for
     * the connector's `get_fully_qualified_name`.
     */
    constructor (connector: DB2Connector, schema: TableSchema, keyProperties: seq<string>, tableName: string,
                 fullTableName: string, letters: string, qualify: string -> string, serialize: Value -> string)
      requires |letters| == 5 && IsLowercaseLetters(letters)
      ensures this.connector == connector && this.schema == schema && this.keyProperties == keyProperties
      ensures this.tableName == tableName && this.fullTableName == fullTableName && this.serialize == serialize
      ensures loadTableName == LoadTableName(tableName, letters) && fullLoadTableName == qualify(loadTableName)
    {
      this.connector, this.schema, this.keyProperties := connector, schema, keyProperties;
      this.tableName, this.fullTableName, this.serialize := tableName, fullTableName, serialize;
      loadTableName := LoadTableName(tableName, letters);
      fullLoadTableName := qualify(LoadTableName(tableName, letters));
    }

    /** Lines 533-563: prepare the target, then insert directly or through the load table. */
    method Load(batch: seq<Record>) returns (err: Option<Error>)
      requires ValidEnv(connector.env) && SchemaWellFormed(schema) && schema.properties.Some?
      modifies connector, SchemaObjects(schema)
      ensures var views := old(Views(schema.properties.value));
        var r := LoadBatch(connector.env, old(connector.State()), fullTableName, fullLoadTableName, keyProperties, views, Rows(batch));
        && connector.State() == r.db && err == r.err
        && Views(schema.properties.value) == DefaultedPrefix(connector.env, views, keyProperties, r.visited)
    {
      ghost var views := Views(schema.properties.value);
      ghost var db := connector.State();
      LoadBatchBranches(connector.env, db, fullTableName, fullLoadTableName, keyProperties, views, Rows(batch));
      err := connector.PrepareTable(fullTableName, schema, keyProperties, false);
      if err.Some? {
        return;
      }
      if keyProperties == [] {
        connector.Execute(BulkInsert(fullTableName, Rows(batch)));
        return;
      }
      PrepareTableSucceeds(connector.env, db, fullTableName, views, keyProperties, false);
      err := LoadThroughTable(batch, views);
    }

    /**
     * Lines 545-563, once the target was prepared with key properties: create
     * the load table, insert into it, then MERGE and DROP in one transaction.
     */
    method LoadThroughTable(batch: seq<Record>, ghost views: seq<PropertyView>) returns (err: Option<Error>)
      requires ValidEnv(connector.env) && SchemaWellFormed(schema) && schema.properties.Some?
      requires keyProperties != [] && |views| == |schema.properties.value|
      requires Views(schema.properties.value) == DefaultedPrefix(connector.env, views, keyProperties, |views|)
      modifies connector, SchemaObjects(schema)
      ensures var c := CreateEmptyTable(connector.env, old(connector.State()), fullLoadTableName,
                                        Some(old(Views(schema.properties.value))), keyProperties, false);
        var statements := UpsertStatements(connector.env.quote, fullTableName, fullLoadTableName, keyProperties, Names(views));
        && err == c.err
        && (c.err.Some? ==> connector.State() == c.db)
        && (c.err.None? ==> connector.State() == Apply(Apply(c.db, BulkInsert(fullLoadTableName, Rows(batch))), ExecuteQueries(statements)))
        && Views(schema.properties.value) == DefaultedPrefix(connector.env, views, keyProperties, |views|)
    {
      var props := schema.properties.value;
      ghost var defaulted := Views(props);
      err := connector.CreateEmptyTable(fullLoadTableName, schema, keyProperties, false);
      ghost var c := CreateEmptyTable(connector.env, old(connector.State()), fullLoadTableName, Some(defaulted), keyProperties, false);
      DefaultedPrefixTwice(connector.env, views, keyProperties, |views|, c.visited);
      if err.Some? {
        return;
      }
      connector.Execute(BulkInsert(fullLoadTableName, Rows(batch)));
      var quote := connector.env.quote;
      var mergeSql := MergeUpsertSql(quote(fullTableName), quote(fullLoadTableName), keyProperties, Names(props), quote);
      var dropSql := DropTableSql(quote(fullLoadTableName));
      assert Names(props) == Names(views);
      connector.ExecuteQueries([MergeStatement(mergeSql), DropStatement(fullLoadTableName, dropSql)]);
    }

    /**
     * `process_batch` (lines 505-563): keep the last record per key when there
     * are key properties, serialise list and dict values of the object and
     * array columns in place, then load the batch.
     */
    method ProcessBatch(records: seq<Record>) returns (err: Option<Error>)
      requires ValidEnv(connector.env) && SchemaWellFormed(schema)
      modifies connector, SchemaObjects(schema), set o | o in records
      ensures var rows := old(Rows(records));
        keyProperties != [] && !AllKeyed(rows, keyProperties) ==>
          err == Some(MissingKeyProperty) && connector.State() == old(connector.State()) && Rows(records) == rows
      ensures var rows := old(Rows(records));
        (keyProperties == [] || AllKeyed(rows, keyProperties)) && schema.properties.None? ==>
          err == Some(MissingProperties(fullTableName)) && connector.State() == old(connector.State()) && Rows(records) == rows
      ensures var rows := old(Rows(records));
        (keyProperties == [] || AllKeyed(rows, keyProperties)) && schema.properties.Some? ==>
          var views := old(Views(schema.properties.value));
          var batch := if keyProperties == [] then records else Pick(records, LastFrom(KeysOf(rows, keyProperties), 0));
          var r := LoadBatch(connector.env, old(connector.State()), fullTableName, fullLoadTableName, keyProperties, views, Rows(batch));
          && (forall o :: o in records ==>
                o.fields == if o in batch then SerializeColumns(old(o.fields), ObjectAndArrayColumns(views), serialize) else old(o.fields))
          && connector.State() == r.db && err == r.err
          && Views(schema.properties.value) == DefaultedPrefix(connector.env, views, keyProperties, r.visited)
    {
      var batch := records;
      if keyProperties != [] {
        var deduplicated := DeduplicateRecords(records, keyProperties);
        if deduplicated.Err? {
          return Some(deduplicated.error);
        }
        batch := deduplicated.value;
      }
      if schema.properties.None? {
        return Some(MissingProperties(fullTableName));
      }
      var columns := ObjectAndArrayColumns(Views(schema.properties.value));
      SerializeRecords(batch, columns, serialize);
      err := Load(batch);
    }
  }
}
