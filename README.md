# target-db2 in Dafny

A model of the core of target-db2, a Singer target that loads stream records
into IBM Db2. It covers two parts:

- **Schema reconciliation in `DB2Connector`.** JSON-schema properties are mapped
  to Db2 column types (`to_sql_type`), including the `maxLength` it writes into
  the caller's dict. Column types are merged (`merge_sql_types`), and an
  existing column is kept, refused or widened with ALTER and REORG
  (`_adapt_column_type`). `_create_empty_column`, `create_empty_table` and
  `prepare_table` form a small state machine over the database catalogue.
- **The batch pipeline of `Db2Sink`.** Records are deduplicated by key,
  object/array values are serialised in place, and the batch is inserted
  directly or through a load table followed by one MERGE-and-DROP transaction.
  It also covers the SQL text builders (MERGE, INSERT, DROP, ALTER, the
  REORG-pending query) and name conforming.

The older connector of `target_db2/sinks.py` is modelled next to the current one.

Db2 itself is a value `Db`: the catalogue (table name to columns) and the log
of every statement sent. Each DDL step of the connector is a pure function on
`Db` (module `Evolution`). The `DB2Connector` class updates the same state in
place, and each of its methods is proved to end in exactly the state and error
that function gives. JSON-schema property dicts and record dicts are objects
(`PropertySchema`, `Record`) because the source writes into them.

The collaborators of the Singer SDK and SQLAlchemy are parameters of the
model:

- `_sort_types` is any permutation (`order`), and the merge lemmas hold for
  every one;
- identifier quoting, the SDK's base type mapping, Db2's answer to the
  REORG-pending query, `json.dumps`, `replace_leading_digit` and the fully
  qualified name.

The five random letters of the load table's name are passed in.

Modules (one file each): `Results`, `Text`, `SqlTypes`, `Errors`, `TypeMerge`,
`TypeMapping`, `Schema`, `SqlText`, `Names`, `Records`, `Evolution`,
`Connector`, `Legacy`, `Batch`, `Sink`.

## Model

| member | source | states |
|---|---|---|
| Text.LStrip | target_db2/connector.py:635 | `lstrip()` removes only white space from the front, and the result is a suffix that does not start with white space |
| Text.RStrip | target_db2/connector.py:635 | `rstrip()` removes only white space from the end, and the result is a prefix that does not end with white space |
| Text.Strip | target_db2/connector.py:286 | `strip()` is the slice of its input that starts where `lstrip()` starts; every character outside that slice is white space, and the slice neither starts nor ends with white space |
| Text.StripIsRStripOfLStrip | target_db2/connector.py:635 | `strip()` equals `rstrip()` applied after `lstrip()`, the form `conform_name` writes, for every string |
| SqlTypes.Render | target_db2/connector.py:142-151 | `str()` of a type, which `_adapt_column_type` compares and the ALTER DDL embeds; its texts are stated by `RenderExamples` |
| SqlTypes.RenderExamples | target_db2/connector.py:108-115 | the type text put into the ALTER DDL: VARCHAR(20), DECIMAL(10, 3), DECIMAL(10, 0) and DECIMAL(0, 31) with the zero written out, a missing scale giving DECIMAL(10), a missing precision giving bare DECIMAL |
| TypeMerge.FirstAccepted | target_db2/connector.py:361-381 | the early-return scan gives an input the length or text test accepts, and gives nothing exactly when no input passes |
| TypeMerge.MergeEdgeCases | target_db2/connector.py:333-338 | an empty list raises ValueError, and a one-element list returns its element unchanged |
| TypeMerge.MergeResultIsInput | target_db2/connector.py:341-384 | for every ordering, a non-empty list always merges, into one of its inputs; the "Unable to merge" raise cannot be reached |
| TypeMerge.MergeDecimalsKeepLargestScale | target_db2/connector.py:355-359 | when all inputs are DECIMAL, the result is a DECIMAL input with the largest scale (a missing scale counted as 0), for every ordering and list length |
| TypeMerge.MergeNeverShrinksString | target_db2/connector.py:341-377 | merging two string types gives one of them, with an unbounded length or a length at least the current column's non-zero length |
| TypeMerge.MergeMayNarrowPrecision | tests/test_core.py:178-210 | DECIMAL(30,1) merged with DECIMAL(10,3) gives DECIMAL(10,3) in every order, so precision can shrink |
| TypeMerge.MergeWideningDependsOnOrder | target_db2/connector.py:341-377 | VARCHAR(10) with VARCHAR(20) stays VARCHAR(10) when the ordering keeps the current type first, and becomes VARCHAR(20) when it swaps them |
| TypeMerge.MergeTypes | target_db2/connector.py:318-384 | `merge_sql_types` over any ordering of the inputs; its behaviour is stated by `MergeEdgeCases`, `MergeResultIsInput`, `MergeDecimalsKeepLargestScale`, `MergeNeverShrinksString`, `MergeMayNarrowPrecision` and `MergeWideningDependsOnOrder` |
| TypeMapping.WithDefaultLength | target_db2/connector.py:296-302 | only `maxLength` changes; a non-datelike string without `maxLength` gets 1022 as a key and `varchar_size` otherwise; every other property is left alone |
| TypeMapping.DefaultingIsIdempotent | target_db2/connector.py:297-302 | once defaulted, a property needs no default, and a second call with either key flag changes nothing |
| TypeMapping.ScaleForIsLeast | target_db2/connector.py:307-309 | the scale `ceil(log10(1/f))` for 0 < f < 1 is the least s >= 1 with 10^s >= 1/f |
| TypeMapping.FractionalStepMapsToDecimal | target_db2/connector.py:305-311 | a number with positive non-integral `multipleOf` maps to DECIMAL(p, s) with p + s = 31 and s the least number of places that reaches the fractional part |
| TypeMapping.WholeStepMapsToPlainDecimal | target_db2/connector.py:305-312 | any other number maps to DECIMAL with neither precision nor scale, rendered as `DECIMAL` |
| TypeMapping.DecimalExamples | target_db2/connector.py:305-311 | `multipleOf` 0.1 gives DECIMAL(30,1) and 0.01 gives DECIMAL(29,2) |
| TypeMapping.NestedMapsToJsonVarchar | target_db2/connector.py:303-315 | an object or array property maps to JSONVARCHAR(varchar_size) whatever the key flag |
| TypeMapping.MapType | target_db2/connector.py:303-316 | the mapping `to_sql_type` applies after defaulting; stated by `FractionalStepMapsToDecimal`, `WholeStepMapsToPlainDecimal`, `DecimalExamples` and `NestedMapsToJsonVarchar` |
| SqlText.AlterToVarcharExample | target_db2/connector.py:108-115 | the widening of tests/test_core.py: for any table and column, the DDL reads ALTER TABLE … ALTER COLUMN … SET DATA TYPE VARCHAR(20) |
| SqlText.AlterToDecimalExample | target_db2/connector.py:108-115 | for any table and column, a DECIMAL(10, 3) alteration reads … SET DATA TYPE DECIMAL(10, 3), precision and scale separated by a comma and a space |
| SqlText.AlterColumnDdl | target_db2/connector.py:93-116 | the `ALTER TABLE … ALTER COLUMN … SET DATA TYPE …` text; stated by `AlterToVarcharExample` and `AlterToDecimalExample` |
| SqlText.SplitTableName | target_db2/connector.py:173-174 | `split(".", 1)`: the schema part and the rest give back the full name, and the schema part holds no dot |
| SqlText.SplitTableNameAtFirstDot | target_db2/connector.py:173-179 | a dot-free schema is split off whole, and the table part keeps any further dots |
| SqlText.ReorgCheckWithSchema | target_db2/connector.py:173-183 | for `schema.table`, the REORG-pending query filters on `tabschema = 'schema'` and `lower(tabname) = 'table'` |
| SqlText.ReorgCheckWithoutSchema | target_db2/connector.py:173-183 | for an unqualified name the schema clause is empty, leaving two spaces before AND |
| SqlText.ReorgCheckSql | target_db2/connector.py:173-183 | the REORG-pending query; stated by `ReorgCheckWithSchema` and `ReorgCheckWithoutSchema` |
| SqlText.ReorgCommand | target_db2/connector.py:184-186 | the `ADMIN_CMD` REORG of the quoted table; `Evolution.AdaptColumnOutcomes` states it is sent only when the REORG-pending query answers true, and `Evolution.AlterActionsEffect` that it changes no table |
| SqlText.DropTableSql | target_db2/connector.py:668-672 | `DROP TABLE` of the quoted name; `Sink.UpsertStatements` states it is the last statement of a keyed batch's transaction and drops exactly the load table |
| SqlText.LoadTableNameShape | target_db2/connector.py:455-458 | the load table name is `load_` + table + `_` + the five letters, so two names for one table are equal exactly when their letters are |
| SqlText.LoadTableName | target_db2/connector.py:455-458 | `load_` + table + `_` + five letters; stated by `LoadTableNameShape` |
| SqlText.UpdateColumnsAreNonKeys | target_db2/connector.py:595-599 | the SET list names exactly the properties that are not join keys, in schema order |
| SqlText.InsertAndValuesAlign | target_db2/connector.py:591-594 | INSERT lists every property quoted, in order, and VALUES lists the same columns, position by position, prefixed `lt.` |
| SqlText.MergeUpsertExample | target_db2/connector.py:568-609 | the method's own example (key col1; properties col1, col2, col3) gives the eight lines of MERGE text exactly |
| SqlText.MergeWithOnlyKeysLeavesSetEmpty | target_db2/connector.py:595-605 | when every property is a join key, the UPDATE clause is `SET` followed by nothing |
| SqlText.MergeUpsertLines | target_db2/connector.py:565-611 | the lines of the MERGE text; stated by `UpdateColumnsAreNonKeys`, `InsertAndValuesAlign`, `MergeUpsertExample` and `MergeWithOnlyKeysLeavesSetEmpty` |
| SqlText.MergeUpsertSql | target_db2/connector.py:565-611 | the MERGE text joined by line breaks; stated by `MergeUpsertExample` and `MergeWithOnlyKeysLeavesSetEmpty` |
| SqlText.InsertStatementExample | target_db2/connector.py:640-666 | for any table and the properties `id`, `name` quoted in double quotes, the text is `INSERT INTO` the quoted table, then `("id", "name")` on the second line and `VALUES (:id, :name)` on the third |
| SqlText.InsertStatementAligns | target_db2/connector.py:654-666 | for every table, property list and quoting, the INSERT column list holds each property quoted and the VALUES list its `:name` parameter, one per property, in the same positions |
| SqlText.OnePlaceholderPerColumn | target_db2/connector.py:660-663 | when no property name holds a colon, the VALUES list holds exactly as many bind parameters as there are properties |
| SqlText.InsertStatement | target_db2/connector.py:640-666 | `generate_insert_statement`; stated by `InsertStatementAligns`, `OnePlaceholderPerColumn` and `InsertStatementExample` |
| Names.KeepOnly | target_db2/connector.py:631 | the substitution keeps only letters, digits, `_`, `-`, `.` and white space, never lengthens, and leaves an already clean name alone |
| Names.Conformed | target_db2/connector.py:630-636 | `conform_name` before `replace_leading_digit`; stated by `ConformedShape`, `ConformedIdempotent`, `ConformedSeparatorsExample`, `ConformedTabExample` and `KeepOnlyDropsExample` |
| Names.ConformedShape | target_db2/connector.py:630-636 | a conformed name is no longer than the input, holds no `.`, `-` or space, only allowed characters, and has no white space at either end |
| Names.ConformedIdempotent | target_db2/connector.py:630-636 | conforming a conformed name changes nothing |
| Names.ConformedSeparatorsExample | target_db2/connector.py:630-636 | `" my.col-name "` conforms to `my_col_name` |
| Names.ConformedTabExample | target_db2/connector.py:634-636 | a tab inside a name is kept, because only the plain space is replaced |
| Names.KeepOnlyDropsExample | target_db2/connector.py:631 | disallowed characters are dropped, not replaced: `a($)b` gives `ab` |
| Names.SchemaExists | target_db2/connector.py:285-286 | true exactly when some listed name, stripped and upper-cased, equals the upper-cased query |
| Names.SchemaExistsIgnoresCase | target_db2/connector.py:286 | the case of the query does not matter |
| Names.SchemaExistsFindsListed | target_db2/connector.py:286 | every listed name, padded or not, is found by its stripped text in any case |
| Names.SchemaExistsMonotone | target_db2/connector.py:286 | listing more schemas never hides one already found |
| Names.SchemaExistsPaddedExample | target_db2/sinks.py:51-52 | `db2inst1` is found among `SYSIBM` and `DB2INST1 `: padding on a listed name is ignored |
| Names.SchemaExistsUnstrippedQueryExample | target_db2/sinks.py:51-52 | ` DB2INST1` is not found among `DB2INST1`: the query itself is not stripped |
| Evolution.ColumnTypeOf | target_db2/connector.py:134-137 | the column lookup finds a column of that name with that type, and finds nothing exactly when no column has the name |
| Evolution.PlanAdaptDecides | target_db2/connector.py:142-166 | the merge never fails here; the column is kept exactly when the types render alike or the merge returns the current type; otherwise it is refused (altering off) or widened (altering on) to exactly the requested type |
| Evolution.ConnectorNeverRefuses | target_db2/connector.py:53 | with the current connector's flags (`allow_column_alter` on) a change is never refused: the column is kept or altered to exactly the requested type |
| Evolution.PlanAdapt | target_db2/connector.py:142-166 | the decision of `_adapt_column_type`; stated by `PlanAdaptDecides` |
| Evolution.AlterActionsEffect | target_db2/connector.py:188-196 | the ALTER retypes just that column in the catalogue, and the REORG check and REORG change no table |
| Evolution.AdaptColumnOutcomes | target_db2/connector.py:118-196 | `_adapt_column_type` sends nothing, or raises and sends nothing, or sends the ALTER to the requested type, the REORG check and the REORG only if pending; without the alter capability the database never changes |
| Evolution.AdaptColumnTwiceIsNoOp | target_db2/connector.py:143-154 | after a successful adaptation, asking again for the same type sends nothing and raises nothing |
| Evolution.AdaptColumn | target_db2/connector.py:118-196 | `_adapt_column_type` on the database; stated by `AdaptColumnOutcomes` and `AdaptColumnTwiceIsNoOp`, and executed by `Connector.DB2Connector.AdaptColumnType` |
| Evolution.CreateEmptyColumn | target_db2/connector.py:198-224 | `_create_empty_column`: refused when adding columns is off, else one ADD COLUMN; executed by `Connector.DB2Connector.CreateEmptyColumn` and covered by `PrepareColumnsOnlyColumns` |
| Evolution.PrepareColumn | target_db2/connector.py:264-268 | the SDK's `prepare_column`; stated by `PrepareColumnsSettles`, `PrepareColumnsOnlyColumns` and `SettledColumnsAreQuiet` |
| Evolution.TableColumnsShape | target_db2/connector.py:422-433 | the new table's columns follow the properties in order, named after them, primary key exactly when listed, typed by `to_sql_type`; a failing property stops the loop |
| Evolution.TableColumns | target_db2/connector.py:422-433 | the column loop of `create_empty_table`; stated by `TableColumnsShape` and `CreatedTableIsSettled` |
| Evolution.CreateEmptyTableOutcomes | target_db2/connector.py:407-436 | a temporary table is refused before the schema is read, a missing `properties` raises, nothing is sent on error, and `create_all` leaves an existing table alone |
| Evolution.CreateEmptyTable | target_db2/connector.py:386-436 | `create_empty_table`; stated by `CreateEmptyTableOutcomes` and `CreatedTableIsSettled` |
| Evolution.PrepareTableRoutes | target_db2/connector.py:243-268 | an absent table is only created; with OVERWRITE the first statement drops the table, which is recreated from the schema on success and stays dropped if creation raises; otherwise only column DDL on this table is sent |
| Evolution.PrepareColumnsOnlyColumns | target_db2/connector.py:263-268 | every statement the per-property loop sends is an ADD COLUMN on this table, the ALTER of one of its columns, or the REORG check or REORG of this same table; no other table changes |
| Evolution.PrepareColumns | target_db2/connector.py:263-268 | the per-property loop of `prepare_table`; stated by `PrepareColumnsOnlyColumns`, `PrepareColumnsSettles` and `SettledColumnsAreQuiet` |
| Evolution.PrepareColumnsSettles | target_db2/connector.py:263-268 | after a per-property loop without error, every property has a column that a later adaptation keeps |
| Evolution.CreatedTableIsSettled | target_db2/connector.py:422-436 | every property of a freshly created table has a column that a later adaptation keeps |
| Evolution.SettledColumnsAreQuiet | target_db2/connector.py:263-268 | when every property's column would be kept, the loop sends nothing and raises nothing |
| Evolution.PrepareTableTwiceIsQuiet | target_db2/connector.py:226-268 | without OVERWRITE, `prepare_table` run again on the schema it just applied (with the `maxLength` values it wrote) sends nothing and raises nothing |
| Evolution.PrepareTableSucceeds | target_db2/connector.py:243-268 | a `prepare_table` without error has visited every property, every property has a column type, and the table exists |
| Evolution.PrepareTableTouchesOnly | target_db2/connector.py:243-268 | every statement `prepare_table` sends (create, drop, ADD/ALTER COLUMN, REORG check, REORG) names this table only, and every other table is left as it was |
| Evolution.PrepareTable | target_db2/connector.py:226-268 | `prepare_table`; stated by `PrepareTableRoutes`, `PrepareTableSucceeds`, `PrepareTableTouchesOnly` and `PrepareTableTwiceIsQuiet` |
| Evolution.DefaultedPrefixSameTypes | target_db2/connector.py:297-302 | `to_sql_type` gives a property the same column type after it wrote `maxLength` into it |
| Evolution.DefaultedPrefixTwice | target_db2/connector.py:297-302 | defaulting the first n properties and then the first m is defaulting the first max(n, m) |
| Connector.DB2Connector.ToSqlType | target_db2/connector.py:291-316 | writes exactly the default `maxLength` into the caller's property dict and returns the type mapped from the updated dict |
| Connector.DB2Connector.AdaptColumnType | target_db2/connector.py:118-196 | the new catalogue, statement log and error are exactly those of `Evolution.AdaptColumn` on the old state |
| Connector.DB2Connector.CreateEmptyColumn | target_db2/connector.py:198-224 | raises when adding columns is off; otherwise sends the ADD COLUMN, which appends the column |
| Connector.DB2Connector.PrepareColumn | target_db2/connector.py:264-268 | the SDK's `prepare_column`: a missing table raises, a missing column is added, an existing one is adapted, as `Evolution.PrepareColumn` says |
| Connector.DB2Connector.CreateEmptyTable | target_db2/connector.py:386-436 | the property loop ends in the state and error of `Evolution.CreateEmptyTable`, and exactly the visited properties carry their default `maxLength` |
| Connector.DB2Connector.TableColumnsOf | target_db2/connector.py:422-433 | builds exactly the columns, exception and visited count of `Evolution.TableColumns`, and defaults exactly the visited properties in place |
| Connector.DB2Connector.PrepareTable | target_db2/connector.py:226-268 | ends in the state and error of `Evolution.PrepareTable`, and exactly the visited properties carry their default `maxLength` |
| Connector.DB2Connector.PrepareColumns | target_db2/connector.py:263-268 | `prepare_column` runs on each property of an existing table in order and stops at the first exception, ending in the state and error of `Evolution.PrepareColumns`; exactly the visited properties carry their default `maxLength` |
| Connector.DB2Connector.ExecuteQueries | target_db2/connector.py:438-442 | the statements are sent as one logged transaction, and the tables they drop are gone |
| Legacy.LegacyDefaulted | target_db2/sinks.py:61-64 | a non-datelike string without `maxLength` gets 10000; a string with `maxLength`, a datelike string and a non-string are unchanged |
| Legacy.LegacyDefaultingAgainstCurrent | target_db2/sinks.py:61-64 | the legacy defaulting equals the current one for non-key properties at the default size, and differs (10000 against 1022) for a key string that needs a default |
| Legacy.LegacyDefaultingIsIdempotent | target_db2/sinks.py:61-64 | a second legacy call adds nothing |
| Legacy.LegacyDB2Connector.ToSqlType | target_db2/sinks.py:59-66 | writes the legacy default into the caller's dict and hands the updated dict to the SDK mapping |
| Legacy.LegacyNeverAlters | target_db2/sinks.py:26-29 | with the legacy flags (no column alter) an adaptation never widens, and never changes the database |
| Batch.LastFromShape | target_db2/connector.py:496-503 | the kept positions are strictly increasing, each holds the last record of its key, and every such position is kept |
| Batch.DeduplicationKeepsLastPerKey | target_db2/connector.py:491-503 | the kept records are in original order with pairwise-distinct keys, and every key of the batch is kept through its last record |
| Batch.DeduplicationExample | target_db2/connector.py:496-503 | keys 1, 2, 1 keep the second and third records |
| Batch.DeduplicateRecords | target_db2/connector.py:491-503 | the reversed walk with a seen set returns exactly the records at the last position of each key, in order; it raises KeyError exactly when a record lacks a key property |
| Batch.ObjectAndArrayColumns | target_db2/connector.py:473-489 | a property is listed exactly when its type holds `object` or `array` |
| Batch.SerializeValue | target_db2/connector.py:528-532 | a list or dict becomes its JSON text; any other value is unchanged; the result is never a container |
| Batch.SerializeColumns | target_db2/connector.py:525-532 | no key is added or removed; exactly the listed columns holding a list or dict become JSON text; repeated columns change nothing more |
| Batch.SerializeColumnsIdempotent | target_db2/connector.py:528-532 | serialising an already serialised record changes nothing |
| Batch.SerializeRecords | target_db2/connector.py:525-532 | every record of the batch is rewritten in place to its serialised form, even when one record object appears twice |
| Batch.SerializeColumnOf | target_db2/connector.py:526-532 | every record holding the column has a list or dict value there replaced by its JSON text, and a record listed twice ends as if visited once |
| Sink.UpsertStatements | target_db2/connector.py:557-563 | the one transaction of a keyed batch drops exactly the load table |
| Sink.LoadTableCreationSucceeds | target_db2/connector.py:545-551 | once every property has a column type, creating the load table cannot raise |
| Sink.LoadWithoutKeys | target_db2/connector.py:539-544 | without key properties, no statement concerns any table but the target (so no load table), and a batch without error ends with the insert into the target |
| Sink.LoadWithKeys | target_db2/connector.py:545-563 | with keys, a prepared target is followed by the load table's creation (unless it exists), the insert into it, and one transaction of MERGE then DROP; the load table is gone afterwards and the target's columns are as prepared |
| Sink.LoadBatch | target_db2/connector.py:533-563 | the loading part of `process_batch`; stated by `LoadTableCreationSucceeds`, `LoadWithoutKeys` and `LoadWithKeys`, and executed by `Sink.Db2Sink.Load` |
| Sink.Db2Sink.constructor | target_db2/connector.py:450-458 | the load table name is fixed once, when the sink is made, from the five letters |
| Sink.Db2Sink.Load | target_db2/connector.py:533-563 | the statements and error of a batch are those of `LoadBatch`, and exactly the visited properties carry their default `maxLength` |
| Sink.Db2Sink.ProcessBatch | target_db2/connector.py:505-563 | a record missing a key property, or a schema without `properties`, raises with nothing sent and no record changed; otherwise the deduplicated batch (the whole batch without keys) is serialised in place, the other records are untouched, and the batch is loaded as `LoadBatch` says |

## Left out

- Engine and connection plumbing (`get_sqlalchemy_url`, `create_engine`, `create_schema`, transactions): these are I/O. Statements are an abstract log; each `execute_queries` call is one log entry.
- Collation handling (`remove_collation`, `update_collation`): these are SDK helpers and are not part of this model. A widened column's collation is not tracked.
- `_sort_types`, `_jsonschema_type_check`, `get_datelike_property_type`, the SDK's base `to_sql_type`, `quote`, `replace_leading_digit`, `conform_schema`, `bulk_insert_records` and `get_fully_qualified_name`: these are foreign code. They are parameters, and the ordering is any permutation.
- The last step of `conform_name`, the SDK's `replace_leading_digit`: it is not part of this model, so `Names.Conformed` stops before it.
- The SDK's `prepare_column` and column lookup are modelled as exact-name lookups. The SDK's case-insensitive matching of column names is not modelled.
- Binary floating point: `multipleOf` is a rational, and `ceil(log10(1/f))` is the least s with 10^s >= 1/f. Float rounding of `log10` is not modelled.
- `json.dumps`/`json.loads` and the JSONVARCHAR round trip: the serialiser is an abstract function.
- The randomness of `generate_load_table_name`: the five letters are a constructor argument.
- AdaptColumnTwiceIsNoOp: holds only if the catalogue reads back exactly the type written (`Evolution.ColumnTypeOf`). How Db2 and SQLAlchemy reflect a column type is not modelled. For example, a DECIMAL may be read back as DECIMAL(5, 0), or a JSONVARCHAR as VARCHAR. A second adaptation against such a reflected type can merge differently.
- PrepareTableTwiceIsQuiet: rests on the same exact read-back of column types, so Db2's type reflection is not modelled here either.
- The capability flags `allow_temp_tables`, `allow_merge_upsert` and `allow_overwrite`: only SDK code not in this model reads them. `create_empty_table` refuses a temporary table without consulting them, so `Capabilities` holds only the two flags the modelled code reads.
- Concurrency between streams: nothing in the source manages it.
- Row-level semantics of MERGE and INSERT: the log records which rows were sent and the MERGE text, not the resulting table contents.
- Db2's answer to the REORG-pending query is a function of the query text.
- TypeMerge.MergeNeverShrinksString: stated for the two-type merge `_adapt_column_type` performs. With more types and an arbitrary ordering, the left fold can end on a shorter string.
- Python key equality in `deduplicate_records`: `1 == 1.0 == True` and unhashable list/dict key values (TypeError) are not modelled. Keys compare structurally.
- `object_and_array_columns` reads `x["type"]`: a missing `type` (KeyError), and a type given as a string (which Python tests by substring), are modelled by the type set the SDK reports.
- Upper-casing in `schema_exists` covers ASCII letters only.
- `dedent`: names containing line breaks, which would change the dedent of the MERGE text, are not modelled. The model follows the code's line layout, which differs from the layout shown in the method's docstring.
- Lengths of other SQLAlchemy types with a `length` attribute (such as binary types) are not modelled. Only VARCHAR and JSONVARCHAR carry one.
- The table name `prepare_table` receives is the fully qualified name given by the SDK. The parsing of `parse_full_table_name` is not modelled.
