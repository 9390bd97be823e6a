/** The exceptions the loader raises, as values. */
module Errors {
  import opened SqlTypes

  datatype Error =
    | EmptyTypeList                                   // ValueError, connector.py line 335
    | UnableToMerge(types: seq<SqlType>)              // ValueError, connector.py line 384
    | MathDomainError                                 // ValueError from math.log10 on a negative argument
    | AlterNotSupported(table: string, column: string, from: SqlType, to: SqlType)  // NotImplementedError, line 166
    | AddNotSupported                                 // NotImplementedError, line 216
    | TempTablesNotSupported                          // NotImplementedError, line 409
    | MissingProperties(table: string)                // RuntimeError (line 421) or KeyError on schema["properties"]
    | NoSuchColumn(table: string, column: string)     // KeyError from the column-type lookup
    | NoSuchTable(table: string)                      // the executor's failure on DDL against a missing table
    | MissingKeyProperty                              // KeyError in deduplicate_records, line 499
}
