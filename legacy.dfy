/**
 * The older `DB2Connector` of target_db2/sinks.py: it cannot alter columns,
 * defaults every unbounded string to 10000 characters whatever the key flag,
 * and leaves all other mapping to the SDK. Its `schema_exists` is the same
 * test as the current one (`Names.SchemaExists`).
 */
module Legacy {
  import opened Results
  import opened SqlTypes
  import opened TypeMerge
  import opened TypeMapping
  import opened Schema
  import opened Evolution

  /** Line 27 of sinks.py: no column alteration; `allow_column_add` keeps the SDK's default. */
  const LegacyCapabilities := Capabilities(false, true)

  /** The fixed length the legacy variant writes (line 64 of sinks.py). */
  const LegacyStringLength := 10000

  /** The property after lines 61-64 of sinks.py ran on it. */
  function LegacyDefaulted(v: JsonSchemaType): (r: JsonSchemaType)
    ensures r.types == v.types && r.datelike == v.datelike && r.multipleOf == v.multipleOf
    ensures "string" !in v.types || v.datelike || v.maxLength.Some? ==> r == v
    ensures "string" in v.types && !v.datelike && v.maxLength.None? ==> r.maxLength == Some(LegacyStringLength)
  {
    if "string" in v.types && !v.datelike && v.maxLength.None? then v.(maxLength := Some(LegacyStringLength)) else v
  }

  /**
   * The legacy defaulting is the current one for a non-key property with the
   * default `varchar_size`; for a key property the current one writes 1022
   * where the legacy one writes 10000.
   */
  lemma LegacyDefaultingAgainstCurrent(v: JsonSchemaType)
    ensures LegacyDefaulted(v) == WithDefaultLength(v, false, MaxVarcharSize)
    ensures NeedsDefaultLength(v) ==> LegacyDefaulted(v) != WithDefaultLength(v, true, MaxVarcharSize)
    ensures !NeedsDefaultLength(v) ==> LegacyDefaulted(v) == WithDefaultLength(v, true, MaxVarcharSize)
  {
  }

  /** A second call adds nothing: the first wrote `maxLength`. */
  lemma LegacyDefaultingIsIdempotent(v: JsonSchemaType)
    ensures LegacyDefaulted(LegacyDefaulted(v)) == LegacyDefaulted(v)
  {
  }

  /** The legacy connector's type mapping, with the SDK's mapping `base` injected. */
  class LegacyDB2Connector {
    const base: JsonSchemaType -> SqlType

    constructor (base: JsonSchemaType -> SqlType)
      ensures this.base == base
    {
      this.base := base;
    }

    /**
     * `to_sql_type` of sinks.py (lines 59-66): writes the default length into a
     * string property's dict, then hands the dict to the SDK's mapping.
     */
    method ToSqlType(p: PropertySchema) returns (r: SqlType)
      modifies p
      ensures p.View() == LegacyDefaulted(old(p.View()))
      ensures r == base(p.View())
    {
      if "string" in p.types && !p.datelike && p.maxLength.None? {
        p.maxLength := Some(LegacyStringLength);
      }
      r := base(p.View());
    }
  }

  /** With the legacy flags a column is never altered: a change is refused or kept. */
  lemma LegacyNeverAlters(env: Env, cur: SqlType, incoming: SqlType)
    requires ValidEnv(env) && env.caps == LegacyCapabilities
    ensures !PlanAdapt(env, cur, incoming).Widen?
    ensures forall db: Db, table: string, column: string :: AdaptColumn(env, db, table, column, incoming).db == db
  {
    forall db: Db, table: string, column: string
      ensures AdaptColumn(env, db, table, column, incoming).db == db
    {
      AdaptColumnOutcomes(env, db, table, column, incoming);
    }
  }
}
