/**
 * `DB2Connector.to_sql_type` (target_db2/connector.py lines 291-316) on the
 * value of a JSON-schema property: the `maxLength` it writes into a string
 * property, and the column type it returns.
 */
module TypeMapping {
  import opened Results
  import opened SqlTypes
  import opened Errors

  /**
   * What the mapping reads of one property's JSON schema: its type names (the
   * SDK's `_jsonschema_type_check`), whether the SDK's `get_datelike_property_type`
   * reports a date, time or date-time format, `maxLength` and `multipleOf`.
   */
  datatype JsonSchemaType = JsonSchemaType(
    types: set<string>,
    datelike: bool,
    maxLength: Option<int>,
    multipleOf: Option<real>)

  /** A string property without a date-like format and without `maxLength`. */
  predicate NeedsDefaultLength(v: JsonSchemaType)
  {
    "string" in v.types && !v.datelike && v.maxLength.None?
  }

  /** The length written into such a property (line 298). */
  function DefaultLength(isPrimaryKey: bool, varcharSize: nat): nat
  {
    if isPrimaryKey then MaxPkStringSize else varcharSize
  }

  /**
   * The property after lines 297-302 ran on it: only `maxLength` may change, and
   * only a property that needs a default gets one.
   */
  function WithDefaultLength(v: JsonSchemaType, isPrimaryKey: bool, varcharSize: nat): (r: JsonSchemaType)
    ensures r.types == v.types && r.datelike == v.datelike && r.multipleOf == v.multipleOf
    ensures !NeedsDefaultLength(v) ==> r == v
    ensures NeedsDefaultLength(v) ==> r.maxLength == Some(DefaultLength(isPrimaryKey, varcharSize) as int)
  {
    if NeedsDefaultLength(v) then v.(maxLength := Some(DefaultLength(isPrimaryKey, varcharSize) as int)) else v
  }

  /**
   * Defaulting twice is defaulting once: the first call writes `maxLength`, so a
   * later call (with either primary-key flag) leaves the property alone.
   */
  lemma DefaultingIsIdempotent(v: JsonSchemaType, pk1: bool, pk2: bool, size: nat)
    ensures WithDefaultLength(WithDefaultLength(v, pk1, size), pk2, size) == WithDefaultLength(v, pk1, size)
    ensures !NeedsDefaultLength(WithDefaultLength(v, pk1, size))
  {
  }

  function Pow10(n: nat): (r: nat)
    ensures r >= 1
  {
    if n == 0 then 1 else 10 * Pow10(n - 1)
  }

  /** The least `s` with 10^s >= n. */
  function CeilLog10(n: nat): (s: nat)
    ensures Pow10(s) >= n
    ensures s > 0 ==> Pow10(s - 1) < n
  {
    if n <= 1 then 0 else 1 + CeilLog10((n + 9) / 10)
  }

  /** `math.ceil(x)` on a rational. */
  function Ceil(x: real): (c: int)
    ensures c as real >= x && (c - 1) as real < x
  {
    -((-x).Floor)
  }

  /** Python's `int(m)` on a float: truncation toward zero. */
  function Trunc(m: real): int
  {
    if m >= 0.0 then m.Floor else -((-m).Floor)
  }

  /**
   * `ceil(log10(1 / f))` for a fraction 0 < f < 1, on rationals: the least number
   * of decimal places s with f * 10^s >= 1.
   */
  function ScaleFor(f: real): (s: nat)
    requires 0.0 < f < 1.0
  {
    CeilLog10(Ceil(1.0 / f))
  }

  /** The scale is the least s >= 1 with 10^s >= 1 / f (that is, f * 10^s >= 1). */
  lemma {:induction false} ScaleForIsLeast(f: real)
    requires 0.0 < f < 1.0
    ensures ScaleFor(f) >= 1
    ensures Pow10(ScaleFor(f)) as real >= 1.0 / f
    ensures Pow10(ScaleFor(f) - 1) as real < 1.0 / f
  {
    var q := 1.0 / f;
    assert q > 1.0;
    var n := Ceil(q);
    assert n >= 2;
    var s := CeilLog10(n);
    assert s >= 1;
    assert Pow10(s - 1) <= n - 1;
  }

  /**
   * The column type of a property that has already been through the defaulting
   * (lines 303-316): a `number` with a non-integral `multipleOf` becomes
   * DECIMAL(31 - s, s), any other `number` an unparameterised DECIMAL, an
   * `object` or `array` JSONVARCHAR(varchar_size), and the rest is left to the
   * SDK's mapping `base`. A negative fractional part makes `math.log10` fail.
   */
  function MapType(v: JsonSchemaType, varcharSize: nat, base: JsonSchemaType -> SqlType): Result<SqlType, Error>
  {
    if "number" in v.types then
      if v.multipleOf.Some? && v.multipleOf.value != 0.0 && v.multipleOf.value != Trunc(v.multipleOf.value) as real then
        var f := v.multipleOf.value - Trunc(v.multipleOf.value) as real;
        if f < 0.0 then Err(MathDomainError)
        else
          assert 0.0 < f < 1.0;
          var s := ScaleFor(f);
          Ok(Decimal(Some(MaxDecimalPrecision - s), Some(s)))
      else Ok(Decimal(None, None))
    else if "object" in v.types || "array" in v.types then Ok(JsonVarchar(varcharSize))
    else Ok(base(v))
  }

  /**
   * A positive non-integral `multipleOf` m maps to DECIMAL(p, s) with p + s = 31,
   * where s is the least number of places with 10^s >= 1 / f, f the fractional
   * part of m (so that f * 10^s reaches 1).
   */
  lemma FractionalStepMapsToDecimal(v: JsonSchemaType, size: nat, base: JsonSchemaType -> SqlType)
    requires "number" in v.types && v.multipleOf.Some?
    requires v.multipleOf.value > 0.0 && v.multipleOf.value != v.multipleOf.value.Floor as real
    ensures var f := v.multipleOf.value - v.multipleOf.value.Floor as real;
      && 0.0 < f < 1.0
      && MapType(v, size, base).Ok?
      && MapType(v, size, base).value.Decimal?
      && var r := MapType(v, size, base).value;
      && r.precision.Some? && r.scale.Some?
      && r.precision.value + r.scale.value == MaxDecimalPrecision
      && r.scale.value >= 1
      && Pow10(r.scale.value) as real >= 1.0 / f
      && Pow10(r.scale.value - 1) as real < 1.0 / f
  {
    var m := v.multipleOf.value;
    assert Trunc(m) == m.Floor;
    var f := m - m.Floor as real;
    assert 0.0 < f < 1.0;
    ScaleForIsLeast(f);
    var s := ScaleFor(f);
    assert MapType(v, size, base) == Ok(Decimal(Some(MaxDecimalPrecision - s), Some(s)));
  }

  /** Any other `number` maps to an unconstrained DECIMAL. */
  lemma WholeStepMapsToPlainDecimal(v: JsonSchemaType, size: nat, base: JsonSchemaType -> SqlType)
    requires "number" in v.types
    requires v.multipleOf.None? || v.multipleOf.value == Trunc(v.multipleOf.value) as real
    ensures MapType(v, size, base) == Ok(Decimal(None, None))
    ensures Render(MapType(v, size, base).value) == "DECIMAL"
  {
  }

  /** `multipleOf` 0.1 gives DECIMAL(30,1) and 0.01 gives DECIMAL(29,2). */
  lemma DecimalExamples(base: JsonSchemaType -> SqlType)
    ensures MapType(JsonSchemaType({"number"}, false, None, Some(0.1)), MaxVarcharSize, base)
         == Ok(Decimal(Some(30), Some(1)))
    ensures MapType(JsonSchemaType({"number"}, false, None, Some(0.01)), MaxVarcharSize, base)
         == Ok(Decimal(Some(29), Some(2)))
  {
    assert (0.1).Floor == 0;
    assert Ceil(1.0 / 0.1) == 10;
    assert CeilLog10(10) == 1;
    assert (0.01).Floor == 0;
    assert Ceil(1.0 / 0.01) == 100;
    assert CeilLog10(100) == 2;
  }

  /** `object` and `array` properties become JSONVARCHAR(varchar_size), whatever the key flag. */
  lemma NestedMapsToJsonVarchar(v: JsonSchemaType, isPrimaryKey: bool, size: nat, base: JsonSchemaType -> SqlType)
    requires "number" !in v.types
    requires "object" in v.types || "array" in v.types
    ensures MapType(WithDefaultLength(v, isPrimaryKey, size), size, base) == Ok(JsonVarchar(size))
  {
  }
}
