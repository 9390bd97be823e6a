/**
 * Column types as the loader sees them: the SQLAlchemy type objects it compares,
 * merges and renders with `str()`.
 */
module SqlTypes {
  import opened Results
  import opened Text

  /** The VARCHAR size used when `varchar_size` is not configured (connector.py line 28). */
  const MaxVarcharSize: nat := 10000
  /** The VARCHAR size of a string primary-key column (connector.py line 29). */
  const MaxPkStringSize: nat := 1022
  /** Db2's largest DECIMAL precision (connector.py line 30). */
  const MaxDecimalPrecision: int := 31

  /**
   * `sa.types.DECIMAL(precision, scale)`, a string type (`VARCHAR(length)`),
   * the loader's `JSONVARCHAR(size)` decorator over VARCHAR, and every other type,
   * known only by its rendered name.
   */
  datatype SqlType =
    | Decimal(precision: Option<int>, scale: Option<int>)
    | Varchar(length: Option<nat>)
    | JsonVarchar(size: nat)
    | Other(name: string)

  predicate IsDecimal(t: SqlType)
  {
    t.Decimal?
  }

  /** True for the types whose generic form is `sa.types.String`. */
  predicate IsStringKind(t: SqlType)
  {
    t.Varchar? || t.JsonVarchar?
  }

  /** `getattr(t, "length", 0)`, with `None` read as 0 (both are false in Python). */
  function LenOf(t: SqlType): nat
  {
    match t
    case Varchar(len) => if len.Some? then len.value else 0
    case JsonVarchar(n) => n
    case _ => 0
  }

  /** `t.scale or 0` for a DECIMAL. */
  function ScaleOf(t: SqlType): int
  {
    if t.Decimal? && t.scale.Some? then t.scale.value else 0
  }

  function VarcharText(len: Option<nat>): string
  {
    if len.None? || len.value == 0 then "VARCHAR" else "VARCHAR(" + NatToString(len.value) + ")"
  }

  /**
   * `str(t)`: the DDL text of a type, as SQLAlchemy's generic type compiler
   * writes it. A missing precision drops both numbers and a missing scale drops
   * the scale (a zero is written out); a missing or zero VARCHAR length is
   * dropped; JSONVARCHAR renders as the VARCHAR it decorates.
   */
  function Render(t: SqlType): string
  {
    match t
    case Decimal(p, s) =>
      if p.None? then "DECIMAL"
      else if s.None? then "DECIMAL(" + IntToString(p.value) + ")"
      else "DECIMAL(" + IntToString(p.value) + ", " + IntToString(s.value) + ")"
    case Varchar(len) => VarcharText(len)
    case JsonVarchar(n) => VarcharText(Some(n))
    case Other(name) => name
  }

  /** The DDL text of the types the tests widen to. */
  lemma RenderExamples()
    ensures Render(Varchar(Some(20))) == "VARCHAR(20)"
    ensures Render(Decimal(Some(10), Some(3))) == "DECIMAL(10, 3)"
    ensures Render(Decimal(Some(10), Some(0))) == "DECIMAL(10, 0)"
    ensures Render(Decimal(Some(10), None)) == "DECIMAL(10)"
    ensures Render(Decimal(Some(0), Some(31))) == "DECIMAL(0, 31)"
    ensures Render(Decimal(None, Some(3))) == "DECIMAL"
  {
    assert NatToString(20) == "20";
    assert NatToString(10) == "10";
    assert "VARCHAR(" + "20" + ")" == "VARCHAR(20)";
    assert "DECIMAL(" + "10" + ", " + "3" + ")" == "DECIMAL(10, 3)";
    assert "DECIMAL(" + "10" + ", " + "0" + ")" == "DECIMAL(10, 0)";
    assert "DECIMAL(" + "10" + ")" == "DECIMAL(10)";
    assert "DECIMAL(" + "0" + ", " + "31" + ")" == "DECIMAL(0, 31)";
  }
}
