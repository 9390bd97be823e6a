/**
 * The record-level steps of `Db2Sink.process_batch` (target_db2/connector.py
 * lines 473-532): keeping the last record per key, choosing the columns whose
 * values are sent as JSON text, and rewriting those values in place.
 */
module Batch {
  import opened Results
  import opened Errors
  import opened TypeMapping
  import opened Records

  // ---------------------------------------------------------------------------
  // `deduplicate_records`

  /** The record's dict holds every key property. */
  predicate Keyed(row: map<string, Value>, keyProperties: seq<string>)
  {
    forall k :: k in keyProperties ==> k in row
  }

  predicate AllKeyed(rows: seq<map<string, Value>>, keyProperties: seq<string>)
  {
    forall j :: 0 <= j < |rows| ==> Keyed(rows[j], keyProperties)
  }

  /** The key tuple `tuple(rec[k] for k in key_properties)`; only read when the record is keyed. */
  function KeyOf(row: map<string, Value>, keyProperties: seq<string>): (key: seq<Value>)
    ensures |key| == |keyProperties|
  {
    seq(|keyProperties|, k requires 0 <= k < |keyProperties| =>
      if keyProperties[k] in row then row[keyProperties[k]] else Null)
  }

  function KeysOf(rows: seq<map<string, Value>>, keyProperties: seq<string>): (ks: seq<seq<Value>>)
    ensures |ks| == |rows| && forall j :: 0 <= j < |rows| ==> ks[j] == KeyOf(rows[j], keyProperties)
  {
    seq(|rows|, j requires 0 <= j < |rows| => KeyOf(rows[j], keyProperties))
  }

  /** No later record has the same key. */
  predicate IsLast<K(==)>(ks: seq<K>, i: int)
  {
    0 <= i < |ks| && forall j :: i < j < |ks| ==> ks[j] != ks[i]
  }

  /** The positions from `i` on that hold the last record of their key, in increasing order. */
  function LastFrom<K(==)>(ks: seq<K>, i: nat): (idx: seq<nat>)
    requires i <= |ks|
    ensures forall p :: 0 <= p < |idx| ==> i <= idx[p] < |ks|
    decreases |ks| - i
  {
    if i == |ks| then []
    else (if IsLast(ks, i) then [i] else []) + LastFrom(ks, i + 1)
  }

  /** The records at the given positions. */
  function Pick<T>(s: seq<T>, idx: seq<nat>): (r: seq<T>)
    requires forall p :: 0 <= p < |idx| ==> idx[p] < |s|
    ensures |r| == |idx| && forall p :: 0 <= p < |idx| ==> r[p] == s[idx[p]]
  {
    seq(|idx|, p requires 0 <= p < |idx| => s[idx[p]])
  }

  /**
   * The positions `LastFrom` keeps are strictly increasing (so the records keep
   * their order), each holds the last record of its key, and every such
   * position is kept.
   */
  lemma {:induction false} LastFromShape<K>(ks: seq<K>, i: nat)
    requires i <= |ks|
    ensures forall p, q :: 0 <= p < q < |LastFrom(ks, i)| ==> LastFrom(ks, i)[p] < LastFrom(ks, i)[q]
    ensures forall p :: 0 <= p < |LastFrom(ks, i)| ==> IsLast(ks, LastFrom(ks, i)[p])
    ensures forall j :: i <= j < |ks| && IsLast(ks, j) ==> j in LastFrom(ks, i)
  {
    LastFromIncreasing(ks, i);
    LastFromAreLast(ks, i);
    LastFromComplete(ks, i);
  }

  lemma {:induction false} LastFromIncreasing<K>(ks: seq<K>, i: nat)
    requires i <= |ks|
    ensures forall p, q :: 0 <= p < q < |LastFrom(ks, i)| ==> LastFrom(ks, i)[p] < LastFrom(ks, i)[q]
    decreases |ks| - i
  {
    if i < |ks| {
      LastFromIncreasing(ks, i + 1);
      var rest := LastFrom(ks, i + 1);
      var idx := LastFrom(ks, i);
      if IsLast(ks, i) {
        assert idx == [i] + rest;
        forall p, q | 0 <= p < q < |idx|
          ensures idx[p] < idx[q]
        {
          assert idx[q] == rest[q - 1];
          if p > 0 {
            assert idx[p] == rest[p - 1];
          }
        }
      } else {
        assert idx == rest;
      }
    }
  }

  lemma {:induction false} LastFromAreLast<K>(ks: seq<K>, i: nat)
    requires i <= |ks|
    ensures forall p :: 0 <= p < |LastFrom(ks, i)| ==> IsLast(ks, LastFrom(ks, i)[p])
    decreases |ks| - i
  {
    if i < |ks| {
      LastFromAreLast(ks, i + 1);
      var rest := LastFrom(ks, i + 1);
      var idx := LastFrom(ks, i);
      if IsLast(ks, i) {
        assert idx == [i] + rest;
        forall p | 0 <= p < |idx|
          ensures IsLast(ks, idx[p])
        {
          if p > 0 {
            assert idx[p] == rest[p - 1];
          }
        }
      } else {
        assert idx == rest;
      }
    }
  }

  lemma {:induction false} LastFromComplete<K>(ks: seq<K>, i: nat)
    requires i <= |ks|
    ensures forall j :: i <= j < |ks| && IsLast(ks, j) ==> j in LastFrom(ks, i)
    decreases |ks| - i
  {
    if i < |ks| {
      LastFromComplete(ks, i + 1);
      var rest := LastFrom(ks, i + 1);
      var idx := LastFrom(ks, i);
      if IsLast(ks, i) {
        assert idx == [i] + rest;
        forall j | i <= j < |ks| && IsLast(ks, j)
          ensures j in idx
        {
          if j > i {
            assert j in rest;
          } else {
            assert idx[0] == j;
          }
        }
      } else {
        assert idx == rest;
      }
    }
  }

  /** Every key has a last occurrence at or after any of its occurrences. */
  lemma {:induction false} LastOccurrenceExists<K>(ks: seq<K>, i: nat)
    requires i < |ks|
    ensures exists j :: i <= j < |ks| && ks[j] == ks[i] && IsLast(ks, j)
    decreases |ks| - i
  {
    if !IsLast(ks, i) {
      var j :| i < j < |ks| && ks[j] == ks[i];
      LastOccurrenceExists(ks, j);
    }
  }

  /** Some position at or after `i` holds the key of position `i` and is kept. */
  predicate KeptLater<K(==)>(ks: seq<K>, i: nat)
    requires i < |ks|
  {
    exists j :: i <= j < |ks| && ks[j] == ks[i] && j in LastFrom(ks, 0)
  }

  /**
   * What `deduplicate_records` promises: the kept records are in their original
   * order, their keys are pairwise distinct, and every key of the batch is kept
   * through its last record.
   */
  lemma DeduplicationKeepsLastPerKey<K>(ks: seq<K>)
    ensures forall p, q :: 0 <= p < q < |LastFrom(ks, 0)| ==> LastFrom(ks, 0)[p] < LastFrom(ks, 0)[q]
    ensures forall p, q :: 0 <= p < q < |LastFrom(ks, 0)| ==> ks[LastFrom(ks, 0)[p]] != ks[LastFrom(ks, 0)[q]]
    ensures forall i :: 0 <= i < |ks| ==> KeptLater(ks, i)
  {
    LastFromIncreasing(ks, 0);
    KeptKeysDistinct(ks);
    EveryKeyKept(ks);
  }

  lemma KeptKeysDistinct<K>(ks: seq<K>)
    ensures forall p, q :: 0 <= p < q < |LastFrom(ks, 0)| ==> ks[LastFrom(ks, 0)[p]] != ks[LastFrom(ks, 0)[q]]
  {
    var idx := LastFrom(ks, 0);
    LastFromIncreasing(ks, 0);
    LastFromAreLast(ks, 0);
    forall p, q | 0 <= p < q < |idx|
      ensures ks[idx[p]] != ks[idx[q]]
    {
      assert IsLast(ks, idx[p]) && idx[p] < idx[q];
    }
  }

  lemma EveryKeyKept<K>(ks: seq<K>)
    ensures forall i :: 0 <= i < |ks| ==> KeptLater(ks, i)
  {
    LastFromComplete(ks, 0);
    forall i | 0 <= i < |ks|
      ensures KeptLater(ks, i)
    {
      LastOccurrenceExists(ks, i);
    }
  }

  /** Keys 1, 2, 1: the first record gives way to the third, and the order is kept. */
  lemma DeduplicationExample()
    ensures LastFrom([1, 2, 1], 0) == [1, 2]
  {
    var ks := [1, 2, 1];
    assert !IsLast(ks, 0) by { assert ks[2] == ks[0]; }
    assert IsLast(ks, 1) && IsLast(ks, 2);
  }

  function Reverse<T>(s: seq<T>): (r: seq<T>)
    ensures |r| == |s|
  {
    if s == [] then [] else Reverse(s[1..]) + [s[0]]
  }

  lemma {:induction false} ReverseAppend<T>(s: seq<T>, x: T)
    ensures Reverse(s + [x]) == [x] + Reverse(s)
  {
    if s != [] {
      assert (s + [x])[1..] == s[1..] + [x];
      ReverseAppend(s[1..], x);
    } else {
      assert ([x])[1..] == [];
    }
  }

  /** The records' dicts. */
  function Rows(records: seq<Record>): (rows: seq<map<string, Value>>)
    reads set o | o in records
    ensures |rows| == |records| && forall j :: 0 <= j < |records| ==> rows[j] == records[j].fields
  {
    seq(|records|, j requires 0 <= j < |records| reads set o | o in records => records[j].fields)
  }

  /** The keys already seen, from position `i` on, hold the key at `i - 1` exactly when it is not the last of its key. */
  lemma SeenLater<K>(ks: seq<K>, i: nat)
    requires 0 < i <= |ks|
    ensures IsLast(ks, i - 1) <==> ks[i - 1] !in (set j | i <= j < |ks| :: ks[j])
  {
    if !IsLast(ks, i - 1) {
      var j :| i - 1 < j < |ks| && ks[j] == ks[i - 1];
      assert ks[j] in (set j | i <= j < |ks| :: ks[j]);
    }
  }

  /** One step of the backwards walk: position `i - 1` is kept in front when it is the last of its key. */
  lemma PickStep<T, K>(s: seq<T>, ks: seq<K>, i: nat)
    requires 0 < i <= |ks| == |s|
    ensures Pick(s, LastFrom(ks, i - 1))
         == (if IsLast(ks, i - 1) then [s[i - 1]] else []) + Pick(s, LastFrom(ks, i))
  {
    var rest := LastFrom(ks, i);
    if IsLast(ks, i - 1) {
      assert LastFrom(ks, i - 1) == [i - 1] + rest;
    } else {
      assert LastFrom(ks, i - 1) == rest;
    }
  }

  /**
   * `deduplicate_records` (lines 491-503): walk the batch from the end, keep a
   * record whose key has not been seen yet, and reverse what was kept. A record
   * without one of the key properties raises.
   */
  method DeduplicateRecords(records: seq<Record>, keyProperties: seq<string>) returns (r: Result<seq<Record>, Error>)
    ensures r.Ok? <==> AllKeyed(Rows(records), keyProperties)
    ensures r.Err? ==> r.error == MissingKeyProperty
    ensures r.Ok? ==> r.value == Pick(records, LastFrom(KeysOf(Rows(records), keyProperties), 0))
  {
    ghost var ks := KeysOf(Rows(records), keyProperties);
    var seen: set<seq<Value>> := {};
    var kept: seq<Record> := [];
    var i := |records|;
    while i > 0
      invariant 0 <= i <= |records|
      invariant forall j :: i <= j < |records| ==> Keyed(records[j].fields, keyProperties)
      invariant seen == set j | i <= j < |records| :: ks[j]
      invariant Reverse(kept) == Pick(records, LastFrom(ks, i))
    {
      var rec := records[i - 1];
      if !Keyed(rec.fields, keyProperties) {
        return Err(MissingKeyProperty);
      }
      var key := KeyOf(rec.fields, keyProperties);
      assert key == ks[i - 1];
      SeenLater(ks, i);
      PickStep(records, ks, i);
      if key !in seen {
        ReverseAppend(kept, rec);
        kept := kept + [rec];
      }
      seen := seen + {key};
      i := i - 1;
    }
    r := Ok(Reverse(kept));
  }

  // ---------------------------------------------------------------------------
  // `object_and_array_columns`

  /** The names of the properties whose type list holds `ty`, in schema order. */
  function NamesOfType(props: seq<(string, JsonSchemaType)>, ty: string): (r: seq<string>)
    ensures forall c :: c in r <==> exists i :: 0 <= i < |props| && props[i].0 == c && ty in props[i].1.types
    decreases |props|
  {
    if props == [] then []
    else
      var rest := NamesOfType(props[..|props| - 1], ty);
      var p := props[|props| - 1];
      assert forall i :: 0 <= i < |props| - 1 ==> props[..|props| - 1][i] == props[i];
      if ty in p.1.types then rest + [p.0] else rest
  }

  /**
   * `object_and_array_columns` (lines 473-489): the object properties, then the
   * array properties; a property that is both is listed twice.
   */
  function ObjectAndArrayColumns(props: seq<(string, JsonSchemaType)>): (r: seq<string>)
    ensures forall c :: c in r <==>
      exists i :: 0 <= i < |props| && props[i].0 == c && ("object" in props[i].1.types || "array" in props[i].1.types)
  {
    NamesOfType(props, "object") + NamesOfType(props, "array")
  }

  // ---------------------------------------------------------------------------
  // Serialising nested values in place

  /** `json.dumps(v) if isinstance(v, (list, dict)) else v`, with the serialiser passed in. */
  function SerializeValue(v: Value, serialize: Value -> string): (r: Value)
    ensures !IsContainer(r)
    ensures !IsContainer(v) ==> r == v
    ensures IsContainer(v) ==> r == Str(serialize(v))
  {
    if IsContainer(v) then Str(serialize(v)) else v
  }

  /** One column of one record (lines 527-532): rewritten only when present. */
  function SerializeColumn(fields: map<string, Value>, c: string, serialize: Value -> string): map<string, Value>
  {
    if c in fields then fields[c := SerializeValue(fields[c], serialize)] else fields
  }

  /**
   * A record after all columns were processed: no key is added or removed, and
   * exactly the listed columns holding a list or dict are replaced by their
   * JSON text; listing a column twice changes nothing more.
   */
  function SerializeColumns(fields: map<string, Value>, columns: seq<string>, serialize: Value -> string): (r: map<string, Value>)
    ensures r.Keys == fields.Keys
    ensures forall k :: k in fields ==> r[k] == if k in columns then SerializeValue(fields[k], serialize) else fields[k]
    decreases |columns|
  {
    if columns == [] then fields
    else SerializeColumn(SerializeColumns(fields, columns[..|columns| - 1], serialize), columns[|columns| - 1], serialize)
  }

  /** Serialising again changes nothing: JSON text is not a container. */
  lemma SerializeColumnsIdempotent(fields: map<string, Value>, columns: seq<string>, serialize: Value -> string)
    ensures SerializeColumns(SerializeColumns(fields, columns, serialize), columns, serialize)
         == SerializeColumns(fields, columns, serialize)
  {
  }

  /**
   * Lines 525-532: for each object or array column, for each record of the
   * batch, serialise the value in place. A record listed twice is rewritten
   * once: the second visit finds text.
   */
  method SerializeRecords(records: seq<Record>, columns: seq<string>, serialize: Value -> string)
    modifies set o | o in records
    ensures forall o :: o in records ==> o.fields == SerializeColumns(old(o.fields), columns, serialize)
  {
    var ci := 0;
    while ci < |columns|
      invariant 0 <= ci <= |columns|
      invariant forall o :: o in records ==> o.fields == SerializeColumns(old(o.fields), columns[..ci], serialize)
    {
      SerializeColumnOf(records, columns[ci], serialize);
      assert columns[..ci + 1][..ci] == columns[..ci];
      ci := ci + 1;
    }
    assert columns[..ci] == columns;
  }

  /** Lines 526-532: one column, for each record of the batch in turn. */
  method SerializeColumnOf(records: seq<Record>, c: string, serialize: Value -> string)
    modifies set o | o in records
    ensures forall o :: o in records ==> o.fields == SerializeColumn(old(o.fields), c, serialize)
  {
    var ri := 0;
    while ri < |records|
      invariant 0 <= ri <= |records|
      invariant forall o :: o in records ==>
        o.fields == if o in records[..ri] then SerializeColumn(old(o.fields), c, serialize) else old(o.fields)
    {
      var rec := records[ri];
      if c in rec.fields {
        rec.fields := rec.fields[c := if IsContainer(rec.fields[c]) then Str(serialize(rec.fields[c])) else rec.fields[c]];
      }
      assert records[..ri + 1] == records[..ri] + [rec];
      ri := ri + 1;
    }
    assert records[..ri] == records;
  }
}
