/**
 * `DB2Connector.merge_sql_types`: choose one column type able to hold the
 * values of all the given types (target_db2/connector.py lines 318-384).
 *
 * The SDK's `_sort_types` is not modelled; the merge takes it as `order`, any
 * function that permutes its argument, so every property below holds for every
 * ordering the SDK could choose.
 */
module TypeMerge {
  import opened Results
  import opened SqlTypes
  import opened Errors

  /** `order` only rearranges the types it is given. */
  ghost predicate Permutes(order: seq<SqlType> -> seq<SqlType>)
  {
    forall s :: multiset(order(s)) == multiset(s)
  }

  /**
   * The test of the scan at lines 361-381: a string type is taken when its length
   * is unbounded (None or 0) or at least the current column's non-zero length; any
   * other type only when it renders like the current column.
   */
  predicate Accepts(current: SqlType, opt: SqlType)
  {
    if IsStringKind(opt) then LenOf(opt) == 0 || (LenOf(current) != 0 && LenOf(opt) >= LenOf(current))
    else Render(opt) == Render(current)
  }

  /** The early-return scan: the first type in `opts` that `Accepts` takes. */
  function FirstAccepted(current: SqlType, opts: seq<SqlType>): (r: Option<SqlType>)
    ensures r.Some? ==> r.value in opts && Accepts(current, r.value)
    ensures r.None? <==> forall t :: t in opts ==> !Accepts(current, t)
  {
    if opts == [] then None
    else if Accepts(current, opts[0]) then Some(opts[0])
    else FirstAccepted(current, opts[1..])
  }

  /**
   * The two-type case (lines 355-384) on the already ordered pair: two DECIMALs
   * give the first one with the larger `scale or 0` (Python's `sorted` is stable
   * under `reverse=True`), otherwise the scan decides.
   */
  function MergePair(current: SqlType, sorted: seq<SqlType>): Result<SqlType, Error>
    requires |sorted| == 2
  {
    if IsDecimal(sorted[0]) && IsDecimal(sorted[1]) then
      Ok(if ScaleOf(sorted[1]) > ScaleOf(sorted[0]) then sorted[1] else sorted[0])
    else
      match FirstAccepted(current, sorted)
      case Some(t) => Ok(t)
      case None => Err(UnableToMerge(sorted))
  }

  lemma PermutedLength(s: seq<SqlType>, order: seq<SqlType> -> seq<SqlType>)
    requires Permutes(order)
    ensures |order(s)| == |s|
    ensures forall t :: t in order(s) <==> t in s
  {
    assert multiset(order(s)) == multiset(s);
    assert |multiset(order(s))| == |multiset(s)|;
    forall t ensures t in order(s) <==> t in s {
      assert t in order(s) <==> t in multiset(order(s));
      assert t in s <==> t in multiset(s);
    }
  }

  /**
   * `merge_sql_types(types)`: an empty list is an error, one type is returned as
   * it is; otherwise `current` is the first type before ordering, and more than
   * two types are folded from the left after ordering.
   */
  function MergeTypes(types: seq<SqlType>, order: seq<SqlType> -> seq<SqlType>): Result<SqlType, Error>
    requires Permutes(order)
    decreases |types|
  {
    if |types| == 0 then Err(EmptyTypeList)
    else if |types| == 1 then Ok(types[0])
    else
      var sorted := order(types);
      PermutedLength(types, order);
      if |sorted| > 2 then
        match MergeTypes([sorted[0], sorted[1]], order)
        case Err(e) => Err(e)
        case Ok(m) => MergeTypes([m] + sorted[2..], order)
      else
        MergePair(types[0], sorted)
  }

  /** Edge cases (lines 333-338): no types is an error, a single type comes back unchanged. */
  lemma MergeEdgeCases(t: SqlType, order: seq<SqlType> -> seq<SqlType>)
    requires Permutes(order)
    ensures MergeTypes([], order) == Err(EmptyTypeList)
    ensures MergeTypes([t], order) == Ok(t)
  {
  }

  /**
   * Two or more types always merge, into one of the inputs: the current type
   * always passes the scan itself, so the "Unable to merge" error at line 384
   * cannot be reached.
   */
  lemma {:induction false} MergeResultIsInput(types: seq<SqlType>, order: seq<SqlType> -> seq<SqlType>)
    requires Permutes(order)
    requires |types| >= 1
    ensures MergeTypes(types, order).Ok?
    ensures MergeTypes(types, order).value in types
    decreases |types|
  {
    if |types| >= 2 {
      var sorted := order(types);
      PermutedLength(types, order);
      if |sorted| > 2 {
        var pair := [sorted[0], sorted[1]];
        MergeResultIsInput(pair, order);
        var m := MergeTypes(pair, order).value;
        var rest := [m] + sorted[2..];
        MergeResultIsInput(rest, order);
        var r := MergeTypes(rest, order).value;
        assert r == m || r in sorted[2..];
      } else {
        assert types[0] in sorted;
        assert Accepts(types[0], types[0]);
      }
    }
  }

  /**
   * When every type is a DECIMAL (lines 357-359) the merge is a DECIMAL input
   * whose scale (missing counted as 0) is the largest.
   */
  lemma {:induction false} MergeDecimalsKeepLargestScale(types: seq<SqlType>, order: seq<SqlType> -> seq<SqlType>)
    requires Permutes(order)
    requires |types| >= 1
    requires forall t :: t in types ==> IsDecimal(t)
    ensures MergeTypes(types, order).Ok?
    ensures MergeTypes(types, order).value in types
    ensures IsDecimal(MergeTypes(types, order).value)
    ensures forall t :: t in types ==> ScaleOf(t) <= ScaleOf(MergeTypes(types, order).value)
    decreases |types|
  {
    if |types| >= 2 {
      var sorted := order(types);
      PermutedLength(types, order);
      if |sorted| > 2 {
        var pair := [sorted[0], sorted[1]];
        MergeDecimalsKeepLargestScale(pair, order);
        var m := MergeTypes(pair, order).value;
        var rest := [m] + sorted[2..];
        assert forall t :: t in rest ==> t == m || t in sorted[2..];
        MergeDecimalsKeepLargestScale(rest, order);
        var r := MergeTypes(rest, order).value;
        assert r == m || r in sorted[2..];
        assert m in rest;
        SplitAfterTwo(sorted);
        forall t | t in types ensures ScaleOf(t) <= ScaleOf(r) {
          assert t in sorted;
          if t !in pair { assert t in rest; }
        }
      }
    }
  }

  lemma SplitAfterTwo(s: seq<SqlType>)
    requires |s| > 2
    ensures forall t :: t in s ==> t in [s[0], s[1]] || t in s[2..]
  {
    assert s == [s[0], s[1]] + s[2..];
  }

  /**
   * A VARCHAR is never shortened (lines 343, 372-377): when the current column
   * and the new type are both strings, the merge is a string input whose length is
   * unbounded or at least the current non-zero length (and unbounded when the
   * current one is).
   */
  lemma MergeNeverShrinksString(current: SqlType, incoming: SqlType, order: seq<SqlType> -> seq<SqlType>)
    requires Permutes(order)
    requires IsStringKind(current) && IsStringKind(incoming)
    ensures MergeTypes([current, incoming], order).Ok?
    ensures var r := MergeTypes([current, incoming], order).value;
      && (r == current || r == incoming)
      && IsStringKind(r)
      && (LenOf(r) == 0 || (LenOf(current) != 0 && LenOf(r) >= LenOf(current)))
  {
    var types := [current, incoming];
    PermutedLength(types, order);
    MergeResultIsInput(types, order);
    var sorted := order(types);
    assert sorted[0] in types;
    assert !IsDecimal(sorted[0]);
  }

  /** A multiset of two elements is listed in one of two orders. */
  lemma PairPermutation(a: SqlType, b: SqlType, s: seq<SqlType>)
    requires multiset(s) == multiset([a, b])
    ensures s == [a, b] || s == [b, a]
  {
    assert |s| == |multiset(s)| == 2;
    assert s[0] in multiset(s) && s[1] in multiset(s);
    if s[0] == a {
      assert multiset(s) - multiset{a} == multiset{s[1]};
      assert multiset([a, b]) - multiset{a} == multiset{b};
    } else {
      assert s[0] == b;
      assert multiset(s) - multiset{b} == multiset{s[1]};
      assert multiset([a, b]) - multiset{b} == multiset{a};
    }
  }

  /**
   * Precision is not what the merge widens (tests/test_core.py lines 189-193,
   * 207-210): DECIMAL(30,1) merged with DECIMAL(10,3) gives DECIMAL(10,3), in
   * every order.
   */
  lemma MergeMayNarrowPrecision(order: seq<SqlType> -> seq<SqlType>)
    requires Permutes(order)
    ensures MergeTypes([Decimal(Some(30), Some(1)), Decimal(Some(10), Some(3))], order)
         == Ok(Decimal(Some(10), Some(3)))
  {
    var a, b := Decimal(Some(30), Some(1)), Decimal(Some(10), Some(3));
    assert multiset(order([a, b])) == multiset([a, b]);
    PairPermutation(a, b, order([a, b]));
  }

  /** An ordering that leaves the types as given. */
  function KeepOrder(s: seq<SqlType>): seq<SqlType>
  {
    s
  }

  /** An ordering that swaps a pair and leaves every other list alone. */
  function SwapPair(s: seq<SqlType>): seq<SqlType>
  {
    if |s| == 2 then [s[1], s[0]] else s
  }

  /** Swapping a pair keeps its elements. */
  lemma SwapPairPermutes()
    ensures Permutes(SwapPair)
  {
    forall s ensures multiset(SwapPair(s)) == multiset(s) {
      if |s| == 2 {
        assert s == [s[0]] + [s[1]];
        assert SwapPair(s) == [s[1]] + [s[0]];
      }
    }
  }

  /**
   * Whether a longer VARCHAR wins depends on the ordering: with the current
   * VARCHAR(10) placed first the scan stops at it, with the new VARCHAR(20) first
   * the column is widened.
   */
  lemma MergeWideningDependsOnOrder()
    ensures Permutes(KeepOrder) && MergeTypes([Varchar(Some(10)), Varchar(Some(20))], KeepOrder) == Ok(Varchar(Some(10)))
    ensures Permutes(SwapPair) && MergeTypes([Varchar(Some(10)), Varchar(Some(20))], SwapPair) == Ok(Varchar(Some(20)))
  {
    SwapPairPermutes();
  }
}
