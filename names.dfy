/**
 * Name handling of the Db2 sink and connector: `conform_name`, which turns a
 * stream property name into a column name, and `schema_exists`, which looks a
 * schema up among the names the catalogue lists.
 */
module Names {
  import opened Text

  /** The characters `re.sub(r"[^a-zA-Z0-9_\-\.\s]", "", name)` keeps. */
  predicate Keep(c: char)
  {
    ('a' <= c <= 'z') || ('A' <= c <= 'Z') || ('0' <= c <= '9')
    || c == '_' || c == '-' || c == '.' || IsSpace(c)
  }

  /** The regular-expression substitution: the kept characters, in order. */
  function KeepOnly(s: string): (r: string)
    ensures |r| <= |s|
    ensures forall i :: 0 <= i < |r| ==> Keep(r[i])
    ensures (forall i :: 0 <= i < |s| ==> Keep(s[i])) ==> r == s
  {
    if s == [] then []
    else if Keep(s[0]) then [s[0]] + KeepOnly(s[1..])
    else KeepOnly(s[1..])
  }

  /**
   * Lines 632-636 of connector.py: drop the other characters, strip the white
   * space at both ends, then turn `.`, `-` and the space into `_`.
   */
  function Conformed(name: string): string
  {
    ReplaceChar(ReplaceChar(ReplaceChar(Strip(KeepOnly(name)), '.', '_'), '-', '_'), ' ', '_')
  }

  /** The characters a conformed name can hold. */
  predicate ConformedChar(c: char)
  {
    Keep(c) && c != '.' && c != '-' && c != ' '
  }

  /** The character the three replacements make of `c`. */
  function Swap(c: char): char
  {
    if c == '.' || c == '-' || c == ' ' then '_' else c
  }

  /** The three replacements act character by character. */
  lemma ReplacementsSwap(s: string)
    ensures |ReplaceChar(ReplaceChar(ReplaceChar(s, '.', '_'), '-', '_'), ' ', '_')| == |s|
    ensures forall i :: 0 <= i < |s| ==>
      ReplaceChar(ReplaceChar(ReplaceChar(s, '.', '_'), '-', '_'), ' ', '_')[i] == Swap(s[i])
  {
  }

  /**
   * A conformed name is no longer than the input, holds only ASCII letters and
   * digits, `_` and white space other than the plain space, and neither starts
   * nor ends with white space.
   */
  lemma {:induction false} ConformedShape(name: string)
    ensures |Conformed(name)| <= |name|
    ensures forall i :: 0 <= i < |Conformed(name)| ==> ConformedChar(Conformed(name)[i])
    ensures Conformed(name) == [] || (!IsSpace(Conformed(name)[0]) && !IsSpace(Conformed(name)[|Conformed(name)| - 1]))
  {
    var kept := KeepOnly(name);
    var stripped := Strip(kept);
    StripKeeps(kept);
    ReplacementsSwap(stripped);
    var r := Conformed(name);
    assert r == ReplaceChar(ReplaceChar(ReplaceChar(stripped, '.', '_'), '-', '_'), ' ', '_');
    forall i | 0 <= i < |r|
      ensures ConformedChar(r[i])
    {
      assert r[i] == Swap(stripped[i]);
      assert Keep(stripped[i]);
    }
    if r != [] {
      assert r[0] == Swap(stripped[0]);
      assert r[|r| - 1] == Swap(stripped[|r| - 1]);
    }
  }

  /** Every character of the stripped text is one of the text's own. */
  lemma StripKeeps(s: string)
    requires forall i :: 0 <= i < |s| ==> Keep(s[i])
    ensures forall i :: 0 <= i < |Strip(s)| ==> Keep(Strip(s)[i])
  {
    var r := Strip(s);
    var i := |s| - |LStrip(s)|;
    forall k | 0 <= k < |r|
      ensures Keep(r[k])
    {
      assert r[k] == s[i + k];
    }
  }

  /** Conforming a conformed name changes nothing. */
  lemma {:induction false} ConformedIdempotent(name: string)
    ensures Conformed(Conformed(name)) == Conformed(name)
  {
    ConformedShape(name);
    ConformedFixed(Conformed(name));
  }

  /** A name of conformed characters with no white space at either end is its own conformed form. */
  lemma ConformedFixed(r: string)
    requires forall i :: 0 <= i < |r| ==> ConformedChar(r[i])
    requires r == [] || (!IsSpace(r[0]) && !IsSpace(r[|r| - 1]))
    ensures Conformed(r) == r
  {
    assert forall i :: 0 <= i < |r| ==> Keep(r[i]);
    assert KeepOnly(r) == r;
    StripTrimmed(r);
    ReplacementsSwap(r);
    assert forall i :: 0 <= i < |r| ==> Swap(r[i]) == r[i];
  }

  lemma SepKept()
    ensures KeepOnly(" my.col-name ") == " my.col-name "
  {
    var s := " my.col-name ";
    assert forall i :: 0 <= i < |s| ==> Keep(s[i]);
  }
  lemma SepLeft()
    ensures LStrip(" my.col-name ") == "my.col-name "
  {
    var s := " my.col-name ";
    assert IsSpace(s[0]);
    assert s[1..] == "my.col-name ";
    assert !IsSpace(s[1..][0]);
  }
  lemma SepRight()
    ensures RStrip("my.col-name ") == "my.col-name"
  {
    var s := "my.col-name ";
    assert IsSpace(s[11]);
    assert s[..11] == "my.col-name";
    assert !IsSpace(s[..11][10]);
  }
  lemma SepStripped()
    ensures Strip(" my.col-name ") == "my.col-name"
  {
    SepLeft(); SepRight();
  }
  lemma SepReplaced()
    ensures ReplaceChar(ReplaceChar(ReplaceChar("my.col-name", '.', '_'), '-', '_'), ' ', '_') == "my_col_name"
  {
    var s := "my.col-name";
    ReplacementsSwap(s);
    assert forall i :: 0 <= i < |s| ==> Swap(s[i]) == "my_col_name"[i];
  }
  /** Separators inside the name become `_`, white space at the ends goes. */
  lemma ConformedSeparatorsExample()
    ensures Conformed(" my.col-name ") == "my_col_name"
  {
    SepKept();
    SepStripped();
    SepReplaced();
  }

  lemma TabKept()
    ensures KeepOnly("a\tb") == "a\tb"
  {
    var s := "a\tb";
    assert Keep(s[0]) && Keep(s[1]) && Keep(s[2]);
  }

  lemma TabReplaced()
    ensures ReplaceChar(ReplaceChar(ReplaceChar("a\tb", '.', '_'), '-', '_'), ' ', '_') == "a\tb"
  {
    var s := "a\tb";
    ReplacementsSwap(s);
    assert Swap(s[0]) == s[0] && Swap(s[1]) == s[1] && Swap(s[2]) == s[2];
  }

  /** A tab inside the name is kept: only the plain space is replaced. */
  lemma ConformedTabExample()
    ensures Conformed("a\tb") == "a\tb"
  {
    TabKept();
    StripTrimmed("a\tb");
    TabReplaced();
  }

  /** Characters outside the allowed set are dropped, not replaced. */
  lemma KeepOnlyDropsExample()
    ensures KeepOnly("a($)b") == "ab"
  {
    var s := "a($)b";
    assert s[1..][1..][1..][1..] == "b";
    assert KeepOnly("b") == "b";
    assert !Keep(')') && !Keep('$') && !Keep('(');
  }

  /**
   * `schema_exists` (connector.py lines 270-289, and the same test at lines
   * 36-57 of sinks.py): the upper-cased query among the stripped and
   * upper-cased listed names.
   */
  function SchemaExists(schemaName: string, listed: seq<string>): (r: bool)
    ensures r <==> exists i :: 0 <= i < |listed| && Upper(Strip(listed[i])) == Upper(schemaName)
  {
    Upper(schemaName) in (set x | x in listed :: Upper(Strip(x)))
  }

  lemma UpperIdempotent(s: string)
    ensures Upper(Upper(s)) == Upper(s)
  {
    assert forall i :: 0 <= i < |s| ==> Upper(Upper(s))[i] == Upper(s)[i];
  }

  /** The lookup ignores the case of the query. */
  lemma SchemaExistsIgnoresCase(schemaName: string, listed: seq<string>)
    ensures SchemaExists(schemaName, listed) == SchemaExists(Upper(schemaName), listed)
  {
    UpperIdempotent(schemaName);
  }

  /** A listed name, padded or not and in any case, is found by its upper-cased stripped text. */
  lemma SchemaExistsFindsListed(listed: seq<string>, i: nat)
    requires i < |listed|
    ensures SchemaExists(Strip(listed[i]), listed)
    ensures SchemaExists(Upper(Strip(listed[i])), listed)
  {
    UpperIdempotent(Strip(listed[i]));
  }

  /** Listing more schemas never hides one already found. */
  lemma SchemaExistsMonotone(schemaName: string, listed: seq<string>, more: seq<string>)
    requires SchemaExists(schemaName, listed)
    ensures SchemaExists(schemaName, listed + more) && SchemaExists(schemaName, more + listed)
  {
    var i :| 0 <= i < |listed| && Upper(Strip(listed[i])) == Upper(schemaName);
    assert (listed + more)[i] == listed[i];
    assert (more + listed)[|more| + i] == listed[i];
  }

  lemma PaddedLeft()
    ensures LStrip("DB2INST1 ") == "DB2INST1 "
  {
    assert !IsSpace("DB2INST1 "[0]);
  }

  lemma PaddedRight()
    ensures RStrip("DB2INST1 ") == "DB2INST1"
  {
    var s := "DB2INST1 ";
    assert IsSpace(s[8]);
    assert s[..8] == "DB2INST1";
    assert !IsSpace(s[..8][7]);
  }

  lemma UpperExample()
    ensures Upper("db2inst1") == "DB2INST1" == Upper("DB2INST1")
  {
    var s, t := "db2inst1", "DB2INST1";
    assert forall i :: 0 <= i < 8 ==> UpperChar(s[i]) == t[i] == UpperChar(t[i]);
  }

  /** Padding on a listed name is ignored and the case of the query does not matter ... */
  lemma SchemaExistsPaddedExample()
    ensures SchemaExists("db2inst1", ["SYSIBM", "DB2INST1 "])
  {
    PaddedLeft();
    PaddedRight();
    UpperExample();
    var listed := ["SYSIBM", "DB2INST1 "];
    assert Upper(Strip(listed[1])) == Upper("db2inst1");
  }

  /** ... but padding on the query is not stripped. */
  lemma SchemaExistsUnstrippedQueryExample()
    ensures !SchemaExists(" DB2INST1", ["DB2INST1"])
  {
    assert |Strip("DB2INST1")| <= 8;
    assert |Upper(" DB2INST1")| == 9;
  }
}
