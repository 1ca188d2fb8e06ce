/** The required-column check that runs on "Sheet1" before anything else. */
module Schema {
  import opened Rows
  import opened Seqs

  /** The columns dashboard.py checks for. */
  const ExpectedColumns: seq<Text> := ["Submission Date", "Status", "Reason", "Category", "Location"]

  /** The columns the pipeline reads: the checked ones and "MRC", which the churn MRC and
      the per-reason totals read. */
  const RequiredColumns: seq<Text> := ExpectedColumns + ["MRC"]

  /** The expected columns absent from the header, in the order they are expected. */
  function MissingColumns(expected: seq<Text>, present: seq<Text>): (missing: seq<Text>)
    ensures forall c :: c in missing <==> c in expected && c !in present
    ensures Subsequence(missing, expected)
    ensures missing == [] <==> forall c :: c in expected ==> c in present
  {
    if expected == [] then []
    else
      assert expected == [expected[0]] + expected[1..];
      var rest := MissingColumns(expected[1..], present);
      if expected[0] in present then rest else [expected[0]] + rest
  }

  /** As written, the check lets through a header with every checked column but no "MRC"
      column, which the KPI step then reads: the corrected list would report it missing. */
  lemma CheckIgnoresMrcExample()
    ensures MissingColumns(ExpectedColumns, ExpectedColumns) == []
    ensures MissingColumns(RequiredColumns, ExpectedColumns) == ["MRC"]
  {
    var e := ExpectedColumns;
    assert "MRC" != e[0] && "MRC" != e[1] && "MRC" != e[2] && "MRC" != e[3] && "MRC" != e[4];
    assert "MRC" !in e;
    assert forall c :: c in RequiredColumns && c !in e <==> c == "MRC";
    var m := MissingColumns(RequiredColumns, e);
    assert forall c :: c in m <==> c == "MRC";
    assert m == ["MRC"] by {
      assert Subsequence(m, RequiredColumns);
      SubsequenceOfDistinctSingle(m, RequiredColumns, "MRC");
    }
  }

  /** With the corrected list, a header that passes has every column the pipeline reads. */
  lemma CorrectedCheckCoversMrc(present: seq<Text>)
    requires MissingColumns(RequiredColumns, present) == []
    ensures "MRC" in present
    ensures forall c :: c in ExpectedColumns ==> c in present
  {
    assert "MRC" in RequiredColumns;
  }

  lemma SubsequenceOfDistinctSingle(m: seq<Text>, s: seq<Text>, x: Text)
    requires Subsequence(m, s)
    requires forall c :: c in m <==> c == x
    requires forall i, j :: 0 <= i < j < |s| ==> s[i] != s[j]
    ensures m == [x]
  {
    SubsequenceLength(m, s);
    assert x in m;
    if |m| > 1 {
      assert m[0] in m && m[1] in m;
      SubsequenceNoRepeat(m, s);
      assert false;
    }
  }
}
