/** The sidebar filter chain (dashboard.py lines 158-179): month, category, status and
    reason, in that order. Each stage offers "All" plus the values still present, then
    narrows the rows to the chosen value. */
module Filters {
  import opened Rows
  import opened Seqs
  import opened TextOrder

  /** The selectbox entry that means "no constraint". */
  const All: Text := "All"

  /** The four selectbox values. */
  datatype FilterState = FilterState(month: Text, category: Text, status: Text, reason: Text)

  /** The stages in the order the sidebar applies them: (column, selected value). */
  function Stages(f: FilterState): seq<(Dimension, Text)>
  {
    [(Month, f.month), (Category, f.category), (Status, f.status), (Reason, f.reason)]
  }

  /** The non-empty cells of column `d`, in row order. */
  function Values(rows: seq<Record>, d: Dimension): (vs: seq<Text>)
    ensures forall v :: v in vs <==> Some(v) in Column(rows, d)
  {
    if rows == [] then []
    else
      assert Column(rows, d) == [Field(rows[0], d)] + Column(rows[1..], d);
      var rest := Values(rows[1..], d);
      match Field(rows[0], d)
      case Some(v) => [v] + rest
      case None => rest
  }

  /** A selectbox's choices: "All", then the distinct non-empty values of the column among
      the rows still left, ascending. */
  function OptionList(rows: seq<Record>, d: Dimension): (options: seq<Text>)
    ensures |options| >= 1 && options[0] == All
    ensures StrictlyAscending(options[1..])
    ensures forall v :: v in options[1..] <==> Some(v) in Column(rows, d)
  {
    var sorted := SortedDistinct(Values(rows, d));
    assert ([All] + sorted)[1..] == sorted;
    [All] + sorted
  }

  /** A row passes a stage when the stage selects "All" or the row's cell equals the selection. */
  predicate Admits(stage: (Dimension, Text), r: Record)
  {
    stage.1 == All || Field(r, stage.0) == Some(stage.1)
  }

  predicate SatisfiesAll(r: Record, stages: seq<(Dimension, Text)>)
  {
    forall stage :: stage in stages ==> Admits(stage, r)
  }

  function SatisfiesMask(stages: seq<(Dimension, Text)>): Record -> bool
  {
    r => SatisfiesAll(r, stages)
  }

  /** One stage: unless the selection is "All", keep only the rows whose cell equals it. */
  function ApplyStage(rows: seq<Record>, stage: (Dimension, Text)): (kept: seq<Record>)
    ensures stage.1 == All ==> kept == rows
    ensures Subsequence(kept, rows)
    ensures forall r :: r in kept <==> r in rows && Admits(stage, r)
    ensures forall r :: multiset(kept)[r] == if Admits(stage, r) then multiset(rows)[r] else 0
  {
    if stage.1 == All then
      SubsequenceReflexive(rows);
      rows
    else
      Keep(rows, stage.0, stage.1)
  }

  function Narrow(): (seq<Record>, (Dimension, Text)) -> seq<Record>
  {
    (rows: seq<Record>, stage: (Dimension, Text)) => ApplyStage(rows, stage)
  }

  function Offer(): (seq<Record>, (Dimension, Text)) -> seq<Text>
  {
    (rows: seq<Record>, stage: (Dimension, Text)) => OptionList(rows, stage.0)
  }

  /** The stages applied one after another, each to what the previous one left. It keeps
      exactly the rows that pass every stage, in their original order: sequential filtering
      is one mask with the conjunction of the selections. */
  function Chain(rows: seq<Record>, stages: seq<(Dimension, Text)>): (view: seq<Record>)
    ensures view == Filter(rows, SatisfiesMask(stages))
  {
    NarrowingSelects(rows, stages);
    Fold(rows, stages, Narrow())
  }

  /** Narrowing stage by stage equals one selection by the conjunction of the stages. */
  lemma {:induction false} NarrowingSelects(rows: seq<Record>, stages: seq<(Dimension, Text)>)
    ensures Fold(rows, stages, Narrow()) == Filter(rows, SatisfiesMask(stages))
    decreases |stages|
  {
    if stages == [] {
      FilterKeepsAll(rows, SatisfiesMask(stages));
    } else {
      var init, last := stages[..|stages| - 1], stages[|stages| - 1];
      assert stages == init + [last];
      NarrowingSelects(rows, init);
      assert forall r :: SatisfiesAll(r, stages) == (SatisfiesAll(r, init) && Admits(last, r));
      if last.1 == All {
        FilterExtensional(rows, SatisfiesMask(init), SatisfiesMask(stages));
      } else {
        FilterFilter(rows, SatisfiesMask(init), Has(last.0, last.1), SatisfiesMask(stages));
      }
    }
  }

  /** The order of the stages does not change the final view (the selections are ANDed). */
  lemma ChainOrderIrrelevant(rows: seq<Record>, s1: seq<(Dimension, Text)>, s2: seq<(Dimension, Text)>)
    requires forall stage :: stage in s1 <==> stage in s2
    ensures Chain(rows, s1) == Chain(rows, s2)
  {
    FilterExtensional(rows, SatisfiesMask(s1), SatisfiesMask(s2));
  }

  /** Filtering the view again with the same selections changes nothing. */
  lemma ChainIdempotent(rows: seq<Record>, stages: seq<(Dimension, Text)>)
    ensures Chain(Chain(rows, stages), stages) == Chain(rows, stages)
  {
    FilterFilter(rows, SatisfiesMask(stages), SatisfiesMask(stages), SatisfiesMask(stages));
  }

  /** Lines 158-179: the month, category, status and reason stages, in that order. The view
      holds, in their original order, exactly the records that pass every selection, and
      each selectbox's options come from the rows the earlier stages left. */
  method ApplyFilters(records: seq<Record>, f: FilterState) returns (view: seq<Record>, options: seq<seq<Text>>)
    ensures view == Chain(records, Stages(f))
    ensures Subsequence(view, records)
    ensures forall r :: r in view <==> r in records && SatisfiesAll(r, Stages(f))
    ensures |options| == |Stages(f)|
    ensures forall i :: 0 <= i < |options| ==>
              options[i] == OptionList(Chain(records, Stages(f)[..i]), Stages(f)[i].0)
  {
    view, options := Cascade(records, Stages(f), Narrow(), Offer());
  }
}
