/** The grouped tables of the report: churn by reason with MRC totals (dashboard.py
    lines 85-89), churn by location (106-107), new customers by category and by location
    (120-121); the same tables are rebuilt after filtering (196-200, 218-219, 233-234). */
module Summaries {
  import opened Rows
  import opened Seqs
  import opened TextOrder
  import opened Filters
  import opened Kpis
  import opened Ranking

  /** How many rows the location tables keep. */
  const TopN: nat := 20

  /** One row of the churn-by-reason table: Reason, Count, Total_MRC. */
  datatype ReasonGroup = ReasonGroup(reason: Text, count: nat, totalMrc: real)

  /** One row of a count table: the key and how many rows carry it. */
  datatype KeyCount = KeyCount(key: Text, count: nat)

  function ReasonCount(g: ReasonGroup): nat { g.count }
  function ReasonTotal(g: ReasonGroup): real { g.totalMrc }
  function ReasonKey(g: ReasonGroup): Text { g.reason }
  function CountOf(g: KeyCount): nat { g.count }
  function KeyOf(g: KeyCount): Text { g.key }

  /** The keys a group-by on `d` forms: the distinct non-empty values of the column, ascending. */
  function GroupKeys(rows: seq<Record>, d: Dimension): (keys: seq<Text>)
    ensures StrictlyAscending(keys)
    ensures forall v :: v in keys <==> Some(v) in Column(rows, d)
  {
    SortedDistinct(Values(rows, d))
  }

  /** The group of one reason: how many rows carry it and their coerced MRC total. */
  function ReasonGroupOf(rows: seq<Record>, reason: Text, money: MoneyParser): ReasonGroup
  {
    var members := Keep(rows, Reason, reason);
    ReasonGroup(reason, |members|, SumMrc(members, money))
  }

  function ReasonGroups(rows: seq<Record>, keys: seq<Text>, money: MoneyParser): (groups: seq<ReasonGroup>)
    ensures |groups| == |keys|
    ensures forall i :: 0 <= i < |keys| ==> groups[i] == ReasonGroupOf(rows, keys[i], money)
  {
    if keys == [] then [] else [ReasonGroupOf(rows, keys[0], money)] + ReasonGroups(rows, keys[1..], money)
  }

  function KeyCountOf(rows: seq<Record>, d: Dimension, key: Text): KeyCount
  {
    KeyCount(key, |Keep(rows, d, key)|)
  }

  function KeyCounts(rows: seq<Record>, d: Dimension, keys: seq<Text>): (groups: seq<KeyCount>)
    ensures |groups| == |keys|
    ensures forall i :: 0 <= i < |keys| ==> groups[i] == KeyCountOf(rows, d, keys[i])
  {
    if keys == [] then [] else [KeyCountOf(rows, d, keys[0])] + KeyCounts(rows, d, keys[1..])
  }

  /** Churn by reason, dashboard.py lines 85-89: one row per reason, largest count first. */
  function ChurnByReason(rows: seq<Record>, money: MoneyParser): (t: seq<ReasonGroup>)
    ensures NonIncreasing(t, ReasonCount)
    ensures KeysDistinct(t, ReasonKey)
  {
    var disconnects := Disconnects(rows);
    var groups := ReasonGroups(disconnects, GroupKeys(disconnects, Reason), money);
    GroupKeysCoverPresent(disconnects, Reason);
    assert KeysDistinct(groups, ReasonKey);
    SortKeysDistinct(groups, ReasonCount, ReasonKey);
    SortByCount(groups, ReasonCount)
  }

  /** Rows counted per key of `d`: one row per key, largest count first. */
  function CountsBy(rows: seq<Record>, d: Dimension): (t: seq<KeyCount>)
    ensures NonIncreasing(t, CountOf)
    ensures KeysDistinct(t, KeyOf)
  {
    var groups := KeyCounts(rows, d, GroupKeys(rows, d));
    GroupKeysCoverPresent(rows, d);
    assert KeysDistinct(groups, KeyOf);
    SortKeysDistinct(groups, CountOf, KeyOf);
    SortByCount(groups, CountOf)
  }

  /** Churn by location, top 20, dashboard.py lines 106-107. */
  function ChurnByLocation(rows: seq<Record>): (t: seq<KeyCount>)
    ensures |t| <= TopN && |t| <= |CountsBy(Disconnects(rows), Location)|
    ensures t == CountsBy(Disconnects(rows), Location)[..|t|]
    ensures |t| == TopN || t == CountsBy(Disconnects(rows), Location)
    ensures forall g :: g in t ==>
              Some(g.key) in Column(Disconnects(rows), Location) && g == KeyCountOf(Disconnects(rows), Location, g.key)
  {
    CountsByGroups(Disconnects(rows), Location);
    Top(CountsBy(Disconnects(rows), Location), TopN)
  }

  /** New customers by category, dashboard.py line 120: one row per non-empty category
      among the new customers, with its count; the counts add up to the new customers whose
      category is not empty. */
  function NewByCategory(rows: seq<Record>): (t: seq<KeyCount>)
    ensures NonIncreasing(t, CountOf)
    ensures forall g :: g in t ==>
              Some(g.key) in Column(NewCustomers(rows), Category) && g == KeyCountOf(NewCustomers(rows), Category, g.key)
    ensures forall v :: Some(v) in Column(NewCustomers(rows), Category) ==> KeyCountOf(NewCustomers(rows), Category, v) in t
    ensures NatSum(t, CountOf) == |Filter(NewCustomers(rows), Present(Category))|
  {
    CountsByGroups(NewCustomers(rows), Category);
    CountsBy(NewCustomers(rows), Category)
  }

  /** New customers by location, top 20, dashboard.py line 121. */
  function NewByLocation(rows: seq<Record>): (t: seq<KeyCount>)
    ensures |t| <= TopN && |t| <= |CountsBy(NewCustomers(rows), Location)|
    ensures t == CountsBy(NewCustomers(rows), Location)[..|t|]
    ensures |t| == TopN || t == CountsBy(NewCustomers(rows), Location)
    ensures forall g :: g in t ==>
              Some(g.key) in Column(NewCustomers(rows), Location) && g == KeyCountOf(NewCustomers(rows), Location, g.key)
  {
    CountsByGroups(NewCustomers(rows), Location);
    Top(CountsBy(NewCustomers(rows), Location), TopN)
  }

  /** The mask "the cell of `d` is one of `keys`". */
  function KeyIn(d: Dimension, keys: seq<Text>): Record -> bool
  {
    r => Field(r, d).Some? && Field(r, d).value in keys
  }

  /** Splitting a list of distinct keys at its head splits the mask into two disjoint masks. */
  lemma KeyInHead(d: Dimension, keys: seq<Text>)
    requires keys != [] && keys[0] !in keys[1..]
    ensures forall r :: KeyIn(d, keys)(r) == (Has(d, keys[0])(r) || KeyIn(d, keys[1..])(r))
    ensures forall r :: !(Has(d, keys[0])(r) && KeyIn(d, keys[1..])(r))
  {
    assert keys == [keys[0]] + keys[1..];
  }

  /** Groups over distinct keys partition the rows whose key is among them: the counts
      add up to those rows and the MRC totals to their coerced MRC. */
  lemma {:induction false} ReasonGroupsPartition(rows: seq<Record>, keys: seq<Text>, money: MoneyParser)
    requires forall i, j :: 0 <= i < j < |keys| ==> keys[i] != keys[j]
    ensures NatSum(ReasonGroups(rows, keys, money), ReasonCount) == |Filter(rows, KeyIn(Reason, keys))|
    ensures RealSum(ReasonGroups(rows, keys, money), ReasonTotal) == SumMrc(Filter(rows, KeyIn(Reason, keys)), money)
  {
    if keys == [] {
      FilterKeepsNone(rows, KeyIn(Reason, keys));
    } else {
      ReasonGroupsPartition(rows, keys[1..], money);
      assert keys[0] !in keys[1..];
      KeyInHead(Reason, keys);
      FilterSplit(rows, Has(Reason, keys[0]), KeyIn(Reason, keys[1..]), KeyIn(Reason, keys), MrcOf(money));
    }
  }

  lemma {:induction false} KeyCountsPartition(rows: seq<Record>, d: Dimension, keys: seq<Text>)
    requires forall i, j :: 0 <= i < j < |keys| ==> keys[i] != keys[j]
    ensures NatSum(KeyCounts(rows, d, keys), CountOf) == |Filter(rows, KeyIn(d, keys))|
  {
    if keys == [] {
      FilterKeepsNone(rows, KeyIn(d, keys));
    } else {
      KeyCountsPartition(rows, d, keys[1..]);
      assert keys[0] !in keys[1..];
      KeyInHead(d, keys);
      FilterSplitCount(rows, Has(d, keys[0]), KeyIn(d, keys[1..]), KeyIn(d, keys));
    }
  }

  /** The group keys cover every non-empty cell, so masking by them keeps exactly the rows whose cell is not empty. */
  lemma GroupKeysCoverPresent(rows: seq<Record>, d: Dimension)
    ensures Filter(rows, KeyIn(d, GroupKeys(rows, d))) == Filter(rows, Present(d))
    ensures forall i, j :: 0 <= i < j < |GroupKeys(rows, d)| ==> GroupKeys(rows, d)[i] != GroupKeys(rows, d)[j]
  {
    forall r | r in rows
      ensures KeyIn(d, GroupKeys(rows, d))(r) == Present(d)(r)
    {
      FieldInColumn(rows, d, r);
    }
    FilterExtensional(rows, KeyIn(d, GroupKeys(rows, d)), Present(d));
    AscendingDistinct(GroupKeys(rows, d));
  }

  /** Churn by reason: one row per reason present among the disconnects (empty reasons form
      no group), each with the number of disconnects giving that reason and their coerced
      MRC total, ordered by count, largest first. */
  lemma ChurnByReasonGroups(rows: seq<Record>, money: MoneyParser)
    ensures forall g :: g in ChurnByReason(rows, money) ==>
              Some(g.reason) in Column(Disconnects(rows), Reason) &&
              g == ReasonGroupOf(Disconnects(rows), g.reason, money)
    ensures forall v :: Some(v) in Column(Disconnects(rows), Reason) ==>
              ReasonGroupOf(Disconnects(rows), v, money) in ChurnByReason(rows, money)
  {
    var disconnects := Disconnects(rows);
    var keys := GroupKeys(disconnects, Reason);
    var groups := ReasonGroups(disconnects, keys, money);
    forall g | g in groups
      ensures g.reason in keys && g == ReasonGroupOf(disconnects, g.reason, money)
    {
      var i :| 0 <= i < |groups| && groups[i] == g;
    }
    forall v | v in keys
      ensures ReasonGroupOf(disconnects, v, money) in groups
    {
      var i :| 0 <= i < |keys| && keys[i] == v;
      assert groups[i] == ReasonGroupOf(disconnects, v, money);
    }
  }

  /** The Count column adds up to the disconnects that have a reason; the Total_MRC column
      adds up to their coerced MRC; and the churn MRC is that total plus the coerced MRC of
      the disconnects whose reason is empty. */
  lemma ChurnByReasonTotals(rows: seq<Record>, money: MoneyParser)
    ensures NatSum(ChurnByReason(rows, money), ReasonCount) == |Filter(Disconnects(rows), Present(Reason))|
    ensures RealSum(ChurnByReason(rows, money), ReasonTotal) == SumMrc(Filter(Disconnects(rows), Present(Reason)), money)
    ensures ChurnMrc(rows, money) ==
              RealSum(ChurnByReason(rows, money), ReasonTotal) + SumMrc(Filter(Disconnects(rows), Absent(Reason)), money)
  {
    var disconnects := Disconnects(rows);
    var keys := GroupKeys(disconnects, Reason);
    var groups := ReasonGroups(disconnects, keys, money);
    GroupKeysCoverPresent(disconnects, Reason);
    ReasonGroupsPartition(disconnects, keys, money);
    SortNatSum(groups, ReasonCount, ReasonCount);
    SortRealSum(groups, ReasonCount, ReasonTotal);
    FilterSplit(disconnects, Present(Reason), Absent(Reason), AnyRow(), MrcOf(money));
    FilterKeepsAll(disconnects, AnyRow());
  }

  /** A count table: one row per non-empty key, with the number of rows carrying it, ordered
      by count, largest first; the counts add up to the rows whose key is not empty. */
  lemma CountsByGroups(rows: seq<Record>, d: Dimension)
    ensures NonIncreasing(CountsBy(rows, d), CountOf)
    ensures KeysDistinct(CountsBy(rows, d), KeyOf)
    ensures forall g :: g in CountsBy(rows, d) ==>
              Some(g.key) in Column(rows, d) && g == KeyCountOf(rows, d, g.key)
    ensures forall v :: Some(v) in Column(rows, d) ==> KeyCountOf(rows, d, v) in CountsBy(rows, d)
    ensures NatSum(CountsBy(rows, d), CountOf) == |Filter(rows, Present(d))|
  {
    var keys := GroupKeys(rows, d);
    var groups := KeyCounts(rows, d, keys);
    GroupKeysCoverPresent(rows, d);
    assert KeysDistinct(groups, KeyOf);
    SortKeysDistinct(groups, CountOf, KeyOf);
    forall g | g in groups
      ensures g.key in keys && g == KeyCountOf(rows, d, g.key)
    {
      var i :| 0 <= i < |groups| && groups[i] == g;
    }
    forall v | v in keys
      ensures KeyCountOf(rows, d, v) in groups
    {
      var i :| 0 <= i < |keys| && keys[i] == v;
      assert groups[i] == KeyCountOf(rows, d, v);
    }
    KeyCountsPartition(rows, d, keys);
    SortNatSum(groups, CountOf, CountOf);
  }

  /** Truncation comes after sorting, so the top-20 location tables leave out no location
      with a larger count than one they keep. */
  lemma LocationTopTwenty(rows: seq<Record>)
    ensures forall i, j :: 0 <= i < |ChurnByLocation(rows)| <= j < |CountsBy(Disconnects(rows), Location)| ==>
              CountsBy(Disconnects(rows), Location)[i].count >= CountsBy(Disconnects(rows), Location)[j].count
    ensures forall i, j :: 0 <= i < |NewByLocation(rows)| <= j < |CountsBy(NewCustomers(rows), Location)| ==>
              CountsBy(NewCustomers(rows), Location)[i].count >= CountsBy(NewCustomers(rows), Location)[j].count
  {
    TopOfSorted(CountsBy(Disconnects(rows), Location), TopN, CountOf);
    TopOfSorted(CountsBy(NewCustomers(rows), Location), TopN, CountOf);
  }
}
