/** Ordering of summary tables: by Count, largest first, then truncated to the first n rows.
    The pandas sort used is not stable, so only the order of the counts is specified,
    not the order among equal counts. */
module Ranking {
  import opened Seqs

  /** Counts never increase down the table. */
  predicate NonIncreasing<G>(s: seq<G>, count: G -> nat)
  {
    forall i, j :: 0 <= i < j < |s| ==> count(s[i]) >= count(s[j])
  }

  /** No two rows of the table share a group key. */
  predicate KeysDistinct<G, K(==)>(s: seq<G>, key: G -> K)
  {
    forall i, j :: 0 <= i < j < |s| ==> key(s[i]) != key(s[j])
  }

  /** A row whose count is at least the head's can go in front of a sorted table. */
  lemma ConsNonIncreasing<G>(x: G, t: seq<G>, count: G -> nat)
    requires NonIncreasing(t, count)
    requires t == [] || count(x) >= count(t[0])
    ensures NonIncreasing([x] + t, count)
  {
    var r := [x] + t;
    forall i, j | 0 <= i < j < |r|
      ensures count(r[i]) >= count(r[j])
    {
      if i == 0 && j > 1 {
        assert r[j] == t[j - 1] && count(t[0]) >= count(t[j - 1]);
      }
    }
  }

  /** Putting the head back in front of the rest of the table, into which `g` went. */
  lemma InsertBehindHead<G(!new)>(g: G, s: seq<G>, rest: seq<G>, count: G -> nat)
    requires s != [] && NonIncreasing(s, count) && count(g) < count(s[0])
    requires NonIncreasing(rest, count) && |rest| == |s|
    requires rest[0] == g || (|s| > 1 && rest[0] == s[1])
    requires multiset(rest) == multiset(s[1..]) + multiset{g}
    requires forall x :: x in rest <==> x == g || x in s[1..]
    ensures NonIncreasing([s[0]] + rest, count)
    ensures multiset([s[0]] + rest) == multiset(s) + multiset{g}
    ensures forall x :: x in [s[0]] + rest <==> x == g || x in s
  {
    assert s == [s[0]] + s[1..];
    assert count(rest[0]) <= count(s[0]) by {
      if rest[0] != g { assert rest[0] == s[1]; }
    }
    ConsNonIncreasing(s[0], rest, count);
  }

  function Insert<G(==,!new)>(g: G, s: seq<G>, count: G -> nat): (r: seq<G>)
    requires NonIncreasing(s, count)
    ensures NonIncreasing(r, count)
    ensures |r| == |s| + 1
    ensures r[0] == g || (s != [] && r[0] == s[0])
    ensures multiset(r) == multiset(s) + multiset{g}
    ensures forall x :: x in r <==> x == g || x in s
  {
    if s == [] then [g]
    else if count(g) >= count(s[0]) then
      ConsNonIncreasing(g, s, count);
      [g] + s
    else
      var rest := Insert(g, s[1..], count);
      InsertBehindHead(g, s, rest, count);
      [s[0]] + rest
  }

  /** The table sorted by count, largest first: a permutation of its input. */
  function SortByCount<G(==,!new)>(s: seq<G>, count: G -> nat): (r: seq<G>)
    ensures NonIncreasing(r, count)
    ensures multiset(r) == multiset(s)
    ensures forall x :: x in r <==> x in s
  {
    if s == [] then []
    else
      assert s == [s[0]] + s[1..];
      Insert(s[0], SortByCount(s[1..], count), count)
  }

  /** The first `n` rows, or all of them when there are fewer. */
  function Top<G>(s: seq<G>, n: nat): (r: seq<G>)
    ensures |r| <= n && |r| <= |s|
    ensures |r| == n || r == s
    ensures r == s[..|r|]
  {
    if |s| <= n then s else s[..n]
  }

  /** Truncating a sorted table keeps it sorted, and no dropped row outranks a kept one. */
  lemma TopOfSorted<G>(s: seq<G>, n: nat, count: G -> nat)
    requires NonIncreasing(s, count)
    ensures NonIncreasing(Top(s, n), count)
    ensures forall i, j :: 0 <= i < |Top(s, n)| <= j < |s| ==> count(s[i]) >= count(s[j])
  {
  }

  /** Inserting a row adds its value to a column total. */
  lemma {:induction false} InsertNatSum<G(!new)>(g: G, s: seq<G>, count: G -> nat, n: G -> nat)
    requires NonIncreasing(s, count)
    ensures NatSum(Insert(g, s, count), n) == n(g) + NatSum(s, n)
  {
    if s != [] && count(g) < count(s[0]) {
      InsertNatSum(g, s[1..], count, n);
    }
  }

  lemma {:induction false} InsertRealSum<G(!new)>(g: G, s: seq<G>, count: G -> nat, w: G -> real)
    requires NonIncreasing(s, count)
    ensures RealSum(Insert(g, s, count), w) == w(g) + RealSum(s, w)
  {
    if s != [] && count(g) < count(s[0]) {
      InsertRealSum(g, s[1..], count, w);
    }
  }

  /** Sorting does not change a whole-number column total of the table. */
  lemma {:induction false} SortNatSum<G(!new)>(s: seq<G>, count: G -> nat, n: G -> nat)
    ensures NatSum(SortByCount(s, count), n) == NatSum(s, n)
  {
    if s != [] {
      SortNatSum(s[1..], count, n);
      InsertNatSum(s[0], SortByCount(s[1..], count), count, n);
    }
  }

  /** Sorting does not change an MRC column total of the table. */
  lemma {:induction false} SortRealSum<G(!new)>(s: seq<G>, count: G -> nat, w: G -> real)
    ensures RealSum(SortByCount(s, count), w) == RealSum(s, w)
  {
    if s != [] {
      SortRealSum(s[1..], count, w);
      InsertRealSum(s[0], SortByCount(s[1..], count), count, w);
    }
  }

  /** A row whose key the table does not hold can go in front of it. */
  lemma ConsKeysDistinct<G, K>(x: G, t: seq<G>, key: G -> K)
    requires KeysDistinct(t, key)
    requires forall y :: y in t ==> key(y) != key(x)
    ensures KeysDistinct([x] + t, key)
  {
    var r := [x] + t;
    forall i, j | 0 <= i < j < |r|
      ensures key(r[i]) != key(r[j])
    {
      assert r[j] == t[j - 1];
      if i == 0 {
        assert t[j - 1] in t;
      } else {
        assert r[i] == t[i - 1];
      }
    }
  }

  lemma {:induction false} InsertKeysDistinct<G(!new), K>(g: G, s: seq<G>, count: G -> nat, key: G -> K)
    requires NonIncreasing(s, count) && KeysDistinct(s, key)
    requires forall x :: x in s ==> key(x) != key(g)
    ensures KeysDistinct(Insert(g, s, count), key)
  {
    if s == [] {
      ConsKeysDistinct(g, s, key);
    } else if count(g) >= count(s[0]) {
      ConsKeysDistinct(g, s, key);
    } else {
      var tail := s[1..];
      forall x | x in tail
        ensures key(x) != key(g) && key(x) != key(s[0])
      {
        var k :| 0 <= k < |tail| && tail[k] == x;
        assert s[k + 1] == x;
      }
      assert KeysDistinct(tail, key) by {
        forall i, j | 0 <= i < j < |tail|
          ensures key(tail[i]) != key(tail[j])
        {
          assert tail[i] == s[i + 1] && tail[j] == s[j + 1];
        }
      }
      InsertKeysDistinct(g, tail, count, key);
      assert s[0] in s;
      ConsKeysDistinct(s[0], Insert(g, tail, count), key);
    }
  }

  /** Sorting keeps one row per key. */
  lemma {:induction false} SortKeysDistinct<G(!new), K>(s: seq<G>, count: G -> nat, key: G -> K)
    requires KeysDistinct(s, key)
    ensures KeysDistinct(SortByCount(s, count), key)
  {
    if s != [] {
      SortKeysDistinct(s[1..], count, key);
      forall x | x in SortByCount(s[1..], count)
        ensures key(x) != key(s[0])
      {
        var k :| 0 <= k < |s[1..]| && s[1..][k] == x;
        assert s[k + 1] == x;
      }
      InsertKeysDistinct(s[0], SortByCount(s[1..], count), count, key);
    }
  }
}
