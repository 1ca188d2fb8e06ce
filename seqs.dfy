/** Sequence helpers shared by the pipeline: boolean-mask selection of rows,
    the subsequence relation it establishes, and sums over a column. */
module Seqs {

  /** `a` is obtained from `b` by deleting elements, without reordering them. */
  predicate Subsequence<T(==)>(a: seq<T>, b: seq<T>)
    decreases |b|
  {
    a == [] ||
    (b != [] &&
     ((a[0] == b[0] && Subsequence(a[1..], b[1..])) || Subsequence(a, b[1..])))
  }

  lemma {:induction false} SubsequenceReflexive<T(!new)>(s: seq<T>)
    ensures Subsequence(s, s)
  {
    if s != [] {
      SubsequenceReflexive(s[1..]);
    }
  }

  lemma {:induction false} SubsequenceLength<T>(a: seq<T>, b: seq<T>)
    requires Subsequence(a, b)
    ensures |a| <= |b|
    decreases |b|
  {
    if a != [] {
      if a[0] == b[0] && Subsequence(a[1..], b[1..]) {
        SubsequenceLength(a[1..], b[1..]);
      } else {
        SubsequenceLength(a, b[1..]);
      }
    }
  }

  /** A subsequence of a list without repeats has no repeats either. */
  lemma {:induction false} SubsequenceNoRepeat<T(!new)>(a: seq<T>, b: seq<T>)
    requires Subsequence(a, b)
    requires forall i, j :: 0 <= i < j < |b| ==> b[i] != b[j]
    ensures forall i, j :: 0 <= i < j < |a| ==> a[i] != a[j]
    decreases |b|
  {
    if a != [] {
      if a[0] == b[0] && Subsequence(a[1..], b[1..]) {
        SubsequenceNoRepeat(a[1..], b[1..]);
        SubsequenceMembers(a[1..], b[1..]);
        assert b[0] !in b[1..];
        forall j | 0 < j < |a|
          ensures a[0] != a[j]
        {
          assert a[j] == a[1..][j - 1];
        }
      } else {
        SubsequenceNoRepeat(a, b[1..]);
      }
    }
  }

  lemma {:induction false} SubsequenceMembers<T(!new)>(a: seq<T>, b: seq<T>)
    requires Subsequence(a, b)
    ensures forall x :: x in a ==> x in b
    decreases |b|
  {
    if a != [] {
      if a[0] == b[0] && Subsequence(a[1..], b[1..]) {
        SubsequenceMembers(a[1..], b[1..]);
        assert a == [a[0]] + a[1..];
      } else {
        SubsequenceMembers(a, b[1..]);
      }
    }
  }

  /** The elements of `s` for which `p` holds, in their original order, each as many times
      as it occurs in `s`. */
  function Filter<T(==,!new)>(s: seq<T>, p: T -> bool): (r: seq<T>)
    ensures |r| <= |s|
    ensures forall x :: x in r <==> x in s && p(x)
    ensures forall x :: multiset(r)[x] == if p(x) then multiset(s)[x] else 0
    ensures Subsequence(r, s)
  {
    if s == [] then []
    else
      assert s == [s[0]] + s[1..];
      assert multiset(s) == multiset{s[0]} + multiset(s[1..]);
      if p(s[0]) then [s[0]] + Filter(s[1..], p) else Filter(s[1..], p)
  }

  lemma {:induction false} FilterExtensional<T(!new)>(s: seq<T>, p: T -> bool, q: T -> bool)
    requires forall x :: x in s ==> p(x) == q(x)
    ensures Filter(s, p) == Filter(s, q)
  {
    if s != [] {
      FilterExtensional(s[1..], p, q);
    }
  }

  lemma {:induction false} FilterKeepsAll<T(!new)>(s: seq<T>, p: T -> bool)
    requires forall x :: x in s ==> p(x)
    ensures Filter(s, p) == s
  {
    if s != [] {
      FilterKeepsAll(s[1..], p);
    }
  }

  lemma {:induction false} FilterKeepsNone<T(!new)>(s: seq<T>, p: T -> bool)
    requires forall x :: x in s ==> !p(x)
    ensures Filter(s, p) == []
  {
    if s != [] {
      FilterKeepsNone(s[1..], p);
    }
  }

  /** Masking twice is masking once with the conjunction. */
  lemma {:induction false} FilterFilter<T(!new)>(s: seq<T>, p: T -> bool, q: T -> bool, pq: T -> bool)
    requires forall x :: pq(x) == (p(x) && q(x))
    ensures Filter(Filter(s, p), q) == Filter(s, pq)
  {
    if s != [] {
      FilterFilter(s[1..], p, q, pq);
    }
  }

  /** `step` applied to `start` and each stage in turn. */
  function Fold<R, S>(start: R, stages: seq<S>, step: (R, S) -> R): R
    decreases |stages|
  {
    if stages == [] then start
    else step(Fold(start, stages[..|stages| - 1], step), stages[|stages| - 1])
  }

  /** Runs the stages one after another, observing the state each stage starts from. */
  method Cascade<R, S, O>(start: R, stages: seq<S>, step: (R, S) -> R, observe: (R, S) -> O)
    returns (last: R, seen: seq<O>)
    ensures last == Fold(start, stages, step)
    ensures |seen| == |stages|
    ensures forall i :: 0 <= i < |stages| ==> seen[i] == observe(Fold(start, stages[..i], step), stages[i])
  {
    last := start;
    seen := [];
    var i := 0;
    while i < |stages|
      invariant 0 <= i <= |stages|
      invariant last == Fold(start, stages[..i], step)
      invariant |seen| == i
      invariant forall j :: 0 <= j < i ==> seen[j] == observe(Fold(start, stages[..j], step), stages[j])
    {
      seen := seen + [observe(last, stages[i])];
      assert stages[..i + 1][..i] == stages[..i];
      last := step(last, stages[i]);
      i := i + 1;
    }
    assert stages[..|stages|] == stages;
  }

  /** Sum of a real-valued column. */
  function RealSum<T>(s: seq<T>, w: T -> real): real
  {
    if s == [] then 0.0 else w(s[0]) + RealSum(s[1..], w)
  }

  /** Sum of a natural-valued column. */
  function NatSum<T>(s: seq<T>, w: T -> nat): nat
  {
    if s == [] then 0 else w(s[0]) + NatSum(s[1..], w)
  }

  lemma {:induction false} RealSumAppend<T>(a: seq<T>, b: seq<T>, w: T -> real)
    ensures RealSum(a + b, w) == RealSum(a, w) + RealSum(b, w)
  {
    if a == [] {
      assert a + b == b;
    } else {
      assert (a + b)[1..] == a[1..] + b;
      RealSumAppend(a[1..], b, w);
    }
  }

  /** A mask and its complement split the rows between them. */
  lemma {:induction false} FilterComplement<T(!new)>(s: seq<T>, p: T -> bool, q: T -> bool)
    requires forall x :: q(x) == !p(x)
    ensures |Filter(s, p)| + |Filter(s, q)| == |s|
  {
    if s != [] {
      FilterComplement(s[1..], p, q);
    }
  }

  /** Masking with a disjoint union splits the row count. */
  lemma {:induction false} FilterSplitCount<T(!new)>(s: seq<T>, p: T -> bool, q: T -> bool, pq: T -> bool)
    requires forall x :: pq(x) == (p(x) || q(x))
    requires forall x :: !(p(x) && q(x))
    ensures |Filter(s, pq)| == |Filter(s, p)| + |Filter(s, q)|
  {
    if s != [] {
      FilterSplitCount(s[1..], p, q, pq);
    }
  }

  /** Masking with a disjoint union splits both the row count and any column sum. */
  lemma {:induction false} FilterSplit<T(!new)>(s: seq<T>, p: T -> bool, q: T -> bool, pq: T -> bool, w: T -> real)
    requires forall x :: pq(x) == (p(x) || q(x))
    requires forall x :: !(p(x) && q(x))
    ensures |Filter(s, pq)| == |Filter(s, p)| + |Filter(s, q)|
    ensures RealSum(Filter(s, pq), w) == RealSum(Filter(s, p), w) + RealSum(Filter(s, q), w)
  {
    if s != [] {
      FilterSplit(s[1..], p, q, pq, w);
    }
  }
}
