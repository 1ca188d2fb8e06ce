/** Python's ordering of `str` values, and the sorted list of distinct values built on it. */
module TextOrder {
  import opened Rows

  /** `a < b` on Python strings: lexicographic by code point, a proper prefix first. */
  predicate Below(a: Text, b: Text)
  {
    if a == [] then b != []
    else b != [] && (a[0] < b[0] || (a[0] == b[0] && Below(a[1..], b[1..])))
  }

  lemma {:induction false} BelowIrreflexive(a: Text)
    ensures !Below(a, a)
  {
    if a != [] {
      BelowIrreflexive(a[1..]);
    }
  }

  lemma {:induction false} BelowTransitive(a: Text, b: Text, c: Text)
    requires Below(a, b) && Below(b, c)
    ensures Below(a, c)
  {
    if a != [] && a[0] == b[0] && b[0] == c[0] {
      BelowTransitive(a[1..], b[1..], c[1..]);
    }
  }

  lemma {:induction false} BelowTotal(a: Text, b: Text)
    ensures a == b || Below(a, b) || Below(b, a)
  {
    if a != [] && b != [] && a[0] == b[0] {
      BelowTotal(a[1..], b[1..]);
      if a[1..] == b[1..] {
        assert a == [a[0]] + a[1..] && b == [b[0]] + b[1..];
      }
    }
  }

  /** Comparing two texts with prefixes of equal length: the prefixes decide, unless they are equal. */
  lemma {:induction false} BelowConcat(p: Text, q: Text, p': Text, q': Text)
    requires |p| == |p'|
    ensures Below(p + q, p' + q') <==> Below(p, p') || (p == p' && Below(q, q'))
  {
    if p == [] {
      assert p + q == q && p' + q' == q';
    } else {
      assert (p + q)[0] == p[0] && (p' + q')[0] == p'[0];
      assert (p + q)[1..] == p[1..] + q && (p' + q')[1..] == p'[1..] + q';
      BelowConcat(p[1..], q, p'[1..], q');
      assert p == p' <==> p[0] == p'[0] && p[1..] == p'[1..] by {
        assert p == [p[0]] + p[1..] && p' == [p'[0]] + p'[1..];
      }
    }
  }

  predicate StrictlyAscending(s: seq<Text>)
  {
    forall i, j :: 0 <= i < j < |s| ==> Below(s[i], s[j])
  }

  lemma BelowAllAfterHead(x: Text, s: seq<Text>)
    requires StrictlyAscending(s) && s != [] && Below(x, s[0])
    ensures forall j :: 0 <= j < |s| ==> Below(x, s[j])
  {
    forall j | 0 < j < |s| {
      BelowTransitive(x, s[0], s[j]);
    }
  }

  /** Inserts `x` into an ascending list of distinct texts, unless it is already there. */
  function InsertSorted(x: Text, s: seq<Text>): (r: seq<Text>)
    requires StrictlyAscending(s)
    ensures StrictlyAscending(r)
    ensures forall y :: y in r <==> y == x || y in s
  {
    if s == [] then [x]
    else if x == s[0] then s
    else if Below(x, s[0]) then
      BelowAllAfterHead(x, s);
      [x] + s
    else
      BelowTotal(x, s[0]);
      var rest := InsertSorted(x, s[1..]);
      assert forall y :: y in rest ==> Below(s[0], y);
      [s[0]] + rest
  }

  /** The distinct values, ascending. */
  function SortedDistinct(values: seq<Text>): (r: seq<Text>)
    ensures StrictlyAscending(r)
    ensures forall y :: y in r <==> y in values
  {
    if values == [] then [] else InsertSorted(values[0], SortedDistinct(values[1..]))
  }

  /** An ascending list of distinct texts is determined by its elements, so the two
      postconditions of SortedDistinct describe exactly one result. */
  lemma {:induction false} AscendingUnique(a: seq<Text>, b: seq<Text>)
    requires StrictlyAscending(a) && StrictlyAscending(b)
    requires forall y :: y in a <==> y in b
    ensures a == b
  {
    assert a != [] ==> a[0] in b;
    assert b != [] ==> b[0] in a;
    if a != [] && b != [] {
      assert a[0] in b && b[0] in a;
      if a[0] != b[0] {
        var i :| 0 <= i < |b| && b[i] == a[0];
        var j :| 0 <= j < |a| && a[j] == b[0];
        BelowTransitive(a[0], b[0], a[0]);
        BelowIrreflexive(a[0]);
        assert false;
      }
      assert a == [a[0]] + a[1..] && b == [b[0]] + b[1..];
      forall y
        ensures y in a[1..] <==> y in b[1..]
      {
        BelowIrreflexive(y);
        if y in a[1..] {
          var k :| 0 <= k < |a[1..]| && a[1..][k] == y;
          assert Below(a[0], a[k + 1]);
          assert y != b[0] && y in b;
        }
        if y in b[1..] {
          var k :| 0 <= k < |b[1..]| && b[1..][k] == y;
          assert Below(b[0], b[k + 1]);
          assert y != a[0] && y in a;
        }
      }
      AscendingUnique(a[1..], b[1..]);
    }
  }

  lemma AscendingDistinct(s: seq<Text>)
    requires StrictlyAscending(s)
    ensures forall i, j :: 0 <= i < j < |s| ==> s[i] != s[j]
  {
    forall i, j | 0 <= i < j < |s|
      ensures s[i] != s[j]
    {
      BelowIrreflexive(s[i]);
    }
  }
}
