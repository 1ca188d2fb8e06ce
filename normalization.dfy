/** Normalisation of the sheet (dashboard.py lines 64-68): parse the submission date,
    drop the rows whose date does not parse, advise on large files, derive the month key. */
module Normalization {
  import opened Rows
  import opened Seqs
  import opened TextOrder

  /** Above this many rows the dashboard shows a performance warning. */
  const AdvisoryRows: nat := 100000

  function Pow10(n: nat): nat
  {
    if n == 0 then 1 else 10 * Pow10(n - 1)
  }

  function DigitChar(n: nat): char
    requires n < 10
  {
    ('0' as int + n) as char
  }

  /** `n` in decimal, zero-padded to exactly `width` digits. */
  function Digits(n: nat, width: nat): (t: Text)
    requires n < Pow10(width)
    ensures |t| == width
  {
    if width == 0 then [] else Digits(n / 10, width - 1) + [DigitChar(n % 10)]
  }

  /** Zero-padded decimals of one width compare as texts the way the numbers compare. */
  lemma {:induction false} DigitsOrder(n: nat, m: nat, width: nat)
    requires n < Pow10(width) && m < Pow10(width)
    ensures Digits(n, width) == Digits(m, width) <==> n == m
    ensures Below(Digits(n, width), Digits(m, width)) <==> n < m
  {
    if width > 0 {
      var p, p' := Digits(n / 10, width - 1), Digits(m / 10, width - 1);
      var c, c' := DigitChar(n % 10), DigitChar(m % 10);
      DigitsOrder(n / 10, m / 10, width - 1);
      BelowConcat(p, [c], p', [c']);
      assert Below([c], [c']) <==> c < c' by {
        assert [c][1..] == [] && [c'][1..] == [];
      }
      assert p + [c] == p' + [c'] <==> p == p' && c == c' by {
        if p + [c] == p' + [c'] {
          assert (p + [c])[..|p|] == p && (p' + [c'])[..|p'|] == p';
          assert (p + [c])[|p|] == c && (p' + [c'])[|p'|] == c';
        }
      }
    }
  }

  /** The calendar month of a date as text, `YYYY-MM`. */
  function MonthKey(d: CalendarDate): (key: Text)
    ensures |key| == 7 && key[4] == '-'
  {
    assert Pow10(2) == 100 && Pow10(4) == 10000;
    Digits(d.year, 4) + "-" + Digits(d.month, 2)
  }

  /** Two dates share a month key exactly when they fall in the same calendar month, and
      month keys sort (as texts) in calendar order, so the sorted month options are
      chronological. */
  lemma MonthKeyOrder(a: CalendarDate, b: CalendarDate)
    ensures MonthKey(a) == MonthKey(b) <==> a.year == b.year && a.month == b.month
    ensures Below(MonthKey(a), MonthKey(b)) <==> a.year < b.year || (a.year == b.year && a.month < b.month)
  {
    assert Pow10(2) == 100 && Pow10(4) == 10000;
    var ya, yb := Digits(a.year, 4), Digits(b.year, 4);
    var ma, mb := Digits(a.month, 2), Digits(b.month, 2);
    DigitsOrder(a.year, b.year, 4);
    DigitsOrder(a.month, b.month, 2);
    assert MonthKey(a) == ya + ("-" + ma) && MonthKey(b) == yb + ("-" + mb);
    BelowConcat(ya, "-" + ma, yb, "-" + mb);
    BelowConcat("-", ma, "-", mb);
    assert Below("-", "-") == false by { BelowIrreflexive("-"); }
    if MonthKey(a) == MonthKey(b) {
      assert MonthKey(a)[..4] == ya && MonthKey(b)[..4] == yb;
      assert MonthKey(a)[5..] == ma && MonthKey(b)[5..] == mb;
    }
  }

  /** The date cell is present and parses. */
  predicate Dated(r: RawRow, parseDate: DateParser)
  {
    r.submissionDate.Some? && parseDate(r.submissionDate.value).Some?
  }

  function DatedMask(parseDate: DateParser): RawRow -> bool
  {
    r => Dated(r, parseDate)
  }

  function UndatedMask(parseDate: DateParser): RawRow -> bool
  {
    r => !Dated(r, parseDate)
  }

  /** A dated row with its date column replaced by the parsed date and the month key added. */
  function Derive(r: RawRow, parseDate: DateParser): Record
    requires Dated(r, parseDate)
  {
    var d := parseDate(r.submissionDate.value).value;
    Record(d, MonthKey(d), r.status, r.reason, r.category, r.location, r.mrc)
  }

  /** A record whose derived month column agrees with its date. */
  predicate WellFormed(rec: Record)
  {
    rec.monthKey == MonthKey(rec.submissionDate)
  }

  /** The normalised dataset, row by row. */
  function Normalized(rows: seq<RawRow>, parseDate: DateParser): (records: seq<Record>)
    ensures |records| <= |rows|
    ensures forall rec :: rec in records ==> WellFormed(rec)
  {
    if rows == [] then []
    else
      var rest := Normalized(rows[1..], parseDate);
      if Dated(rows[0], parseDate) then [Derive(rows[0], parseDate)] + rest else rest
  }

  /** Derive applied to every row of an all-dated table. */
  function DeriveAll(rows: seq<RawRow>, parseDate: DateParser): (records: seq<Record>)
    requires forall r :: r in rows ==> Dated(r, parseDate)
  {
    if rows == [] then [] else [Derive(rows[0], parseDate)] + DeriveAll(rows[1..], parseDate)
  }

  lemma {:induction false} NormalizedAppend(a: seq<RawRow>, b: seq<RawRow>, parseDate: DateParser)
    ensures Normalized(a + b, parseDate) == Normalized(a, parseDate) + Normalized(b, parseDate)
  {
    if a == [] {
      assert a + b == b;
    } else {
      assert (a + b)[0] == a[0] && (a + b)[1..] == a[1..] + b;
      NormalizedAppend(a[1..], b, parseDate);
    }
  }

  /** Normalisation is "coerce, then dropna, then add Month": exactly the rows whose
      date does not parse are removed, the others keep their order, and the two parts
      add up to the input. */
  lemma {:induction false} NormalizedDropsUndated(rows: seq<RawRow>, parseDate: DateParser)
    ensures Normalized(rows, parseDate) == DeriveAll(Filter(rows, DatedMask(parseDate)), parseDate)
    ensures |Normalized(rows, parseDate)| + |Filter(rows, UndatedMask(parseDate))| == |rows|
  {
    if rows != [] {
      NormalizedDropsUndated(rows[1..], parseDate);
    }
  }

  /** Lines 64-68 over the whole sheet. The advisory is computed after the drop and does
      not feed back into the records. */
  method Normalize(rows: seq<RawRow>, parseDate: DateParser) returns (records: seq<Record>, advisory: bool)
    ensures records == Normalized(rows, parseDate)
    ensures advisory <==> |records| > AdvisoryRows
  {
    records := [];
    var i := 0;
    while i < |rows|
      invariant 0 <= i <= |rows|
      invariant records == Normalized(rows[..i], parseDate)
    {
      var r := rows[i];
      if r.submissionDate.Some? {
        var parsed := parseDate(r.submissionDate.value);
        if parsed.Some? {
          var d := parsed.value;
          records := records + [Record(d, MonthKey(d), r.status, r.reason, r.category, r.location, r.mrc)];
        }
      }
      NormalizedAppend(rows[..i], [r], parseDate);
      assert rows[..i + 1] == rows[..i] + [r];
      i := i + 1;
    }
    assert rows[..|rows|] == rows;
    advisory := |records| > AdvisoryRows;
  }
}
