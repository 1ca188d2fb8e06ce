/** The data the dashboard works on: the rows of "Sheet1" as read, and the records that
    survive normalisation (a parsed submission date and its month key). */
module Rows {
  import opened Seqs

  datatype Option<+T> = None | Some(value: T)

  type Text = seq<char>

  /** One spreadsheet row. Every cell may be empty (NaN once pandas has read it). */
  datatype RawRow = RawRow(
    submissionDate: Option<Text>,
    status: Option<Text>,
    reason: Option<Text>,
    category: Option<Text>,
    location: Option<Text>,
    mrc: Option<Text>)

  /** A parsed sheet: its header row and its data rows. */
  datatype Sheet = Sheet(columns: seq<Text>, rows: seq<RawRow>)

  datatype Date = Date(year: int, month: int, day: int)

  /** A timestamp as pandas represents one, reduced to the calendar day; years have four digits. */
  type CalendarDate = d: Date | 1 <= d.year <= 9999 && 1 <= d.month <= 12 && 1 <= d.day <= 31
    witness Date(2000, 1, 1)

  /** Date parsing of one cell, failures coerced: None stands for "not a time". */
  type DateParser = Text -> Option<CalendarDate>

  /** Numeric parsing of one cell, failures coerced: None stands for "not a number". */
  type MoneyParser = Text -> Option<real>

  /** A row after normalisation: the date column holds a parsed date and the derived
      "Month" column holds its `YYYY-MM` key. The MRC cell is kept raw; it is coerced
      only where it is summed. */
  datatype Record = Record(
    submissionDate: CalendarDate,
    monthKey: Text,
    status: Option<Text>,
    reason: Option<Text>,
    category: Option<Text>,
    location: Option<Text>,
    mrc: Option<Text>)

  /** The columns the pipeline filters or groups on. */
  datatype Dimension = Month | Status | Reason | Category | Location

  function Field(r: Record, d: Dimension): Option<Text>
  {
    match d
    case Month => Some(r.monthKey)
    case Status => r.status
    case Reason => r.reason
    case Category => r.category
    case Location => r.location
  }

  /** The column of one dimension, row by row. */
  function Column(rows: seq<Record>, d: Dimension): seq<Option<Text>>
  {
    seq(|rows|, i requires 0 <= i < |rows| => Field(rows[i], d))
  }

  /** The mask "cell of `d` equals `v`"; an empty cell never equals a value. */
  function Has(d: Dimension, v: Text): Record -> bool
  {
    r => Field(r, d) == Some(v)
  }

  /** The mask "cell of `d` does not equal `v`", which an empty cell passes. */
  function Differs(d: Dimension, v: Text): Record -> bool
  {
    r => Field(r, d) != Some(v)
  }

  /** The mask that accepts every row. */
  function AnyRow(): Record -> bool
  {
    r => true
  }

  /** The mask "cell of `d` is not empty". */
  function Present(d: Dimension): Record -> bool
  {
    r => Field(r, d).Some?
  }

  /** The mask "cell of `d` is empty". */
  function Absent(d: Dimension): Record -> bool
  {
    r => Field(r, d).None?
  }

  /** The rows whose cell of `d` equals `v`, in order, duplicates included. */
  function Keep(rows: seq<Record>, d: Dimension, v: Text): (kept: seq<Record>)
    ensures Subsequence(kept, rows)
    ensures forall r :: r in kept <==> r in rows && Field(r, d) == Some(v)
    ensures forall r :: multiset(kept)[r] == if Field(r, d) == Some(v) then multiset(rows)[r] else 0
  {
    Filter(rows, Has(d, v))
  }

  lemma FieldInColumn(rows: seq<Record>, d: Dimension, r: Record)
    requires r in rows
    ensures Field(r, d) in Column(rows, d)
  {
    var i :| 0 <= i < |rows| && rows[i] == r;
    assert Column(rows, d)[i] == Field(r, d);
  }
}
