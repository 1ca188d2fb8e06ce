/** The headline figures (dashboard.py lines 71-74, repeated at 182-185): total records,
    the Disconnect and NEW subsets, and the churn MRC. */
module Kpis {
  import opened Rows
  import opened Seqs

  const Disconnect: Text := "Disconnect"
  const NewStatus: Text := "NEW"

  /** The rows whose Status is exactly "Disconnect", in order, duplicates included. */
  function Disconnects(rows: seq<Record>): (d: seq<Record>)
    ensures Subsequence(d, rows)
    ensures forall r :: multiset(d)[r] == if r.status == Some(Disconnect) then multiset(rows)[r] else 0
  {
    Keep(rows, Status, Disconnect)
  }

  /** The rows whose Status is exactly "NEW", in order, duplicates included. */
  function NewCustomers(rows: seq<Record>): (n: seq<Record>)
    ensures Subsequence(n, rows)
    ensures forall r :: multiset(n)[r] == if r.status == Some(NewStatus) then multiset(rows)[r] else 0
  {
    Keep(rows, Status, NewStatus)
  }

  /** The numeric MRC of a row: an empty or unparseable cell counts as 0. */
  function CoercedMrc(r: Record, money: MoneyParser): (c: real)
    ensures r.mrc.Some? && money(r.mrc.value).Some? ==> c == money(r.mrc.value).value
    ensures c != 0.0 ==> r.mrc.Some? && money(r.mrc.value) == Some(c)
  {
    match r.mrc
    case None => 0.0
    case Some(t) =>
      match money(t)
      case Some(v) => v
      case None => 0.0
  }

  function MrcOf(money: MoneyParser): Record -> real
  {
    r => CoercedMrc(r, money)
  }

  /** The coerced MRC column of `rows`, summed. */
  function SumMrc(rows: seq<Record>, money: MoneyParser): real
  {
    RealSum(rows, MrcOf(money))
  }

  /** The churn MRC: the coerced MRC of the Disconnect rows, summed; equivalently, the sum
      over every row of what it adds to churn. */
  function ChurnMrc(rows: seq<Record>, money: MoneyParser): (m: real)
    ensures m == RealSum(rows, ChurnContribution(money))
  {
    ChurnMrcOverAllRows(rows, money);
    SumMrc(Disconnects(rows), money)
  }

  datatype Headline = Headline(totalCustomers: nat, churnedCustomers: nat, churnMrc: real)

  /** The three metrics shown at the top of the report. */
  function ComputeHeadline(rows: seq<Record>, money: MoneyParser): (k: Headline)
    ensures k.totalCustomers == |rows|
    ensures k.churnedCustomers + |Filter(rows, Differs(Status, Disconnect))| == k.totalCustomers
    ensures k.churnedCustomers + |NewCustomers(rows)| <= k.totalCustomers
    ensures forall r :: r in rows && r.status == Some(Disconnect) ==> k.churnedCustomers > 0
    ensures k.churnMrc == RealSum(rows, ChurnContribution(money))
    ensures rows == [] ==> k == Headline(0, 0, 0.0)
  {
    StatusSubsetsDisjoint(rows);
    FilterComplement(rows, Has(Status, Disconnect), Differs(Status, Disconnect));
    Headline(|rows|, |Disconnects(rows)|, ChurnMrc(rows, money))
  }

  function EitherStatus(): Record -> bool
  {
    (r: Record) => r.status == Some(Disconnect) || r.status == Some(NewStatus)
  }

  /** No record is both a disconnect and a new customer, so the two subsets together
      number at most the total. */
  lemma StatusSubsetsDisjoint(rows: seq<Record>)
    ensures forall r :: r in Disconnects(rows) ==> r !in NewCustomers(rows)
    ensures |Disconnects(rows)| + |NewCustomers(rows)| <= |rows|
  {
    FilterSplitCount(rows, Has(Status, Disconnect), Has(Status, NewStatus), EitherStatus());
  }

  /** What a row adds to the churn MRC: its coerced MRC if it is a disconnect, else nothing. */
  function ChurnContribution(money: MoneyParser): Record -> real
  {
    (r: Record) => if r.status == Some(Disconnect) then CoercedMrc(r, money) else 0.0
  }

  /** Churn MRC is the coerced MRC summed over exactly the Disconnect rows: selecting the
      subset and then summing equals summing every row's contribution. */
  lemma {:induction false} ChurnMrcOverAllRows(rows: seq<Record>, money: MoneyParser)
    ensures SumMrc(Disconnects(rows), money) == RealSum(rows, ChurnContribution(money))
  {
    if rows != [] {
      ChurnMrcOverAllRows(rows[1..], money);
    }
  }
}
