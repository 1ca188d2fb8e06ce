/** One pass of the report: check the columns of "Sheet1", normalise, summarise the whole
    dataset, run the sidebar filters and summarise what they leave. */
module Dashboard {
  import opened Rows
  import opened Seqs
  import opened Schema
  import opened Normalization
  import opened Filters
  import opened Kpis
  import opened Summaries

  /** Why the report stops before any analysis. */
  datatype Failure = NoSheet1 | ColumnsMissing(columns: seq<Text>)

  /** The block of metrics and tables the page renders for one dataset. */
  datatype Summary = Summary(
    headline: Headline,
    churnByReason: seq<ReasonGroup>,
    churnByLocation: seq<KeyCount>,
    newByCategory: seq<KeyCount>,
    newByLocation: seq<KeyCount>)

  datatype Report = Report(
    advisory: bool,
    overall: Summary,
    options: seq<seq<Text>>,
    filtered: Summary)

  datatype Outcome = Stopped(failure: Failure) | Shown(report: Report)

  /** The KPI and summary block (lines 71-121, and again 182-234) for whatever rows it is given. */
  function Summarize(rows: seq<Record>, money: MoneyParser): (s: Summary)
    ensures s.headline.totalCustomers == |rows|
    ensures s.headline.churnedCustomers + |NewCustomers(rows)| <= |rows|
    ensures |s.churnByLocation| <= TopN && |s.newByLocation| <= TopN
  {
    LocationTopTwenty(rows);
    Summary(ComputeHeadline(rows, money), ChurnByReason(rows, money), ChurnByLocation(rows),
            NewByCategory(rows), NewByLocation(rows))
  }

  /** The whole page for one uploaded workbook. `hasSheet1` is the outcome of the sheet-name
      check; the column check uses RequiredColumns, which also names "MRC". */
  method Run(hasSheet1: bool, sheet: Sheet, parseDate: DateParser, money: MoneyParser, filters: FilterState)
    returns (outcome: Outcome)
    ensures !hasSheet1 ==> outcome == Stopped(NoSheet1)
    ensures hasSheet1 && MissingColumns(RequiredColumns, sheet.columns) != [] ==>
              outcome == Stopped(ColumnsMissing(MissingColumns(RequiredColumns, sheet.columns)))
    ensures outcome.Shown? <==> hasSheet1 && forall c :: c in RequiredColumns ==> c in sheet.columns
    ensures outcome.Shown? ==>
              var records := Normalized(sheet.rows, parseDate);
              var view := Chain(records, Stages(filters));
              && outcome.report.advisory == (|records| > AdvisoryRows)
              && outcome.report.overall == Summarize(records, money)
              && outcome.report.filtered == Summarize(view, money)
              && |outcome.report.options| == 4
              && (forall i :: 0 <= i < 4 ==>
                    outcome.report.options[i] == OptionList(Chain(records, Stages(filters)[..i]), Stages(filters)[i].0))
              && outcome.report.filtered.headline.totalCustomers <= outcome.report.overall.headline.totalCustomers
              && outcome.report.overall.headline.totalCustomers <= |sheet.rows|
  {
    if !hasSheet1 {
      return Stopped(NoSheet1);
    }
    var missing := MissingColumns(RequiredColumns, sheet.columns);
    if missing != [] {
      return Stopped(ColumnsMissing(missing));
    }
    var records, advisory := Normalize(sheet.rows, parseDate);
    var overall := Summarize(records, money);
    var view, options := ApplyFilters(records, filters);
    SubsequenceLength(view, records);
    var filtered := Summarize(view, money);
    outcome := Shown(Report(advisory, overall, options, filtered));
  }
}
