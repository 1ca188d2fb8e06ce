# Churn dashboard pipeline, modelled in Dafny

This project models the analysis pipeline of `dashboard.py`, a Streamlit report over a
customer activity export. The model covers what the script does to its data between
reading "Sheet1" and rendering charts:

- the required-column check, which stops the report when a column is missing;
- normalisation: parse the submission date, drop the rows whose date does not parse,
  advise when more than 100,000 rows remain after the drop, and derive the `YYYY-MM` month key;
- the headline KPIs: total records, the Disconnect and NEW subsets, and the churn MRC;
- the grouped summaries: churn by reason with count and MRC total, churn by location,
  and new customers by category and by location, each sorted by count with the location
  tables cut to the top 20;
- the cascading sidebar filter chain (month, category, status, reason), with the option
  list each selectbox offers;
- one pass of the whole page (`Dashboard.Run`). It summarises the full dataset, applies
  the filters, and summarises the filtered view again.

Modules, in dependency order:

- `Seqs`: order-preserving selection (`Filter`), subsequences, and sums over a column.
- `Rows`: spreadsheet rows, normalised records, the dimensions, and the row masks.
- `TextOrder`: Python's ordering of strings, and the sorted distinct values of a column.
- `Schema`: the column check.
- `Normalization`: the date drop, the month key, and the size advisory.
- `Filters`: the filter stages, their chain, and the option lists.
- `Kpis`: the status subsets and the churn MRC.
- `Ranking`: sorting by count, largest first, and taking the first n rows.
- `Summaries`: the group-by tables.
- `Dashboard`: the page as a whole.

Date parsing and number parsing stay abstract. Each is a function parameter returning an
`Option`, and `None` stands for the value the coercing parse produces on failure (NaT or
NaN). MRC amounts are exact `real`s.

## Model

| member | source | states |
|---|---|---|
| Schema.MissingColumns | dashboard.py:57-61 | The missing list holds exactly the expected columns absent from the header, in expected order (a subsequence of the expected list). It is empty exactly when every expected column is present, which is when analysis may go on. |
| Schema.CheckIgnoresMrcExample | dashboard.py:57-58 | A header made of exactly the five checked columns passes the check as written. The same header lacks "MRC", which the corrected list reports missing. |
| Schema.CorrectedCheckCoversMrc | dashboard.py:57-61 | With the corrected column list, a header that passes contains "MRC" and every originally checked column. |
| Normalization.DigitsOrder | dashboard.py:68 | Zero-padded decimals of one width are equal exactly when the numbers are equal, and compare as text exactly as the numbers compare. |
| Normalization.MonthKeyOrder | dashboard.py:68 | Two dates get the same month key exactly when they share year and month. Month keys sort as text in calendar order, so the sorted month options are chronological. |
| Normalization.MonthKey | dashboard.py:68 | The month key of a date is seven characters, `YYYY-MM`, with the dash at position 4. |
| Normalization.Normalized | dashboard.py:64-68 | Normalisation never adds rows, and every surviving record carries the month key of its own parsed date. |
| Normalization.NormalizedAppend | dashboard.py:64-65 | With a date parser applied to each cell on its own, normalisation works row by row: normalising two concatenated tables gives the concatenation of the results. |
| Normalization.NormalizedDropsUndated | dashboard.py:64-65 | The normalised table is exactly the rows whose date parses, in their original order, each given its parsed date and month key. The kept and dropped rows add up to the input. |
| Normalization.Normalize | dashboard.py:64-68 | The loop over the sheet produces the normalised table. The advisory is raised exactly when more than 100,000 records survive, and it does not change the records. |
| TextOrder.BelowTotal | dashboard.py:158 | Python's string order is total: of two different texts, one sorts below the other. |
| TextOrder.BelowTransitive | dashboard.py:158 | Python's string order is transitive. |
| TextOrder.SortedDistinct | dashboard.py:158 | Sorting the unique values gives a strictly ascending list with exactly the values of the input. |
| TextOrder.AscendingUnique | dashboard.py:158 | Two strictly ascending lists with the same members are equal, so the sorted unique values are determined by the set of values. |
| Filters.Values | dashboard.py:164 | The non-empty cells of a column hold exactly the values that occur in it. |
| Filters.OptionList | dashboard.py:158-176 | Each selectbox offers "All" first, then, strictly ascending and without duplicates, exactly the non-empty values of that column among the rows still left. |
| Filters.ApplyStage | dashboard.py:160-161 | A selection of "All" leaves the rows unchanged. Any other selection keeps, in order, exactly the rows whose cell equals it, each as many times as it occurs in the input. |
| Filters.Chain | dashboard.py:158-179 | Applying the stages one after another equals one boolean-mask selection with the AND of the selections: the rows that pass every stage, in original order. |
| Filters.NarrowingSelects | dashboard.py:158-179 | Narrowing stage by stage (each stage applied to what the previous one left) selects the same rows as the conjunction of the stages. |
| Filters.ChainOrderIrrelevant | dashboard.py:158-179 | Two stage lists with the same stages give the same view, whatever their order. |
| Filters.ChainIdempotent | dashboard.py:158-179 | Filtering the view again with the same selections changes nothing. |
| Seqs.Cascade | dashboard.py:158-179 | The stage loop: its final state is the stages applied one after another, and it records, for each stage, what was observed of the rows that stage started from. |
| Filters.ApplyFilters | dashboard.py:158-179 | The four stages run in the order month, category, status, reason. The view is the chain of those stages: an order-preserving subsequence of the records holding exactly the records that pass every selection. Each stage's options come from the rows the earlier stages left. The loop itself is `Seqs.Cascade`, run with one narrowing step and one option list per stage. |
| Seqs.Filter | dashboard.py:161 | Boolean-mask selection keeps exactly the rows the mask accepts, each as many times as it occurs in the input, as a subsequence of the input. |
| Seqs.FilterFilter | dashboard.py:158-179 | Selecting with one mask and then another equals selecting once with their conjunction. |
| Seqs.FilterSplit | dashboard.py:85-88 | Selecting with two disjoint masks splits both the row count and any column sum of their union. |
| Rows.Keep | dashboard.py:72-73 | An equality selection keeps exactly the rows whose cell equals the value, in order, each as many times as it occurs in the input. |
| Kpis.Disconnects | dashboard.py:72 | The Disconnect subset is a subsequence of the records holding every record whose Status is "Disconnect", as many times as it occurs, and no other record. |
| Kpis.NewCustomers | dashboard.py:73 | The NEW subset is a subsequence of the records holding every record whose Status is "NEW", as many times as it occurs, and no other record. |
| Kpis.CoercedMrc | dashboard.py:74 | A row's MRC is the parsed number when the cell holds one; an empty or unparseable cell gives 0, so a non-zero value always comes from a parsed cell. |
| Kpis.ChurnMrc | dashboard.py:74 | The churn MRC, the coerced MRC of the Disconnect subset summed, equals the sum over all records of what each adds to churn. |
| Kpis.ComputeHeadline | dashboard.py:71-74 | The total is the number of records. The churned count plus the number of records whose Status is not "Disconnect" is the total, and churned plus new never exceed it. A single Disconnect record makes the churned count positive. The churn MRC is the sum over all records of each Disconnect's coerced MRC. An empty table gives all zeros. |
| Kpis.StatusSubsetsDisjoint | dashboard.py:72-73 | No record is both a Disconnect and a NEW, and the two subsets together number at most the total. |
| Kpis.ChurnMrcOverAllRows | dashboard.py:74 | Summing the coerced MRC of the Disconnect subset equals the sum over all records of each Disconnect's coerced MRC, with 0 for other statuses and for empty or unparseable MRC cells. |
| Ranking.SortByCount | dashboard.py:89 | Sorting by Count descending gives non-increasing counts and a permutation of the groups. |
| Ranking.SortNatSum | dashboard.py:89 | Sorting does not change the Count column total of the table. |
| Ranking.SortRealSum | dashboard.py:89 | Sorting does not change the Total_MRC column total of the table. |
| Ranking.SortKeysDistinct | dashboard.py:89 | Sorting keeps one row per group key. |
| Ranking.Top | dashboard.py:107 | Taking the head of a table gives its first n rows, or the whole table when it is shorter. |
| Ranking.TopOfSorted | dashboard.py:107 | The head of a sorted table is sorted, and no dropped row has a larger count than a kept one. |
| Summaries.GroupKeysCoverPresent | dashboard.py:85 | The group keys are distinct and cover exactly the rows whose key is not empty. |
| Summaries.ReasonGroupsPartition | dashboard.py:85-88 | Per-reason groups over distinct keys partition the rows: the counts add up to the rows with those reasons, and the MRC totals add up to those rows' coerced MRC. |
| Summaries.KeyCountsPartition | dashboard.py:106 | Per-key counts over distinct keys add up to the rows carrying those keys. |
| Summaries.ChurnByReason | dashboard.py:85-89 | Churn by reason is ordered by count, non-increasing, with no reason on two rows. |
| Summaries.ChurnByReasonGroups | dashboard.py:85-89 | Churn by reason has a row for exactly the reasons present among the Disconnects; empty reasons form no group. Each row holds that reason's Disconnect count and coerced MRC total. |
| Summaries.ChurnByReasonTotals | dashboard.py:85-89 | The Count column sums to the Disconnects with a reason, and Total_MRC sums to their coerced MRC. The churn MRC is that total plus the MRC of Disconnects with no reason. |
| Summaries.CountsBy | dashboard.py:106 | A count table is ordered by count, non-increasing, with no key on two rows. |
| Summaries.CountsByGroups | dashboard.py:120 | A count table has one row per non-empty key with the number of rows carrying it. Counts are non-increasing and sum to the rows whose key is not empty. |
| Summaries.ChurnByLocation | dashboard.py:106-107 | Churn by location holds the first 20 rows of the full sorted table, or all of it when it is shorter. Each row is a location present among the Disconnects with its Disconnect count. |
| Summaries.NewByCategory | dashboard.py:120 | New customers by category has one row for exactly each non-empty category among the NEW records, with its NEW count. It is ordered by count, non-increasing, and its counts sum to the NEW records whose category is not empty. |
| Summaries.NewByLocation | dashboard.py:121 | New customers by location holds the first 20 rows of the full sorted table, or all of it when it is shorter. Each row is a location present among the NEW records with its NEW count. |
| Summaries.LocationTopTwenty | dashboard.py:106-107 | In both location tables (lines 107 and 121) truncation comes after sorting, so no location left out outranks one kept. |
| Dashboard.Summarize | dashboard.py:71-121 | The KPI and summary block for any record list: the total is the list's length, churned plus new never exceed it, and the location tables hold at most 20 rows. |
| Dashboard.Run | dashboard.py:52-179 | A missing Sheet1 stops the report, and so does any missing column of the corrected list (the five checked columns plus "MRC", see Findings), with the missing columns named. Otherwise the report shows the advisory, the summary of the normalised records, the four option lists, and the summary of the filtered view. The filtered total never exceeds the overall total, which never exceeds the sheet's row count. |

## Left out

- The Streamlit page (lines 8-47, 76-79, 91-102, 105, 108-116, 119, 122-146, 150-156 and the matching display lines after 181, such as the headers, the charts and `st.dataframe`) is not modelled: layout, markdown, the file uploader, temp files, session state, the reset button and the rerun. Lines 22-26 can never run.
- Reading the workbook (lines 51-55) is not modelled. Whether "Sheet1" exists is a boolean input to `Dashboard.Run`, and the parsed sheet is a header plus rows of optional text cells.
- Plotly charts, `st.dataframe` and `st.metric` are presentation, and the `:,.2f` currency formatting is left out with them.
- The date and number parsers are parameters, so their accepted formats are not modelled. Time of day is dropped, because only the calendar month is ever used.
- MRC sums use exact reals, not floating point.
- Normalization.NormalizedAppend: holds because the model parses each date cell on its own. Line 64 converts the whole column in one call, and pandas can infer one format from the first text cell and turn cells in other formats into NaT, so whether a row survives line 65 can depend on the other rows. That column-wide format inference is not modelled.
- Ranking.SortByCount: the order among groups with equal counts is not stated. The pandas sort used is not stable and has no key tie-break, so only non-increasing counts and a permutation are claimed.
- Cells whose values cannot be compared with each other are not modelled. For example, a number and a text in one column would make the sort raise an error; here every cell is text.
- The guards at lines 163, 169 and 175 ("column present") always hold after the column check, so every stage runs.
- Each selectbox value is an input to `Dashboard.Run`. Streamlit would reset a value that is not among the options; the model keeps it, and such a stage keeps no rows.
- The KPI and summary block computed before the filters (lines 70-146) repeats the one after them (181-261). Both are `Dashboard.Summarize`, applied to different record lists.
- Columns written in place on the frame (lines 64 and 68) are modelled as fields of a new record value.
- The code computes no gains, net MRC or net growth metric, and has no date-range, location or customer-name filter, so the model has none either.
- The group-bys drop rows whose key is empty rather than giving them a bucket of their own, and the sorts break no ties by key; the model does the same.
- Dashboard.Run: checks the corrected column list (`Schema.RequiredColumns`, the five columns of line 57 plus "MRC") from the Findings row. On a header with only the five checked columns it stops with "MRC" named missing, instead of reproducing the KeyError the script raises at line 74.

## Findings

| source | as written | input that shows it | evidently intended | confidence | as-written member | corrected member |
|---|---|---|---|---|---|---|
| dashboard.py:57 | The column check lists five columns and omits "MRC", which lines 74 and 87 read. | A "Sheet1" whose header is exactly Submission Date, Status, Reason, Category, Location. It passes the check, then the churn MRC step fails on the missing "MRC" column. | "MRC" is checked with the others, so the report stops with it named as missing. | medium, not executed | Schema.CheckIgnoresMrcExample | Schema.CorrectedCheckCoversMrc |
