# E-commerce sales dashboard: filter-and-aggregate pipeline in Dafny

The dashboard loads a retail transaction log once, derives a revenue column
(quantity × unit price), and on every interaction:

1. keeps the records whose invoice date (timestamp truncated to the day) lies in
   the inclusive date window chosen in the sidebar;
2. ranks the countries of those records by summed revenue and keeps the first N
   (the Top-N list), which becomes the option list of the country multi-select;
3. keeps the date-filtered records whose country is selected;
4. computes three KPIs (total revenue, number of distinct invoices, average order
   value with a guard against division by zero) and two chart series: revenue per
   calendar month and revenue of the top countries, both in thousands.

This project models that pipeline as pure Dafny functions over a sequence of
records and proves what each stage promises.

Modules, one per stage:

- `Calendar` (`calendar.dfy`): dates, timestamps (date plus second of day, so that
  truncation to the day is explicit), calendar months and their indices.
- `Sequences` (`sequences.dfy`): boolean-mask selection (`Filter`), `head(n)`,
  subsequences, duplicate-free sequences, set-size facts.
- `Transactions` (`transactions.dfy`): the rows read from the file, records with
  the derived revenue, revenue sums, country and invoice sets, `groupby` buckets,
  earliest and latest timestamps.
- `Filters` (`filters.dfy`): the date filter and the country filter.
- `Ranking` (`ranking.dfy`): `groupby("Country").sum()`, a descending sort by
  revenue (insertion sort), and the Top-N list.
- `Kpis` (`kpis.dfy`): the three KPI figures.
- `Charts` (`charts.dfy`): the monthly series (`resample("ME")`, including the
  zero months between the first and the last month) and the country series.
- `Dashboard` (`dashboard.dfy`): one run of the whole page for one set of sidebar
  values, with end-to-end lemmas.

Money is `real`; the sidebar values (date window, N, country selection) are
parameters, and what the widgets guarantee about them is stated as `requires`.

The country filter (`app.py:82`) tests membership in the selection only; it
does not intersect the selection with the Top-N list. The selection stays inside
that list only because the multi-select offers nothing else (`app.py:75-79`).
`Dashboard.Run` states this as a precondition.

## Model

| member | source | states |
|---|---|---|
| `Transactions.LoadData` | app.py:29-34 | every row gets revenue = quantity × unit price; rows keep their order and count, and stripping the revenue gives back each row unchanged |
| `Transactions.EarliestTimestamp` | app.py:51 | the result is the timestamp of some record and no record is earlier |
| `Transactions.LatestTimestamp` | app.py:52 | the result is the timestamp of some record and no record is later |
| `Sequences.Filter` | app.py:60-63 | a boolean mask keeps exactly the elements that pass and no others |
| `Sequences.FilterSelects` | app.py:60-63 | the kept elements stay in their original order (a subsequence), each as often as in the input, and failing elements are dropped entirely |
| `Sequences.Head` | app.py:72 | `head(n)` keeps the first min(n, length) elements, in order |
| `Filters.FilterByDate` | app.py:60-63 | the result is a subsequence of the log; every kept record's date lies in [start, end], both bounds inclusive; every record in the window is kept, as often as it occurs; no other record is kept |
| `Filters.DefaultWindowKeepsAll` | app.py:51-63 | the default window, from the date of the earliest timestamp to the date of the latest, keeps the whole log |
| `Filters.NarrowerWindow` | app.py:60-63 | a narrower window selects the wider window's records filtered again, hence a subsequence of them, and brings in no new country |
| `Ranking.DistinctCountries` | app.py:71 | the group keys: each country of the records exactly once, and as many as there are distinct countries |
| `Ranking.CountrySums` | app.py:71 | one summed revenue per country present in the records, and no other key |
| `Ranking.SortByRevenueRanked` | app.py:71 | the descending sort is in non-increasing order of summed revenue and keeps a duplicate-free list duplicate-free |
| `Ranking.SortByRevenue` | app.py:71 | the sort result is a permutation of its input |
| `Ranking.TopCountries` | app.py:71-72 | at most N countries; its ordering, size and membership are stated by `Ranking.TopCountriesDistinct`, `Ranking.TopCountriesRanked` and `Ranking.TopCountriesBest` |
| `Ranking.TopCountriesDistinct` | app.py:71-72 | the Top-N list has no duplicates, has exactly min(N, number of distinct countries of the date-filtered records) entries, and each entry occurs in those records |
| `Ranking.TopCountriesRanked` | app.py:71-72 | the Top-N list is in non-increasing order of summed revenue |
| `Ranking.TopCountriesBest` | app.py:71-72 | no country left out of the Top-N list has more revenue than any listed one, whichever way ties are broken |
| `Dashboard.CountryOptions` | app.py:75-79 | the options of the country multi-select are min(N, number of countries) countries, all from the date-filtered records |
| `Filters.FilterByCountry` | app.py:82 | the final records are exactly the date-filtered records whose country is selected, in order; their countries lie in the selection and occur among the date-filtered records |
| `Dashboard.Run` | app.py:60-117 | the page for one set of sidebar values: at most N listed countries and country bars, and no more records than the log; the `Dashboard.Run*` lemmas state the rest |
| `Dashboard.RunRecords` | app.py:60-82 | the records shown are the date-filtered records whose country is selected, in order and each as often as it occurs among them |
| `Dashboard.RunRecordsInScope` | app.py:60-82 | each record shown comes from the log, lies in the date window, and its country is selected and is in the Top-N list |
| `Kpis.TotalRevenue` | app.py:86 | 0 for no records; order-independence is `Transactions.SumRevenuePermutation`, agreement with the charts is `Charts.MonthlySeriesTotal` and `Charts.CountrySeriesTotal` |
| `Kpis.OrdersCount` | app.py:87 | the number of distinct invoices is at most the number of records and is 0 exactly when there are none |
| `Kpis.AverageOrderValue` | app.py:88 | 0 when there are no orders; otherwise a value that multiplied by the order count gives the total revenue |
| `Kpis.ComputeKpis` | app.py:86-88 | total revenue is the revenue sum; the order count is the number of distinct invoice numbers; the average obeys the zero-order guard; all three are 0 exactly when there are no records |
| `Transactions.SumRevenuePermutation` | app.py:86 | the revenue total does not depend on the order of the records |
| `Kpis.KpisPermutation` | app.py:86-88 | reordering the records changes none of the three KPIs |
| `Charts.SeriesTotalPartition` | app.py:104-105 | when the distinct group keys cover every record, the per-group sums in thousands add up to the total revenue in thousands |
| `Charts.MonthlySeries` | app.py:101-107 | no points for no records; otherwise one point per calendar month from the earliest record's month to the latest's, gaps included |
| `Charts.MonthlySeriesEmpty` | app.py:101-107 | the monthly series is empty exactly when there are no records |
| `Charts.MonthlySeriesEnds` | app.py:101-107 | for a non-empty log the monthly series starts at the month of the earliest invoice and ends at the month of the latest |
| `Charts.MonthlySeriesConsecutive` | app.py:101-107 | consecutive points of the monthly series are consecutive calendar months, so no month is skipped |
| `Charts.GroupSeriesValues` | app.py:104-105 | each point of a grouped series is the revenue of its group (the records with that key) divided by 1000 |
| `Charts.MonthlySeriesValues` | app.py:101-107 | each monthly point is that month's revenue / 1000, which is 0 for a month without records |
| `Charts.MonthlySeriesCovers` | app.py:101-107 | the month of every record has a point in the monthly series |
| `Charts.MonthlySeriesTotal` | app.py:101-107 | the monthly values add up to total revenue / 1000 |
| `Calendar.SameIndexSameMonth` | app.py:104 | two months with the same index are the same month |
| `Charts.CountrySeriesShape` | app.py:110-117 | the country series has min(N, number of countries) bars, for distinct countries of the records |
| `Charts.CountrySeriesEmpty` | app.py:110-117 | for N >= 1 the country series is empty exactly when there are no records |
| `Charts.CountrySeriesRanked` | app.py:110-117 | each bar is that country's revenue / 1000, and the bars are in non-increasing order |
| `Charts.CountrySeries` | app.py:110-117 | at most N bars; shape, values, order and completeness are the `Charts.CountrySeries*` lemmas |
| `Charts.TopCountriesComplete` | app.py:71-72 | with no more than N countries in the records, the Top-N list names every one of them |
| `Charts.CountrySeriesComplete` | app.py:110-117 | with no more than N countries in the records, every country has a bar |
| `Charts.CountrySeriesTotal` | app.py:110-117 | with no more than N countries in the records, the bars add up to total revenue / 1000 |
| `Dashboard.RunChartsAddUp` | app.py:82-117 | at most N countries reach the final records, so `head(top_n)` of the country chart drops none; both charts add up to the total revenue KPI / 1000 |
| `Dashboard.RunEmptyState` | app.py:86-157 | with no matching records the KPIs are all 0 and both charts are empty (the page shows its no-data message); with records both charts have points |

## Left out

- Page setup, CSS, titles, the sidebar widgets and `st.metric` (app.py:9-24, 41-57, 67-79, 90-95): user interface. The widgets' outputs are parameters of `Dashboard.Run`, and what they guarantee is its precondition.
- Reading the CSV file, its ISO-8859-1 decoding and timestamp parsing (app.py:31-32): input and library code. `Transactions.LoadData` starts from parsed rows. A missing or malformed file, which stops the page, is not modelled.
- The process-wide cache of the loaded log (app.py:29): framework memoisation. The model's functions are pure, so two runs with the same inputs give the same result by construction.
- Chart drawing, annotations and number formatting (app.py:121-180): rendering. The two empty-chart checks (app.py:128, 157) are modelled as "series empty" facts.
- Floating-point arithmetic: revenue, sums, the average and the division by 1000 are exact `real` arithmetic, so rounding is not modelled.
- `Charts.MonthlySeries`: points are labelled with their calendar month, not with the month-end timestamp that pandas uses as the label.
- `Ranking.SortByRevenue`: among countries with equal revenue the model uses one fixed order, while pandas leaves the order unspecified. Every property proved about the Top-N list and the country chart holds for any tie order.
- While the user has picked only one end of the date range, the date picker returns a single date, and the code reads element 1 without a check. This state is not modelled: `Filters.FilterByDate` always takes both bounds.
- No lemma evaluates the pipeline on a concrete log.
- Missing cells: `Transactions.Row` has every field present. In the code an empty CSV cell becomes NaN (or NaT for a date), and pandas then treats it specially: `groupby` drops rows whose country is missing (app.py:71, 112), `isin` never matches them (app.py:82), `sum` skips a missing revenue (app.py:86), `nunique` skips a missing invoice number (app.py:87), and a missing date fails both window comparisons (app.py:61-62). None of this is modelled.
- `Kpis.OrdersCount`: "0 exactly when there are no records" holds because every modelled record has an invoice number; with missing invoice numbers (not modelled, see above) the code could count 0 orders for a non-empty selection.
- `Dashboard.Run`: accepts a log with fewer than five countries. In the code the slider's default value 5 then exceeds its maximum, the number of countries (app.py:66-69), so the widget call fails and the page stops; that failure is not modelled.
