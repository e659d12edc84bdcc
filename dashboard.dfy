/** One run of the dashboard script: date filter, Top-N ranking, country
    filter, KPIs and the two chart series, for one set of sidebar values. */
module Dashboard {
  import opened Calendar
  import opened Sequences
  import opened Transactions
  import opened Filters
  import opened Ranking
  import opened Kpis
  import opened Charts

  /** Everything the page shows for one set of sidebar values. */
  datatype View = View(
    topCountries: seq<string>,
    records: seq<Transaction>,
    kpis: KpiFigures,
    monthly: seq<Point<YearMonth>>,
    byCountry: seq<Point<string>>)

  /** The options (and the default selection) of the country multi-select:
      the Top-N countries of the date-filtered records. */
  function CountryOptions(dated: seq<Transaction>, n: nat): (opts: set<string>)
    ensures |opts| == if n < |CountrySet(dated)| then n else |CountrySet(dated)|
    ensures opts <= CountrySet(dated)
  {
    TopCountriesDistinct(dated, n);
    ElementsCard(TopCountries(dated, n));
    Elements(TopCountries(dated, n))
  }

  /** The whole pipeline. The sidebar guarantees 1 <= n <= number of countries
      of the full log (the slider's bounds) and a selection drawn from the
      options. */
  function Run(df: seq<Transaction>, start: Date, end: Date, n: nat, selection: set<string>): (v: View)
    requires 1 <= n <= |CountrySet(df)|
    requires selection <= CountryOptions(FilterByDate(df, start, end), n)
    ensures |v.topCountries| <= n && |v.byCountry| <= n
    ensures |v.records| <= |df|
  {
    var dated := FilterByDate(df, start, end);
    var records := FilterByCountry(dated, selection);
    View(TopCountries(dated, n), records, ComputeKpis(records), MonthlySeries(records), CountrySeries(records, n))
  }

  /** The records shown are exactly the date-filtered records whose country is
      selected, in order and each as often as it occurs there. */
  lemma RunRecords(df: seq<Transaction>, start: Date, end: Date, n: nat, selection: set<string>)
    requires 1 <= n <= |CountrySet(df)|
    requires selection <= CountryOptions(FilterByDate(df, start, end), n)
    ensures var v := Run(df, start, end, n, selection);
      var dated := FilterByDate(df, start, end);
      && IsSubsequence(v.records, dated)
      && (forall t :: t in dated && t.country in selection ==> t in v.records)
      && (forall t :: t in dated ==>
            multiset(v.records)[t] == if t.country in selection then multiset(dated)[t] else 0)
  {
  }

  /** Each record shown comes from the log, lies in the date window and has a
      selected country, which is one of the Top-N countries of the window. */
  lemma RunRecordsInScope(df: seq<Transaction>, start: Date, end: Date, n: nat, selection: set<string>)
    requires 1 <= n <= |CountrySet(df)|
    requires selection <= CountryOptions(FilterByDate(df, start, end), n)
    ensures var v := Run(df, start, end, n, selection);
      forall t :: t in v.records ==>
        && t in df
        && InDateWindow(TruncateToDate(t.invoiceDate), start, end)
        && t.country in selection
        && t.country in v.topCountries
  {
  }

  /** At most `n` countries reach the final records, so the country chart's
      `head(top_n)` drops none of them: the chart has a bar for every country
      shown, and both charts add up to the total revenue KPI in thousands. */
  lemma RunChartsAddUp(df: seq<Transaction>, start: Date, end: Date, n: nat, selection: set<string>)
    requires 1 <= n <= |CountrySet(df)|
    requires selection <= CountryOptions(FilterByDate(df, start, end), n)
    ensures var v := Run(df, start, end, n, selection);
      && (forall c :: c in CountrySet(v.records) ==> exists i :: 0 <= i < |v.byCountry| && v.byCountry[i].key == c)
      && SeriesTotal(v.byCountry) == v.kpis.totalRevenue / 1000.0
      && SeriesTotal(v.monthly) == v.kpis.totalRevenue / 1000.0
  {
    var dated := FilterByDate(df, start, end);
    var records := FilterByCountry(dated, selection);
    var top := TopCountries(dated, n);
    TopCountriesDistinct(dated, n);
    ElementsCard(top);
    SubsetCard(CountrySet(records), selection);
    SubsetCard(selection, Elements(top));
    CountrySeriesComplete(records, n);
    CountrySeriesTotal(records, n);
    MonthlySeriesTotal(records);
  }

  /** With no matching records nothing breaks: the KPIs are all 0 and both
      charts are empty (the page shows its "no data" message); with records,
      both charts have points. */
  lemma RunEmptyState(df: seq<Transaction>, start: Date, end: Date, n: nat, selection: set<string>)
    requires 1 <= n <= |CountrySet(df)|
    requires selection <= CountryOptions(FilterByDate(df, start, end), n)
    ensures var v := Run(df, start, end, n, selection);
      && (v.records == [] <==> v.kpis == KpiFigures(0.0, 0, 0.0))
      && (v.records == [] <==> v.monthly == [])
      && (v.records == [] <==> v.byCountry == [])
  {
    var records := FilterByCountry(FilterByDate(df, start, end), selection);
    MonthlySeriesEmpty(records);
    CountrySeriesEmpty(records, n);
  }
}
