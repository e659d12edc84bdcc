/** The two record selections of the dashboard: by invoice date (inclusive
    calendar-date window) and by selected country. */
module Filters {
  import opened Calendar
  import opened Sequences
  import opened Transactions

  /** Both bounds are inclusive and compared at calendar-date granularity. */
  predicate InDateWindow(d: Date, start: Date, end: Date) {
    DateLe(start, d) && DateLe(d, end)
  }

  /** The mask "the invoice's date lies in [start, end]". */
  function InRange(start: Date, end: Date): Transaction -> bool {
    (t: Transaction) => InDateWindow(TruncateToDate(t.invoiceDate), start, end)
  }

  /** The mask "the record's country is selected". */
  function CountryIn(selection: set<string>): Transaction -> bool {
    (t: Transaction) => t.country in selection
  }

  /** `filtered_by_date`: exactly the records whose invoice date, with the time
      of day dropped, lies in [start, end], in their original order. */
  function FilterByDate(df: seq<Transaction>, start: Date, end: Date): (r: seq<Transaction>)
    ensures IsSubsequence(r, df)
    ensures forall t :: t in r ==> InDateWindow(TruncateToDate(t.invoiceDate), start, end)
    ensures forall t :: t in df && InDateWindow(TruncateToDate(t.invoiceDate), start, end) ==> t in r
    ensures forall t :: t in df ==>
              multiset(r)[t] == if InDateWindow(TruncateToDate(t.invoiceDate), start, end) then multiset(df)[t] else 0
  {
    FilterSelects(df, InRange(start, end));
    Filter(df, InRange(start, end))
  }

  /** `filtered_df`: exactly the date-filtered records whose country is selected,
      in their original order. */
  function FilterByCountry(dated: seq<Transaction>, selection: set<string>): (r: seq<Transaction>)
    ensures IsSubsequence(r, dated)
    ensures forall t :: t in r ==> t.country in selection
    ensures forall t :: t in dated && t.country in selection ==> t in r
    ensures forall t :: t in dated ==>
              multiset(r)[t] == if t.country in selection then multiset(dated)[t] else 0
    ensures CountrySet(r) <= selection * CountrySet(dated)
  {
    FilterSelects(dated, CountryIn(selection));
    Filter(dated, CountryIn(selection))
  }

  /** The date picker's default window, from the date of the earliest invoice to
      the date of the latest, keeps every record. */
  lemma DefaultWindowKeepsAll(df: seq<Transaction>)
    requires df != []
    ensures FilterByDate(df, TruncateToDate(EarliestTimestamp(df)), TruncateToDate(LatestTimestamp(df))) == df
  {
    var start, end := EarliestTimestamp(df), LatestTimestamp(df);
    forall t | t in df ensures InRange(start.date, end.date)(t) {
      TruncateMonotone(start, t.invoiceDate);
      TruncateMonotone(t.invoiceDate, end);
    }
    FilterAll(df, InRange(start.date, end.date));
  }

  /** Narrowing the window can only drop records: the narrower selection is the
      wider one filtered again, so it is a subsequence of it and no country appears
      in it that is absent from the wider one. */
  lemma NarrowerWindow(df: seq<Transaction>, start: Date, end: Date, start': Date, end': Date)
    requires DateLe(start, start') && DateLe(end', end)
    ensures FilterByDate(df, start', end') == Filter(FilterByDate(df, start, end), InRange(start', end'))
    ensures IsSubsequence(FilterByDate(df, start', end'), FilterByDate(df, start, end))
    ensures CountrySet(FilterByDate(df, start', end')) <= CountrySet(FilterByDate(df, start, end))
  {
    FilterFilter(df, InRange(start, end), InRange(start', end'));
    FilterSelects(FilterByDate(df, start, end), InRange(start', end'));
  }
}
