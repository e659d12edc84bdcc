/** The two chart series: revenue per calendar month (`resample("ME")`) and
    revenue of the top countries, both in thousands. */
module Charts {
  import opened Calendar
  import opened Sequences
  import opened Transactions
  import opened Ranking

  /** One point of a chart series: a group key and its revenue in thousands. */
  datatype Point<K> = Point(key: K, thousands: real)

  /** Revenue sums of the groups with the given keys, in that order, divided by 1000. */
  function GroupSeries<K(==)>(s: seq<Transaction>, keys: seq<K>, keyOf: Transaction -> K): (ps: seq<Point<K>>)
    ensures |ps| == |keys|
    ensures forall i :: 0 <= i < |keys| ==> ps[i].key == keys[i]
  {
    if keys == [] then []
    else [Point(keys[0], SumRevenue(Bucket(s, keyOf, keys[0])) / 1000.0)] + GroupSeries(s, keys[1..], keyOf)
  }

  /** Each point of a group series is the revenue of its group in thousands. */
  lemma {:induction false} GroupSeriesValues<K>(s: seq<Transaction>, keys: seq<K>, keyOf: Transaction -> K)
    ensures var ps := GroupSeries(s, keys, keyOf);
      forall i :: 0 <= i < |ps| ==> ps[i].thousands == SumRevenue(Bucket(s, keyOf, ps[i].key)) / 1000.0
  {
    if keys != [] {
      GroupSeriesValues(s, keys[1..], keyOf);
      var ps := GroupSeries(s, keys, keyOf);
      assert ps[1..] == GroupSeries(s, keys[1..], keyOf);
      forall i | 1 <= i < |ps| ensures ps[i].thousands == SumRevenue(Bucket(s, keyOf, ps[i].key)) / 1000.0 {
        assert ps[i] == ps[1..][i - 1];
      }
    }
  }

  /** Every key has a point in a group series. */
  lemma GroupSeriesCovers<K>(s: seq<Transaction>, keys: seq<K>, keyOf: Transaction -> K, k: K)
    requires k in keys
    ensures var ps := GroupSeries(s, keys, keyOf);
      exists i :: 0 <= i < |ps| && ps[i].key == k
  {
    var i :| 0 <= i < |keys| && keys[i] == k;
    assert GroupSeries(s, keys, keyOf)[i].key == k;
  }

  /** The sum of the plotted values. */
  function SeriesTotal<K>(ps: seq<Point<K>>): real {
    if ps == [] then 0.0 else ps[0].thousands + SeriesTotal(ps[1..])
  }

  /** The months with indices `first` to `last`, in order, with no month missing. */
  function MonthsBetween(first: int, last: int): (ms: seq<YearMonth>)
    ensures |ms| == if first <= last then last - first + 1 else 0
    ensures forall i :: 0 <= i < |ms| ==> MonthIndex(ms[i]) == first + i
    decreases last + 1 - first
  {
    if first > last then []
    else
      IndexOfMonthAt(first);
      [MonthAt(first)] + MonthsBetween(first + 1, last)
  }

  /** `time_df`: one point per calendar month from the month of the earliest
      record to the month of the latest, months without records included. */
  function MonthlySeries(s: seq<Transaction>): (ps: seq<Point<YearMonth>>)
    ensures s == [] ==> ps == []
    ensures s != [] ==> |ps| == MonthIndex(MonthOf(LatestTimestamp(s).date)) - MonthIndex(MonthOf(EarliestTimestamp(s).date)) + 1
  {
    if s == [] then []
    else
      MonthlyBounds(s);
      var first := MonthIndex(MonthOf(EarliestTimestamp(s).date));
      var last := MonthIndex(MonthOf(LatestTimestamp(s).date));
      GroupSeries(s, MonthsBetween(first, last), MonthKey)
  }

  /** `country_df`: the Top-`n` countries of the records with their revenue. */
  function CountrySeries(s: seq<Transaction>, n: nat): (ps: seq<Point<string>>)
    ensures |ps| <= n
  {
    GroupSeries(s, TopCountries(s, n), CountryKey)
  }

  /** A group series of no records plots only zeros. */
  lemma {:induction false} SeriesTotalOfNothing<K>(keys: seq<K>, keyOf: Transaction -> K)
    ensures SeriesTotal(GroupSeries([], keys, keyOf)) == 0.0
  {
    if keys != [] {
      SeriesTotalOfNothing(keys[1..], keyOf);
      var ps := GroupSeries([], keys, keyOf);
      assert ps[1..] == GroupSeries([], keys[1..], keyOf);
    }
  }

  /** Adding one record in front adds its revenue (in thousands) to the series
      total when its key is one of the keys, once, since the keys are distinct. */
  lemma {:induction false} SeriesTotalCons<K>(t: Transaction, rest: seq<Transaction>, keys: seq<K>, keyOf: Transaction -> K)
    requires NoDuplicates(keys)
    ensures SeriesTotal(GroupSeries([t] + rest, keys, keyOf))
            == SeriesTotal(GroupSeries(rest, keys, keyOf)) + (if keyOf(t) in keys then t.revenue / 1000.0 else 0.0)
  {
    if keys != [] {
      var s := [t] + rest;
      assert s[0] == t && s[1..] == rest;
      SeriesTotalCons(t, rest, keys[1..], keyOf);
      assert GroupSeries(s, keys, keyOf)[1..] == GroupSeries(s, keys[1..], keyOf);
      assert GroupSeries(rest, keys, keyOf)[1..] == GroupSeries(rest, keys[1..], keyOf);
      assert keyOf(t) == keys[0] ==> keyOf(t) !in keys[1..];
      assert keyOf(t) in keys <==> keyOf(t) == keys[0] || keyOf(t) in keys[1..];
    }
  }

  /** When every record's key is among the (distinct) keys, the plotted values
      add up to the total revenue in thousands: the groups partition the records. */
  lemma {:induction false} SeriesTotalPartition<K>(s: seq<Transaction>, keys: seq<K>, keyOf: Transaction -> K)
    requires NoDuplicates(keys)
    requires forall t :: t in s ==> keyOf(t) in keys
    ensures SeriesTotal(GroupSeries(s, keys, keyOf)) == SumRevenue(s) / 1000.0
  {
    if s == [] {
      SeriesTotalOfNothing(keys, keyOf);
    } else {
      assert s == [s[0]] + s[1..];
      SeriesTotalPartition(s[1..], keys, keyOf);
      SeriesTotalCons(s[0], s[1..], keys, keyOf);
    }
  }

  /** The months of a non-empty log run from the earliest record's month to the
      latest record's month, and there is at least one. */
  lemma MonthlyBounds(s: seq<Transaction>)
    requires s != []
    ensures MonthIndex(MonthOf(EarliestTimestamp(s).date)) <= MonthIndex(MonthOf(LatestTimestamp(s).date))
  {
    var lo, hi := EarliestTimestamp(s), LatestTimestamp(s);
    TruncateMonotone(lo, hi);
    MonthIndexMonotone(lo.date, hi.date);
  }

  /** The monthly series is empty exactly when there are no records. */
  lemma MonthlySeriesEmpty(s: seq<Transaction>)
    ensures MonthlySeries(s) == [] <==> s == []
  {
    if s != [] {
      MonthlyBounds(s);
    }
  }

  /** The month range starts at the month with index `first` and ends at the
      month with index `last`. */
  lemma MonthsBetweenEnds(a: YearMonth, b: YearMonth)
    requires MonthIndex(a) <= MonthIndex(b)
    ensures var ms := MonthsBetween(MonthIndex(a), MonthIndex(b));
      |ms| > 0 && ms[0] == a && ms[|ms| - 1] == b
  {
    var ms := MonthsBetween(MonthIndex(a), MonthIndex(b));
    SameIndexSameMonth(ms[0], a);
    SameIndexSameMonth(ms[|ms| - 1], b);
  }

  /** The monthly series of a non-empty log starts at the month of the earliest
      invoice and ends at the month of the latest. */
  lemma MonthlySeriesEnds(s: seq<Transaction>)
    requires s != []
    ensures var ps := MonthlySeries(s);
      && |ps| > 0
      && ps[0].key == MonthOf(EarliestTimestamp(s).date)
      && ps[|ps| - 1].key == MonthOf(LatestTimestamp(s).date)
  {
    var a := MonthOf(EarliestTimestamp(s).date);
    var b := MonthOf(LatestTimestamp(s).date);
    MonthlyBounds(s);
    MonthsBetweenEnds(a, b);
  }

  /** Consecutive points of the monthly series are consecutive calendar months. */
  lemma MonthlySeriesConsecutive(s: seq<Transaction>)
    ensures var ps := MonthlySeries(s);
      forall i :: 0 <= i < |ps| - 1 ==> MonthIndex(ps[i + 1].key) == MonthIndex(ps[i].key) + 1
  {
  }

  /** Each monthly point is that month's revenue in thousands (0 for a month
      without records). */
  lemma MonthlySeriesValues(s: seq<Transaction>)
    ensures var ps := MonthlySeries(s);
      forall i :: 0 <= i < |ps| ==> ps[i].thousands == MonthRevenue(s, ps[i].key) / 1000.0
  {
    if s != [] {
      var first := MonthIndex(MonthOf(EarliestTimestamp(s).date));
      var last := MonthIndex(MonthOf(LatestTimestamp(s).date));
      var ms := MonthsBetween(first, last);
      assert MonthlySeries(s) == GroupSeries(s, ms, MonthKey);
      GroupSeriesValues(s, ms, MonthKey);
    }
  }

  /** The month of every record has a point in the monthly series. */
  lemma MonthlySeriesCovers(s: seq<Transaction>)
    ensures var ps := MonthlySeries(s);
      forall t :: t in s ==> exists i :: 0 <= i < |ps| && ps[i].key == MonthKey(t)
  {
    if s != [] {
      var first := MonthIndex(MonthOf(EarliestTimestamp(s).date));
      var last := MonthIndex(MonthOf(LatestTimestamp(s).date));
      var ms := MonthsBetween(first, last);
      var ps := MonthlySeries(s);
      assert ps == GroupSeries(s, ms, MonthKey);
      forall t | t in s ensures exists i :: 0 <= i < |ps| && ps[i].key == MonthKey(t) {
        MonthsCoverRecord(s, t);
        GroupSeriesCovers(s, ms, MonthKey, MonthKey(t));
      }
    }
  }

  /** Every record's month lies between the first and the last month of the series. */
  lemma MonthsCoverRecord(s: seq<Transaction>, t: Transaction)
    requires t in s
    ensures var first := MonthIndex(MonthOf(EarliestTimestamp(s).date));
      var last := MonthIndex(MonthOf(LatestTimestamp(s).date));
      MonthKey(t) in MonthsBetween(first, last)
  {
    var lo, hi := EarliestTimestamp(s), LatestTimestamp(s);
    var first, last := MonthIndex(MonthOf(lo.date)), MonthIndex(MonthOf(hi.date));
    TruncateMonotone(lo, t.invoiceDate);
    TruncateMonotone(t.invoiceDate, hi);
    MonthIndexMonotone(lo.date, t.invoiceDate.date);
    MonthIndexMonotone(t.invoiceDate.date, hi.date);
    var ms := MonthsBetween(first, last);
    var k := MonthIndex(MonthKey(t)) - first;
    SameIndexSameMonth(ms[k], MonthKey(t));
  }

  /** The monthly values add up to the total revenue in thousands. */
  lemma MonthlySeriesTotal(s: seq<Transaction>)
    ensures SeriesTotal(MonthlySeries(s)) == SumRevenue(s) / 1000.0
  {
    if s != [] {
      var first := MonthIndex(MonthOf(EarliestTimestamp(s).date));
      var last := MonthIndex(MonthOf(LatestTimestamp(s).date));
      var ms := MonthsBetween(first, last);
      forall t | t in s ensures MonthKey(t) in ms {
        MonthsCoverRecord(s, t);
      }
      SeriesTotalPartition(s, ms, MonthKey);
    }
  }

  /** The country series has one bar per listed country, as many as `n` allows
      (min(n, number of countries)), each for a distinct country of the records. */
  lemma CountrySeriesShape(s: seq<Transaction>, n: nat)
    ensures var ps := CountrySeries(s, n);
      && |ps| == (if n < |CountrySet(s)| then n else |CountrySet(s)|)
      && (forall i :: 0 <= i < |ps| ==> ps[i].key in CountrySet(s))
      && (forall i, j :: 0 <= i < j < |ps| ==> ps[i].key != ps[j].key)
  {
    var top := TopCountries(s, n);
    var ps := GroupSeries(s, top, CountryKey);
    assert CountrySeries(s, n) == ps;
    TopCountriesDistinct(s, n);
    forall i | 0 <= i < |ps| ensures ps[i].key in CountrySet(s) {
      assert top[i] in top;
    }
    forall i, j | 0 <= i < j < |ps| ensures ps[i].key != ps[j].key {
      assert top[i] != top[j];
    }
  }

  /** For n >= 1 the country series is empty exactly when there are no records. */
  lemma CountrySeriesEmpty(s: seq<Transaction>, n: nat)
    ensures n >= 1 ==> (CountrySeries(s, n) == [] <==> s == [])
  {
    TopCountriesDistinct(s, n);
    if s != [] {
      assert s[0].country in CountrySet(s);
    }
  }

  /** Each bar is its country's revenue in thousands, and the bars are in
      non-increasing order. */
  lemma CountrySeriesRanked(s: seq<Transaction>, n: nat)
    ensures var ps := CountrySeries(s, n);
      && (forall i :: 0 <= i < |ps| ==> ps[i].thousands == CountryRevenue(s, ps[i].key) / 1000.0)
      && (forall i, j :: 0 <= i < j < |ps| ==> ps[i].thousands >= ps[j].thousands)
  {
    var top := TopCountries(s, n);
    var ps := CountrySeries(s, n);
    assert ps == GroupSeries(s, top, CountryKey);
    GroupSeriesValues(s, top, CountryKey);
    assert forall i :: 0 <= i < |ps| ==> ps[i].thousands == CountryRevenue(s, ps[i].key) / 1000.0;
    TopCountriesRanked(s, n);
    forall i, j | 0 <= i < j < |ps| ensures ps[i].thousands >= ps[j].thousands {
      assert ps[i].key == top[i] && ps[j].key == top[j];
    }
  }

  /** When the records have no more than `n` countries, `head(n)` drops none
      of them. */
  lemma TopCountriesComplete(s: seq<Transaction>, n: nat)
    requires |CountrySet(s)| <= n
    ensures forall c :: c in CountrySet(s) ==> c in TopCountries(s, n)
  {
    var top := TopCountries(s, n);
    TopCountriesDistinct(s, n);
    ElementsCard(top);
    SameSizeSubset(Elements(top), CountrySet(s));
    assert forall c :: c in Elements(top) ==> c in top;
  }

  /** When the records have no more than `n` countries, every country of the
      records has a bar. */
  lemma CountrySeriesComplete(s: seq<Transaction>, n: nat)
    requires |CountrySet(s)| <= n
    ensures var ps := CountrySeries(s, n);
      forall c :: c in CountrySet(s) ==> exists i :: 0 <= i < |ps| && ps[i].key == c
  {
    var top := TopCountries(s, n);
    var ps := CountrySeries(s, n);
    assert ps == GroupSeries(s, top, CountryKey);
    TopCountriesComplete(s, n);
    forall c | c in CountrySet(s) ensures exists i :: 0 <= i < |ps| && ps[i].key == c {
      GroupSeriesCovers(s, top, CountryKey, c);
    }
  }

  /** When the records have no more than `n` countries, the bars add up to the
      total revenue in thousands. */
  lemma CountrySeriesTotal(s: seq<Transaction>, n: nat)
    requires |CountrySet(s)| <= n
    ensures SeriesTotal(CountrySeries(s, n)) == SumRevenue(s) / 1000.0
  {
    var top := TopCountries(s, n);
    assert CountrySeries(s, n) == GroupSeries(s, top, CountryKey);
    TopCountriesComplete(s, n);
    TopCountriesDistinct(s, n);
    forall t | t in s ensures CountryKey(t) in top {
      assert t.country in CountrySet(s);
    }
    SeriesTotalPartition(s, top, CountryKey);
  }
}
