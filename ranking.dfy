/** The Top-N country ranking: group the records by country, sum the revenue of
    each group, sort the groups by that sum in descending order and keep the
    first N countries. */
module Ranking {
  import opened Sequences
  import opened Transactions

  /** The countries of the records, each once (the groups of `groupby("Country")`). */
  function DistinctCountries(s: seq<Transaction>): (cs: seq<string>)
    ensures NoDuplicates(cs)
    ensures forall c :: c in cs <==> c in CountrySet(s)
    ensures |cs| == |CountrySet(s)|
  {
    if s == [] then []
    else
      var rest := DistinctCountries(s[1..]);
      assert CountrySet(s) == {s[0].country} + CountrySet(s[1..]);
      if s[0].country in rest then rest else [s[0].country] + rest
  }

  /** `groupby("Country")["Revenue"].sum()`: one summed revenue per country present. */
  function CountrySums(s: seq<Transaction>): (sums: map<string, real>)
    ensures sums.Keys == CountrySet(s)
    ensures forall c :: c in sums ==> sums[c] == CountryRevenue(s, c)
  {
    map c | c in CountrySet(s) :: CountryRevenue(s, c)
  }

  /** `cs` is in non-increasing order of summed revenue. */
  ghost predicate RankedBy(cs: seq<string>, sums: map<string, real>)
  {
    && (forall c :: c in cs ==> c in sums)
    && (forall i, j :: 0 <= i < j < |cs| ==> sums[cs[i]] >= sums[cs[j]])
  }

  /** Puts `c` into a ranked list in front of the first country with a smaller sum. */
  function Insert(c: string, cs: seq<string>, sums: map<string, real>): (r: seq<string>)
    requires c in sums && forall x :: x in cs ==> x in sums
    ensures multiset(r) == multiset(cs) + multiset{c}
    ensures forall x :: x in r <==> x == c || x in cs
  {
    if cs == [] then [c]
    else if sums[c] >= sums[cs[0]] then [c] + cs
    else
      assert cs == [cs[0]] + cs[1..];
      [cs[0]] + Insert(c, cs[1..], sums)
  }

  /** `sort_values(ascending=False)`: a permutation of the countries in
      non-increasing order of summed revenue (see SortByRevenueRanked). Among
      equal sums the order is one particular order; nothing below depends on it. */
  function SortByRevenue(cs: seq<string>, sums: map<string, real>): (r: seq<string>)
    requires forall x :: x in cs ==> x in sums
    ensures multiset(r) == multiset(cs)
    ensures forall x :: x in r <==> x in cs
  {
    if cs == [] then []
    else
      assert cs == [cs[0]] + cs[1..];
      Insert(cs[0], SortByRevenue(cs[1..], sums), sums)
  }

  lemma RankedCons(x: string, cs: seq<string>, sums: map<string, real>)
    requires x in sums && RankedBy(cs, sums)
    requires forall y :: y in cs ==> sums[x] >= sums[y]
    ensures RankedBy([x] + cs, sums)
  {
    var r := [x] + cs;
    forall i, j | 0 <= i < j < |r| ensures sums[r[i]] >= sums[r[j]] {
      assert r[j] == cs[j - 1];
      if i == 0 {
        assert cs[j - 1] in cs;
      } else {
        assert r[i] == cs[i - 1];
      }
    }
  }

  lemma RankedTail(cs: seq<string>, sums: map<string, real>)
    requires cs != [] && RankedBy(cs, sums)
    ensures RankedBy(cs[1..], sums)
    ensures forall y :: y in cs ==> sums[cs[0]] >= sums[y]
  {
    forall i, j | 0 <= i < j < |cs[1..]| ensures sums[cs[1..][i]] >= sums[cs[1..][j]] {
      assert cs[1..][i] == cs[i + 1] && cs[1..][j] == cs[j + 1];
    }
  }

  lemma {:induction false} InsertRanked(c: string, cs: seq<string>, sums: map<string, real>)
    requires c in sums && RankedBy(cs, sums)
    ensures RankedBy(Insert(c, cs, sums), sums)
  {
    if cs == [] {
    } else if sums[c] >= sums[cs[0]] {
      RankedTail(cs, sums);
      RankedCons(c, cs, sums);
    } else {
      RankedTail(cs, sums);
      InsertRanked(c, cs[1..], sums);
      var rest := Insert(c, cs[1..], sums);
      assert forall y :: y in rest ==> y == c || y in cs;
      RankedCons(cs[0], rest, sums);
    }
  }

  lemma {:induction false} InsertNoDuplicates(c: string, cs: seq<string>, sums: map<string, real>)
    requires c in sums && forall x :: x in cs ==> x in sums
    requires NoDuplicates(cs) && c !in cs
    ensures NoDuplicates(Insert(c, cs, sums))
  {
    if cs != [] && sums[c] < sums[cs[0]] {
      var rest := Insert(c, cs[1..], sums);
      InsertNoDuplicates(c, cs[1..], sums);
      var r := [cs[0]] + rest;
      assert cs[0] !in cs[1..];
      forall i, j | 0 <= i < j < |r| ensures r[i] != r[j] {
        if i == 0 {
          assert r[j] == rest[j - 1] && rest[j - 1] in rest;
        } else {
          assert r[i] == rest[i - 1] && r[j] == rest[j - 1];
        }
      }
    }
  }

  /** The sorted countries are ranked, and no country appears twice when none did before. */
  lemma {:induction false} SortByRevenueRanked(cs: seq<string>, sums: map<string, real>)
    requires forall x :: x in cs ==> x in sums
    ensures RankedBy(SortByRevenue(cs, sums), sums)
    ensures NoDuplicates(cs) ==> NoDuplicates(SortByRevenue(cs, sums))
  {
    if cs != [] {
      var rest := SortByRevenue(cs[1..], sums);
      SortByRevenueRanked(cs[1..], sums);
      InsertRanked(cs[0], rest, sums);
      if NoDuplicates(cs) {
        InsertNoDuplicates(cs[0], rest, sums);
      }
    }
  }

  /** The first `n` of a ranked list: nothing left out ranks above anything kept. */
  lemma HeadOfRanked(ranked: seq<string>, sums: map<string, real>, n: nat)
    requires RankedBy(ranked, sums)
    ensures var top := Head(ranked, n);
      forall c, i :: c in ranked && c !in top && 0 <= i < |top| ==> sums[c] <= sums[top[i]]
  {
    var top := Head(ranked, n);
    forall c, i | c in ranked && c !in top && 0 <= i < |top|
      ensures sums[c] <= sums[top[i]]
    {
      var j :| 0 <= j < |ranked| && ranked[j] == c;
      assert top[i] == ranked[i];
    }
  }

  /** `top_countries_list`: the first `n` countries of the records in
      non-increasing order of summed revenue (`head(top_n)` of the sorted sums). */
  function TopCountries(dated: seq<Transaction>, n: nat): (top: seq<string>)
    ensures |top| <= n
  {
    var sums := CountrySums(dated);
    Head(SortByRevenue(DistinctCountries(dated), sums), n)
  }

  /** The first `n` of the sorted countries: no duplicates when there were
      none, min(n, |cs|) entries, all drawn from `cs`. */
  lemma HeadOfSorted(cs: seq<string>, sums: map<string, real>, n: nat)
    requires forall x :: x in cs ==> x in sums
    requires NoDuplicates(cs)
    ensures var top := Head(SortByRevenue(cs, sums), n);
      && NoDuplicates(top)
      && |top| == (if n < |cs| then n else |cs|)
      && (forall c :: c in top ==> c in cs)
  {
    var ranked := SortByRevenue(cs, sums);
    SortByRevenueRanked(cs, sums);
    assert |ranked| == |multiset(ranked)| == |multiset(cs)| == |cs|;
  }

  /** The Top-N list names no country twice, has min(n, number of countries of
      the records) entries, and each of them occurs in the records. */
  lemma TopCountriesDistinct(dated: seq<Transaction>, n: nat)
    ensures var top := TopCountries(dated, n);
      && NoDuplicates(top)
      && |top| == (if n < |CountrySet(dated)| then n else |CountrySet(dated)|)
      && (forall c :: c in top ==> c in CountrySet(dated))
  {
    HeadOfSorted(DistinctCountries(dated), CountrySums(dated), n);
  }

  /** The first `n` of the sorted countries are ranked, and none left out has
      a larger sum than any kept. */
  lemma HeadOfSortedRanked(cs: seq<string>, sums: map<string, real>, n: nat)
    requires forall x :: x in cs ==> x in sums
    ensures var top := Head(SortByRevenue(cs, sums), n);
      && (forall i, j :: 0 <= i < j < |top| ==> sums[top[i]] >= sums[top[j]])
      && (forall c, i :: c in cs && c !in top && 0 <= i < |top| ==> sums[c] <= sums[top[i]])
  {
    var ranked := SortByRevenue(cs, sums);
    SortByRevenueRanked(cs, sums);
    HeadOfRanked(ranked, sums, n);
    var top := Head(ranked, n);
    forall i, j | 0 <= i < j < |top| ensures sums[top[i]] >= sums[top[j]] {
      assert top[i] == ranked[i] && top[j] == ranked[j];
    }
  }

  /** The Top-N list is in non-increasing order of summed revenue. */
  lemma TopCountriesRanked(dated: seq<Transaction>, n: nat)
    ensures var top := TopCountries(dated, n);
      forall i, j :: 0 <= i < j < |top| ==>
        CountryRevenue(dated, top[i]) >= CountryRevenue(dated, top[j])
  {
    var sums := CountrySums(dated);
    var countries := DistinctCountries(dated);
    var top := TopCountries(dated, n);
    assert top == Head(SortByRevenue(countries, sums), n);
    HeadOfSortedRanked(countries, sums, n);
    forall i, j | 0 <= i < j < |top|
      ensures CountryRevenue(dated, top[i]) >= CountryRevenue(dated, top[j])
    {
      assert top[i] in countries && top[j] in countries;
      assert sums[top[i]] >= sums[top[j]];
    }
  }

  /** No country of the records that was left out of the Top-N list has more
      revenue than any country listed; this holds whichever way ties between
      equal sums are broken. */
  lemma TopCountriesBest(dated: seq<Transaction>, n: nat)
    ensures var top := TopCountries(dated, n);
      forall c, i :: c in CountrySet(dated) && c !in top && 0 <= i < |top| ==>
        CountryRevenue(dated, c) <= CountryRevenue(dated, top[i])
  {
    var sums := CountrySums(dated);
    var countries := DistinctCountries(dated);
    var top := TopCountries(dated, n);
    assert top == Head(SortByRevenue(countries, sums), n);
    HeadOfSortedRanked(countries, sums, n);
    forall c, i | c in CountrySet(dated) && c !in top && 0 <= i < |top|
      ensures CountryRevenue(dated, c) <= CountryRevenue(dated, top[i])
    {
      assert top[i] in countries && c in countries;
      assert sums[c] <= sums[top[i]];
    }
  }
}
