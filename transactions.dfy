/** The transaction log: rows as read from the file, records with the derived
    revenue column, and the sums and key sets the dashboard computes over them. */
module Transactions {
  import opened Calendar
  import opened Sequences

  /** One line item of the retail log as read from the file. */
  datatype Row = Row(
    invoiceNo: string,
    stockCode: string,
    description: string,
    quantity: int,       // negative for returns
    unitPrice: real,
    invoiceDate: Timestamp,
    customerId: string,
    country: string)

  /** A line item after loading: the row's columns plus the derived `Revenue`. */
  datatype Transaction = Transaction(
    invoiceNo: string,
    stockCode: string,
    description: string,
    quantity: int,
    unitPrice: real,
    invoiceDate: Timestamp,
    customerId: string,
    country: string,
    revenue: real)

  /** The columns that were read, without the derived one. */
  function Strip(t: Transaction): Row {
    Row(t.invoiceNo, t.stockCode, t.description, t.quantity, t.unitPrice,
        t.invoiceDate, t.customerId, t.country)
  }

  /** Adds the derived revenue column to one row. */
  function WithRevenue(row: Row): Transaction {
    Transaction(row.invoiceNo, row.stockCode, row.description, row.quantity, row.unitPrice,
                row.invoiceDate, row.customerId, row.country,
                row.quantity as real * row.unitPrice)
  }

  /** `load_data` after parsing: every row gets revenue = quantity * unit price,
      rows keep their order and every read column is unchanged. */
  function LoadData(rows: seq<Row>): (df: seq<Transaction>)
    ensures |df| == |rows|
    ensures forall i :: 0 <= i < |rows| ==>
              Strip(df[i]) == rows[i] && df[i].revenue == rows[i].quantity as real * rows[i].unitPrice
  {
    seq(|rows|, i requires 0 <= i < |rows| => WithRevenue(rows[i]))
  }

  /** Sum of the revenue column (pandas `sum`, 0 for no records). */
  function SumRevenue(s: seq<Transaction>): real {
    if s == [] then 0.0 else s[0].revenue + SumRevenue(s[1..])
  }

  /** The distinct countries occurring in the records. */
  function CountrySet(s: seq<Transaction>): set<string> {
    set t | t in s :: t.country
  }

  /** The distinct invoice numbers occurring in the records. */
  function InvoiceSet(s: seq<Transaction>): set<string> {
    set t | t in s :: t.invoiceNo
  }

  function CountryKey(t: Transaction): string {
    t.country
  }

  function MonthKey(t: Transaction): YearMonth {
    MonthOf(TruncateToDate(t.invoiceDate))
  }

  /** The mask "the record's group key is k". */
  function KeyIs<K(==)>(keyOf: Transaction -> K, k: K): Transaction -> bool {
    (t: Transaction) => keyOf(t) == k
  }

  /** One group of a `groupby`: the records whose key is `k`, in order. */
  function Bucket<K(==)>(s: seq<Transaction>, keyOf: Transaction -> K, k: K): seq<Transaction> {
    Filter(s, KeyIs(keyOf, k))
  }

  /** `groupby("Country")["Revenue"].sum()` at one country. */
  function CountryRevenue(s: seq<Transaction>, c: string): real {
    SumRevenue(Bucket(s, CountryKey, c))
  }

  /** Revenue of the records of one calendar month. */
  function MonthRevenue(s: seq<Transaction>, m: YearMonth): real {
    SumRevenue(Bucket(s, MonthKey, m))
  }

  /** `InvoiceDate.min()`: the earliest timestamp of a non-empty log. */
  function EarliestTimestamp(s: seq<Transaction>): (ts: Timestamp)
    requires s != []
    ensures exists t :: t in s && t.invoiceDate == ts
    ensures forall t :: t in s ==> TimestampLe(ts, t.invoiceDate)
  {
    if |s| == 1 then s[0].invoiceDate
    else
      var rest := EarliestTimestamp(s[1..]);
      if TimestampLe(s[0].invoiceDate, rest) then s[0].invoiceDate else rest
  }

  /** `InvoiceDate.max()`: the latest timestamp of a non-empty log. */
  function LatestTimestamp(s: seq<Transaction>): (ts: Timestamp)
    requires s != []
    ensures exists t :: t in s && t.invoiceDate == ts
    ensures forall t :: t in s ==> TimestampLe(t.invoiceDate, ts)
  {
    if |s| == 1 then s[0].invoiceDate
    else
      var rest := LatestTimestamp(s[1..]);
      if TimestampLe(rest, s[0].invoiceDate) then s[0].invoiceDate else rest
  }

  lemma {:induction false} SumRevenueAppend(a: seq<Transaction>, b: seq<Transaction>)
    ensures SumRevenue(a + b) == SumRevenue(a) + SumRevenue(b)
  {
    if a == [] {
      assert a + b == b;
    } else {
      assert (a + b)[0] == a[0];
      assert (a + b)[1..] == a[1..] + b;
      SumRevenueAppend(a[1..], b);
    }
  }

  /** Taking one record out of a sequence takes its revenue out of the total. */
  lemma SumRevenueRemove(b: seq<Transaction>, i: nat)
    requires i < |b|
    ensures SumRevenue(b) == b[i].revenue + SumRevenue(b[..i] + b[i + 1..])
  {
    var tail := [b[i]] + b[i + 1..];
    SplitAt(b, i);
    SumRevenueAppend(b[..i], tail);
    SumRevenueAppend(b[..i], b[i + 1..]);
    assert SumRevenue(tail) == b[i].revenue + SumRevenue(b[i + 1..]);
  }

  /** The revenue total depends only on which records there are, not on their order. */
  lemma {:induction false} SumRevenuePermutation(a: seq<Transaction>, b: seq<Transaction>)
    requires multiset(a) == multiset(b)
    ensures SumRevenue(a) == SumRevenue(b)
    decreases |a|
  {
    if a == [] {
      assert |b| == |multiset(b)| == 0;
    } else {
      var x := a[0];
      assert x in multiset(a);
      assert x in b;
      var i :| 0 <= i < |b| && b[i] == x;
      var rest := b[..i] + b[i + 1..];
      var tail := a[1..];
      PermutationRemove(a, b, i);
      SumRevenuePermutation(tail, rest);
      SumRevenueRemove(b, i);
      assert SumRevenue(a) == x.revenue + SumRevenue(tail);
    }
  }

  /** The distinct invoice numbers are never more than the records. */
  lemma {:induction false} InvoiceSetCard(s: seq<Transaction>)
    ensures |InvoiceSet(s)| <= |s|
    ensures |InvoiceSet(s)| == 0 <==> s == []
  {
    if s != [] {
      InvoiceSetCard(s[1..]);
      assert InvoiceSet(s) == {s[0].invoiceNo} + InvoiceSet(s[1..]);
    }
  }
}
