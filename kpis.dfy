/** The three KPI figures shown above the charts. */
module Kpis {
  import opened Transactions

  datatype KpiFigures = KpiFigures(totalRevenue: real, ordersCount: nat, avgOrderValue: real)

  /** `total_revenue`: the KPI's name for `SumRevenue`, the revenue of all the
      records, 0 when there are none. */
  function TotalRevenue(s: seq<Transaction>): (r: real)
    ensures s == [] ==> r == 0.0
  {
    SumRevenue(s)
  }

  /** `orders_count`: the number of distinct invoice numbers. It is at most the
      number of records, and 0 exactly when there are no records. */
  function OrdersCount(s: seq<Transaction>): (k: nat)
    ensures k <= |s|
    ensures k == 0 <==> s == []
  {
    InvoiceSetCard(s);
    |InvoiceSet(s)|
  }

  /** `avg_order_value`: 0 when there are no orders, otherwise the revenue per
      order (the guard keeps the division away from zero). */
  function AverageOrderValue(total: real, orders: nat): (avg: real)
    ensures orders == 0 ==> avg == 0.0
    ensures orders > 0 ==> avg * orders as real == total
  {
    if orders > 0 then total / orders as real else 0.0
  }

  function ComputeKpis(s: seq<Transaction>): (k: KpiFigures)
    ensures k.totalRevenue == SumRevenue(s)
    ensures k.ordersCount == |InvoiceSet(s)| && k.ordersCount <= |s|
    ensures k.ordersCount == 0 ==> k.avgOrderValue == 0.0
    ensures k.ordersCount > 0 ==> k.avgOrderValue * k.ordersCount as real == k.totalRevenue
    ensures s == [] <==> k == KpiFigures(0.0, 0, 0.0)
  {
    var total := TotalRevenue(s);
    var orders := OrdersCount(s);
    KpiFigures(total, orders, AverageOrderValue(total, orders))
  }

  /** The KPIs do not depend on the order of the records. */
  lemma KpisPermutation(a: seq<Transaction>, b: seq<Transaction>)
    requires multiset(a) == multiset(b)
    ensures ComputeKpis(a) == ComputeKpis(b)
  {
    SumRevenuePermutation(a, b);
    assert InvoiceSet(a) == InvoiceSet(b) by {
      forall t ensures t in a <==> t in b {
        assert t in a <==> t in multiset(a);
        assert t in b <==> t in multiset(b);
      }
    }
  }
}
