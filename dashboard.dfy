/**
 * The data path of the dashboard page, from the three tables and the
 * sidebar settings to the product table, the top products, the KPI
 * cards and the daily revenue series.
 */
module Dashboard {
  import opened Records
  import opened Aggregation
  import opened Kpis
  import opened DailyRevenue
  import DummyData

  /** The sidebar: date window, number of top products and chosen categories. */
  datatype Settings = Settings(start: Date, end: Date, topN: nat, categories: seq<string>)

  /**
   * What the sidebar guarantees before any data is touched (lines 94-98):
   * the page stops when the start date is after the end date, and the
   * top-N slider ranges over 3..20. The computation does not need it.
   */
  predicate ValidSettings(s: Settings)
  {
    s.start <= s.end && 3 <= s.topN <= 20
  }

  /** Everything the page shows that is computed from data. */
  datatype Report = Report(
    orders: seq<Order>,
    merged: seq<MergedRow>,
    topProducts: seq<MergedRow>,
    kpis: KpiSnapshot,
    daily: seq<DayRevenue>)

  /** The joined and category-filtered product rows, before the sort. */
  function Joined(products: seq<Product>, filtered: seq<Order>, categories: seq<string>): seq<MergedRow>
  {
    FilterByCategory(LeftJoin(products, Rollup(filtered)), categories)
  }

  /** The page's computation, step by step as the script runs it. */
  function Run(products: seq<Product>, orders: seq<Order>, customers: seq<Customer>, s: Settings): (r: Report)
    ensures r.orders == FilterByDate(orders, s.start, s.end)
    ensures SortedByUnits(r.merged)
    ensures multiset(r.merged) == multiset(Joined(products, r.orders, s.categories))
    ensures |r.topProducts| == (if s.topN < |r.merged| then s.topN else |r.merged|)
    ensures r.topProducts == r.merged[..|r.topProducts|]
    ensures ValidSettings(s) ==> |r.topProducts| <= 20 && (3 <= |r.merged| ==> 3 <= |r.topProducts|)
    ensures r.kpis == Snapshot(r.orders, products, r.merged, customers)
    ensures r.kpis.totalUnits == SumUnits(Joined(products, r.orders, s.categories))
    ensures r.daily == DailySeries(r.orders)
    ensures r.orders != [] ==> SeriesTotal(r.daily) == r.kpis.totalRevenue
  {
    var filtered := FilterByDate(orders, s.start, s.end);
    var joined := Joined(products, filtered, s.categories);
    var merged := SortByUnits(joined);
    SumUnitsPermutation(merged, joined);
    var top := TopN(merged, s.topN);
    Report(filtered, merged, top, Snapshot(filtered, products, merged, customers), DailySeries(filtered))
  }

  /**
   * Orders on 2025-08-01 (product A, 10 at 5) and 2025-08-15 (product B,
   * 4 at 25), window 2025-08-01..2025-08-10: only A is rolled up, with 10
   * units and revenue 50; revenue is 50 and there is one order.
   */
  lemma WindowScenario(products: seq<Product>, customers: seq<Customer>)
    ensures
      var orders := [Order("1", "A", 10, 5, 50, 20250801), Order("2", "B", 4, 25, 100, 20250815)];
      var r := Run(products, orders, customers, Settings(20250801, 20250810, 5, []));
      && Rollup(r.orders) == map["A" := Totals(10, 50)]
      && r.kpis.totalRevenue == 50
      && r.kpis.totalOrders == 1
  {
    var a, b := Order("1", "A", 10, 5, 50, 20250801), Order("2", "B", 4, 25, 100, 20250815);
    var orders := [a, b];
    assert orders[..1] == [a] && [a][..0] == [];
    assert FilterByDate([a], 20250801, 20250810) == [a];
    var filtered := FilterByDate(orders, 20250801, 20250810);
    assert filtered == [a];
    assert Titles(filtered) == {"A"};
    assert OrderIds(filtered) == {"1"};
  }

  /**
   * On the demo data with a window covering every product date, all 63
   * generated orders pass the filter and each counts as its own order;
   * three customers are counted as new and two as returning.
   */
  lemma DemoAugustScenario()
    ensures
      var orders := DummyData.OrdersFor(DummyData.DummyProducts());
      && FilterByDate(orders, 20250801, 20250831) == orders
      && TotalOrders(orders) == 63
      && NewCustomers(DummyData.DummyCustomers()) == 3
      && ReturningCustomers(DummyData.DummyCustomers()) == 2
  {
    DemoOrdersPass();
    DemoOrdersDistinct();
    DemoCustomers();
  }

  lemma DemoOrdersPass()
    ensures FilterByDate(DummyData.OrdersFor(DummyData.DummyProducts()), 20250801, 20250831)
            == DummyData.OrdersFor(DummyData.DummyProducts())
  {
    DemoOrdersInAugust();
    FilterByDateKeepsAll(DummyData.OrdersFor(DummyData.DummyProducts()), 20250801, 20250831);
  }

  lemma DemoOrdersDistinct()
    ensures TotalOrders(DummyData.OrdersFor(DummyData.DummyProducts())) == 63
  {
    var ps := DummyData.DummyProducts();
    var orders := DummyData.OrdersFor(ps);
    DummyData.DummyOrderCount();
    assert |ps| == 5 && ps[0].id == 101 && ps[1].id == 102 && ps[2].id == 103 && ps[3].id == 104 && ps[4].id == 105;
    assert forall a :: 0 <= a < |ps| ==> ps[a].id == 101 + a;
    DummyData.OrderIdsDistinct(ps);
    assert DistinctIds(orders);
    TotalOrdersBounds(orders);
  }

  lemma DemoOrdersInAugust()
    ensures forall o :: o in DummyData.OrdersFor(DummyData.DummyProducts()) ==> InDateRange(o, 20250801, 20250831)
  {
    var ps := DummyData.DummyProducts();
    var orders := DummyData.OrdersFor(ps);
    assert forall j :: 0 <= j < |ps| ==> 20250801 <= ps[j].date <= 20250831;
    forall o | o in orders ensures InDateRange(o, 20250801, 20250831) {
      var k :| 0 <= k < |orders| && orders[k] == o;
      DummyData.GeneratedLineItem(ps, k);
    }
  }

  lemma DemoCustomers()
    ensures NewCustomers(DummyData.DummyCustomers()) == 3
    ensures ReturningCustomers(DummyData.DummyCustomers()) == 2
  {
    var cs := DummyData.DummyCustomers();
    assert cs[..2][..1][..0] == [] && cs[..3] == cs;
    assert ReturningCustomers(cs[..1]) == 1;
    assert ReturningCustomers(cs[..2]) == 2;
  }
}
