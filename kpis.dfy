/** The five KPI cards at the top of the dashboard. */
module Kpis {
  import opened Records
  import opened Aggregation

  datatype KpiSnapshot = KpiSnapshot(
    totalRevenue: int,
    totalOrders: nat,
    totalUnits: int,
    newCustomers: nat,
    returningCustomers: nat)

  /** Sum of the recorded `revenue` column of a products table. */
  function SumProductRevenue(products: seq<Product>): int
  {
    if products == [] then 0
    else SumProductRevenue(products[..|products| - 1]) + products[|products| - 1].revenue
  }

  /**
   * Revenue of the filtered orders (line 131); only when no order is left
   * does the card fall back to the products' recorded revenue.
   */
  function TotalRevenue(filtered: seq<Order>, products: seq<Product>): (r: int)
    ensures filtered != [] ==> r == SumAmount(filtered)
    ensures filtered == [] ==> r == SumProductRevenue(products)
  {
    if filtered != [] then SumAmount(filtered) else SumProductRevenue(products)
  }

  /** The distinct order ids among the orders. */
  function OrderIds(orders: seq<Order>): set<string>
  {
    set o | o in orders :: o.orderId
  }

  /** The number of distinct order ids (line 132), or the row count of an empty table. */
  function TotalOrders(filtered: seq<Order>): (r: nat)
    ensures r == |OrderIds(filtered)|
  {
    if filtered != [] then |OrderIds(filtered)| else |filtered|
  }

  /** Pairwise distinct order ids, as the demo generator produces them. */
  predicate DistinctIds(orders: seq<Order>)
  {
    forall k1, k2 :: 0 <= k1 < k2 < |orders| ==> orders[k1].orderId != orders[k2].orderId
  }

  /**
   * The order count is at most the number of order lines, zero exactly
   * when there are none, and equal to the number of lines when no id
   * repeats.
   */
  lemma {:induction false} TotalOrdersBounds(orders: seq<Order>)
    ensures TotalOrders(orders) <= |orders|
    ensures TotalOrders(orders) == 0 <==> orders == []
    ensures DistinctIds(orders) ==> TotalOrders(orders) == |orders|
    decreases |orders|
  {
    if orders != [] {
      var init, o := orders[..|orders| - 1], orders[|orders| - 1];
      assert orders == init + [o];
      assert OrderIds(orders) == OrderIds(init) + {o.orderId};
      assert o.orderId in OrderIds(orders);
      TotalOrdersBounds(init);
      if DistinctIds(orders) {
        LastIdFresh(orders);
      }
    }
  }

  /** With distinct ids, the last line's id is new to the lines before it, and those keep distinct ids. */
  lemma LastIdFresh(orders: seq<Order>)
    requires orders != [] && DistinctIds(orders)
    ensures DistinctIds(orders[..|orders| - 1])
    ensures orders[|orders| - 1].orderId !in OrderIds(orders[..|orders| - 1])
  {
    var init, o := orders[..|orders| - 1], orders[|orders| - 1];
    forall o' | o' in init ensures o'.orderId != o.orderId {
      var k :| 0 <= k < |init| && init[k] == o';
      assert orders[k] == o';
    }
  }

  /** The row count of the customers table (line 134): the demo counts every customer as new. */
  function NewCustomers(customers: seq<Customer>): (r: nat)
    ensures r == |customers|
  {
    |customers|
  }

  /** The positions of the customers with more than one order. */
  ghost function ReturningPositions(customers: seq<Customer>): set<int>
  {
    set i | 0 <= i < |customers| && customers[i].orders > 1
  }

  /** Taking one more customer adds its position exactly when it has more than one order. */
  lemma ReturningPositionsStep(customers: seq<Customer>)
    requires customers != []
    ensures ReturningPositions(customers) ==
            ReturningPositions(customers[..|customers| - 1]) +
            (if customers[|customers| - 1].orders > 1 then {|customers| - 1} else {})
    ensures |customers| - 1 !in ReturningPositions(customers[..|customers| - 1])
  {
  }

  /** Customers with more than one order. */
  function ReturningCustomers(customers: seq<Customer>): (r: nat)
    ensures r == |ReturningPositions(customers)|
    ensures r <= |customers|
    ensures r == |customers| <==> forall c :: c in customers ==> c.orders > 1
  {
    if customers == [] then 0
    else
      var init, c := customers[..|customers| - 1], customers[|customers| - 1];
      assert customers == init + [c];
      ReturningPositionsStep(customers);
      ReturningCustomers(init) + (if c.orders > 1 then 1 else 0)
  }

  /** The five cards, computed from the filtered orders, the products table, the joined rows and the customers. */
  function Snapshot(filtered: seq<Order>, products: seq<Product>, merged: seq<MergedRow>, customers: seq<Customer>): (k: KpiSnapshot)
    ensures k.totalOrders == |OrderIds(filtered)|
    ensures k.totalOrders <= |filtered| && (k.totalOrders == 0 <==> filtered == [])
    ensures DistinctIds(filtered) ==> k.totalOrders == |filtered|
    ensures k.newCustomers == |customers|
    ensures k.returningCustomers == ReturningCustomers(customers)
    ensures k.returningCustomers <= k.newCustomers
    ensures filtered != [] ==> k.totalRevenue == SumAmount(filtered)
    ensures filtered == [] ==> k.totalRevenue == SumProductRevenue(products)
    ensures k.totalUnits == SumUnits(merged)
  {
    TotalOrdersBounds(filtered);
    KpiSnapshot(TotalRevenue(filtered, products), TotalOrders(filtered), SumUnits(merged),
                NewCustomers(customers), ReturningCustomers(customers))
  }
}
