/**
 * The product aggregation of the dashboard: the date filter on the
 * orders, the per-product rollup of the remaining orders, the left join
 * of that rollup onto the products table, the category filter, the sort
 * by units sold and the top-N cut.
 */
module Aggregation {
  import opened Records

  // ---------------------------------------------------------------
  // Date filter
  // ---------------------------------------------------------------

  /** The order's calendar day lies in [start, end], both ends included. */
  predicate InDateRange(o: Order, start: Date, end: Date)
  {
    start <= o.date <= end
  }

  /** The orders whose day lies in [start, end], in their original order. */
  function FilterByDate(orders: seq<Order>, start: Date, end: Date): (r: seq<Order>)
    ensures forall o :: o in r <==> o in orders && InDateRange(o, start, end)
    ensures |r| <= |orders|
  {
    if orders == [] then []
    else
      var o := orders[|orders| - 1];
      var kept := FilterByDate(orders[..|orders| - 1], start, end);
      if InDateRange(o, start, end) then kept + [o] else kept
  }

  /** The filter works row by row: filtering a concatenation concatenates the filtered parts, so order is kept. */
  lemma {:induction false} FilterByDateConcat(a: seq<Order>, b: seq<Order>, start: Date, end: Date)
    ensures FilterByDate(a + b, start, end) == FilterByDate(a, start, end) + FilterByDate(b, start, end)
    decreases |b|
  {
    if b == [] {
      assert a + b == a;
    } else {
      assert (a + b)[..|a + b| - 1] == a + b[..|b| - 1];
      FilterByDateConcat(a, b[..|b| - 1], start, end);
    }
  }

  /** Orders that all lie in the range pass the filter unchanged. */
  lemma {:induction false} FilterByDateKeepsAll(orders: seq<Order>, start: Date, end: Date)
    requires forall o :: o in orders ==> InDateRange(o, start, end)
    ensures FilterByDate(orders, start, end) == orders
    decreases |orders|
  {
    if orders != [] {
      var init := orders[..|orders| - 1];
      assert forall o :: o in init ==> o in orders;
      FilterByDateKeepsAll(init, start, end);
    }
  }

  /** Filtering twice with the same window is filtering once. */
  lemma FilterByDateIdempotent(orders: seq<Order>, start: Date, end: Date)
    ensures FilterByDate(FilterByDate(orders, start, end), start, end) == FilterByDate(orders, start, end)
  {
    FilterByDateKeepsAll(FilterByDate(orders, start, end), start, end);
  }

  // ---------------------------------------------------------------
  // Per-product rollup
  // ---------------------------------------------------------------

  /** Units and revenue of one product, summed over its order lines. */
  datatype Totals = Totals(unitsSold: int, revenue: int)

  /** The product titles that occur among the orders. */
  function Titles(orders: seq<Order>): set<string>
  {
    set o | o in orders :: o.product
  }

  /** Sum of `quantity` over the orders of product `title`. */
  function QuantityOf(orders: seq<Order>, title: string): int
  {
    if orders == [] then 0
    else
      var o := orders[|orders| - 1];
      QuantityOf(orders[..|orders| - 1], title) + (if o.product == title then o.quantity else 0)
  }

  /** Sum of `amount` over the orders of product `title`. */
  function AmountOf(orders: seq<Order>, title: string): int
  {
    if orders == [] then 0
    else
      var o := orders[|orders| - 1];
      AmountOf(orders[..|orders| - 1], title) + (if o.product == title then o.amount else 0)
  }

  /** Sum of `amount` over all orders. */
  function SumAmount(orders: seq<Order>): int
  {
    if orders == [] then 0 else SumAmount(orders[..|orders| - 1]) + orders[|orders| - 1].amount
  }

  /**
   * The per-title rollup of dashboard.py line 112: one entry per product
   * title among the orders, holding the sums of that title's quantities
   * and amounts.
   */
  function Rollup(orders: seq<Order>): (m: map<string, Totals>)
    ensures m.Keys == Titles(orders)
    ensures forall t :: t in m ==> m[t] == Totals(QuantityOf(orders, t), AmountOf(orders, t))
    ensures forall t :: t !in m ==> QuantityOf(orders, t) == 0 && AmountOf(orders, t) == 0
  {
    if orders == [] then map[]
    else
      var init, o := orders[..|orders| - 1], orders[|orders| - 1];
      assert Titles(orders) == Titles(init) + {o.product} by {
        assert orders == init + [o];
      }
      var m := Rollup(init);
      var t := if o.product in m then m[o.product] else Totals(0, 0);
      m[o.product := Totals(t.unitsSold + o.quantity, t.revenue + o.amount)]
  }

  // ---------------------------------------------------------------
  // Left join onto the products table
  // ---------------------------------------------------------------

  /**
   * A product row after the join: the product's own columns, with
   * `units_sold` and `revenue_from_orders` taken from the rollup of the
   * filtered orders and zero when the product has no orders there.
   */
  datatype MergedRow = MergedRow(product: Product, unitsSold: int, revenueFromOrders: int)

  /** One product row, joined with its rollup entry by title and zero-filled when there is none (lines 116-117). */
  function JoinRow(p: Product, rollup: map<string, Totals>): (r: MergedRow)
    ensures r.product == p
    ensures p.title in rollup ==> r.unitsSold == rollup[p.title].unitsSold && r.revenueFromOrders == rollup[p.title].revenue
    ensures p.title !in rollup ==> r.unitsSold == 0 && r.revenueFromOrders == 0
  {
    if p.title in rollup then MergedRow(p, rollup[p.title].unitsSold, rollup[p.title].revenue)
    else MergedRow(p, 0, 0)
  }

  /** The left merge of line 115: every product row exactly once, in table order. */
  function LeftJoin(products: seq<Product>, rollup: map<string, Totals>): (r: seq<MergedRow>)
    ensures |r| == |products|
    ensures forall i :: 0 <= i < |r| ==> r[i].product == products[i]
  {
    seq(|products|, i requires 0 <= i < |products| => JoinRow(products[i], rollup))
  }

  /**
   * Joined with the rollup of some orders, every product row carries
   * exactly its title's order quantities and amounts; a product without
   * orders gets zero for both.
   */
  lemma JoinAgainstOrders(products: seq<Product>, orders: seq<Order>, i: nat)
    requires i < |products|
    ensures LeftJoin(products, Rollup(orders))[i].unitsSold == QuantityOf(orders, products[i].title)
    ensures LeftJoin(products, Rollup(orders))[i].revenueFromOrders == AmountOf(orders, products[i].title)
    ensures products[i].title !in Titles(orders) ==>
              LeftJoin(products, Rollup(orders))[i].unitsSold == 0 &&
              LeftJoin(products, Rollup(orders))[i].revenueFromOrders == 0
  {
  }

  // ---------------------------------------------------------------
  // Category filter
  // ---------------------------------------------------------------

  /** The rows whose category is one of `categories`, in their original order. */
  function KeepCategories(rows: seq<MergedRow>, categories: seq<string>): (r: seq<MergedRow>)
    ensures forall x :: x in r <==> x in rows && x.product.category in categories
    ensures |r| <= |rows|
  {
    if rows == [] then []
    else
      var x := rows[|rows| - 1];
      var kept := KeepCategories(rows[..|rows| - 1], categories);
      if x.product.category in categories then kept + [x] else kept
  }

  /** The optional category filter of lines 122-123: an empty choice keeps every row. */
  function FilterByCategory(rows: seq<MergedRow>, categories: seq<string>): (r: seq<MergedRow>)
    ensures categories == [] ==> r == rows
    ensures categories != [] ==> forall x :: x in r <==> x in rows && x.product.category in categories
  {
    if categories == [] then rows else KeepCategories(rows, categories)
  }

  /** The category filter works row by row, so the kept rows stay in their relative order. */
  lemma {:induction false} KeepCategoriesConcat(a: seq<MergedRow>, b: seq<MergedRow>, categories: seq<string>)
    ensures KeepCategories(a + b, categories) == KeepCategories(a, categories) + KeepCategories(b, categories)
    decreases |b|
  {
    if b == [] {
      assert a + b == a;
    } else {
      assert (a + b)[..|a + b| - 1] == a + b[..|b| - 1];
      KeepCategoriesConcat(a, b[..|b| - 1], categories);
    }
  }

  // ---------------------------------------------------------------
  // Sort by units sold, descending, and the top N
  // ---------------------------------------------------------------

  /** `units_sold` does not increase along the rows. */
  predicate SortedByUnits(rows: seq<MergedRow>)
  {
    forall i, j :: 0 <= i < j < |rows| ==> rows[i].unitsSold >= rows[j].unitsSold
  }

  /** Puts `x` into a sorted table, keeping it sorted. */
  function InsertByUnits(x: MergedRow, rows: seq<MergedRow>): (r: seq<MergedRow>)
    requires SortedByUnits(rows)
    ensures SortedByUnits(r)
    ensures multiset(r) == multiset(rows) + multiset{x}
    ensures |r| == |rows| + 1 && (r[0] == x || (rows != [] && r[0] == rows[0]))
    decreases |rows|
  {
    if rows == [] || rows[0].unitsSold <= x.unitsSold then [x] + rows
    else
      var rest := InsertByUnits(x, rows[1..]);
      assert rows == [rows[0]] + rows[1..];
      assert rest[0].unitsSold <= rows[0].unitsSold;
      [rows[0]] + rest
  }

  /**
   * The sort of line 125: the rows ordered by units sold, largest first. Only sortedness and the permutation are
   * promised; the order among rows with equal units is not.
   */
  function SortByUnits(rows: seq<MergedRow>): (r: seq<MergedRow>)
    ensures SortedByUnits(r)
    ensures multiset(r) == multiset(rows)
  {
    if rows == [] then []
    else
      assert rows == [rows[0]] + rows[1..];
      InsertByUnits(rows[0], SortByUnits(rows[1..]))
  }

  /** The cut of line 126: the first min(n, |rows|) rows. */
  function TopN(rows: seq<MergedRow>, n: nat): (r: seq<MergedRow>)
    ensures |r| == (if n < |rows| then n else |rows|)
    ensures r == rows[..|r|]
  {
    rows[..if n < |rows| then n else |rows|]
  }

  /**
   * The top N of the sorted table are min(n, |rows|) of the input rows,
   * and none of the rows left out has sold more units than a row kept.
   */
  lemma TopOfSortedDominates(rows: seq<MergedRow>, n: nat)
    ensures |TopN(SortByUnits(rows), n)| == if n < |rows| then n else |rows|
    ensures multiset(TopN(SortByUnits(rows), n)) <= multiset(rows)
    ensures forall x, y :: x in TopN(SortByUnits(rows), n) && y in multiset(rows) - multiset(TopN(SortByUnits(rows), n)) ==>
              x.unitsSold >= y.unitsSold
  {
    var s := SortByUnits(rows);
    assert |s| == |rows| by {
      assert |multiset(s)| == |multiset(rows)|;
    }
    PrefixDominates(s, rows, TopN(s, n));
  }

  /** A prefix of a sorted permutation of `rows` outsells the rest of `rows`. */
  lemma PrefixDominates(s: seq<MergedRow>, rows: seq<MergedRow>, top: seq<MergedRow>)
    requires SortedByUnits(s) && multiset(s) == multiset(rows)
    requires top <= s
    ensures multiset(top) <= multiset(rows)
    ensures forall x, y :: x in top && y in multiset(rows) - multiset(top) ==> x.unitsSold >= y.unitsSold
  {
    var rest := s[|top|..];
    assert s == top + rest;
    assert multiset(rows) == multiset(top) + multiset(rest);
    forall x, y | x in top && y in multiset(rows) - multiset(top) ensures x.unitsSold >= y.unitsSold {
      assert y in multiset(rest);
      var i :| 0 <= i < |top| && top[i] == x;
      var j :| 0 <= j < |rest| && rest[j] == y;
      assert s[i] == x && s[|top| + j] == y;
    }
  }

  /** Sum of `units_sold` over a table. */
  function SumUnits(rows: seq<MergedRow>): int
  {
    if rows == [] then 0 else SumUnits(rows[..|rows| - 1]) + rows[|rows| - 1].unitsSold
  }

  lemma {:induction false} SumUnitsConcat(a: seq<MergedRow>, b: seq<MergedRow>)
    ensures SumUnits(a + b) == SumUnits(a) + SumUnits(b)
    decreases |b|
  {
    if b == [] {
      assert a + b == a;
    } else {
      assert (a + b)[..|a + b| - 1] == a + b[..|b| - 1];
      SumUnitsConcat(a, b[..|b| - 1]);
    }
  }

  /** Reordering a table does not change its total units. */
  lemma {:induction false} SumUnitsPermutation(a: seq<MergedRow>, b: seq<MergedRow>)
    requires multiset(a) == multiset(b)
    ensures SumUnits(a) == SumUnits(b)
    decreases |a|
  {
    if a != [] {
      var init, x := a[..|a| - 1], a[|a| - 1];
      assert a == init + [x];
      assert x in multiset(b);
      var k :| 0 <= k < |b| && b[k] == x;
      var b' := b[..k] + b[k + 1..];
      assert b == b[..k] + [x] + b[k + 1..];
      assert multiset(b) == multiset(b[..k]) + multiset{x} + multiset(b[k + 1..]);
      assert multiset(b') == multiset(b[..k]) + multiset(b[k + 1..]);
      assert multiset(a) == multiset(init) + multiset{x};
      assert multiset(b) == multiset(b') + multiset{x};
      assert multiset(init) == multiset(a) - multiset{x};
      assert multiset(b') == multiset(b) - multiset{x};
      SumUnitsPermutation(init, b');
      SumUnitsConcat(b[..k] + [x], b[k + 1..]);
      SumUnitsConcat(b[..k], [x]);
      SumUnitsConcat(b[..k], b[k + 1..]);
    }
  }
}
