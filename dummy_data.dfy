/**
 * The built-in demo data set: five products, one synthetic order line
 * per ten units a product has sold, and three customers.
 */
module DummyData {
  import opened Records
  import Format

  /** The products table of the demo data. */
  function DummyProducts(): seq<Product>
  {
    [ Product(101, "Smart Watch", "Wearables", 50, 120, 6000, 20250801),
      Product(102, "Wireless Earbuds", "Audio", 50, 200, 10000, 20250805),
      Product(103, "Bluetooth Speaker", "Audio", 30, 150, 4500, 20250810),
      Product(104, "Fitness Tracker", "Wearables", 30, 90, 2700, 20250820),
      Product(105, "Gaming Mouse", "Gaming", 50, 75, 3750, 20250825) ]
  }

  /** The customers table of the demo data. */
  function DummyCustomers(): seq<Customer>
  {
    [ Customer(1, "Ali", "ali@example.com", 5, 20250601),
      Customer(2, "Sara", "sara@example.com", 2, 20250710),
      Customer(3, "Ahmed", "ahmed@example.com", 1, 20250812) ]
  }

  /**
   * How many synthetic orders a product gets (line 43): its units sold,
   * floor-divided by 10, or none when that is negative. Python's floor
   * division agrees with Dafny's `/` for the divisor 10.
   */
  function OrderCount(p: Product): nat
  {
    if p.unitsSold / 10 > 0 then p.unitsSold / 10 else 0
  }

  /** The i-th synthetic order of product p: ten units at the list price, on the product's date. */
  function MakeOrder(p: Product, i: nat): (o: Order)
    ensures o.orderId == Format.OrderId(p.id, i)
    ensures o.quantity == 10 && o.price == p.price && o.amount == o.quantity * o.price
    ensures o.product == p.title && o.date == p.date
  {
    Order(Format.OrderId(p.id, i), p.title, 10, p.price, 10 * p.price, p.date)
  }

  /** The first n synthetic orders of product p, in the order the inner loop appends them. */
  function Batch(p: Product, n: nat): seq<Order>
  {
    seq(n, i requires 0 <= i < n => MakeOrder(p, i))
  }

  /** All synthetic orders of product p. */
  function OrdersOf(p: Product): seq<Order>
  {
    Batch(p, OrderCount(p))
  }

  /** The synthetic orders of a products table, product after product. */
  function OrdersFor(products: seq<Product>): (r: seq<Order>)
    ensures |r| == TotalOrderCount(products)
  {
    if products == [] then []
    else OrdersFor(products[..|products| - 1]) + OrdersOf(products[|products| - 1])
  }

  /** The nested loops of the generator: for each product, for each i, append one order. */
  method GenerateOrders(products: seq<Product>) returns (orders: seq<Order>)
    ensures orders == OrdersFor(products)
  {
    orders := [];
    for j := 0 to |products|
      invariant orders == OrdersFor(products[..j])
    {
      var p := products[j];
      ghost var before := orders;
      for i := 0 to OrderCount(p)
        invariant orders == before + Batch(p, i)
      {
        orders := orders + [Order(Format.OrderId(p.id, i), p.title, 10, p.price, 10 * p.price, p.date)];
        BatchStep(p, i);
      }
      OrdersForStep(products, j);
    }
    assert products[..|products|] == products;
  }

  /** One pass of the inner loop appends the next order of the batch. */
  lemma BatchStep(p: Product, i: nat)
    ensures Batch(p, i + 1) == Batch(p, i) + [Order(Format.OrderId(p.id, i), p.title, 10, p.price, 10 * p.price, p.date)]
  {
    assert Batch(p, i + 1)[i] == MakeOrder(p, i);
  }

  /** One pass of the outer loop appends the next product's orders. */
  lemma OrdersForStep(products: seq<Product>, j: nat)
    requires j < |products|
    ensures OrdersFor(products[..j + 1]) == OrdersFor(products[..j]) + OrdersOf(products[j])
  {
    assert products[..j + 1][..j] == products[..j];
  }

  /** The demo loader of lines 32-62: the three demo tables. */
  method LoadDummyData() returns (products: seq<Product>, orders: seq<Order>, customers: seq<Customer>)
    ensures products == DummyProducts() && customers == DummyCustomers()
    ensures orders == OrdersFor(products)
    ensures |orders| == 63
    ensures forall k1, k2 :: 0 <= k1 < k2 < |orders| ==> orders[k1].orderId != orders[k2].orderId
  {
    products := DummyProducts();
    orders := GenerateOrders(products);
    customers := DummyCustomers();
    DummyOrderCount();
    assert forall a :: 0 <= a < |products| ==> products[a].id == 101 + a;
    OrderIdsDistinct(products);
  }

  /**
   * Every generated order line is ten units of one of the table's
   * products, at that product's price and on its date, and its amount
   * is quantity times price.
   */
  lemma GeneratedLineItem(products: seq<Product>, k: nat)
    requires k < |OrdersFor(products)|
    ensures OrdersFor(products)[k].quantity == 10
    ensures OrdersFor(products)[k].amount == OrdersFor(products)[k].quantity * OrdersFor(products)[k].price
    ensures exists j :: 0 <= j < |products| && OrdersFor(products)[k].product == products[j].title &&
                        OrdersFor(products)[k].price == products[j].price && OrdersFor(products)[k].date == products[j].date
  {
    OrdersForOrigin(products, k);
  }

  /** The total quantity of orders. */
  function SumQuantity(orders: seq<Order>): int
  {
    if orders == [] then 0 else SumQuantity(orders[..|orders| - 1]) + orders[|orders| - 1].quantity
  }

  /**
   * A product's synthetic orders carry ten times its order count,
   * max(0, units_sold // 10), units; for a non-negative units_sold that
   * is at most units_sold and fewer than ten short of it.
   */
  lemma {:induction false} GeneratedQuantity(p: Product)
    ensures SumQuantity(OrdersOf(p)) == 10 * OrderCount(p)
    ensures 0 <= p.unitsSold ==> p.unitsSold - 10 < SumQuantity(OrdersOf(p)) <= p.unitsSold
  {
    BatchQuantity(p, OrderCount(p));
  }

  lemma {:induction false} BatchQuantity(p: Product, n: nat)
    ensures SumQuantity(Batch(p, n)) == 10 * n
  {
    if n > 0 {
      assert Batch(p, n)[..n - 1] == Batch(p, n - 1);
      BatchQuantity(p, n - 1);
    }
  }

  /** The number of synthetic orders is the sum of the per-product counts. */
  function TotalOrderCount(products: seq<Product>): nat
  {
    if products == [] then 0
    else TotalOrderCount(products[..|products| - 1]) + OrderCount(products[|products| - 1])
  }

  /** The demo products yield 12 + 20 + 15 + 9 + 7 orders. */
  lemma DummyOrderCount()
    ensures |OrdersFor(DummyProducts())| == 63
  {
    var ps := DummyProducts();
    assert ps[..1][..0] == [] && ps[..2][..1] == ps[..1];
    assert ps[..3][..2] == ps[..2] && ps[..4][..3] == ps[..3] && ps[..5][..4] == ps[..4];
    assert ps[..5] == ps;
    assert TotalOrderCount(ps[..1]) == 12;
    assert TotalOrderCount(ps[..2]) == 32;
    assert TotalOrderCount(ps[..3]) == 47;
    assert TotalOrderCount(ps[..4]) == 56;
  }

  /** Every synthetic order comes from some product of the table and some position below its count. */
  lemma {:induction false} OrdersForOrigin(products: seq<Product>, k: nat)
    requires k < |OrdersFor(products)|
    ensures exists j, i :: 0 <= j < |products| && 0 <= i < OrderCount(products[j]) &&
                           OrdersFor(products)[k] == MakeOrder(products[j], i)
    decreases |products|
  {
    var init, last := products[..|products| - 1], products[|products| - 1];
    if k < |OrdersFor(init)| {
      OrdersForOrigin(init, k);
      var j, i :| 0 <= j < |init| && 0 <= i < OrderCount(init[j]) && OrdersFor(init)[k] == MakeOrder(init[j], i);
      assert products[j] == init[j];
    } else {
      var i := k - |OrdersFor(init)|;
      assert OrdersFor(products)[k] == MakeOrder(products[|products| - 1], i);
    }
  }

  /** An order of an earlier product and an order of a product with another id never share an order id. */
  lemma OrderIdsApart(init: seq<Product>, last: Product, k: nat, i: nat)
    requires forall a :: 0 <= a < |init| ==> init[a].id != last.id
    requires k < |OrdersFor(init)|
    ensures OrdersFor(init)[k].orderId != MakeOrder(last, i).orderId
  {
    OrdersForOrigin(init, k);
    var j, i' :| 0 <= j < |init| && 0 <= i' < OrderCount(init[j]) && OrdersFor(init)[k] == MakeOrder(init[j], i');
    if OrdersFor(init)[k].orderId == MakeOrder(last, i).orderId {
      Format.OrderIdInjective(init[j].id, i', last.id, i);
    }
  }

  /** When product ids are distinct, the generated order ids are distinct. */
  lemma {:induction false} OrderIdsDistinct(products: seq<Product>)
    requires forall a, b :: 0 <= a < b < |products| ==> products[a].id != products[b].id
    ensures forall k1, k2 :: 0 <= k1 < k2 < |OrdersFor(products)| ==>
              OrdersFor(products)[k1].orderId != OrdersFor(products)[k2].orderId
    decreases |products|
  {
    if products != [] {
      var init, last := products[..|products| - 1], products[|products| - 1];
      var front := OrdersFor(init);
      var all := OrdersFor(products);
      assert all == front + OrdersOf(last);
      OrderIdsDistinct(init);
      assert forall a :: 0 <= a < |init| ==> init[a].id != last.id by {
        forall a | 0 <= a < |init| ensures init[a].id != last.id {
          assert init[a] == products[a];
        }
      }
      forall k1, k2 | 0 <= k1 < k2 < |all| ensures all[k1].orderId != all[k2].orderId {
        if k2 < |front| {
          assert all[k1] == front[k1] && all[k2] == front[k2];
        } else if k1 >= |front| {
          assert all[k1] == MakeOrder(last, k1 - |front|);
          assert all[k2] == MakeOrder(last, k2 - |front|);
          if all[k1].orderId == all[k2].orderId {
            Format.OrderIdInjective(last.id, k1 - |front|, last.id, k2 - |front|);
          }
        } else {
          assert all[k1] == front[k1];
          assert all[k2] == MakeOrder(last, k2 - |front|);
          OrderIdsApart(init, last, k1, k2 - |front|);
        }
      }
    }
  }
}
