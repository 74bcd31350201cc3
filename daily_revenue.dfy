/** The "Orders Trend" series: revenue per calendar day of the filtered orders. */
module DailyRevenue {
  import opened Records
  import opened Aggregation

  /** One point of the series. */
  datatype DayRevenue = DayRevenue(date: Date, revenue: int)

  /** Days strictly increase along the series, so each day appears at most once. */
  predicate Ascending(series: seq<DayRevenue>)
  {
    forall i, j :: 0 <= i < j < |series| ==> series[i].date < series[j].date
  }

  /** The days the series has a point for. */
  function Days(series: seq<DayRevenue>): set<Date>
  {
    set e | e in series :: e.date
  }

  /** The days on which some order was placed. */
  function OrderDays(orders: seq<Order>): set<Date>
  {
    set o | o in orders :: o.date
  }

  /** The value of the series on day d (its first point for d), zero when it has none. */
  function RevenueOn(series: seq<DayRevenue>, d: Date): (r: int)
    ensures d !in Days(series) ==> r == 0
  {
    if series == [] then 0
    else if series[0].date == d then series[0].revenue
    else
      assert Days(series[1..]) <= Days(series) by {
        forall e | e in series[1..] ensures e in series { }
      }
      RevenueOn(series[1..], d)
  }

  /** The sum of the series' values. */
  function SeriesTotal(series: seq<DayRevenue>): int
  {
    if series == [] then 0 else series[0].revenue + SeriesTotal(series[1..])
  }

  /** Sum of `amount` over the orders placed on day d. */
  function AmountOn(orders: seq<Order>, d: Date): int
  {
    if orders == [] then 0
    else
      var o := orders[|orders| - 1];
      AmountOn(orders[..|orders| - 1], d) + (if o.date == d then o.amount else 0)
  }

  /** Adds `amount` to day d of an ascending series, creating the point for d at its place when missing. */
  function AddToDay(series: seq<DayRevenue>, d: Date, amount: int): (r: seq<DayRevenue>)
    requires Ascending(series)
    ensures Ascending(r)
    ensures r != [] && (r[0].date == d || (series != [] && r[0].date == series[0].date))
    decreases |series|
  {
    if series == [] then [DayRevenue(d, amount)]
    else if series[0].date == d then [DayRevenue(d, series[0].revenue + amount)] + series[1..]
    else if d < series[0].date then [DayRevenue(d, amount)] + series
    else [series[0]] + AddToDay(series[1..], d, amount)
  }

  /** Adding to a day leaves the other days in place and adds d. */
  lemma {:induction false} AddToDayDays(series: seq<DayRevenue>, d: Date, amount: int)
    requires Ascending(series)
    ensures Days(AddToDay(series, d, amount)) == Days(series) + {d}
    decreases |series|
  {
    if series != [] {
      var first, rest := series[0], series[1..];
      assert series == [first] + rest;
      assert Days(series) == {first.date} + Days(rest);
      if first.date == d {
        assert Days([DayRevenue(d, first.revenue + amount)] + rest) == {d} + Days(rest);
      } else if d < first.date {
        assert Days([DayRevenue(d, amount)] + series) == {d} + Days(series);
      } else {
        var rest' := AddToDay(rest, d, amount);
        AddToDayDays(rest, d, amount);
        assert Days([first] + rest') == {first.date} + Days(rest');
      }
    }
  }

  /** Adding to day d changes the value of day d by `amount` and of no other day. */
  lemma {:induction false} AddToDayRevenue(series: seq<DayRevenue>, d: Date, amount: int, e: Date)
    requires Ascending(series)
    ensures RevenueOn(AddToDay(series, d, amount), e) == RevenueOn(series, e) + (if e == d then amount else 0)
    decreases |series|
  {
    if series != [] {
      var first := series[0];
      if first.date == d {
      } else if d < first.date {
        if e == d {
          assert d !in Days(series) by {
            forall x | x in series ensures x.date != d {
              var i :| 0 <= i < |series| && series[i] == x;
            }
          }
        }
      } else {
        AddToDayRevenue(series[1..], d, amount, e);
      }
    }
  }

  /** Adding to a day adds `amount` to the series total. */
  lemma {:induction false} AddToDayTotal(series: seq<DayRevenue>, d: Date, amount: int)
    requires Ascending(series)
    ensures SeriesTotal(AddToDay(series, d, amount)) == SeriesTotal(series) + amount
    decreases |series|
  {
    if series != [] && d > series[0].date {
      var rest := series[1..];
      AddToDayTotal(rest, d, amount);
      assert ([series[0]] + AddToDay(rest, d, amount))[1..] == AddToDay(rest, d, amount);
    } else if series != [] && d == series[0].date {
      assert ([DayRevenue(d, series[0].revenue + amount)] + series[1..])[1..] == series[1..];
    }
  }

  /**
   * The per-day grouping of line 179: one point per day with orders, in
   * date order, each holding that day's amount sum; days without orders
   * get no point.
   */
  function DailySeries(orders: seq<Order>): (r: seq<DayRevenue>)
    ensures Ascending(r)
    ensures Days(r) == OrderDays(orders)
    ensures forall d :: RevenueOn(r, d) == AmountOn(orders, d)
    ensures SeriesTotal(r) == SumAmount(orders)
  {
    if orders == [] then []
    else
      var init, o := orders[..|orders| - 1], orders[|orders| - 1];
      assert orders == init + [o];
      assert OrderDays(orders) == OrderDays(init) + {o.date};
      var series := DailySeries(init);
      AddToDayDays(series, o.date, o.amount);
      AddToDayTotal(series, o.date, o.amount);
      assert forall d :: RevenueOn(AddToDay(series, o.date, o.amount), d) == AmountOn(orders, d) by {
        forall d ensures RevenueOn(AddToDay(series, o.date, o.amount), d) == AmountOn(orders, d) {
          AddToDayRevenue(series, o.date, o.amount, d);
        }
      }
      AddToDay(series, o.date, o.amount)
  }

  /** An ascending series has exactly one point per day it covers. */
  lemma {:induction false} AscendingPointPerDay(series: seq<DayRevenue>)
    requires Ascending(series)
    ensures |series| == |Days(series)|
    decreases |series|
  {
    if series != [] {
      var first, rest := series[0], series[1..];
      assert series == [first] + rest;
      assert Days(series) == {first.date} + Days(rest);
      assert first.date !in Days(rest) by {
        forall e | e in rest ensures e.date != first.date {
          var i :| 0 <= i < |rest| && rest[i] == e;
          assert series[i + 1] == e;
        }
      }
      AscendingPointPerDay(rest);
    }
  }

  /** The series has exactly as many points as there are distinct order days. */
  lemma DailySeriesLength(orders: seq<Order>)
    ensures |DailySeries(orders)| == |OrderDays(orders)|
  {
    AscendingPointPerDay(DailySeries(orders));
  }
}
