# Premium AI eCommerce Dashboard: the data path, in Dafny

`dashboard.py` is a single-page Streamlit dashboard. Around its widgets and charts sits a small data
pipeline. This project models that pipeline and proves properties of it:

- **Demo data** (`DummyData`). The loader's five products, its three customers and its synthetic orders:
  each product yields one order line of ten units for every ten units it has sold. `GenerateOrders`
  keeps the source's nested loops and is proved equal to the specification function `OrdersFor`.
- **Aggregation** (`Aggregation`), as pure functions:
  - the inclusive date filter on the orders;
  - the per-title rollup of units and revenue;
  - the left join of that rollup onto the products table, with zero-fill;
  - the optional category filter;
  - the descending sort by units sold, and the top-N cut.
- **KPI cards** (`Kpis`): total revenue (falling back to the products' recorded revenue when no order is
  left), distinct order count, units sold, new and returning customers.
- **Daily revenue series** (`DailyRevenue`): one point per day that has orders, in date order.
- **AI insights** (`Insights`): the `(success, text)` result of `gemini_insights`, with the
  not-configured guard, and the three-of-four fallback suggestions.
- **The join as written** (`PandasColumns`): a column-level model of lines 115-118, which fail on every
  run (see Findings).
- **The page** (`Dashboard`): `Run` chains the steps in the script's order. `WindowScenario` runs it
  on two concrete orders, with any products and customers. `DemoAugustScenario` checks the demo data
  step by step: the date filter, the order count and the customer counts.

Representation:
- A table is a `seq` of records. Row order is the data frame's row order.
- Money and quantities are `int`.
- A calendar day is the integer `yyyymmdd`. For real days its order is the calendar order, and it agrees
  with comparing ISO date strings.
- The rollup is a `map` from product title to `Totals`. Nothing downstream reads the rollup's row order.

Three points of the code decide what the model promises:
- The sort at line 125 is pandas' default `sort_values`, which is not stable. The model claims no order
  for rows with equal units sold.
- Line 134 counts every customer as new, whatever their order count. So does the model.
- The orders table has one flat row per order line (lines 44-51). So does the model.

## Model

| member | source | states |
|---|---|---|
| `DummyData.GenerateOrders` | dashboard.py:41-51 | the nested loops produce exactly `OrdersFor(products)`: per product in table order, orders `0 .. units_sold // 10 - 1` |
| `DummyData.LoadDummyData` | dashboard.py:32-62 | returns the five demo products and three demo customers; it generates 63 orders, whose ids are pairwise distinct |
| `DummyData.GeneratedLineItem` | dashboard.py:44-51 | every generated line has quantity 10 and amount = quantity * price, and carries the title, price and date of one of the table's products |
| `DummyData.GeneratedQuantity` | dashboard.py:43-47 | a product's generated quantity is ten times its order count, `max(0, units_sold // 10)`; for non-negative `units_sold` it is at most `units_sold` and more than `units_sold - 10` |
| `DummyData.BatchQuantity` | dashboard.py:43-47 | n generated lines of a product carry 10 * n units |
| `DummyData.MakeOrder` | dashboard.py:44-51 | the i-th order of a product has id `O{id}-{i}`, quantity 10, the product's price, amount quantity * price, and the product's title and date |
| `DummyData.OrdersFor` | dashboard.py:42-51 | the number of generated orders is the sum over products of `max(0, units_sold // 10)` |
| `DummyData.DummyOrderCount` | dashboard.py:33-43 | the demo products yield 12 + 20 + 15 + 9 + 7 = 63 orders |
| `DummyData.OrdersForOrigin` | dashboard.py:42-51 | each generated order is the i-th order of some product of the table, with i below that product's count |
| `DummyData.OrderIdsDistinct` | dashboard.py:45 | when product ids are pairwise distinct, the generated ids `O{id}-{i}` are pairwise distinct |
| `Format.NatToString` | dashboard.py:45 | the f-string rendering of a natural number is a non-empty string of decimal digits |
| `Format.IntToString` | dashboard.py:45 | the rendering of an int starts with a minus sign exactly when the int is negative |
| `Format.NatToStringInjective` | dashboard.py:45 | different naturals render differently |
| `Format.IntToStringInjective` | dashboard.py:45 | different ints render differently |
| `Format.OrderId` | dashboard.py:45 | the id is the letter O, the rendered product id, a minus sign and the rendered position, in that order |
| `Format.OrderIdInjective` | dashboard.py:45 | `O{a}-{i}` equals `O{b}-{j}` only when a = b and i = j |
| `Aggregation.FilterByDate` | dashboard.py:110 | an order is kept exactly when it is among the input and its day lies in `[start, end]`, both ends included |
| `Aggregation.FilterByDateConcat` | dashboard.py:110 | filtering works row by row: the filter of a concatenation is the concatenation of the filters, so kept orders stay in their original order |
| `Aggregation.FilterByDateKeepsAll` | dashboard.py:110 | orders that all lie in the window pass unchanged |
| `Aggregation.FilterByDateIdempotent` | dashboard.py:110 | filtering twice with the same window gives the result of filtering once |
| `Aggregation.Rollup` | dashboard.py:112 | one entry per distinct title among the orders; each holds the sum of that title's quantities and the sum of its amounts; titles without orders have zero sums |
| `Aggregation.JoinRow` | dashboard.py:115-117 | a joined row keeps its product; it carries the rollup's units and revenue for its title, and zero for both when the title has no entry |
| `Aggregation.LeftJoin` | dashboard.py:115-118 | the join has one row per product, in table order, carrying that product unchanged |
| `Aggregation.JoinAgainstOrders` | dashboard.py:112-118 | joined with the rollup of some orders, each product row's `units_sold` and `revenue_from_orders` are its title's quantity and amount sums, and zero when the title has no orders |
| `Aggregation.KeepCategories` | dashboard.py:123 | a row is kept exactly when it is among the input and its category is in the chosen list |
| `Aggregation.FilterByCategory` | dashboard.py:122-123 | an empty category list leaves the rows unchanged; a non-empty one keeps exactly the rows whose category is in it |
| `Aggregation.KeepCategoriesConcat` | dashboard.py:123 | the category filter works row by row, so the kept rows stay in their relative order |
| `Aggregation.InsertByUnits` | dashboard.py:125 | inserting a row into a table sorted by descending units keeps it sorted and adds exactly that row |
| `Aggregation.SortByUnits` | dashboard.py:125 | the result is sorted by descending `units_sold` and is a permutation of the input |
| `Aggregation.TopN` | dashboard.py:126 | the first min(n, number of rows) rows, in order |
| `Aggregation.TopOfSortedDominates` | dashboard.py:125-126 | the top N has min(N, number of rows) rows taken from the input, and no left-out row sold more units than a kept one |
| `Aggregation.PrefixDominates` | dashboard.py:126 | a prefix of a sorted permutation is a sub-multiset of the rows and outsells every row left out |
| `Aggregation.SumUnitsConcat` | dashboard.py:133 | total units of a concatenation is the sum of the parts' totals |
| `Aggregation.SumUnitsPermutation` | dashboard.py:125-133 | reordering rows does not change total units, so the units card does not depend on the sort |
| `Kpis.TotalOrdersBounds` | dashboard.py:132 | the order count is at most the number of lines, zero exactly when no order is left, and equal to the number of lines when ids do not repeat |
| `Kpis.TotalRevenue` | dashboard.py:131 | the filtered orders' amount sum when any order is left, otherwise the products' recorded revenue |
| `Kpis.TotalOrders` | dashboard.py:132 | the number of distinct order ids among the filtered orders (zero for none) |
| `Kpis.NewCustomers` | dashboard.py:134 | the number of customers |
| `Kpis.ReturningCustomers` | dashboard.py:135 | the number of positions in the customers table whose orders exceed one; hence at most the number of customers, and equal to it exactly when every customer has more than one order |
| `Kpis.Snapshot` | dashboard.py:131-135 | revenue is the filtered amount sum, or the products' recorded revenue when no order is left; orders is the number of distinct order ids, at most the number of lines, zero exactly when none is left, and the line count when ids are distinct; units is the sum over the shown rows; new is the customer count; returning is the count with more than one order, at most new |
| `DailyRevenue.RevenueOn` | dashboard.py:179 | a day without a point has value zero |
| `DailyRevenue.AddToDay` | dashboard.py:179 | adding an amount to a day keeps the series in strictly increasing date order |
| `DailyRevenue.AddToDayDays` | dashboard.py:179 | adding to day d adds d to the days covered and removes none |
| `DailyRevenue.AddToDayRevenue` | dashboard.py:179 | adding to day d raises day d's value by the amount and leaves every other day's value as it was |
| `DailyRevenue.AddToDayTotal` | dashboard.py:179 | adding to a day raises the series total by the amount |
| `DailyRevenue.DailySeries` | dashboard.py:179 | days strictly increase; the days covered are exactly the order days (no gap-filling); each value is that day's amount sum; the values sum to the orders' amount sum |
| `DailyRevenue.AscendingPointPerDay` | dashboard.py:179 | a strictly ascending series has exactly one point per day it covers |
| `DailyRevenue.DailySeriesLength` | dashboard.py:179 | the series has one point per distinct order day |
| `Insights.GeminiInsights` | dashboard.py:199-216 | without the library or a non-empty key the result is exactly `(False, "Gemini not configured — showing suggestions.")`; success holds exactly when configured and the service returned a completion, and then the text is that completion; when configured and the call raised, the result is `(False, "Gemini error: " + message)` |
| `Insights.SampleSuggestions` | dashboard.py:226-233 | a sample of three distinct positions yields three pairwise distinct suggestions from the canned four |
| `PandasColumns.Suffixed` | dashboard.py:115 | suffixing keeps the number of columns |
| `PandasColumns.MergedColumns` | dashboard.py:115 | the left columns then the right ones; a name both sides share gets `_x` on the left and `_y` on the right, every other name is kept |
| `PandasColumns.JoinStepAsWritten` | dashboard.py:115-118 | the join step fails exactly when the merged columns lack `units_sold` or `revenue`, and the error names a missing column |
| `PandasColumns.SuffixedLacks` | dashboard.py:115 | a name both sides share does not survive the merge's suffixing |
| `PandasColumns.JoinStepAsWrittenFails` | dashboard.py:115-116 | whenever both tables have `units_sold`, line 116 raises KeyError `units_sold` |
| `PandasColumns.DashboardJoinFails` | dashboard.py:112-116 | with the products table's and the rollup's columns, the join step always raises KeyError `units_sold` |
| `Dashboard.Run` | dashboard.py:110-179 | the filtered orders are the date filter of the orders; the shown rows are a sorted permutation of the joined, category-filtered rows; the top products are their first min(top_n, rows) rows; the five cards are the KPI snapshot of the filtered orders, the products, the shown rows and the customers (order count, revenue with its products fallback, new and returning customers); units is the sum over the unsorted rows; the daily values sum to total revenue when any order is left; with the sidebar's settings the top products are at most 20, and at least 3 when there are 3 rows |
| `Dashboard.WindowScenario` | dashboard.py:110-132 | orders A (2025-08-01, 10 at 5) and B (2025-08-15, 4 at 25) with window 2025-08-01..10: rollup is only A with 10 units and 50 revenue; revenue 50; one order |
| `Dashboard.DemoOrdersInAugust` | dashboard.py:33-51 | every demo order falls in August 2025 |
| `Dashboard.DemoCustomers` | dashboard.py:52-56 | the demo customers count three new and two returning |
| `Dashboard.DemoOrdersPass` | dashboard.py:43-51 | the window 2025-08-01..31 keeps every demo order |
| `Dashboard.DemoOrdersDistinct` | dashboard.py:45 | the demo orders count as 63 distinct orders |
| `Dashboard.DemoAugustScenario` | dashboard.py:32-135 | on the demo data, the window 2025-08-01..31 keeps all orders, the order count is 63, with three new and two returning customers |

## Left out

- The Streamlit page is not modelled: page config, sidebar widgets, metric cards, buttons, spinner, expander and `st.stop`. They are presentation and control flow. The two sidebar guarantees (start date not after end date, top N in 3..20) are `Dashboard.ValidSettings`. The computation needs neither: a window with start after end keeps no order.
- Plotly charts, the products table display and the CSV export are not modelled. They are library rendering and serialisation.
- The call to the text-generation service is not modelled: `genai.configure`, the model name, the timeout and the attribute probing of the response (lines 203-213). It is a network call into a foreign API. `Insights.GeminiInsights` takes its outcome as a parameter, either a completion or an exception message.
- Insights.SampleSuggestions: the randomness of `random.sample` is not modelled. The three random positions are a parameter.
- Environment variables, the demo password check and `datetime.utcnow` are not modelled. They are configuration and the clock; the date window arrives in `Settings`.
- The Shopify branch (lines 102-107) is not modelled separately, because it calls the same demo loader.
- The `else` branch at lines 119-120 (a products table without a `title` column) is not modelled. Every `Product` record has a title, so that branch cannot occur.
- `pd.to_datetime` parsing and time of day are not modelled. A day is an integer, and the filter compares days.
- Floating point, NaN and `:,.2f` currency formatting are not modelled. `fillna(0)` is the explicit zero of `Aggregation.JoinRow`, and all money is integral.
- The prompt string (lines 196-197) is not modelled. It depends on Python's repr of a list of dicts.
- The rollup's row order (groupby sorts its keys) is not modelled: the rollup is a map, and only lookups by title read it.
- Aggregation.SortByUnits: the result fixes one order for rows with equal units. pandas' unstable sort may order them differently, so no contract or lemma mentions that order.
- DailyRevenue.DailySeries: the source builds the series only when orders remain (line 176). The model's series for no orders is empty.

## Findings

| source | as written | input that shows it | evidently intended | confidence | as-written member | corrected member |
|---|---|---|---|---|---|---|
| dashboard.py:115-118 | both tables have `units_sold` and `revenue` columns, so `pd.merge` renames them `units_sold_x`/`units_sold_y` and `revenue_x`/`revenue_y`; line 116 then reads `merged["units_sold"]` and raises KeyError | every run: products columns `id, title, category, price, units_sold, revenue, date`; rollup columns `product, units_sold, revenue` | each product row carries the order-derived units as `units_sold` and the order-derived revenue as `revenue_from_orders`, both zero-filled, as lines 118, 159 and 166 read them | high (not executed) | `PandasColumns.DashboardJoinFails` | `Aggregation.JoinAgainstOrders` |
