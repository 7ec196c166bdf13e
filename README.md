# Monthly revenue rollup of the e-commerce admin dashboard

This project models `getGraphRevenue`, the action behind the dashboard's
revenue graph. It takes a store's paid orders, each with its order items and
each item's product, and computes a twelve-bar report, one bar per calendar
month.

In `actions/get-graph-revenue.ts` the computation runs in four steps:

1. The order query returns the rows with the given `storeId` and
   `isPaid == true`.
2. For each order, an inner loop sums the prices of its items into
   `revenueForOrder`.
3. The outer loop adds that sum into a dictionary keyed by the order's
   creation month, 0 to 11.
4. A twelve-entry literal `{ name, total }` is built in calendar order.
   Each total is the dictionary value or `0`. A second loop then writes
   every dictionary value back into its entry.

The project has two modules.

- `RevenueModel` (`revenue_model.dfy`) holds the rows as datatypes:
  `Order`, `OrderItem`, `Product` and `RevenueGraphData`. Prices are
  integers in minor currency units. A month is an integer from 0 to 11.
  The module holds the pure specification: `PaidOrders` is the query's
  where-clause as a filter over the order table, `MonthTotal` is a month's
  bucket sum, and `GraphRevenue` is the report. It also holds the lemmas
  about these functions.
- `GraphRevenueAction` (`get_graph_revenue.dfy`) has one method per step,
  each with the source's loops:
  - the per-order running sum;
  - the dictionary (a `map<Month, int>` reassigned in the loop);
  - the twelve-entry array literal;
  - the write-back loop, which updates the array in place.

  `GetGraphRevenue` chains these methods. It is proved to return exactly
  `GraphRevenue(orders, storeId)`.

The action does not check prices. A total is therefore guaranteed non-negative
only when the prices are, and `NonNegativeTotals` proves it under exactly that
assumption.

## Model

| member | source | states |
|---|---|---|
| `RevenueModel.PaidOrders` | actions/get-graph-revenue.ts:9-13 | the query result holds exactly the rows of the table that belong to the store and are paid, and is no longer than the table |
| `RevenueModel.GraphRevenue` | actions/get-graph-revenue.ts:36-49 | the report always has 12 entries, labelled January to December in calendar order |
| `RevenueModel.MonthNames` | actions/get-graph-revenue.ts:37-48 | the twelve labels of the literal, January to December in calendar order (a constant used by `GraphRevenue` and `Assembled`) |
| `RevenueModel.Selected` | actions/get-graph-revenue.ts:10-13 | definition of the where-clause: the order has the queried `storeId` and `isPaid` is true (used by `PaidOrders`) |
| `RevenueModel.ItemsRevenue` | actions/get-graph-revenue.ts:28-31 | definition of the inner sum: the prices of all item rows added up, one term per row (its properties are `ItemsRevenueConcat` and `UniformItemsRevenue`) |
| `RevenueModel.OrderRevenue` | actions/get-graph-revenue.ts:28-31 | definition of an order's contribution: `ItemsRevenue` of its items (the loop `RevenueForOrder` is proved equal to it) |
| `RevenueModel.MonthTotal` | actions/get-graph-revenue.ts:25-34 | definition of a bucket: the sum of `OrderRevenue` over the orders created in that month (the loop `AccumulateMonthly` is proved to compute it) |
| `RevenueModel.AccumulateIntoMonth` | actions/get-graph-revenue.ts:33 | the dictionary update adds the order's revenue to its month's lookup-or-zero and leaves every other month's unchanged; `RevenueOrZero` is the definition of the `or 0` default on `monthlyRevenue[m]` that it uses (0 for a missing entry, the entry otherwise) |
| `RevenueModel.Assembled` | actions/get-graph-revenue.ts:36-49 | the assembled table has 12 entries with the month names in calendar order |
| `RevenueModel.ItemsRevenueConcat` | actions/get-graph-revenue.ts:28-31 | the item-price sum of two runs of items is the sum of their sums |
| `RevenueModel.UniformItemsRevenue` | actions/get-graph-revenue.ts:28-31 | n item rows of price p contribute n * p: every row counts, once |
| `RevenueModel.ItemsRevenueNonNegative` | actions/get-graph-revenue.ts:28-31 | items with non-negative prices give a non-negative order revenue |
| `RevenueModel.MonthTotalConcat` | actions/get-graph-revenue.ts:25-34 | a month's total over two batches of orders is the sum of the batches' totals: buckets accumulate and are never overwritten |
| `RevenueModel.MonthTotalOfEmptyMonth` | actions/get-graph-revenue.ts:33-48 | a month in which no order was created has total 0 |
| `RevenueModel.MultisetWithout` | actions/get-graph-revenue.ts:25-34 | proof helper for `MonthTotalPermutation` (a sequence fact, not a step of the loop): removing the order at one position removes exactly one copy of it from the order multiset |
| `RevenueModel.MonthTotalWithout` | actions/get-graph-revenue.ts:25-34 | a month total splits into the order at one position plus the total of the remaining orders |
| `RevenueModel.MonthTotalPermutation` | actions/get-graph-revenue.ts:25-34 | two order sequences with the same multiset have the same month totals |
| `RevenueModel.MonthTotalNonNegative` | actions/get-graph-revenue.ts:25-34 | with non-negative prices every month total is non-negative |
| `RevenueModel.MonthsTotalOfNoOrders` | actions/get-graph-revenue.ts:25-34 | proof helper for `TwelveMonthsCoverAll` (about `MonthsTotal`, a function used only in proofs): with no orders the sum of the first k month totals is 0 |
| `RevenueModel.MonthsTotalAppend` | actions/get-graph-revenue.ts:26-33 | one more order adds its revenue to the sum of the first k months exactly when its month is below k |
| `RevenueModel.TwelveMonthsCoverAll` | actions/get-graph-revenue.ts:26-33 | the twelve month totals add up to the revenue of all the orders, so every order lands in exactly one bucket |
| `RevenueModel.SumOfPrefixTotals` | actions/get-graph-revenue.ts:36-49 | the sum of the report's first k totals is the sum of the first k month totals of the paid orders |
| `RevenueModel.PaidOrdersConcat` | actions/get-graph-revenue.ts:9-13 | filtering a concatenated table is concatenating the filtered parts |
| `RevenueModel.PaidOrdersMultiplicity` | actions/get-graph-revenue.ts:9-13 | the query returns each paid order of the store as many times as the table holds it, and no other row |
| `RevenueModel.PaidOrdersPermutation` | actions/get-graph-revenue.ts:9-13 | permuting the table permutes the query result |
| `RevenueModel.EmptyMonthIsZero` | actions/get-graph-revenue.ts:37-48 | a month that no paid order of the store falls into has total exactly 0 in the report |
| `RevenueModel.NoPaidOrdersAllZero` | actions/get-graph-revenue.ts:9-49 | a store with no paid orders, or an unknown store, gets all twelve entries with total 0 |
| `RevenueModel.AddOrder` | actions/get-graph-revenue.ts:25-34 | one more order row adds its item-price sum to its own month's total when it is a paid order of the store, and otherwise leaves that total unchanged |
| `RevenueModel.IgnoredOrderChangesNothing` | actions/get-graph-revenue.ts:9-13 | an unpaid order, or an order of another store, anywhere in the table, leaves the whole report unchanged |
| `RevenueModel.GraphRevenuePermutation` | actions/get-graph-revenue.ts:9-34 | the report does not depend on the order of the order rows |
| `RevenueModel.GraphRevenueSumsAllPaidRevenue` | actions/get-graph-revenue.ts:25-49 | the twelve totals add up to the item-price revenue of all paid orders of the store |
| `RevenueModel.NonNegativeTotals` | actions/get-graph-revenue.ts:28-49 | with well-formed (non-negative) prices every total of the report is non-negative |
| `RevenueModel.WrittenBack` | actions/get-graph-revenue.ts:51-53 | definition of the table after the write-back: the same length, each entry whose month has a dictionary value gets that value as its total, every other entry is kept (the loop `WriteBack` is proved to produce it) |
| `RevenueModel.WrittenBackAssembled` | actions/get-graph-revenue.ts:36-53 | writing the dictionary back into the freshly assembled table leaves it unchanged |
| `RevenueModel.WrittenBackIdempotent` | actions/get-graph-revenue.ts:51-53 | running the write-back twice gives the same table as running it once |
| `RevenueModel.AssembledIsReport` | actions/get-graph-revenue.ts:36-49 | when each dictionary lookup-or-zero equals the month total of the paid orders, the assembled table is the report |
| `RevenueModel.MarchExample` | actions/get-graph-revenue.ts:8-56 | paid March orders of 10.00 and of three items at 5.00, beside an unpaid March order and another store's order, give March 25.00 and every other month 0 |
| `GraphRevenueAction.RevenueForOrder` | actions/get-graph-revenue.ts:28-31 | the running sum over the order items equals the order's item-price sum |
| `GraphRevenueAction.AccumulateMonthly` | actions/get-graph-revenue.ts:23-34 | after the loop the dictionary has an entry for exactly the months some paid order falls into, and each lookup-or-zero is that month's total |
| `GraphRevenueAction.AssembleGraphData` | actions/get-graph-revenue.ts:36-49 | the fresh twelve-entry array holds, in calendar order, each month's name and its lookup-or-zero total |
| `GraphRevenueAction.WriteBack` | actions/get-graph-revenue.ts:51-53 | each month key of the dictionary has its entry's total overwritten with the dictionary value, whatever order the keys are visited in, and nothing else changes |
| `GraphRevenueAction.GetGraphRevenue` | actions/get-graph-revenue.ts:8-56 | the returned fresh array has 12 entries and equals the specified report for the store |

## Left out

- The order query `prismadb.order.findMany` (actions/get-graph-revenue.ts:9-21) is a database call. The model takes the order table as an input sequence and applies the where-clause as the filter `PaidOrders`. It reads every row's items and products as already joined. A failure of the query, which the action passes on to its caller, is not modelled.
- The month comes from `createdAt.getMonth()`, which depends on the server's time zone. The model takes the month index (0 to 11) as a field of the order.
- Prices are `Decimal` values converted with `toNumber()` and summed in floating point. The model uses unbounded integers in minor currency units, so it does not capture floating-point rounding.
- `async`/`await` is left out: the query is the only suspension point, and the aggregation itself is sequential.
- The JavaScript dictionary stores its keys as strings. The write-back loop visits them in ascending order and converts them with `parseInt`. The model uses month-typed map keys and proves the write-back for any visiting order.
- `x || 0` on a number also replaces `NaN` and `0` by `0`. With integer amounts there is no `NaN`, and `0 || 0` is `0`, so the model reads it as "0 when the key is missing".
- The store creation modal, the store creation route (its two guard checks: no user, no name) and the layout, navigation bar and provider components are UI and request plumbing. They are not part of this model.
