/**
  The rows the monthly revenue rollup reads (orders, their items and the
  items' products), the report it produces, and a pure specification of
  that report: each month's total is the sum, over the store's paid orders
  created in that month, of the prices of the orders' items.
 */
module RevenueModel {

  /** A zero-based calendar month index: 0 = January ... 11 = December. */
  type Month = m: int | 0 <= m < 12

  /** A product row; the rollup reads only its current price, in minor currency units. */
  datatype Product = Product(price: int)

  /** One order item row: one unit of one product. */
  datatype OrderItem = OrderItem(product: Product)

  /** An order row with its items; `month` is the month index of its creation date. */
  datatype Order = Order(storeId: string, isPaid: bool, month: Month, orderItems: seq<OrderItem>)

  /** One bar of the revenue graph. */
  datatype RevenueGraphData = RevenueGraphData(name: string, total: int)

  /** The labels of the twelve report entries, in calendar order. */
  const MonthNames: seq<string> :=
    ["January", "February", "March", "April", "May", "June",
     "July", "August", "September", "October", "November", "December"]

  /** The where-clause of the order query: the order belongs to the store and is paid. */
  predicate Selected(o: Order, storeId: string)
  {
    o.storeId == storeId && o.isPaid
  }

  /** The rows the order query returns, in table order. */
  function PaidOrders(orders: seq<Order>, storeId: string): (paid: seq<Order>)
    ensures |paid| <= |orders|
    ensures forall o :: o in paid <==> o in orders && Selected(o, storeId)
  {
    if orders == [] then []
    else
      var init, last := orders[..|orders| - 1], orders[|orders| - 1];
      assert orders == init + [last];
      var rest := PaidOrders(init, storeId);
      if Selected(last, storeId) then rest + [last] else rest
  }

  /** The sum of the product prices of a sequence of order items. */
  function ItemsRevenue(items: seq<OrderItem>): int
  {
    if items == [] then 0
    else ItemsRevenue(items[..|items| - 1]) + items[|items| - 1].product.price
  }

  /** What one order contributes to its month: the price of every item row, once per row. */
  function OrderRevenue(o: Order): int
  {
    ItemsRevenue(o.orderItems)
  }

  /** The revenue of the orders in `orders` created in month `m`. */
  function MonthTotal(orders: seq<Order>, m: int): int
  {
    if orders == [] then 0
    else
      var last := orders[|orders| - 1];
      MonthTotal(orders[..|orders| - 1], m) + (if last.month == m then OrderRevenue(last) else 0)
  }

  /** The revenue of all orders in `orders`, whatever their month. */
  function TotalRevenue(orders: seq<Order>): int
  {
    if orders == [] then 0
    else TotalRevenue(orders[..|orders| - 1]) + OrderRevenue(orders[|orders| - 1])
  }

  /** The sum of a sequence of amounts. */
  function Sum(xs: seq<int>): int
  {
    if xs == [] then 0 else Sum(xs[..|xs| - 1]) + xs[|xs| - 1]
  }

  /** The totals column of a report. */
  function Totals(report: seq<RevenueGraphData>): seq<int>
  {
    seq(|report|, i requires 0 <= i < |report| => report[i].total)
  }

  /** The report the rollup returns for `storeId`, given the whole order table. */
  function GraphRevenue(orders: seq<Order>, storeId: string): (report: seq<RevenueGraphData>)
    ensures |report| == 12
    ensures forall i :: 0 <= i < 12 ==> report[i].name == MonthNames[i]
  {
    var paid := PaidOrders(orders, storeId);
    seq(12, i requires 0 <= i < 12 => RevenueGraphData(MonthNames[i], MonthTotal(paid, i)))
  }

  /** A dictionary lookup that defaults to 0 when the month has no entry (`monthlyRevenue[m] || 0`). */
  function RevenueOrZero(monthlyRevenue: map<Month, int>, m: Month): int
  {
    if m in monthlyRevenue then monthlyRevenue[m] else 0
  }

  /** The twelve-entry table built from the month dictionary, before the write-back loop. */
  function Assembled(monthlyRevenue: map<Month, int>): (g: seq<RevenueGraphData>)
    ensures |g| == 12
    ensures forall i :: 0 <= i < 12 ==> g[i].name == MonthNames[i]
  {
    seq(12, i requires 0 <= i < 12 => RevenueGraphData(MonthNames[i], RevenueOrZero(monthlyRevenue, i)))
  }

  /** The table after the write-back loop: every month present in the dictionary gets its value. */
  function WrittenBack(g: seq<RevenueGraphData>, monthlyRevenue: map<Month, int>): (g': seq<RevenueGraphData>)
    ensures |g'| == |g|
  {
    seq(|g|, i requires 0 <= i < |g| =>
      if 0 <= i < 12 && i as Month in monthlyRevenue then g[i].(total := monthlyRevenue[i]) else g[i])
  }

  /** The set of months in which some order of `orders` was created. */
  function MonthsOf(orders: seq<Order>): set<Month>
  {
    set o | o in orders :: o.month
  }

  // ---------------------------------------------------------------------
  // Per-order summation

  lemma {:induction false} ItemsRevenueConcat(a: seq<OrderItem>, b: seq<OrderItem>)
    ensures ItemsRevenue(a + b) == ItemsRevenue(a) + ItemsRevenue(b)
    decreases |b|
  {
    if b == [] {
      assert a + b == a;
    } else {
      assert (a + b)[..|a + b| - 1] == a + b[..|b| - 1];
      ItemsRevenueConcat(a, b[..|b| - 1]);
    }
  }

  /** Each item row counts once: n rows of the same price p contribute n * p. */
  lemma {:induction false} UniformItemsRevenue(items: seq<OrderItem>, p: int)
    requires forall i :: 0 <= i < |items| ==> items[i].product.price == p
    ensures ItemsRevenue(items) == |items| * p
  {
    if items != [] {
      UniformItemsRevenue(items[..|items| - 1], p);
    }
  }

  lemma {:induction false} ItemsRevenueNonNegative(items: seq<OrderItem>)
    requires forall i :: 0 <= i < |items| ==> items[i].product.price >= 0
    ensures ItemsRevenue(items) >= 0
  {
    if items != [] {
      ItemsRevenueNonNegative(items[..|items| - 1]);
    }
  }

  // ---------------------------------------------------------------------
  // Monthly buckets

  /**
    Adding an order's revenue into its month's dictionary entry (the update
    `monthlyRevenue[month] = (monthlyRevenue[month] || 0) + revenueForOrder`)
    adds to that month's lookup-or-zero and leaves every other month's alone:
    an existing entry is accumulated into, not overwritten.
   */
  lemma AccumulateIntoMonth(monthlyRevenue: map<Month, int>, month: Month, revenue: int, n: Month)
    ensures RevenueOrZero(monthlyRevenue[month := RevenueOrZero(monthlyRevenue, month) + revenue], n) ==
            RevenueOrZero(monthlyRevenue, n) + (if n == month then revenue else 0)
  {
  }

  /** Buckets accumulate: the orders of two batches add up, neither replaces the other. */
  lemma {:induction false} MonthTotalConcat(a: seq<Order>, b: seq<Order>, m: int)
    ensures MonthTotal(a + b, m) == MonthTotal(a, m) + MonthTotal(b, m)
    decreases |b|
  {
    if b == [] {
      assert a + b == a;
    } else {
      assert (a + b)[..|a + b| - 1] == a + b[..|b| - 1];
      MonthTotalConcat(a, b[..|b| - 1], m);
    }
  }

  /** A month in which no order was created has total 0. */
  lemma {:induction false} MonthTotalOfEmptyMonth(orders: seq<Order>, m: int)
    requires forall o :: o in orders ==> o.month != m
    ensures MonthTotal(orders, m) == 0
  {
    if orders != [] {
      assert orders[|orders| - 1] in orders;
      MonthTotalOfEmptyMonth(orders[..|orders| - 1], m);
    }
  }

  /** Taking one order out of a sequence takes out exactly one copy of it. */
  lemma MultisetWithout(b: seq<Order>, k: nat)
    requires k < |b|
    ensures multiset(b[..k] + b[k + 1..]) == multiset(b) - multiset{b[k]}
  {
    assert b == b[..k] + [b[k]] + b[k + 1..];
  }

  /** The contribution of the order at position k can be split off a month total. */
  lemma MonthTotalWithout(b: seq<Order>, k: nat, m: int)
    requires k < |b|
    ensures MonthTotal(b, m) == MonthTotal(b[..k] + b[k + 1..], m) + MonthTotal([b[k]], m)
  {
    var before, after := b[..k], b[k + 1..];
    assert b == before + [b[k]] + after;
    MonthTotalConcat(before + [b[k]], after, m);
    MonthTotalConcat(before, [b[k]], m);
    MonthTotalConcat(before, after, m);
  }

  /** The month totals do not depend on the order in which the orders are processed. */
  lemma {:induction false} MonthTotalPermutation(a: seq<Order>, b: seq<Order>, m: int)
    requires multiset(a) == multiset(b)
    ensures MonthTotal(a, m) == MonthTotal(b, m)
    decreases |a|
  {
    if a == [] {
      assert |b| == |multiset(b)| == 0;
    } else {
      var n := |a| - 1;
      assert a[n] in multiset(b);
      var k :| 0 <= k < |b| && b[k] == a[n];
      MultisetWithout(a, n);
      MultisetWithout(b, k);
      assert a[..n] + a[n + 1..] == a[..n];
      MonthTotalPermutation(a[..n], b[..k] + b[k + 1..], m);
      MonthTotalWithout(a, n, m);
      MonthTotalWithout(b, k, m);
    }
  }

  lemma {:induction false} MonthTotalNonNegative(orders: seq<Order>, m: int)
    requires forall o, i :: o in orders && 0 <= i < |o.orderItems| ==> o.orderItems[i].product.price >= 0
    ensures MonthTotal(orders, m) >= 0
  {
    if orders != [] {
      var last := orders[|orders| - 1];
      assert last in orders;
      ItemsRevenueNonNegative(last.orderItems);
      MonthTotalNonNegative(orders[..|orders| - 1], m);
    }
  }

  /** The first k month totals of a set of orders. */
  function MonthsTotal(orders: seq<Order>, k: nat): int
  {
    if k == 0 then 0 else MonthsTotal(orders, k - 1) + MonthTotal(orders, k - 1)
  }

  lemma {:induction false} MonthsTotalAppend(orders: seq<Order>, o: Order, k: nat)
    ensures MonthsTotal(orders + [o], k) == MonthsTotal(orders, k) + (if o.month < k then OrderRevenue(o) else 0)
  {
    if k > 0 {
      assert (orders + [o])[..|orders|] == orders;
      MonthsTotalAppend(orders, o, k - 1);
    }
  }

  lemma {:induction false} MonthsTotalOfNoOrders(k: nat)
    ensures MonthsTotal([], k) == 0
  {
    if k > 0 {
      MonthsTotalOfNoOrders(k - 1);
    }
  }

  /** Every order falls in exactly one of the twelve months. */
  lemma {:induction false} TwelveMonthsCoverAll(orders: seq<Order>)
    ensures MonthsTotal(orders, 12) == TotalRevenue(orders)
  {
    if orders == [] {
      MonthsTotalOfNoOrders(12);
    } else {
      var init, last := orders[..|orders| - 1], orders[|orders| - 1];
      assert orders == init + [last];
      TwelveMonthsCoverAll(init);
      MonthsTotalAppend(init, last, 12);
      assert TotalRevenue(orders) == TotalRevenue(init) + OrderRevenue(last);
    }
  }

  lemma {:induction false} SumOfPrefixTotals(orders: seq<Order>, storeId: string, k: nat)
    requires k <= 12
    ensures Sum(Totals(GraphRevenue(orders, storeId))[..k]) == MonthsTotal(PaidOrders(orders, storeId), k)
  {
    if k > 0 {
      var ts := Totals(GraphRevenue(orders, storeId));
      assert ts[..k][..k - 1] == ts[..k - 1];
      SumOfPrefixTotals(orders, storeId, k - 1);
    }
  }

  // ---------------------------------------------------------------------
  // The order query

  lemma {:induction false} PaidOrdersConcat(a: seq<Order>, b: seq<Order>, storeId: string)
    ensures PaidOrders(a + b, storeId) == PaidOrders(a, storeId) + PaidOrders(b, storeId)
    decreases |b|
  {
    if b == [] {
      assert a + b == a;
    } else {
      assert (a + b)[..|a + b| - 1] == a + b[..|b| - 1];
      PaidOrdersConcat(a, b[..|b| - 1], storeId);
    }
  }

  /** The query returns each selected row as often as the table holds it, and no other row. */
  lemma {:induction false} PaidOrdersMultiplicity(orders: seq<Order>, storeId: string, o: Order)
    ensures multiset(PaidOrders(orders, storeId))[o] == if Selected(o, storeId) then multiset(orders)[o] else 0
  {
    if orders != [] {
      var init, last := orders[..|orders| - 1], orders[|orders| - 1];
      assert orders == init + [last];
      PaidOrdersMultiplicity(init, storeId, o);
    }
  }

  lemma PaidOrdersPermutation(a: seq<Order>, b: seq<Order>, storeId: string)
    requires multiset(a) == multiset(b)
    ensures multiset(PaidOrders(a, storeId)) == multiset(PaidOrders(b, storeId))
  {
    forall o ensures multiset(PaidOrders(a, storeId))[o] == multiset(PaidOrders(b, storeId))[o] {
      PaidOrdersMultiplicity(a, storeId, o);
      PaidOrdersMultiplicity(b, storeId, o);
    }
  }

  // ---------------------------------------------------------------------
  // Properties of the report

  /** A month that no selected order falls into has total exactly 0. */
  lemma EmptyMonthIsZero(orders: seq<Order>, storeId: string, m: Month)
    requires forall o :: o in orders && Selected(o, storeId) ==> o.month != m
    ensures GraphRevenue(orders, storeId)[m].total == 0
  {
    MonthTotalOfEmptyMonth(PaidOrders(orders, storeId), m);
  }

  /** A store without paid orders (or an unknown store) still gets all twelve entries, all 0. */
  lemma NoPaidOrdersAllZero(orders: seq<Order>, storeId: string)
    requires forall o :: o in orders ==> !Selected(o, storeId)
    ensures forall m :: 0 <= m < 12 ==> GraphRevenue(orders, storeId)[m].total == 0
  {
    forall m: Month ensures GraphRevenue(orders, storeId)[m].total == 0 {
      EmptyMonthIsZero(orders, storeId, m);
    }
  }

  /**
    One more order row adds its revenue to its own month's total if it is a
    paid order of the store, and changes no total otherwise.
   */
  lemma AddOrder(orders: seq<Order>, o: Order, storeId: string, m: Month)
    ensures GraphRevenue(orders + [o], storeId)[m].total ==
            GraphRevenue(orders, storeId)[m].total + (if Selected(o, storeId) && o.month == m then OrderRevenue(o) else 0)
  {
    assert (orders + [o])[..|orders|] == orders;
  }

  /** An unpaid order, or an order of another store, leaves the whole report unchanged wherever it sits. */
  lemma IgnoredOrderChangesNothing(before: seq<Order>, o: Order, after: seq<Order>, storeId: string)
    requires !Selected(o, storeId)
    ensures GraphRevenue(before + [o] + after, storeId) == GraphRevenue(before + after, storeId)
  {
    PaidOrdersConcat(before + [o], after, storeId);
    PaidOrdersConcat(before, [o], storeId);
    PaidOrdersConcat(before, after, storeId);
    assert [o][..0] == [];
  }

  /** Permuting the order table gives the same report. */
  lemma GraphRevenuePermutation(a: seq<Order>, b: seq<Order>, storeId: string)
    requires multiset(a) == multiset(b)
    ensures GraphRevenue(a, storeId) == GraphRevenue(b, storeId)
  {
    PaidOrdersPermutation(a, b, storeId);
    forall m | 0 <= m < 12
      ensures MonthTotal(PaidOrders(a, storeId), m) == MonthTotal(PaidOrders(b, storeId), m)
    {
      MonthTotalPermutation(PaidOrders(a, storeId), PaidOrders(b, storeId), m);
    }
  }

  /** The twelve totals add up to the revenue of all paid orders of the store. */
  lemma GraphRevenueSumsAllPaidRevenue(orders: seq<Order>, storeId: string)
    ensures Sum(Totals(GraphRevenue(orders, storeId))) == TotalRevenue(PaidOrders(orders, storeId))
  {
    var ts := Totals(GraphRevenue(orders, storeId));
    assert ts[..12] == ts;
    SumOfPrefixTotals(orders, storeId, 12);
    TwelveMonthsCoverAll(PaidOrders(orders, storeId));
  }

  /** With well-formed (non-negative) prices every total is non-negative. */
  lemma NonNegativeTotals(orders: seq<Order>, storeId: string)
    requires forall o, i :: o in orders && 0 <= i < |o.orderItems| ==> o.orderItems[i].product.price >= 0
    ensures forall m :: 0 <= m < 12 ==> GraphRevenue(orders, storeId)[m].total >= 0
  {
    forall m | 0 <= m < 12 ensures MonthTotal(PaidOrders(orders, storeId), m) >= 0 {
      MonthTotalNonNegative(PaidOrders(orders, storeId), m);
    }
  }

  // ---------------------------------------------------------------------
  // The write-back loop

  /** After assembly every dictionary entry is already in place, so writing the dictionary back changes nothing. */
  lemma WrittenBackAssembled(monthlyRevenue: map<Month, int>)
    ensures WrittenBack(Assembled(monthlyRevenue), monthlyRevenue) == Assembled(monthlyRevenue)
  {
  }

  /** Writing the dictionary back twice is the same as writing it back once. */
  lemma WrittenBackIdempotent(g: seq<RevenueGraphData>, monthlyRevenue: map<Month, int>)
    ensures WrittenBack(WrittenBack(g, monthlyRevenue), monthlyRevenue) == WrittenBack(g, monthlyRevenue)
  {
  }

  /** The assembled table agrees with the report when the dictionary holds each month's total. */
  lemma AssembledIsReport(monthlyRevenue: map<Month, int>, orders: seq<Order>, storeId: string)
    requires forall m: Month :: RevenueOrZero(monthlyRevenue, m) == MonthTotal(PaidOrders(orders, storeId), m)
    ensures Assembled(monthlyRevenue) == GraphRevenue(orders, storeId)
  {
  }

  // ---------------------------------------------------------------------
  // Worked example

  /**
    Two paid March orders of the store, one of 10.00 and one of three items
    at 5.00, next to an unpaid March order and a paid March order of another
    store (amounts in cents): March totals 25.00 and every other month 0.
   */
  lemma MarchExample()
    ensures var five := OrderItem(Product(500));
            var orders := [Order("s", true, 2, [OrderItem(Product(1000))]),
                           Order("s", false, 2, [OrderItem(Product(700))]),
                           Order("s", true, 2, [five, five, five]),
                           Order("t", true, 2, [OrderItem(Product(900))])];
            var report := GraphRevenue(orders, "s");
            report[2] == RevenueGraphData("March", 2500) &&
            forall m :: 0 <= m < 12 && m != 2 ==> report[m].total == 0
  {
    var five := OrderItem(Product(500));
    var o1 := Order("s", true, 2, [OrderItem(Product(1000))]);
    var o2 := Order("s", false, 2, [OrderItem(Product(700))]);
    var o3 := Order("s", true, 2, [five, five, five]);
    var o4 := Order("t", true, 2, [OrderItem(Product(900))]);
    assert "t"[0] != "s"[0];
    assert Selected(o1, "s") && !Selected(o2, "s") && Selected(o3, "s") && !Selected(o4, "s");
    // The query keeps the first and the third order.
    assert [o1, o2, o3, o4][..3] == [o1, o2, o3];
    assert [o1, o2, o3][..2] == [o1, o2];
    assert [o1, o2][..1] == [o1];
    assert [o1][..0] == [];
    assert PaidOrders([o1], "s") == [o1];
    assert PaidOrders([o1, o2], "s") == [o1];
    assert PaidOrders([o1, o2, o3], "s") == [o1, o3];
    assert PaidOrders([o1, o2, o3, o4], "s") == [o1, o3];
    // Their revenues.
    UniformItemsRevenue([five, five, five], 500);
    UniformItemsRevenue([OrderItem(Product(1000))], 1000);
    assert OrderRevenue(o1) == 1000 && OrderRevenue(o3) == 1500;
    // Their bucket sums.
    assert [o1, o3][..1] == [o1];
    forall m: int ensures MonthTotal([o1, o3], m) == if m == 2 then 2500 else 0 {
      assert MonthTotal([o1], m) == if m == 2 then 1000 else 0;
    }
  }
}
