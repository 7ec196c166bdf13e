/**
  The monthly revenue rollup as the action computes it: a running sum per
  order, a month-keyed dictionary updated in place, a twelve-entry table
  assembled from the dictionary, and a second loop that writes the
  dictionary values back into the table. Each step is proved against the
  specification in RevenueModel.
 */
module GraphRevenueAction {
  import opened RevenueModel

  /** The inner loop: the running sum of the order's item prices. */
  method RevenueForOrder(order: Order) returns (revenueForOrder: int)
    ensures revenueForOrder == OrderRevenue(order)
  {
    revenueForOrder := 0;
    for j := 0 to |order.orderItems|
      invariant revenueForOrder == ItemsRevenue(order.orderItems[..j])
    {
      assert order.orderItems[..j + 1][..j] == order.orderItems[..j];
      revenueForOrder := revenueForOrder + order.orderItems[j].product.price;
    }
    assert order.orderItems[..|order.orderItems|] == order.orderItems;
  }

  /**
    The outer loop: each paid order's revenue is added into the dictionary
    entry of its month. Afterwards the dictionary has an entry exactly for
    the months some paid order falls into, holding that month's total.
   */
  method AccumulateMonthly(paidOrders: seq<Order>) returns (monthlyRevenue: map<Month, int>)
    ensures monthlyRevenue.Keys == MonthsOf(paidOrders)
    ensures forall m: Month :: RevenueOrZero(monthlyRevenue, m) == MonthTotal(paidOrders, m)
  {
    monthlyRevenue := map[];
    for i := 0 to |paidOrders|
      invariant monthlyRevenue.Keys == MonthsOf(paidOrders[..i])
      invariant forall m: Month :: RevenueOrZero(monthlyRevenue, m) == MonthTotal(paidOrders[..i], m)
    {
      var order := paidOrders[i];
      var month := order.month;
      var revenueForOrder := RevenueForOrder(order);
      assert paidOrders[..i + 1] == paidOrders[..i] + [order];
      assert MonthsOf(paidOrders[..i + 1]) == MonthsOf(paidOrders[..i]) + {month};
      var updated := monthlyRevenue[month := RevenueOrZero(monthlyRevenue, month) + revenueForOrder];
      forall n: Month ensures RevenueOrZero(updated, n) == MonthTotal(paidOrders[..i + 1], n) {
        AccumulateIntoMonth(monthlyRevenue, month, revenueForOrder, n);
      }
      monthlyRevenue := updated;
    }
    assert paidOrders[..|paidOrders|] == paidOrders;
  }

  /** The twelve-entry literal: each month's dictionary value, or 0 when it has none. */
  method AssembleGraphData(monthlyRevenue: map<Month, int>) returns (graphData: array<RevenueGraphData>)
    ensures fresh(graphData)
    ensures graphData[..] == Assembled(monthlyRevenue)
  {
    graphData := new RevenueGraphData[12] [
      RevenueGraphData("January", RevenueOrZero(monthlyRevenue, 0)),
      RevenueGraphData("February", RevenueOrZero(monthlyRevenue, 1)),
      RevenueGraphData("March", RevenueOrZero(monthlyRevenue, 2)),
      RevenueGraphData("April", RevenueOrZero(monthlyRevenue, 3)),
      RevenueGraphData("May", RevenueOrZero(monthlyRevenue, 4)),
      RevenueGraphData("June", RevenueOrZero(monthlyRevenue, 5)),
      RevenueGraphData("July", RevenueOrZero(monthlyRevenue, 6)),
      RevenueGraphData("August", RevenueOrZero(monthlyRevenue, 7)),
      RevenueGraphData("September", RevenueOrZero(monthlyRevenue, 8)),
      RevenueGraphData("October", RevenueOrZero(monthlyRevenue, 9)),
      RevenueGraphData("November", RevenueOrZero(monthlyRevenue, 10)),
      RevenueGraphData("December", RevenueOrZero(monthlyRevenue, 11))
    ];
  }

  /**
    The write-back loop: for every month key of the dictionary, in whatever
    order the keys are visited, that entry's total is overwritten with the
    dictionary value. Names and the other entries are untouched.
   */
  method WriteBack(graphData: array<RevenueGraphData>, monthlyRevenue: map<Month, int>)
    requires graphData.Length == 12
    modifies graphData
    ensures graphData[..] == WrittenBack(old(graphData[..]), monthlyRevenue)
  {
    var pending := monthlyRevenue.Keys;
    while pending != {}
      invariant pending <= monthlyRevenue.Keys
      invariant forall i :: 0 <= i < 12 ==>
        graphData[i] == (if i as Month in monthlyRevenue && i !in pending
                         then old(graphData[i]).(total := monthlyRevenue[i])
                         else old(graphData[i]))
      decreases pending
    {
      var month :| month in pending;
      graphData[month] := graphData[month].(total := monthlyRevenue[month]);
      pending := pending - {month};
    }
  }

  /**
    The action: select the store's paid orders, accumulate, assemble, write
    back. The result is the twelve-entry report of the specification.
   */
  method GetGraphRevenue(orders: seq<Order>, storeId: string) returns (graphData: array<RevenueGraphData>)
    ensures fresh(graphData)
    ensures graphData.Length == 12
    ensures graphData[..] == GraphRevenue(orders, storeId)
  {
    var paidOrders := PaidOrders(orders, storeId);
    var monthlyRevenue := AccumulateMonthly(paidOrders);
    graphData := AssembleGraphData(monthlyRevenue);
    WrittenBackAssembled(monthlyRevenue);
    WriteBack(graphData, monthlyRevenue);
    AssembledIsReport(monthlyRevenue, orders, storeId);
  }
}
