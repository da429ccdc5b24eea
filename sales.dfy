/**
 * Order entry of sales.js: an order is validated, its category looked up
 * by `name` in the shared inventory rows, rejected when stock is short,
 * and otherwise deducted from stock and appended to the order log; plus
 * the status update, the text filter and the units-sold report.
 */
module Sales {
  import opened Common
  import opened Text
  import opened StockRows

  datatype Order = Order(
    orderId: string, customerDetails: string, productCategory: string,
    quantityOrdered: int, unitPrice: int, orderStatus: string)

  /** What `handleOrderSubmission` reports instead of its alerts. */
  datatype OrderOutcome =
    | InvalidOrder
    | CategoryNotFound
    | InsufficientStock(available: int)
    | OrderLogged(remainingStock: int)

  /**
   * An order on already-trimmed form values (`orderStatus` is taken as
   * selected): a missing id, customer or category or a non-numeric
   * quantity or price rejects; an unknown category rejects; stock below
   * the quantity rejects; otherwise the first row of the category loses
   * exactly the quantity and the order is appended. Every rejection
   * leaves both tables as they were.
   */
  function PlaceOrder(inventory: seq<Row>, orders: seq<Order>, orderId: string, customerDetails: string,
                      productCategory: string, quantityOrdered: Option<int>, unitPrice: Option<int>, orderStatus: string)
    : (r: (OrderOutcome, seq<Row>, seq<Order>))
    ensures r.0 == InvalidOrder <==>
      orderId == [] || customerDetails == [] || productCategory == [] || quantityOrdered.None? || unitPrice.None?
    ensures r.0 == CategoryNotFound <==> r.0 != InvalidOrder && FindRow(inventory, productCategory).None?
    ensures r.0.InsufficientStock? <==>
      r.0 != InvalidOrder && FindRow(inventory, productCategory).Some? &&
      inventory[FindRow(inventory, productCategory).value].stock < quantityOrdered.value
    ensures r.0.InsufficientStock? ==> r.0.available == inventory[FindRow(inventory, productCategory).value].stock
    ensures !r.0.OrderLogged? ==> r.1 == inventory && r.2 == orders
    ensures r.0.OrderLogged? ==>
      var i := FindRow(inventory, productCategory).value;
      && |r.1| == |inventory|
      && (forall j :: 0 <= j < |inventory| && j != i ==> r.1[j] == inventory[j])
      && r.1[i] == inventory[i].(stock := inventory[i].stock - quantityOrdered.value)
      && r.1[i].stock >= 0 && r.0.remainingStock == r.1[i].stock
      && r.2 == orders + [Order(orderId, customerDetails, productCategory, quantityOrdered.value, unitPrice.value, orderStatus)]
  {
    if orderId == [] || customerDetails == [] || productCategory == [] || quantityOrdered.None? || unitPrice.None? then
      (InvalidOrder, inventory, orders)
    else match FindRow(inventory, productCategory)
      case None => (CategoryNotFound, inventory, orders)
      case Some(i) =>
        if inventory[i].stock < quantityOrdered.value then
          (InsufficientStock(inventory[i].stock), inventory, orders)
        else
          var remaining := inventory[i].stock - quantityOrdered.value;
          (OrderLogged(remaining), inventory[i := inventory[i].(stock := remaining)],
           orders + [Order(orderId, customerDetails, productCategory, quantityOrdered.value, unitPrice.value, orderStatus)])
  }

  /** A logged order takes exactly its quantity out of the total stock held. */
  lemma PlaceOrderConservesUnits(inventory: seq<Row>, orders: seq<Order>, orderId: string, customerDetails: string,
                                 productCategory: string, quantityOrdered: Option<int>, unitPrice: Option<int>,
                                 orderStatus: string)
    ensures var r := PlaceOrder(inventory, orders, orderId, customerDetails, productCategory, quantityOrdered,
                                unitPrice, orderStatus);
      r.0.OrderLogged? ==> TotalStock(r.1) + quantityOrdered.value == TotalStock(inventory)
  {
    var r := PlaceOrder(inventory, orders, orderId, customerDetails, productCategory, quantityOrdered,
                        unitPrice, orderStatus);
    if r.0.OrderLogged? {
      var i := FindRow(inventory, productCategory).value;
      TotalStockUpdate(inventory, i, -quantityOrdered.value);
      assert r.1 == inventory[i := inventory[i].(stock := inventory[i].stock + -quantityOrdered.value)];
    }
  }

  /**
   * Order ids are not checked against the log: whenever the form is
   * complete and stock suffices, the order is logged, even if its id is
   * already there.
   */
  lemma DuplicateOrderIdAccepted(inventory: seq<Row>, orders: seq<Order>, orderId: string, customerDetails: string,
                                 productCategory: string, quantityOrdered: int, unitPrice: int, orderStatus: string, i: nat)
    requires orderId != [] && customerDetails != [] && productCategory != []
    requires i < |inventory| && inventory[i].name == productCategory && inventory[i].stock >= quantityOrdered
    requires forall j :: 0 <= j < i ==> inventory[j].name != productCategory
    ensures PlaceOrder(inventory, orders, orderId, customerDetails, productCategory, Some(quantityOrdered),
                       Some(unitPrice), orderStatus).0 == OrderLogged(inventory[i].stock - quantityOrdered)
  {
    var found := FindRow(inventory, productCategory);
    assert found != None by {
      assert inventory[i].name == productCategory;
    }
    assert found.value == i;
  }

  // ----- Status updates (`updateOrderStatus`) -----

  datatype StatusOutcome = OrderNotFound | StatusKept | StatusUpdated

  /** `orders.find(o => o.orderId === orderId)`, as a position. */
  function FindOrder(orders: seq<Order>, orderId: string): (r: Option<nat>)
    ensures r.Some? ==> r.value < |orders| && orders[r.value].orderId == orderId
    ensures r.Some? ==> forall j :: 0 <= j < r.value ==> orders[j].orderId != orderId
    ensures r.None? <==> forall j :: 0 <= j < |orders| ==> orders[j].orderId != orderId
  {
    FirstIndex(orders, (o: Order) => o.orderId == orderId)
  }

  /**
   * The first order with the id takes the new status when the prompt gave
   * a non-empty answer (`None` is a cancelled prompt); nothing else changes.
   */
  function SetStatus(orders: seq<Order>, orderId: string, newStatus: Option<string>): (r: (StatusOutcome, seq<Order>))
    ensures r.0 == OrderNotFound <==> FindOrder(orders, orderId).None?
    ensures r.0 == StatusUpdated <==> FindOrder(orders, orderId).Some? && newStatus.Some? && newStatus.value != []
    ensures r.0 != StatusUpdated ==> r.1 == orders
    ensures r.0 == StatusUpdated ==>
      var i := FindOrder(orders, orderId).value;
      && |r.1| == |orders|
      && (forall j :: 0 <= j < |orders| && j != i ==> r.1[j] == orders[j])
      && r.1[i] == orders[i].(orderStatus := newStatus.value)
  {
    match FindOrder(orders, orderId)
    case None => (OrderNotFound, orders)
    case Some(i) =>
      if newStatus.Some? && newStatus.value != [] then
        (StatusUpdated, orders[i := orders[i].(orderStatus := newStatus.value)])
      else (StatusKept, orders)
  }

  // ----- Search (`filterOrders`) -----

  predicate OrderMatches(o: Order, query: string) {
    || Contains(Lower(o.customerDetails), query)
    || Contains(Lower(o.productCategory), query)
    || Contains(Lower(o.orderStatus), query)
  }

  /**
   * `filterOrders`: the orders, in log order, whose lower-cased customer,
   * category or status includes the trimmed, lower-cased query.
   */
  function FilterOrders(orders: seq<Order>, rawQuery: string): (r: seq<Order>)
    ensures IsSubsequence(r, orders)
    ensures forall o :: o in r <==> o in orders && OrderMatches(o, Lower(Trim(rawQuery)))
    ensures forall o :: multiset(r)[o] == if OrderMatches(o, Lower(Trim(rawQuery))) then multiset(orders)[o] else 0
  {
    Filter(orders, (o: Order) => OrderMatches(o, Lower(Trim(rawQuery))))
  }

  /** A blank filter keeps every order. */
  lemma FilterBlankKeepsAll(orders: seq<Order>, rawQuery: string)
    requires IsBlank(rawQuery)
    ensures FilterOrders(orders, rawQuery) == orders
  {
    var q := Lower(Trim(rawQuery));
    assert q == [];
    forall i | 0 <= i < |orders|
      ensures OrderMatches(orders[i], q)
    {
      ContainsEmpty(Lower(orders[i].customerDetails));
    }
    FilterKeepsAll(orders, (o: Order) => OrderMatches(o, q));
  }

  // ----- Units sold per category (`generateReportsByCategory`) -----

  datatype CategoryUnits = CategoryUnits(category: string, unitsSold: int)

  /** Sum of `quantityOrdered` over the orders of one category. */
  function UnitsOf(orders: seq<Order>, category: string): int {
    if orders == [] then 0
    else
      var last := orders[|orders| - 1];
      UnitsOf(orders[..|orders| - 1], category) + (if last.productCategory == category then last.quantityOrdered else 0)
  }

  /** Sum of `quantityOrdered` over all orders. */
  function TotalUnits(orders: seq<Order>): int {
    if orders == [] then 0 else TotalUnits(orders[..|orders| - 1]) + orders[|orders| - 1].quantityOrdered
  }

  /** Sum of `unitsSold` over the report's entries. */
  function ReportTotal(report: seq<CategoryUnits>): int {
    if report == [] then 0 else ReportTotal(report[..|report| - 1]) + report[|report| - 1].unitsSold
  }

  predicate DistinctCategories(report: seq<CategoryUnits>) {
    forall i, j :: 0 <= i < j < |report| ==> report[i].category != report[j].category
  }

  predicate Reported(report: seq<CategoryUnits>, category: string) {
    exists k :: 0 <= k < |report| && report[k].category == category
  }

  predicate Ordered(orders: seq<Order>, category: string) {
    exists j :: 0 <= j < |orders| && orders[j].productCategory == category
  }

  /** One step of the reduce: bump the order's category, or open an entry for it. */
  function AddUnits(report: seq<CategoryUnits>, o: Order): seq<CategoryUnits> {
    match FirstIndex(report, (e: CategoryUnits) => e.category == o.productCategory)
    case Some(i) => report[i := report[i].(unitsSold := report[i].unitsSold + o.quantityOrdered)]
    case None => report + [CategoryUnits(o.productCategory, o.quantityOrdered)]
  }

  /** The accumulator of `generateReportsByCategory`, entries in order of first appearance. */
  function UnitsByCategory(orders: seq<Order>): seq<CategoryUnits>
    decreases |orders|
  {
    if orders == [] then [] else AddUnits(UnitsByCategory(orders[..|orders| - 1]), orders[|orders| - 1])
  }

  lemma {:induction false} ReportTotalUpdate(report: seq<CategoryUnits>, i: nat, delta: int)
    requires i < |report|
    ensures ReportTotal(report[i := report[i].(unitsSold := report[i].unitsSold + delta)]) == ReportTotal(report) + delta
    decreases |report|
  {
    var n := |report|;
    var updated := report[i := report[i].(unitsSold := report[i].unitsSold + delta)];
    if i < n - 1 {
      assert updated[..n - 1] == report[..n - 1][i := report[i].(unitsSold := report[i].unitsSold + delta)];
      ReportTotalUpdate(report[..n - 1], i, delta);
    } else {
      assert updated[..n - 1] == report[..n - 1];
    }
  }

  /** One step keeps the entries distinct and adds the order's category to those reported. */
  lemma AddUnitsCategories(report: seq<CategoryUnits>, o: Order)
    requires DistinctCategories(report)
    ensures DistinctCategories(AddUnits(report, o))
    ensures forall c :: Reported(AddUnits(report, o), c) <==> Reported(report, c) || c == o.productCategory
  {
    var after := AddUnits(report, o);
    match FirstIndex(report, (e: CategoryUnits) => e.category == o.productCategory)
    case Some(i) =>
      assert forall k :: 0 <= k < |after| ==> after[k].category == report[k].category;
      assert after[i].category == o.productCategory;
      forall c ensures Reported(after, c) <==> Reported(report, c) || c == o.productCategory {
        if Reported(report, c) {
          var k :| 0 <= k < |report| && report[k].category == c;
          assert after[k].category == c;
        }
        if c == o.productCategory {
          assert report[i].category == c;
        }
      }
    case None =>
      var n := |report|;
      assert forall k :: 0 <= k < n ==> after[k] == report[k];
      assert after[n].category == o.productCategory;
      forall c ensures Reported(after, c) <==> Reported(report, c) || c == o.productCategory {
        if Reported(report, c) {
          var k :| 0 <= k < n && report[k].category == c;
          assert after[k].category == c;
        }
        if Reported(after, c) {
          var k :| 0 <= k < |after| && after[k].category == c;
          if k < n { assert report[k].category == c; }
        }
      }
  }

  /** One step adds the order's quantity to the report's total. */
  lemma AddUnitsTotal(report: seq<CategoryUnits>, o: Order)
    ensures ReportTotal(AddUnits(report, o)) == ReportTotal(report) + o.quantityOrdered
  {
    match FirstIndex(report, (e: CategoryUnits) => e.category == o.productCategory)
    case Some(i) =>
      ReportTotalUpdate(report, i, o.quantityOrdered);
    case None =>
      var after := report + [CategoryUnits(o.productCategory, o.quantityOrdered)];
      assert after[..|after| - 1] == report;
  }

  /** A category with no orders has sold nothing. */
  lemma {:induction false} UnitsOfAbsent(orders: seq<Order>, category: string)
    requires !Ordered(orders, category)
    ensures UnitsOf(orders, category) == 0
    decreases |orders|
  {
    if orders != [] {
      var prefix := orders[..|orders| - 1];
      assert forall j :: 0 <= j < |prefix| ==> prefix[j] == orders[j];
      UnitsOfAbsent(prefix, category);
      assert orders[|orders| - 1].productCategory != category;
    }
  }

  /** The report lists each ordered category exactly once, and no other. */
  lemma {:induction false} UnitsByCategoryCategories(orders: seq<Order>)
    ensures DistinctCategories(UnitsByCategory(orders))
    ensures forall c :: Reported(UnitsByCategory(orders), c) <==> Ordered(orders, c)
    decreases |orders|
  {
    if orders != [] {
      var prefix := orders[..|orders| - 1];
      var o := orders[|orders| - 1];
      UnitsByCategoryCategories(prefix);
      AddUnitsCategories(UnitsByCategory(prefix), o);
      forall c ensures Ordered(orders, c) <==> Ordered(prefix, c) || o.productCategory == c {
        if Ordered(orders, c) {
          var j :| 0 <= j < |orders| && orders[j].productCategory == c;
          if j < |prefix| { assert prefix[j].productCategory == c; }
        }
        if Ordered(prefix, c) {
          var j :| 0 <= j < |prefix| && prefix[j].productCategory == c;
          assert orders[j].productCategory == c;
        }
      }
    }
  }

  /** Each entry's `unitsSold` is the total quantity ordered in its category. */
  lemma {:induction false} UnitsByCategoryUnits(orders: seq<Order>)
    ensures forall k :: 0 <= k < |UnitsByCategory(orders)| ==>
      UnitsByCategory(orders)[k].unitsSold == UnitsOf(orders, UnitsByCategory(orders)[k].category)
    decreases |orders|
  {
    if orders != [] {
      var prefix := orders[..|orders| - 1];
      var o := orders[|orders| - 1];
      var before := UnitsByCategory(prefix);
      var after := UnitsByCategory(orders);
      UnitsByCategoryUnits(prefix);
      UnitsByCategoryCategories(prefix);
      match FirstIndex(before, (e: CategoryUnits) => e.category == o.productCategory)
      case Some(i) =>
        forall k | 0 <= k < |after| ensures after[k].unitsSold == UnitsOf(orders, after[k].category) {
          if k != i {
            assert before[k].category != before[i].category;
          }
        }
      case None =>
        assert !Reported(before, o.productCategory);
        UnitsOfAbsent(prefix, o.productCategory);
        forall k | 0 <= k < |after| ensures after[k].unitsSold == UnitsOf(orders, after[k].category) {
          if k < |before| {
            assert before[k].category != o.productCategory;
          }
        }
    }
  }

  /** The report's entries add up to the units of all orders. */
  lemma {:induction false} UnitsByCategoryTotal(orders: seq<Order>)
    ensures ReportTotal(UnitsByCategory(orders)) == TotalUnits(orders)
    decreases |orders|
  {
    if orders != [] {
      UnitsByCategoryTotal(orders[..|orders| - 1]);
      AddUnitsTotal(UnitsByCategory(orders[..|orders| - 1]), orders[|orders| - 1]);
    }
  }

  // ----- The order desk -----

  /**
   * The page's `orders` array, and the shared 'inventory' key it reads
   * and writes back on every order.
   */
  class OrderDesk {
    var inventory: seq<Row>
    var orders: seq<Order>

    /** Absent keys load as empty tables. */
    constructor (storedInventory: Option<seq<Row>>, storedOrders: Option<seq<Order>>)
      ensures inventory == (if storedInventory.Some? then storedInventory.value else [])
      ensures orders == (if storedOrders.Some? then storedOrders.value else [])
    {
      inventory := if storedInventory.Some? then storedInventory.value else [];
      orders := if storedOrders.Some? then storedOrders.value else [];
    }

    /**
     * `handleOrderSubmission`: id, customer and category are trimmed,
     * quantity and price parsed; both tables then change as `PlaceOrder` says.
     */
    method HandleOrderSubmission(rawId: string, rawCustomer: string, rawCategory: string,
                                 quantityOrdered: Option<int>, unitPrice: Option<int>, orderStatus: string)
      returns (outcome: OrderOutcome)
      modifies this
      ensures (outcome, inventory, orders) ==
        PlaceOrder(old(inventory), old(orders), Trim(rawId), Trim(rawCustomer), Trim(rawCategory),
                   quantityOrdered, unitPrice, orderStatus)
    {
      outcome := LogOrder(Trim(rawId), Trim(rawCustomer), Trim(rawCategory), quantityOrdered, unitPrice, orderStatus);
    }

    /** The checks, the stock deduction and the append, on trimmed fields. */
    method LogOrder(orderId: string, customerDetails: string, productCategory: string,
                    quantityOrdered: Option<int>, unitPrice: Option<int>, orderStatus: string)
      returns (outcome: OrderOutcome)
      modifies this
      ensures (outcome, inventory, orders) ==
        PlaceOrder(old(inventory), old(orders), orderId, customerDetails, productCategory,
                   quantityOrdered, unitPrice, orderStatus)
    {
      if orderId == [] || customerDetails == [] || productCategory == [] || quantityOrdered.None? || unitPrice.None? {
        return InvalidOrder;
      }
      var found := FindRow(inventory, productCategory);
      if found.None? {
        return CategoryNotFound;
      }
      var i := found.value;
      if inventory[i].stock < quantityOrdered.value {
        return InsufficientStock(inventory[i].stock);
      }
      var remaining := inventory[i].stock - quantityOrdered.value;
      inventory := inventory[i := inventory[i].(stock := remaining)];
      orders := orders + [Order(orderId, customerDetails, productCategory, quantityOrdered.value, unitPrice.value, orderStatus)];
      outcome := OrderLogged(remaining);
    }

    /** `updateOrderStatus`: the order log changes as `SetStatus` says; stock is untouched. */
    method UpdateOrderStatus(orderId: string, newStatus: Option<string>) returns (outcome: StatusOutcome)
      modifies this
      ensures inventory == old(inventory)
      ensures (outcome, orders) == SetStatus(old(orders), orderId, newStatus)
    {
      var found := FindOrder(orders, orderId);
      if found.None? {
        return OrderNotFound;
      }
      if newStatus.Some? && newStatus.value != [] {
        var i := found.value;
        orders := orders[i := orders[i].(orderStatus := newStatus.value)];
        outcome := StatusUpdated;
      } else {
        outcome := StatusKept;
      }
    }
  }
}
