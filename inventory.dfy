/**
 * The inventory table of inventory.js, keyed by `itemId` with a
 * `category` per item: the form's upsert, the low-stock alerts and
 * supplier list, the demand forecast, the order report's filter, and the
 * sync that adds logged purchases into stock.
 */
module Inventory {
  import opened Common
  import opened Text

  datatype Item = Item(
    itemId: string, category: string, quantityAvailable: int, reorderLevel: int,
    restockDate: string, storageLocation: string)

  /** A record of the shared 'purchases' key as this module reads it: only `category` and `quantity`. */
  datatype CategoryPurchase = CategoryPurchase(category: string, quantity: int)

  /** What `handleInventorySubmission` reports instead of its alerts. */
  datatype SubmitOutcome = InvalidItem | CategoryClash | ItemUpdated | ItemAdded

  predicate UniqueItemIds(items: seq<Item>) {
    forall i, j :: 0 <= i < j < |items| ==> items[i].itemId != items[j].itemId
  }

  /** `inventory.find(item => item.itemId === itemId)`, as a position. */
  function FindItem(items: seq<Item>, itemId: string): (r: Option<nat>)
    ensures r.Some? ==> r.value < |items| && items[r.value].itemId == itemId
    ensures r.Some? ==> forall j :: 0 <= j < r.value ==> items[j].itemId != itemId
    ensures r.None? <==> forall j :: 0 <= j < |items| ==> items[j].itemId != itemId
  {
    FirstIndex(items, (item: Item) => item.itemId == itemId)
  }

  /** `value || 'N/A'`: an empty text is stored as "N/A". */
  function OrNotAvailable(s: string): (r: string)
    ensures r != []
    ensures s != [] ==> r == s
    ensures s == [] ==> r == "N/A"
  {
    if s == [] then "N/A" else s
  }

  // ----- The form's upsert (`handleInventorySubmission`) -----

  /**
   * The upsert on already-trimmed form values: a missing id or category or
   * a non-numeric quantity rejects; an existing id keeps its category, and
   * a submission naming another category is rejected; otherwise the first
   * item with the id is overwritten, or a new item appended, with a blank
   * restock date or location stored as "N/A".
   */
  function Upsert(items: seq<Item>, itemId: string, category: string, quantityAvailable: Option<int>,
                  reorderLevel: Option<int>, restockDate: string, storageLocation: string)
    : (r: (SubmitOutcome, seq<Item>))
    ensures r.0 == InvalidItem <==> itemId == [] || category == [] || quantityAvailable.None? || reorderLevel.None?
    ensures r.0 == CategoryClash <==>
      r.0 != InvalidItem && FindItem(items, itemId).Some? && items[FindItem(items, itemId).value].category != category
    ensures r.0 == ItemAdded <==> r.0 != InvalidItem && FindItem(items, itemId).None?
    ensures r.0 == InvalidItem || r.0 == CategoryClash ==> r.1 == items
    ensures r.0 == ItemUpdated ==>
      var i := FindItem(items, itemId).value;
      r.1 == items[i := items[i].(quantityAvailable := quantityAvailable.value, reorderLevel := reorderLevel.value,
                                  restockDate := OrNotAvailable(restockDate),
                                  storageLocation := OrNotAvailable(storageLocation))]
    ensures r.0 == ItemAdded ==>
      r.1 == items + [Item(itemId, category, quantityAvailable.value, reorderLevel.value,
                           OrNotAvailable(restockDate), OrNotAvailable(storageLocation))]
  {
    if itemId == [] || category == [] || quantityAvailable.None? || reorderLevel.None? then (InvalidItem, items)
    else match FindItem(items, itemId)
      case Some(i) =>
        if items[i].category != category then (CategoryClash, items)
        else (ItemUpdated, items[i := items[i].(category := category,
                                                quantityAvailable := quantityAvailable.value,
                                                reorderLevel := reorderLevel.value,
                                                restockDate := OrNotAvailable(restockDate),
                                                storageLocation := OrNotAvailable(storageLocation))])
      case None =>
        (ItemAdded, items + [Item(itemId, category, quantityAvailable.value, reorderLevel.value,
                                  OrNotAvailable(restockDate), OrNotAvailable(storageLocation))])
  }

  /**
   * No submission changes the id or the category of an item already in the
   * table, removes an item, or breaks the uniqueness of item ids.
   */
  lemma UpsertKeepsIdsAndCategories(items: seq<Item>, itemId: string, category: string, quantityAvailable: Option<int>,
                                    reorderLevel: Option<int>, restockDate: string, storageLocation: string)
    ensures var r := Upsert(items, itemId, category, quantityAvailable, reorderLevel, restockDate, storageLocation).1;
      && |r| >= |items|
      && (forall i :: 0 <= i < |items| ==> r[i].itemId == items[i].itemId && r[i].category == items[i].category)
      && (UniqueItemIds(items) ==> UniqueItemIds(r))
  {
  }

  // ----- Alerts and the supplier list -----

  /** The low-stock test of `generateAlerts` and `syncWithSupplierManagement`. */
  predicate IsLowStock(item: Item) {
    item.quantityAvailable <= item.reorderLevel
  }

  /** The items `generateAlerts` raises a low-stock alert for, in table order. */
  function LowStockItems(items: seq<Item>): (r: seq<Item>)
    ensures IsSubsequence(r, items)
    ensures forall item :: item in r <==> item in items && item.quantityAvailable <= item.reorderLevel
    ensures forall item :: multiset(r)[item] == if IsLowStock(item) then multiset(items)[item] else 0
  {
    Filter(items, IsLowStock)
  }

  datatype SupplierNotice = NoRestockNeeded | NotifySuppliers(lowItems: seq<Item>)

  /** `syncWithSupplierManagement`: notify for the low items, or report that none is low. */
  function SupplierNotification(items: seq<Item>): (r: SupplierNotice)
    ensures r.NoRestockNeeded? <==> forall i :: 0 <= i < |items| ==> !IsLowStock(items[i])
    ensures r.NotifySuppliers? ==> r.lowItems == LowStockItems(items) && r.lowItems != []
  {
    var low := LowStockItems(items);
    if low == [] then
      NoRestockNeeded
    else
      assert low[0] in items;
      NotifySuppliers(low)
  }

  // ----- Demand forecast (`generateForecast`) -----

  datatype Verdict = ConsiderRestocking | StockSufficient

  datatype ForecastLine = ForecastLine(itemId: string, category: string, verdict: Verdict)

  /** Items the forecast skips: no id, the id "N/A", or no category. */
  predicate Forecastable(item: Item) {
    item.itemId != [] && item.itemId != "N/A" && item.category != []
  }

  /** `recentPurchases.reduce((sum, p) => sum + p.quantity, 0)` over the purchases of one category. */
  function CategoryTotal(purchases: seq<CategoryPurchase>, category: string): (r: int)
    ensures (forall k :: 0 <= k < |purchases| ==> purchases[k].category != category) ==> r == 0
    ensures (forall k :: 0 <= k < |purchases| ==> purchases[k].quantity >= 0) ==> r >= 0
  {
    if purchases == [] then 0
    else
      var last := purchases[|purchases| - 1];
      CategoryTotal(purchases[..|purchases| - 1], category) + (if last.category == category then last.quantity else 0)
  }

  /**
   * The verdict for one item: predicted demand, 80% of what was purchased
   * in its category, below the reorder level asks for restocking.
   */
  function ForecastVerdict(item: Item, purchases: seq<CategoryPurchase>): (v: Verdict)
    ensures v == ConsiderRestocking <==> 4 * CategoryTotal(purchases, item.category) < 5 * item.reorderLevel
  {
    var predictedDemand := CategoryTotal(purchases, item.category) as real * 0.8;
    if predictedDemand < item.reorderLevel as real then ConsiderRestocking else StockSufficient
  }

  function ForecastLines(items: seq<Item>, purchases: seq<CategoryPurchase>): (r: seq<ForecastLine>)
    ensures |r| == |Filter(items, Forecastable)|
    ensures forall k :: 0 <= k < |r| ==>
      var item := Filter(items, Forecastable)[k];
      r[k] == ForecastLine(item.itemId, item.category, ForecastVerdict(item, purchases))
  {
    if items == [] then []
    else
      var rest := ForecastLines(items[1..], purchases);
      var item := items[0];
      if Forecastable(item) then [ForecastLine(item.itemId, item.category, ForecastVerdict(item, purchases))] + rest
      else rest
  }

  /**
   * `generateForecast`: nothing for an empty table, otherwise one line per
   * forecastable item, in table order.
   */
  function Forecast(items: seq<Item>, purchases: seq<CategoryPurchase>): (r: Option<seq<ForecastLine>>)
    ensures r.None? <==> items == []
    ensures r.Some? ==> r.value == ForecastLines(items, purchases)
  {
    if items == [] then None else Some(ForecastLines(items, purchases))
  }

  /** A line asks for restocking exactly when 4 * purchased < 5 * reorder level, and lines exist only for forecastable items. */
  lemma ForecastLineMeaning(items: seq<Item>, purchases: seq<CategoryPurchase>, k: nat)
    requires k < |ForecastLines(items, purchases)|
    ensures var item := Filter(items, Forecastable)[k];
      && item in items && Forecastable(item)
      && ForecastLines(items, purchases)[k].itemId == item.itemId
      && (ForecastLines(items, purchases)[k].verdict == ConsiderRestocking <==>
          4 * CategoryTotal(purchases, item.category) < 5 * item.reorderLevel)
  {
    var kept := Filter(items, Forecastable);
    assert kept[k] in kept;
  }

  // ----- The order report (`generateReport`) -----

  /**
   * A record of the shared 'orders' key as this module reads it; an absent
   * field reads as "" or 0.
   */
  datatype ReportOrder = ReportOrder(date: string, totalCost: int, quantityOrdered: int, category: string)

  /** The report drops an order lacking a date, total cost, quantity or category. */
  predicate CompleteOrder(o: ReportOrder) {
    o.date != [] && o.totalCost != 0 && o.quantityOrdered != 0 && o.category != []
  }

  predicate KnownPeriod(period: string) {
    period == "daily" || period == "weekly" || period == "monthly"
  }

  /**
   * The orders listed under "Products Sold": complete orders that
   * `inWindow` (the clock's decision for `period`) accepts; none for an
   * unknown period.
   */
  function ReportOrders(orders: seq<ReportOrder>, period: string, inWindow: ReportOrder -> bool): (r: seq<ReportOrder>)
    ensures IsSubsequence(r, orders)
    ensures !KnownPeriod(period) ==> r == []
    ensures KnownPeriod(period) ==> forall o :: o in r <==> o in orders && CompleteOrder(o) && inWindow(o)
    ensures KnownPeriod(period) ==>
      forall o :: multiset(r)[o] == if CompleteOrder(o) && inWindow(o) then multiset(orders)[o] else 0
  {
    if KnownPeriod(period) then Filter(orders, (o: ReportOrder) => CompleteOrder(o) && inWindow(o))
    else []
  }

  /** The items listed under "Current Inventory": those with a category. */
  function ReportInventory(items: seq<Item>): (r: seq<Item>)
    ensures IsSubsequence(r, items)
    ensures forall item :: item in r <==> item in items && item.category != []
    ensures forall item :: multiset(r)[item] == if item.category != [] then multiset(items)[item] else 0
  {
    Filter(items, (item: Item) => item.category != [])
  }

  // ----- Sync with purchase records (`syncWithPurchaseRecords`) -----

  /** `inventory.find(item => item.category === category)`, as a position. */
  function FindCategory(items: seq<Item>, category: string): (r: Option<nat>)
    ensures r.Some? ==> r.value < |items| && items[r.value].category == category
    ensures r.Some? ==> forall j :: 0 <= j < r.value ==> items[j].category != category
    ensures r.None? <==> forall j :: 0 <= j < |items| ==> items[j].category != category
  {
    FirstIndex(items, (item: Item) => item.category == category)
  }

  /** Tables with the same categories at the same positions agree on every category lookup. */
  lemma FindCategorySameCategories(a: seq<Item>, b: seq<Item>, category: string)
    requires |a| == |b| && forall i :: 0 <= i < |a| ==> a[i].category == b[i].category
    ensures FindCategory(a, category) == FindCategory(b, category)
  {
  }

  /** One purchase: its quantity goes to the first item of its category, if any. */
  function ApplyPurchase(items: seq<Item>, p: CategoryPurchase): (r: seq<Item>)
    ensures |r| == |items|
    ensures forall i :: 0 <= i < |items| ==>
      r[i] == items[i].(quantityAvailable := r[i].quantityAvailable)
    ensures FindCategory(items, p.category).None? ==> r == items
    ensures FindCategory(items, p.category).Some? ==>
      var i := FindCategory(items, p.category).value;
      && r[i].quantityAvailable == items[i].quantityAvailable + p.quantity
      && forall j :: 0 <= j < |r| && j != i ==> r[j] == items[j]
  {
    match FindCategory(items, p.category)
    case None => items
    case Some(i) => items[i := items[i].(quantityAvailable := items[i].quantityAvailable + p.quantity)]
  }

  /** The table after applying `purchases` one after the other, in log order. */
  function SyncAll(items: seq<Item>, purchases: seq<CategoryPurchase>): (r: seq<Item>)
    ensures |r| == |items|
    ensures forall i :: 0 <= i < |items| ==>
      r[i] == items[i].(quantityAvailable := r[i].quantityAvailable)
    decreases |purchases|
  {
    if purchases == [] then items
    else ApplyPurchase(SyncAll(items, purchases[..|purchases| - 1]), purchases[|purchases| - 1])
  }

  /** What the purchases whose category first matches item `i` add up to. */
  function AddedTo(items: seq<Item>, purchases: seq<CategoryPurchase>, i: nat): int
    decreases |purchases|
  {
    if purchases == [] then 0
    else
      var last := purchases[|purchases| - 1];
      AddedTo(items, purchases[..|purchases| - 1], i) +
        (if FindCategory(items, last.category) == Some(i) then last.quantity else 0)
  }

  /**
   * After a sync every item holds its old quantity plus exactly the
   * purchases matched to it; all its other fields are unchanged.
   */
  lemma {:induction false} SyncAllQuantities(items: seq<Item>, purchases: seq<CategoryPurchase>, i: nat)
    requires i < |items|
    ensures SyncAll(items, purchases)[i].quantityAvailable ==
      items[i].quantityAvailable + AddedTo(items, purchases, i)
    decreases |purchases|
  {
    if purchases != [] {
      var prefix := purchases[..|purchases| - 1];
      var last := purchases[|purchases| - 1];
      var before := SyncAll(items, prefix);
      SyncAllQuantities(items, prefix, i);
      FindCategorySameCategories(before, items, last.category);
    }
  }

  /** An item that no purchase is matched to keeps its quantity. */
  lemma {:induction false} SyncLeavesUnmatchedItems(items: seq<Item>, purchases: seq<CategoryPurchase>, i: nat)
    requires i < |items|
    requires forall k :: 0 <= k < |purchases| ==> FindCategory(items, purchases[k].category) != Some(i)
    ensures SyncAll(items, purchases)[i] == items[i]
    decreases |purchases|
  {
    SyncAllQuantities(items, purchases, i);
    NoMatchAddsNothing(items, purchases, i);
  }

  lemma {:induction false} NoMatchAddsNothing(items: seq<Item>, purchases: seq<CategoryPurchase>, i: nat)
    requires forall k :: 0 <= k < |purchases| ==> FindCategory(items, purchases[k].category) != Some(i)
    ensures AddedTo(items, purchases, i) == 0
    decreases |purchases|
  {
    if purchases != [] {
      var prefix := purchases[..|purchases| - 1];
      assert forall k :: 0 <= k < |prefix| ==> prefix[k] == purchases[k];
      NoMatchAddsNothing(items, prefix, i);
    }
  }

  /** The matching depends only on categories, which a sync keeps: syncing twice adds twice. */
  lemma SyncTwiceAddsTwice(items: seq<Item>, purchases: seq<CategoryPurchase>, i: nat)
    requires i < |items|
    ensures SyncAll(SyncAll(items, purchases), purchases)[i].quantityAvailable ==
      items[i].quantityAvailable + 2 * AddedTo(items, purchases, i)
  {
    var once := SyncAll(items, purchases);
    SyncAllQuantities(items, purchases, i);
    SyncAllQuantities(once, purchases, i);
    AddedToSameCategories(once, items, purchases, i);
  }

  lemma {:induction false} AddedToSameCategories(a: seq<Item>, b: seq<Item>, purchases: seq<CategoryPurchase>, i: nat)
    requires |a| == |b| && forall k :: 0 <= k < |a| ==> a[k].category == b[k].category
    ensures AddedTo(a, purchases, i) == AddedTo(b, purchases, i)
    decreases |purchases|
  {
    if purchases != [] {
      AddedToSameCategories(a, b, purchases[..|purchases| - 1], i);
      FindCategorySameCategories(a, b, purchases[|purchases| - 1].category);
    }
  }

  /** Hence the sync is not idempotent: any item receiving a nonzero amount differs after a second call. */
  lemma SyncNotIdempotent(items: seq<Item>, purchases: seq<CategoryPurchase>, i: nat)
    requires i < |items| && AddedTo(items, purchases, i) != 0
    ensures SyncAll(SyncAll(items, purchases), purchases) != SyncAll(items, purchases)
  {
    SyncTwiceAddsTwice(items, purchases, i);
    SyncAllQuantities(items, purchases, i);
  }

  // ----- The stored table and its updates -----

  /** The `inventory` array of the page, loaded from the 'inventory' key. */
  class InventoryStore {
    var items: seq<Item>

    /** An absent key loads as the empty table. */
    constructor (stored: Option<seq<Item>>)
      ensures items == (if stored.Some? then stored.value else [])
    {
      items := if stored.Some? then stored.value else [];
    }

    /**
     * `handleInventorySubmission`: id, category, restock date and location
     * are trimmed, the two quantities come from `parseInt`; the table then
     * changes as `Upsert` says.
     */
    method Submit(rawId: string, rawCategory: string, quantityAvailable: Option<int>, reorderLevel: Option<int>,
                  rawRestockDate: string, rawLocation: string)
      returns (outcome: SubmitOutcome)
      modifies this
      ensures (outcome, items) == Upsert(old(items), Trim(rawId), Trim(rawCategory), quantityAvailable, reorderLevel,
                                         Trim(rawRestockDate), Trim(rawLocation))
    {
      outcome := Store(Trim(rawId), Trim(rawCategory), quantityAvailable, reorderLevel,
                       Trim(rawRestockDate), Trim(rawLocation));
    }

    /** The checks and the update or append of `handleInventorySubmission`, on trimmed fields. */
    method Store(itemId: string, category: string, quantityAvailable: Option<int>, reorderLevel: Option<int>,
                 restockDate: string, storageLocation: string)
      returns (outcome: SubmitOutcome)
      modifies this
      ensures (outcome, items) == Upsert(old(items), itemId, category, quantityAvailable, reorderLevel,
                                         restockDate, storageLocation)
    {
      if itemId == [] || category == [] || quantityAvailable.None? || reorderLevel.None? {
        return InvalidItem;
      }
      var existing := FindItem(items, itemId);
      if existing.Some? {
        var i := existing.value;
        if items[i].category != category {
          return CategoryClash;
        }
        items := items[i := items[i].(category := category,
                                      quantityAvailable := quantityAvailable.value,
                                      reorderLevel := reorderLevel.value,
                                      restockDate := OrNotAvailable(restockDate),
                                      storageLocation := OrNotAvailable(storageLocation))];
        outcome := ItemUpdated;
      } else {
        items := items + [Item(itemId, category, quantityAvailable.value, reorderLevel.value,
                               OrNotAvailable(restockDate), OrNotAvailable(storageLocation))];
        outcome := ItemAdded;
      }
    }

    /**
     * `syncWithPurchaseRecords`: each purchase in log order adds its
     * quantity to the first item of its category.
     */
    method SyncWithPurchaseRecords(purchases: seq<CategoryPurchase>)
      modifies this
      ensures items == SyncAll(old(items), purchases)
    {
      for k := 0 to |purchases|
        invariant items == SyncAll(old(items), purchases[..k])
      {
        var purchase := purchases[k];
        var found := FindCategory(items, purchase.category);
        if found.Some? {
          var i := found.value;
          items := items[i := items[i].(quantityAvailable := items[i].quantityAvailable + purchase.quantity)];
        }
        assert purchases[..k + 1][..k] == purchases[..k];
      }
      assert purchases[..|purchases|] == purchases;
    }
  }
}
