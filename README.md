# Farm-to-market record keeping, modelled in Dafny

This project models the record-keeping core of a small browser
application for recording farmers, purchases, inventory, orders and
product categories. It covers five page scripts:

- **farms.js**: a farmer registry and a purchase log. Appends are
  guarded, deletion removes one farmer, and there is a search, a sorted
  copy of the log and a per-farmer summary.
- **inventory.js**: an item table keyed by `itemId`. It has an
  insert-or-update form, low-stock alerts and a supplier list, a demand
  forecast, the filters of the order report, and a sync that adds logged
  purchases into stock.
- **sales.js**: order entry. Each order takes stock out of the shared
  'inventory' rows. There is also a status update, a text filter and a
  units-sold report per category.
- **production1.js**: a product-category table. It classifies weights,
  sets prices and stock under guards, shows a restock status, decides
  whether packaging may go ahead, and guards the cost calculation.
- **data_share.js**: the shared store. It seeds the store's keys with
  defaults, adds purchases to the shared stock rows, lists rows for
  supplier notification and simulates restocking.

Each script gets its own Dafny module (`Farms`, `Inventory`, `Sales`,
`Production`, `DataShare`) and keeps that script's own record shapes.
The inventory rows of sales.js and data_share.js share the `StockRows`
module, because they use the same shape. `Common` holds `Option`, a
generic filter and a first-match search. `Text` holds the string
operations the scripts use: `trim`, ASCII lower-casing, `includes`, and
an order that stands in for `localeCompare`.

The scripts change their tables in place. So each page's tables are a
Dafny class with `seq` fields, and each handler that writes a table is
a method with `modifies this`. Handlers that only read the tables
(searches, sorted copies, filters and reports) are functions of the
tables, and `Production.ProductLine.AssignCategory`, which only reads
the table, is a method without `modifies`. Most handlers' postconditions equate the outcome and
the new state with a pure function, such as `Farms.RemoveFarmer`,
`Sales.PlaceOrder`, `Production.SetStock` or `DataShare.SyncStock`. The
properties are then stated on those functions and proved as lemmas. The
two append handlers of farms.js (`SaveFarmer` and `SavePurchase`, with
their inner `AddFarmer` and `LogPurchase`) state their outcomes and new
tables clause by clause instead.
Loops in the source become loops in the methods:

- the forEach over purchases;
- the restocking pass;
- the defaults loop;
- the weight classifier with its `break`.

Each loop carries the invariant that ties it to its specification
function.

Form input arrives as parameters:

- Text fields are raw strings that the model trims as the code does.
- A `parseInt`/`parseFloat` result is an `Option<int>`, where `None`
  stands for `NaN`.
- The answer to a `prompt` is an `Option<string>`, where `None` stands
  for a cancelled prompt.

What each handler reports through `alert` becomes an outcome datatype.

## Model

| member | source | states |
|---|---|---|
| Text.Trim | farms.js:64-67 | the trimmed text has no white space at either end; it is empty exactly when the input is all white space |
| Text.StrippedSlice | farms.js:64-67 | cutting white space off the front and then off the back leaves one slice of the text, with only white space outside it |
| Text.TrimIsSlice | farms.js:64-67 | the trimmed text is the input with a run of leading and a run of trailing white space removed, and nothing else |
| Text.Lower | farms.js:97-101 | lower-casing keeps the length, maps each character on its own, and leaves no capital letter |
| Text.ContainsEmpty | farms.js:99-100 | every text includes the empty query |
| Text.TextLeTotal | farms.js:199 | the order used for `localeCompare` relates every pair of ids |
| Text.TextLeTransitive | farms.js:199 | that order is transitive |
| Text.TextLeAntisymmetric | farms.js:199 | ids that are ordered both ways are equal |
| Common.Filter | farms.js:98-101 | a filter keeps order, keeps exactly the elements that pass, with their multiplicities, and never grows |
| Common.FilterKeepsAll | farms.js:98-101 | a filter that every element passes returns its input |
| Common.FilterDropsAll | inventory.js:253 | a filter that no element passes returns nothing |
| Common.FirstIndex | farms.js:74 | `findIndex`: the first position whose element matches, or none exactly when no element matches |
| Common.SpliceIsSubsequence | farms.js:109 | removing one element leaves the others in order |
| Common.SpliceAt | farms.js:109 | `splice(i, 1)` leaves one element fewer, each remaining element in its old order and place shifted past `i`, and exactly one copy of the removed element gone |
| Farms.FindFarmer | farms.js:74 | the position of the first farmer with the id; none exactly when no farmer has it |
| Farms.RemoveFarmer | farms.js:106-114 | an unknown id changes nothing; otherwise the farmer at the first match of the id goes and every other farmer keeps its place in order |
| Farms.RemoveFarmerClearsId | farms.js:106-114 | with unique ids, deletion keeps ids unique and leaves no farmer with the deleted id |
| Farms.SearchFarmers | farms.js:96-103 | the farmers, in order, whose lower-cased name or location includes the trimmed, lower-cased query |
| Farms.SearchBlankReturnsAll | farms.js:96-103 | a blank search lists every farmer |
| Farms.FarmerSummary | farms.js:211-217 | the summary is exactly the farmer's purchases, in log order |
| Farms.SummaryHasAtMostOneRow | farms.js:140-144 | since a farmer holds at most one purchase, a summary never has more than one row |
| Farms.InOrderTotal | farms.js:192-208 | each sort comparator relates every pair of purchases |
| Farms.InOrderTransitive | farms.js:192-208 | each sort comparator is transitive |
| Farms.Insert | farms.js:192-208 | inserting one purchase adds exactly that purchase |
| Farms.TiedCons | farms.js:192-208 | the purchases tying with a given one in `[h] + t` are `h`, if it ties, followed by those of `t` |
| Farms.TiesInOrder | farms.js:195-201 | two purchases that tie with a third may precede each other |
| Farms.InsertTied | farms.js:192-208 | an inserted purchase goes before every purchase it ties with, and the ties already present keep their order |
| Farms.SortedCons | farms.js:192-208 | a purchase in order with every element of a sorted list can go in front of it |
| Farms.InsertKeepsSorted | farms.js:192-208 | inserting into a sorted list keeps it sorted |
| Farms.SortBy | farms.js:192-208 | the sorted copy is a permutation of the log, is ordered by the key, and keeps purchases with equal keys in log order (a stable sort) |
| Farms.SortPurchases | farms.js:192-208 | 'date', 'farmer' and 'amount' give a permutation sorted by date text, farmer id or total cost; purchases that tie keep their log order; any other criterion gives the log as is |
| Farms.FarmRecords.constructor | farms.js:2-3 | an absent stored table loads as empty |
| Farms.FarmRecords.SaveFarmer | farms.js:63-85 | rejected exactly when a trimmed field is blank or the id is taken; otherwise the farmer is appended and unique ids stay unique |
| Farms.FarmRecords.AddFarmer | farms.js:69-80 | on already trimmed fields: rejected exactly when one is blank or the id is taken; otherwise the farmer is appended |
| Farms.FarmRecords.DeleteFarmer | farms.js:106-114 | the registry becomes `RemoveFarmer` of the old registry; the purchases are untouched |
| Farms.FarmRecords.SavePurchase | farms.js:128-151 | rejected exactly when a field is blank or not a number, or when the purchase id or the farmer already has a purchase; otherwise appended with total cost quantity × price, keeping purchase ids and farmers unique |
| Farms.FarmRecords.LogPurchase | farms.js:135-147 | on already trimmed fields: rejected exactly when one is blank or not a number, or the purchase id or farmer already has a purchase; otherwise the purchase is appended with total cost quantity × price |
| Inventory.OrNotAvailable | inventory.js:43-44 | a blank restock date or location is stored as "N/A"; any non-empty text is kept |
| Inventory.FindItem | inventory.js:32 | the position of the first item with the id; none exactly when no item has it |
| Inventory.Upsert | inventory.js:15-63 | rejects blank or non-numeric input and a category change for an existing id; otherwise overwrites the first item with the id, or appends a new item |
| Inventory.UpsertKeepsIdsAndCategories | inventory.js:32-56 | no submission removes an item, or changes the id or category of one already stored, or breaks id uniqueness |
| Inventory.LowStockItems | inventory.js:131-140 | the alerts are exactly the items with quantity at or below the reorder level, in order |
| Inventory.SupplierNotification | inventory.js:252-264 | no notice exactly when no item is low; otherwise a notice for the low items |
| Inventory.CategoryTotal | inventory.js:112-113 | the purchased quantity of a category is 0 when no purchase has that category, and never negative when no quantity is |
| Inventory.ForecastVerdict | inventory.js:112-117 | restocking is advised exactly when 4 × purchased in the category < 5 × reorder level (80 % of purchases below the level) |
| Inventory.ForecastLines | inventory.js:105-125 | one line per item with an id other than "N/A" and a category, in table order, with its verdict |
| Inventory.Forecast | inventory.js:96-128 | an empty table gives no forecast; otherwise the lines above |
| Inventory.ForecastLineMeaning | inventory.js:105-125 | each line belongs to a forecastable stored item and asks for restocking exactly under the 4:5 rule |
| Inventory.ReportOrders | inventory.js:173-192 | orders missing a date, cost, quantity or category are dropped; an unknown period lists nothing; otherwise the complete orders in the window, in order and each as often as it is logged |
| Inventory.ReportInventory | inventory.js:206 | the inventory part of the report lists exactly the items with a category, in order and each as often as it is stored |
| Inventory.FindCategory | inventory.js:242 | the position of the first item of the category; none exactly when no item has it |
| Inventory.ApplyPurchase | inventory.js:241-246 | a purchase adds its quantity to the first item of its category and changes nothing else; a purchase matching no item changes nothing |
| Inventory.SyncAll | inventory.js:239-250 | a sync keeps every item and field except the quantities |
| Inventory.SyncAllQuantities | inventory.js:239-250 | after a sync each item holds its old quantity plus exactly the purchases matched to it |
| Inventory.SyncLeavesUnmatchedItems | inventory.js:241-246 | an item that no purchase matches is unchanged |
| Inventory.NoMatchAddsNothing | inventory.js:241-246 | no matching purchase means nothing is added |
| Inventory.SyncTwiceAddsTwice | inventory.js:239-250 | syncing twice adds the purchases twice |
| Inventory.AddedToSameCategories | inventory.js:242 | matching depends only on the items' categories |
| Inventory.SyncNotIdempotent | inventory.js:239-250 | a sync that adds anything changes the table again when repeated |
| Inventory.InventoryStore.constructor | inventory.js:7 | an absent stored table loads as empty |
| Inventory.InventoryStore.Submit | inventory.js:15-63 | the table changes as `Upsert` of the trimmed form values says |
| Inventory.InventoryStore.Store | inventory.js:26-57 | on already trimmed fields, the table changes as `Upsert` says |
| Inventory.InventoryStore.SyncWithPurchaseRecords | inventory.js:239-250 | the loop leaves the table as `SyncAll` says |
| StockRows.FindRow | sales.js:28 | the first row with the name, or none exactly when no row has it |
| StockRows.TotalStockUpdate | sales.js:41 | changing one row's stock by d changes the total stock by d |
| Sales.PlaceOrder | sales.js:11-61 | rejects blank or non-numeric input, an unknown category and stock below the quantity (reporting the row's stock), leaving both tables as they were; otherwise only the category's row loses the quantity, stock stays non-negative and the order is appended |
| Sales.PlaceOrderConservesUnits | sales.js:35-41 | a logged order removes exactly its quantity from total stock |
| Sales.DuplicateOrderIdAccepted | sales.js:21-57 | order ids are not checked for uniqueness: a complete order with enough stock is logged whatever its id |
| Sales.FindOrder | sales.js:109 | the first order with the id, or none exactly when no order has it |
| Sales.SetStatus | sales.js:108-121 | unknown id: not found; a cancelled or empty answer changes nothing; otherwise only that order's status changes |
| Sales.FilterOrders | sales.js:124-132 | the orders, in order, whose lower-cased customer, category or status includes the trimmed, lower-cased query |
| Sales.FilterBlankKeepsAll | sales.js:124-132 | a blank filter lists every order |
| Sales.AddUnits | sales.js:195-198 | one reduce step; `AddUnitsCategories` and `AddUnitsTotal` state what it does to the categories and the total |
| Sales.UnitsByCategory | sales.js:193-201 | the whole reduce; `UnitsByCategoryCategories`, `UnitsByCategoryUnits` and `UnitsByCategoryTotal` state its meaning |
| Sales.ReportTotalUpdate | sales.js:198 | adding to one entry adds the same amount to the report's total |
| Sales.AddUnitsCategories | sales.js:195-198 | one reduce step keeps entries distinct and adds exactly the order's category |
| Sales.AddUnitsTotal | sales.js:195-198 | one reduce step adds the order's quantity to the report total |
| Sales.UnitsOfAbsent | sales.js:193-201 | a category with no orders has sold nothing |
| Sales.UnitsByCategoryCategories | sales.js:193-201 | the report lists each ordered category exactly once and no other |
| Sales.UnitsByCategoryUnits | sales.js:193-201 | each category's units sold is the sum of its orders' quantities |
| Sales.UnitsByCategoryTotal | sales.js:193-201 | the units in the report add up to the units of all orders |
| Sales.OrderDesk.constructor | sales.js:3 | an absent stored table loads as empty |
| Sales.OrderDesk.HandleOrderSubmission | sales.js:11-61 | both tables change as `PlaceOrder` of the trimmed fields says |
| Sales.OrderDesk.LogOrder | sales.js:21-57 | on already trimmed fields, both tables change as `PlaceOrder` says |
| Sales.OrderDesk.UpdateOrderStatus | sales.js:108-121 | the log changes as `SetStatus` says; stock is untouched |
| Production.FirstFit | production1.js:34-39 | the first category, in table order, with a numeric weight at least the input, or none exactly when there is none |
| Production.Classify | production1.js:29-44 | NaN gives "N/A", over 5000 gives "Premium", otherwise the first fitting category's name, or "N/A" |
| Production.FirstFitMonotone | production1.js:34-39 | on any table a lighter weight fits no later category than a heavier one |
| Production.DefaultSmall | production1.js:2-10 | with the default table every weight up to 100, negatives included, is Small |
| Production.DefaultBoundaries | production1.js:2-10 | with the default table 101 is Medium, 5000 Bulk Pack, 5001 Premium, and NaN "N/A" |
| Production.DefaultRank | production1.js:29-44 | every weight classifies to the default category at a position inside the table |
| Production.DefaultClassifyMonotone | production1.js:34-40 | with the default table, a heavier weight never gets an earlier-listed category |
| Production.FindByName | production1.js:64 | case-insensitive lookup: the first matching category, or none exactly when none matches |
| Production.SetPrice | production1.js:59-73 | NaN or a price ≤ 0 is refused and an unknown category changes nothing; otherwise only that category's price changes |
| Production.SetStock | production1.js:106-120 | NaN or a stock < 0 is refused and an unknown category changes nothing; otherwise only that category's stock changes |
| Production.SetStockIdempotent | production1.js:106-120 | setting the same stock level twice is the same as once |
| Production.Status | production1.js:90-96 | "Restock Needed" exactly when stock ≤ restock alert, otherwise "Sufficient Stock" |
| Production.InventoryReport | production1.js:123-142 | one line per category, in order, with its name, its stock and its status text ("Restock Needed" or "Sufficient Stock") |
| Production.PackagingCheck | production1.js:170-194 | packaging proceeds exactly when no category is low; otherwise the alerts are exactly the low categories, in order and each as often as it is listed |
| Production.CalculateCost | production1.js:145-167 | refused for NaN or non-positive quantity, then an unknown category, then a price ≤ 0; otherwise a positive price × quantity |
| Production.DefaultTableHasNoCost | production1.js:2-10 | with the default table, where no price is set, no cost is ever computed |
| Production.ProductLine.constructor | production1.js:2-10 | a missing stored table gives the default table |
| Production.ProductLine.AssignCategory | production1.js:29-44 | the loop with `break` and the Premium override compute `Classify` |
| Production.ProductLine.UpdatePrice | production1.js:59-73 | the table changes as `SetPrice` says |
| Production.ProductLine.UpdateStock | production1.js:106-120 | the table changes as `SetStock` says |
| DataShare.WithDefaults | data_share.js:30-34 | the seeding fold; the `Seeded` lemmas below state its effect on each key |
| DataShare.DefaultedStep | data_share.js:30-34 | a key is among the defaults exactly when it is among the earlier ones or is the last one |
| DataShare.SeededKey | data_share.js:30-34 | after seeding, a key is present exactly when it was present before or is a default key |
| DataShare.SeededKeepsSet | data_share.js:30-34 | a key that already held non-empty text keeps it |
| DataShare.SeededOutside | data_share.js:30-34 | a key that is not a default key is untouched |
| DataShare.SeededFills | data_share.js:30-34 | with distinct default keys, an absent or empty default key gets its default text |
| DataShare.DefaultDataWellFormed | data_share.js:13-28 | the six default keys are distinct and every default text is non-empty |
| DataShare.WithDefaultsIdempotent | data_share.js:30-34 | seeding twice gives the same store as seeding once |
| DataShare.SeededKeysAreSet | data_share.js:30-34 | after seeding, no default key is absent or empty |
| DataShare.DefaultSeedingIdempotent | data_share.js:12-35 | running the page's own seeding twice on any store gives the same store as once |
| DataShare.DefaultInventoryShape | data_share.js:16-24 | the default inventory is seven rows, each with stock 0, price 0 and restock alert 5 |
| DataShare.SharedStore.constructor | data_share.js:31 | the store holds the given entries, as `getItem` reads them |
| DataShare.SharedStore.InitializeDefaults | data_share.js:30-34 | the loop leaves the store as the fold `WithDefaults` says, whose effect on each key the `Seeded` lemmas give |
| DataShare.MatchedRow | data_share.js:121 | the first row named after the purchase's category; none exactly when the purchase has no category or no row has that name |
| DataShare.ApplyStockPurchase | data_share.js:120-125 | a purchase adds its quantity to the first row named after its category; an unmatched purchase, or one without a category, changes nothing |
| DataShare.SyncStock | data_share.js:120-125 | the sync keeps the row count, order, names, prices and alert levels |
| DataShare.MatchedRowSameNames | data_share.js:121 | matching depends only on the rows' names |
| DataShare.SyncStockQuantities | data_share.js:120-125 | each row ends with its old stock plus exactly the purchases matched to it |
| DataShare.ApplyStockPurchaseTotal | data_share.js:123 | one purchase adds its quantity to total stock if it matches a row, and nothing otherwise |
| DataShare.SyncStockTotal | data_share.js:120-125 | total stock grows by exactly the quantities of the matched purchases |
| DataShare.SupplierNotice | data_share.js:133-153 | no data for a missing or empty inventory; all sufficient exactly when no row is low; otherwise exactly the low rows, in order and each as often as it is stored |
| DataShare.Restock | data_share.js:164-168 | a low row gains twice its alert level; any other row is unchanged |
| DataShare.RestockAll | data_share.js:164-168 | restocking keeps the row count and treats each row on its own |
| DataShare.RestockAllTotal | data_share.js:164-168 | restocking adds twice the alert levels of the low rows to total stock |
| DataShare.RestockClearsLowStock | data_share.js:141-168 | if every row's stock plus alert level is positive, no row is low after restocking |
| DataShare.FreshInventoryRestock | data_share.js:16-24 | rows with no stock and positive alerts are all listed for suppliers, and one restocking clears them all |
| DataShare.SeededInventoryRestock | data_share.js:16-24 | the seeded inventory is all listed for suppliers, and one restocking (data_share.js:164-168) gives each row 10 units and clears it |
| DataShare.SharedInventory.constructor | data_share.js:157 | the inventory holds the parsed stored rows, if any |
| DataShare.SharedInventory.SyncInventoryWithPurchases | data_share.js:114-130 | nothing changes if either key is missing; otherwise the loop leaves the rows as `SyncStock` says |
| DataShare.SharedInventory.SimulateRestocking | data_share.js:156-173 | nothing changes on a missing or empty inventory; otherwise the loop leaves the rows as `RestockAll` says |

## Left out

- The DOM, `alert`, `prompt` and form wiring are left out, because they are display only. Form values and prompt answers are parameters, and alerts are outcome values.
- `localStorage` and JSON are left out. Stored tables are typed values, and an absent key is `None`. Only the seeding rule works on text (`map<string, string>`). The default texts are written out as JSON literals and are not derived from the rows.
- The cross-tab `storage` event handlers (farms.js:15-21, production1.js:19-26, data_share.js:58-75) are left out. They only refresh the display or merge by index.
- Floating point is not modelled. `parseFloat` results, prices, `totalCost`, the cost of production1.js and `toFixed` formatting are integers. Revenue and `totalPrice` in sales.js are left out, and so is finan.js.
- Clock and date parsing are left out. `Inventory.ReportOrders` takes the period's window as a predicate. Order timestamps (sales.js:54), restock-date reminders (inventory.js:147-154) and the expense and raw-material windows (farms.js:249-301) are not modelled.
- Farms.SortPurchases: the 'date' criterion orders by the `purchaseDate` text, which agrees with `new Date` subtraction only for ISO dates. The 'farmer' criterion uses character-code order in place of `localeCompare`'s locale rules.
- CSV export and download (farms.js:304-323, inventory.js:214-236, sales.js:218-241) are left out. They are file plumbing.
- `toLowerCase` is modelled for ASCII letters only. `trim` strips the ECMAScript white-space and line-terminator characters.
- Sales.UnitsByCategory: entries appear in order of first appearance. `Object.entries` would list integer-like category names first; the model ignores that. The accumulator is a plain `{}`, so a category named after an inherited `Object.prototype` member ("constructor", "toString", "valueOf", ...) gets no entry of its own in the source and is missing from the report; the model lists it like any other category.
- Each module models only records of its own shape. The scripts share storage keys but write different shapes, and in the source a missing field is `undefined`, which the model does not represent. The one case modelled is a purchase without `category` in data_share.js, which is `None` and matches no row. Consequences left out:
  - the seven rows data_share.js:16-24 seeds under 'inventory' have no `quantityAvailable` or `reorderLevel`; inventory.js:136 raises no alert for them (`undefined <= undefined` is false), whereas an `Inventory` item always carries both numbers;
  - those rows have no `category` either, so in inventory.js:242 a farms.js purchase, which has no `category`, matches the first of them, and inventory.js:244 turns its quantity into NaN; in the model every item and purchase has a category and quantities stay integers.
- `editFarmer` (farms.js:117-126) is left out, because it only fills the form.
- Sales.OrderDesk: the desk keeps the 'inventory' rows as a field and does not re-read the key before each order; no other writer is modelled.
- Production.ProductLine: writing the table to both the 'categories' and 'inventory' keys (production1.js:13-16) is left out.
