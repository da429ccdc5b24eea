/**
 * The shared-store helpers of data_share.js: seeding the store's keys
 * with default text, and the three operations on the shared 'inventory'
 * rows (adding purchased quantities, listing rows for supplier
 * notification, and simulated restocking).
 */
module DataShare {
  import opened Common
  import opened StockRows

  // ----- The defaults -----

  /** The seven rows the 'inventory' key is seeded with. */
  const DefaultInventory: seq<Row> := [
    Row("Small", 0, 0, 5),
    Row("Medium", 0, 0, 5),
    Row("Large", 0, 0, 5),
    Row("Extra Large", 0, 0, 5),
    Row("Family Pack", 0, 0, 5),
    Row("Bulk Pack", 0, 0, 5),
    Row("Premium", 0, 0, 5)
  ]

  /** The text the 'inventory' key is seeded with: the seven default rows as JSON. */
  const DefaultInventoryText: string :=
    "[{\"name\":\"Small\",\"stock\":0,\"price\":0,\"restockAlert\":5}," +
    "{\"name\":\"Medium\",\"stock\":0,\"price\":0,\"restockAlert\":5}," +
    "{\"name\":\"Large\",\"stock\":0,\"price\":0,\"restockAlert\":5}," +
    "{\"name\":\"Extra Large\",\"stock\":0,\"price\":0,\"restockAlert\":5}," +
    "{\"name\":\"Family Pack\",\"stock\":0,\"price\":0,\"restockAlert\":5}," +
    "{\"name\":\"Bulk Pack\",\"stock\":0,\"price\":0,\"restockAlert\":5}," +
    "{\"name\":\"Premium\",\"stock\":0,\"price\":0,\"restockAlert\":5}]"

  /** Every key the defaults name, with the text written for it, in declaration order. */
  const DefaultData: seq<(string, string)> := [
    ("farmers", "[]"),
    ("purchases", "[]"),
    ("inventory", DefaultInventoryText),
    ("orders", "[]"),
    ("financial", "{\"income\":0,\"expenses\":0,\"tax\":0,\"profit\":0}"),
    ("comprehensive_report", "[]")
  ]

  // ----- Seeding the store (`initializeLocalStorageDefaults`) -----

  /** `!localStorage.getItem(key)`: the key is absent or holds the empty string. */
  predicate Unset(store: map<string, string>, key: string) {
    key !in store || store[key] == ""
  }

  predicate Defaulted(defaults: seq<(string, string)>, key: string) {
    exists i :: 0 <= i < |defaults| && defaults[i].0 == key
  }

  /** Keys appear once and every default text is non-empty. */
  predicate WellFormedDefaults(defaults: seq<(string, string)>) {
    && (forall i, j :: 0 <= i < j < |defaults| ==> defaults[i].0 != defaults[j].0)
    && (forall i :: 0 <= i < |defaults| ==> defaults[i].1 != "")
  }

  /** The seeded store: key by key, in order, a default is written where the key is unset. */
  function WithDefaults(store: map<string, string>, defaults: seq<(string, string)>): map<string, string>
    decreases |defaults|
  {
    if defaults == [] then store
    else
      var seeded := WithDefaults(store, defaults[..|defaults| - 1]);
      var (key, value) := defaults[|defaults| - 1];
      if Unset(seeded, key) then seeded[key := value] else seeded
  }

  /** Being a default key of all the defaults is being one of the earlier ones or the last. */
  lemma DefaultedStep(defaults: seq<(string, string)>, k: string)
    requires defaults != []
    ensures Defaulted(defaults, k) <==>
      Defaulted(defaults[..|defaults| - 1], k) || defaults[|defaults| - 1].0 == k
  {
    var prefix := defaults[..|defaults| - 1];
    if Defaulted(defaults, k) {
      var i :| 0 <= i < |defaults| && defaults[i].0 == k;
      if i < |prefix| { assert prefix[i].0 == k; }
    }
    if Defaulted(prefix, k) {
      var i :| 0 <= i < |prefix| && prefix[i].0 == k;
      assert defaults[i].0 == k;
    }
  }

  /** After seeding, a key is present exactly when it was, or when it is a default key. */
  lemma {:induction false} SeededKey(store: map<string, string>, defaults: seq<(string, string)>, k: string)
    ensures k in WithDefaults(store, defaults) <==> k in store || Defaulted(defaults, k)
    decreases |defaults|
  {
    if defaults != [] {
      SeededKey(store, defaults[..|defaults| - 1], k);
      DefaultedStep(defaults, k);
    }
  }

  /** A key holding non-empty text keeps it. */
  lemma {:induction false} SeededKeepsSet(store: map<string, string>, defaults: seq<(string, string)>, k: string)
    requires k in store && store[k] != ""
    ensures k in WithDefaults(store, defaults) && WithDefaults(store, defaults)[k] == store[k]
    decreases |defaults|
  {
    if defaults != [] {
      SeededKeepsSet(store, defaults[..|defaults| - 1], k);
    }
  }

  /** A key that is not a default key is untouched. */
  lemma {:induction false} SeededOutside(store: map<string, string>, defaults: seq<(string, string)>, k: string)
    requires k in store && !Defaulted(defaults, k)
    ensures k in WithDefaults(store, defaults) && WithDefaults(store, defaults)[k] == store[k]
    decreases |defaults|
  {
    if defaults != [] {
      DefaultedStep(defaults, k);
      SeededOutside(store, defaults[..|defaults| - 1], k);
    }
  }

  /** With distinct keys, a default key that was unset receives its default text. */
  lemma {:induction false} SeededFills(store: map<string, string>, defaults: seq<(string, string)>, i: nat)
    requires WellFormedDefaults(defaults) && i < |defaults|
    requires Unset(store, defaults[i].0)
    ensures defaults[i].0 in WithDefaults(store, defaults)
    ensures WithDefaults(store, defaults)[defaults[i].0] == defaults[i].1
    decreases |defaults|
  {
    var prefix := defaults[..|defaults| - 1];
    var key := defaults[i].0;
    assert forall j :: 0 <= j < |prefix| ==> prefix[j] == defaults[j];
    if i == |defaults| - 1 {
      assert !Defaulted(prefix, key);
      SeededKey(store, prefix, key);
      if key in store {
        SeededOutside(store, prefix, key);
      }
    } else {
      SeededFills(store, prefix, i);
    }
  }

  lemma DefaultDataWellFormed()
    ensures WellFormedDefaults(DefaultData)
  {
    var keys := ["farmers", "purchases", "inventory", "orders", "financial", "comprehensive_report"];
    assert forall i :: 0 <= i < |DefaultData| ==> DefaultData[i].0 == keys[i];
    assert forall i, j :: 0 <= i < j < |keys| ==> keys[i] != keys[j];
  }

  /** After seeding, every key of the defaults holds non-empty text. */
  lemma SeededKeysAreSet(store: map<string, string>, defaults: seq<(string, string)>, i: nat)
    requires WellFormedDefaults(defaults) && i < |defaults|
    ensures !Unset(WithDefaults(store, defaults), defaults[i].0)
  {
    if Unset(store, defaults[i].0) {
      SeededFills(store, defaults, i);
    } else {
      SeededKeepsSet(store, defaults, defaults[i].0);
    }
  }

  /** Seeding an already seeded store changes nothing. */
  lemma WithDefaultsIdempotent(store: map<string, string>, defaults: seq<(string, string)>)
    requires WellFormedDefaults(defaults)
    ensures WithDefaults(WithDefaults(store, defaults), defaults) == WithDefaults(store, defaults)
  {
    var once := WithDefaults(store, defaults);
    var twice := WithDefaults(once, defaults);
    forall k
      ensures k in twice <==> k in once
    {
      SeededKey(once, defaults, k);
      SeededKey(store, defaults, k);
    }
    forall k | k in once
      ensures twice[k] == once[k]
    {
      if once[k] != "" {
        SeededKeepsSet(once, defaults, k);
      } else {
        forall i | 0 <= i < |defaults|
          ensures defaults[i].0 != k
        {
          SeededKeysAreSet(store, defaults, i);
        }
        SeededOutside(once, defaults, k);
      }
    }
  }

  /** Running the page's seeding a second time, on any store, changes nothing. */
  lemma DefaultSeedingIdempotent(store: map<string, string>)
    ensures WithDefaults(WithDefaults(store, DefaultData), DefaultData) == WithDefaults(store, DefaultData)
  {
    DefaultDataWellFormed();
    WithDefaultsIdempotent(store, DefaultData);
  }

  /** The page's view of localStorage: keys to stored text. */
  class SharedStore {
    var entries: map<string, string>

    constructor (initial: map<string, string>)
      ensures entries == initial
    {
      entries := initial;
    }

    /** `initializeLocalStorageDefaults`, seeding the store as `WithDefaults` says. */
    method InitializeDefaults()
      modifies this
      ensures entries == WithDefaults(old(entries), DefaultData)
    {
      for k := 0 to |DefaultData|
        invariant entries == WithDefaults(old(entries), DefaultData[..k])
      {
        assert DefaultData[..k + 1][..k] == DefaultData[..k];
        var (key, value) := DefaultData[k];
        if key !in entries || entries[key] == "" {
          entries := entries[key := value];
        }
      }
      assert DefaultData[..|DefaultData|] == DefaultData;
    }
  }

  // ----- Purchases into stock (`syncInventoryWithPurchases`) -----

  /**
   * The fields the sync reads from a stored purchase; records without a
   * `category` (as farms.js writes them) have `None`.
   */
  datatype StockPurchase = StockPurchase(category: Option<string>, quantity: int)

  function MatchedRow(rows: seq<Row>, p: StockPurchase): (r: Option<nat>)
    ensures r.Some? ==> p.category.Some? && r.value < |rows| && rows[r.value].name == p.category.value
    ensures r.Some? ==> forall j :: 0 <= j < r.value ==> rows[j].name != p.category.value
    ensures r.None? <==> p.category.None? || forall j :: 0 <= j < |rows| ==> rows[j].name != p.category.value
  {
    if p.category.None? then None else FindRow(rows, p.category.value)
  }

  /**
   * One purchase: its quantity goes to the first row named after its
   * category; a purchase that matches no row changes nothing.
   */
  function ApplyStockPurchase(rows: seq<Row>, p: StockPurchase): (r: seq<Row>)
    ensures |r| == |rows|
    ensures forall i :: 0 <= i < |rows| ==> r[i] == rows[i].(stock := r[i].stock)
    ensures MatchedRow(rows, p).None? ==> r == rows
    ensures MatchedRow(rows, p).Some? ==>
      var i := MatchedRow(rows, p).value;
      r[i].stock == rows[i].stock + p.quantity && forall j :: 0 <= j < |rows| && j != i ==> r[j] == rows[j]
  {
    match MatchedRow(rows, p)
    case None => rows
    case Some(i) => rows[i := rows[i].(stock := rows[i].stock + p.quantity)]
  }

  /** The rows after applying `purchases` one after the other, in stored order. */
  function SyncStock(rows: seq<Row>, purchases: seq<StockPurchase>): (r: seq<Row>)
    ensures |r| == |rows|
    ensures forall i :: 0 <= i < |rows| ==> r[i] == rows[i].(stock := r[i].stock)
    decreases |purchases|
  {
    if purchases == [] then rows
    else ApplyStockPurchase(SyncStock(rows, purchases[..|purchases| - 1]), purchases[|purchases| - 1])
  }

  /** What the purchases matched to row `i` add up to. */
  function AddedToRow(rows: seq<Row>, purchases: seq<StockPurchase>, i: nat): int
    decreases |purchases|
  {
    if purchases == [] then 0
    else
      var last := purchases[|purchases| - 1];
      AddedToRow(rows, purchases[..|purchases| - 1], i) + (if MatchedRow(rows, last) == Some(i) then last.quantity else 0)
  }

  /** Rows with the same names at the same positions match every purchase alike. */
  lemma MatchedRowSameNames(a: seq<Row>, b: seq<Row>, p: StockPurchase)
    requires |a| == |b| && forall i :: 0 <= i < |a| ==> a[i].name == b[i].name
    ensures MatchedRow(a, p) == MatchedRow(b, p)
  {
  }

  /** After a sync every row holds its old stock plus exactly the purchases matched to it. */
  lemma {:induction false} SyncStockQuantities(rows: seq<Row>, purchases: seq<StockPurchase>, i: nat)
    requires i < |rows|
    ensures SyncStock(rows, purchases)[i].stock == rows[i].stock + AddedToRow(rows, purchases, i)
    decreases |purchases|
  {
    if purchases != [] {
      var prefix := purchases[..|purchases| - 1];
      SyncStockQuantities(rows, prefix, i);
      MatchedRowSameNames(SyncStock(rows, prefix), rows, purchases[|purchases| - 1]);
    }
  }

  /** One purchase adds its quantity to the total when it matches a row, and nothing otherwise. */
  lemma ApplyStockPurchaseTotal(rows: seq<Row>, p: StockPurchase)
    ensures TotalStock(ApplyStockPurchase(rows, p)) ==
      TotalStock(rows) + (if MatchedRow(rows, p).Some? then p.quantity else 0)
  {
    if MatchedRow(rows, p).Some? {
      var i := MatchedRow(rows, p).value;
      TotalStockUpdate(rows, i, p.quantity);
    }
  }

  /** The stock added over all rows is the total of the matched purchases. */
  lemma {:induction false} SyncStockTotal(rows: seq<Row>, purchases: seq<StockPurchase>)
    ensures TotalStock(SyncStock(rows, purchases)) == TotalStock(rows) + MatchedTotal(rows, purchases)
    decreases |purchases|
  {
    if purchases != [] {
      var prefix := purchases[..|purchases| - 1];
      var last := purchases[|purchases| - 1];
      SyncStockTotal(rows, prefix);
      MatchedRowSameNames(SyncStock(rows, prefix), rows, last);
      ApplyStockPurchaseTotal(SyncStock(rows, prefix), last);
    }
  }

  /** Sum of the quantities of the purchases that match some row. */
  function MatchedTotal(rows: seq<Row>, purchases: seq<StockPurchase>): int
    decreases |purchases|
  {
    if purchases == [] then 0
    else
      var last := purchases[|purchases| - 1];
      MatchedTotal(rows, purchases[..|purchases| - 1]) + (if MatchedRow(rows, last).Some? then last.quantity else 0)
  }

  // ----- Supplier notification (`notifySuppliersForRestock`) -----

  datatype RestockNotice = NoInventoryData | AllSufficient | NotifySuppliers(lowStock: seq<Row>)

  /**
   * A missing or empty inventory reports no data; otherwise the notice
   * lists exactly the low rows in order, or reports all sufficient when
   * there are none.
   */
  function SupplierNotice(inventory: Option<seq<Row>>): (r: RestockNotice)
    ensures r.NoInventoryData? <==> inventory.None? || inventory.value == []
    ensures r.AllSufficient? <==>
      inventory.Some? && inventory.value != [] && forall row :: row in inventory.value ==> !IsLow(row)
    ensures r.NotifySuppliers? ==>
      && r.lowStock != []
      && IsSubsequence(r.lowStock, inventory.value)
      && (forall row :: row in r.lowStock <==> row in inventory.value && IsLow(row))
      && forall row :: multiset(r.lowStock)[row] == if IsLow(row) then multiset(inventory.value)[row] else 0
  {
    if inventory.None? || inventory.value == [] then NoInventoryData
    else
      var low := Filter(inventory.value, IsLow);
      if low == [] then AllSufficient else NotifySuppliers(low)
  }

  // ----- Simulated restocking (`simulateRestocking`) -----

  /** A low row receives twice its alert level; any other row is kept. */
  function Restock(row: Row): (r: Row)
    ensures !IsLow(row) ==> r == row
    ensures IsLow(row) ==> r == row.(stock := row.stock + 2 * row.restockAlert)
  {
    if IsLow(row) then row.(stock := row.stock + 2 * row.restockAlert) else row
  }

  /** The rows after restocking, one for one, in the same order. */
  function RestockAll(rows: seq<Row>): (r: seq<Row>)
    ensures |r| == |rows|
    ensures forall i :: 0 <= i < |rows| ==> r[i] == Restock(rows[i])
  {
    seq(|rows|, i requires 0 <= i < |rows| => Restock(rows[i]))
  }

  /** Twice the alert levels of the low rows. */
  function RestockAmount(rows: seq<Row>): int {
    if rows == [] then 0
    else
      var last := rows[|rows| - 1];
      RestockAmount(rows[..|rows| - 1]) + (if IsLow(last) then 2 * last.restockAlert else 0)
  }

  /** Restocking adds to the total exactly twice the alert levels of the low rows. */
  lemma {:induction false} RestockAllTotal(rows: seq<Row>)
    ensures TotalStock(RestockAll(rows)) == TotalStock(rows) + RestockAmount(rows)
    decreases |rows|
  {
    if rows != [] {
      var prefix := rows[..|rows| - 1];
      RestockAllTotal(prefix);
      assert RestockAll(rows)[..|rows| - 1] == RestockAll(prefix);
    }
  }

  /**
   * A low row whose stock plus alert level is positive (any row with
   * non-negative stock and a positive alert level) is no longer low after
   * restocking; if every row is like that, a notice afterwards reports
   * all sufficient.
   */
  lemma RestockClearsLowStock(rows: seq<Row>)
    requires rows != []
    requires forall i :: 0 <= i < |rows| ==> rows[i].stock + rows[i].restockAlert > 0
    ensures SupplierNotice(Some(RestockAll(rows))) == AllSufficient
  {
    var after := RestockAll(rows);
    forall row | row in after
      ensures !IsLow(row)
    {
      var i :| 0 <= i < |after| && after[i] == row;
      assert after[i] == Restock(rows[i]);
    }
  }

  /** The default rows: seven, each with no stock, no price and alert level 5. */
  lemma DefaultInventoryShape()
    ensures |DefaultInventory| == 7
    ensures forall i :: 0 <= i < |DefaultInventory| ==>
      DefaultInventory[i].stock == 0 && DefaultInventory[i].price == 0 && DefaultInventory[i].restockAlert == 5
  {
  }

  /**
   * The page's own seeded inventory: every row is listed for suppliers,
   * and one restocking gives each row 10 units and clears them all.
   */
  lemma SeededInventoryRestock()
    ensures SupplierNotice(Some(DefaultInventory)) == NotifySuppliers(DefaultInventory)
    ensures forall i :: 0 <= i < |DefaultInventory| ==> RestockAll(DefaultInventory)[i].stock == 10
    ensures SupplierNotice(Some(RestockAll(DefaultInventory))) == AllSufficient
  {
    DefaultInventoryShape();
    FreshInventoryRestock(DefaultInventory);
  }

  /**
   * Rows as freshly seeded (no stock, positive alert levels) are all low,
   * so all are listed for suppliers; one restocking brings each to twice
   * its alert level and clears them all.
   */
  lemma FreshInventoryRestock(rows: seq<Row>)
    requires rows != []
    requires forall i :: 0 <= i < |rows| ==> rows[i].stock == 0 && rows[i].restockAlert > 0
    ensures SupplierNotice(Some(rows)) == NotifySuppliers(rows)
    ensures forall i :: 0 <= i < |rows| ==> RestockAll(rows)[i].stock == 2 * rows[i].restockAlert
    ensures SupplierNotice(Some(RestockAll(rows))) == AllSufficient
  {
    FilterKeepsAll(rows, IsLow);
    RestockClearsLowStock(rows);
  }

  /** The parsed 'inventory' key (`None` when it is absent). */
  class SharedInventory {
    var inventory: Option<seq<Row>>

    constructor (stored: Option<seq<Row>>)
      ensures inventory == stored
    {
      inventory := stored;
    }

    /**
     * `syncInventoryWithPurchases`: nothing happens when either key is
     * missing; otherwise the rows change as `SyncStock` says.
     */
    method SyncInventoryWithPurchases(purchases: Option<seq<StockPurchase>>)
      modifies this
      ensures inventory == if old(inventory).None? || purchases.None? then old(inventory)
                           else Some(SyncStock(old(inventory).value, purchases.value))
    {
      if inventory.None? || purchases.None? {
        return;
      }
      var rows := inventory.value;
      var ps := purchases.value;
      for k := 0 to |ps|
        invariant rows == SyncStock(old(inventory).value, ps[..k])
      {
        assert ps[..k + 1][..k] == ps[..k];
        var p := ps[k];
        if p.category.Some? {
          var found := FindRow(rows, p.category.value);
          if found.Some? {
            var i := found.value;
            rows := rows[i := rows[i].(stock := rows[i].stock + p.quantity)];
          }
        }
      }
      assert ps[..|ps|] == ps;
      inventory := Some(rows);
    }

    /**
     * `simulateRestocking`: nothing happens on a missing or empty
     * inventory; otherwise each low row is restocked in place.
     */
    method SimulateRestocking()
      modifies this
      ensures inventory == if old(inventory).None? || old(inventory).value == [] then old(inventory)
                           else Some(RestockAll(old(inventory).value))
    {
      if inventory.None? || inventory.value == [] {
        return;
      }
      var rows := inventory.value;
      for k := 0 to |rows|
        invariant |rows| == |old(inventory).value|
        invariant forall j :: 0 <= j < k ==> rows[j] == Restock(old(inventory).value[j])
        invariant forall j :: k <= j < |rows| ==> rows[j] == old(inventory).value[j]
      {
        if rows[k].stock <= rows[k].restockAlert {
          rows := rows[k := rows[k].(stock := rows[k].stock + rows[k].restockAlert * 2)];
        }
      }
      assert rows == RestockAll(old(inventory).value);
      inventory := Some(rows);
    }
  }
}
