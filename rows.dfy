/**
 * The row shape of the shared 'inventory' key as data_share.js seeds it
 * and sales.js reads it: one row per product category, keyed by `name`.
 */
module StockRows {
  import opened Common

  datatype Row = Row(name: string, stock: int, price: int, restockAlert: int)

  /** The restock test: stock at or below the alert threshold. */
  predicate IsLow(row: Row) {
    row.stock <= row.restockAlert
  }

  /** `inventory.find(item => item.name === name)`, as a position. */
  function FindRow(rows: seq<Row>, name: string): (r: Option<nat>)
    ensures r.Some? ==> r.value < |rows| && rows[r.value].name == name
    ensures r.Some? ==> forall j :: 0 <= j < r.value ==> rows[j].name != name
    ensures r.None? <==> forall j :: 0 <= j < |rows| ==> rows[j].name != name
  {
    FirstIndex(rows, (row: Row) => row.name == name)
  }

  /** Total units held over all rows. */
  function TotalStock(rows: seq<Row>): int {
    if rows == [] then 0 else TotalStock(rows[..|rows| - 1]) + rows[|rows| - 1].stock
  }

  /** Changing the stock of one row by `delta` changes the total by `delta`. */
  lemma {:induction false} TotalStockUpdate(rows: seq<Row>, i: nat, delta: int)
    requires i < |rows|
    ensures TotalStock(rows[i := rows[i].(stock := rows[i].stock + delta)]) == TotalStock(rows) + delta
    decreases |rows|
  {
    var updated := rows[i := rows[i].(stock := rows[i].stock + delta)];
    var n := |rows|;
    if i < n - 1 {
      assert updated[..n - 1] == rows[..n - 1][i := rows[i].(stock := rows[i].stock + delta)];
      TotalStockUpdate(rows[..n - 1], i, delta);
    } else {
      assert updated[..n - 1] == rows[..n - 1];
    }
  }
}
