/**
 * The inventory overview page (src/app/inventory/page.tsx).
 *
 * The page reads the quantity and minimum quantity of every inventory row and
 * shows three counts: all rows, rows at or below their minimum (low stock),
 * and rows with nothing left (out of stock). Without data every count is 0.
 */
module InventoryPage {
  import opened Common

  datatype StockRow = StockRow(quantity: int, minQuantity: int)

  datatype StockCounts = StockCounts(totalItems: nat, lowStockItems: nat, outOfStockItems: nat)

  predicate LowStock(r: StockRow) {
    r.quantity <= r.minQuantity
  }

  predicate OutOfStock(r: StockRow) {
    r.quantity == 0
  }

  /** The three counts; each is `?.length || 0`, so absent data counts 0. */
  function InventoryCounts(data: Option<seq<StockRow>>): (c: StockCounts)
    ensures c.lowStockItems <= c.totalItems && c.outOfStockItems <= c.totalItems
    ensures data.None? ==> c == StockCounts(0, 0, 0)
  {
    if data.None? then StockCounts(0, 0, 0)
    else StockCounts(|data.value|, Count(data.value, LowStock), Count(data.value, OutOfStock))
  }

  /** When no minimum is negative, every row out of stock is also low on stock, so there are no more of the former. */
  lemma OutOfStockIsLowStock(rows: seq<StockRow>)
    requires forall r :: r in rows ==> r.minQuantity >= 0
    ensures InventoryCounts(Some(rows)).outOfStockItems <= InventoryCounts(Some(rows)).lowStockItems
  {
    CountMonotone(rows, OutOfStock, LowStock);
  }

  /** With a negative minimum an empty row is not low on stock: the bound above needs its precondition. */
  lemma NegativeMinimumBreaksOrder()
    ensures var c := InventoryCounts(Some([StockRow(0, -1)]));
            c.outOfStockItems == 1 && c.lowStockItems == 0
  {
    var rows := [StockRow(0, -1)];
    assert rows[1..] == [];
  }

  /** Appending a row adds one to the total and one to each count whose test it passes. */
  lemma CountsAfterAppend(rows: seq<StockRow>, r: StockRow)
    ensures var before, after := InventoryCounts(Some(rows)), InventoryCounts(Some(rows + [r]));
            after.totalItems == before.totalItems + 1 &&
            after.lowStockItems == before.lowStockItems + (if LowStock(r) then 1 else 0) &&
            after.outOfStockItems == before.outOfStockItems + (if OutOfStock(r) then 1 else 0)
  {
    FilterAppend(rows, [r], LowStock);
    FilterAppend(rows, [r], OutOfStock);
    assert [r][1..] == [];
  }
}
