/**
  The "Inventory" sheet of a single-branch brand workbook (reports/inventory_sheet.py):
  a header row and one line per inventory row, each with the product's status, decided
  from the brand's sales of the same barcode; the stock and its value are summed and
  returned. There is no total line.
 */
module InventorySheet {
  import opened Wrappers
  import opened Tables
  import opened Worksheets
  import opened ExcelHelpers
  import opened KpiEngine

  const InventoryHeaders: seq<string> :=
    ["Branch Name", "Brand Name", "Product Name", "Barcode", "Unit Price", "Available Quantity", "Status"]

  /** `row.get("barcode")`: no default, so a missing column reads as None. */
  function BarcodeCell(columns: seq<string>, row: InventoryRow): Option<string> {
    if "barcode" in columns then row.barcode else None
  }

  /** `row.get("available_quantity", 0)`. */
  function StockCell(columns: seq<string>, row: InventoryRow): Option<real> {
    Get(columns, "available_quantity", row.availableQuantity, 0.0)
  }

  /** `row.get("unit_price", 0)`. */
  function PriceCell(columns: seq<string>, row: InventoryRow): Option<real> {
    Get(columns, "unit_price", row.unitPrice, 0.0)
  }

  /** The quantity one sales row contributes to the product with `barcode`. */
  function MatchQty(barcode: Option<string>): SalesRow -> real {
    (row: SalesRow) => if SameValue(row.barcode, barcode) then Qty(row) else 0.0
  }

  /**
    `brand_sales[brand_sales["barcode"] == barcode]["quantity"].sum()`: the quantity sold
    of one barcode; a NaN barcode equals nothing.
   */
  function BarcodeSales(sales: seq<SalesRow>, barcode: Option<string>): real {
    Sum(sales, MatchQty(barcode))
  }

  /** A barcode nobody sold, a NaN barcode in particular, has sold 0. */
  lemma UnsoldBarcode(sales: seq<SalesRow>, barcode: Option<string>)
    requires forall r :: r in sales ==> !SameValue(r.barcode, barcode)
    ensures BarcodeSales(sales, barcode) == 0.0
  {
    SumZero(sales, MatchQty(barcode));
  }

  /** The sales of a barcode are those of its rows, wherever they sit in the table. */
  lemma BarcodeSalesSplit(a: seq<SalesRow>, b: seq<SalesRow>, barcode: Option<string>)
    ensures BarcodeSales(a + b, barcode) == BarcodeSales(a, barcode) + BarcodeSales(b, barcode)
  {
    SumAppend(a, b, MatchQty(barcode));
  }

  /** The status of one product line. */
  function LineStatus(columns: seq<string>, sales: seq<SalesRow>, hasDeal: bool, row: InventoryRow): Status {
    CalculateStatus(BarcodeSales(sales, BarcodeCell(columns, row)), ValueOr0(StockCell(columns, row)), hasDeal)
  }

  /** A product none of whose barcode sold is Low Stock or Slow Moving, never No Deal or Healthy. */
  lemma UnsoldIsLowOrSlow(columns: seq<string>, sales: seq<SalesRow>, hasDeal: bool, row: InventoryRow)
    requires forall r :: r in sales ==> !SameValue(r.barcode, BarcodeCell(columns, row))
    ensures LineStatus(columns, sales, hasDeal, row) == LowStock
      || LineStatus(columns, sales, hasDeal, row) == SlowMoving
    ensures ValueOr0(StockCell(columns, row)) >= 5.0 ==> LineStatus(columns, sales, hasDeal, row) == SlowMoving
  {
    UnsoldBarcode(sales, BarcodeCell(columns, row));
  }

  /** The line appended for one inventory row. */
  function InventoryLine(columns: seq<string>, brandName: string, mode: string, sales: seq<SalesRow>,
                         hasDeal: bool, row: InventoryRow): (line: seq<Cell>)
    ensures |line| == |InventoryHeaders|
    ensures line[0] == Text(mode) && line[1] == Text(brandName)
    ensures line[6] == Text(StatusText(LineStatus(columns, sales, hasDeal, row)))
  {
    [Text(mode), Text(brandName),
     TextCell(Get(columns, "product_name", row.productName, "")),
     TextCell(BarcodeCell(columns, row)),
     NumberCell(PriceCell(columns, row)),
     NumberCell(StockCell(columns, row)),
     Text(StatusText(LineStatus(columns, sales, hasDeal, row)))]
  }

  /** The line builder the loop applies to every inventory row. */
  function InventoryLineOf(columns: seq<string>, brandName: string, mode: string, sales: seq<SalesRow>,
                           hasDeal: bool): InventoryRow -> seq<Cell> {
    row => InventoryLine(columns, brandName, mode, sales, hasDeal, row)
  }

  /**
    Each product line names the branch mode and the brand, and carries the status the
    ladder gives for that row's barcode sales, its stock and the deal flag.
   */
  lemma InventoryLinesLayout(columns: seq<string>, brandName: string, mode: string, sales: seq<SalesRow>,
                             hasDeal: bool, rows: seq<InventoryRow>)
    ensures var lines := Each(rows, InventoryLineOf(columns, brandName, mode, sales, hasDeal));
      |lines| == |rows|
      && forall i :: 0 <= i < |rows| ==>
           |lines[i]| == |InventoryHeaders| && lines[i][0] == Text(mode) && lines[i][1] == Text(brandName)
           && lines[i][6] == Text(StatusText(CalculateStatus(BarcodeSales(sales, BarcodeCell(columns, rows[i])),
                                                            ValueOr0(StockCell(columns, rows[i])), hasDeal)))
  {
    var lineOf := InventoryLineOf(columns, brandName, mode, sales, hasDeal);
    var lines := Each(rows, lineOf);
    forall i | 0 <= i < |rows|
      ensures lines[i] == InventoryLine(columns, brandName, mode, sales, hasDeal, rows[i])
    {
      assert lines[i] == lineOf(rows[i]);
    }
  }

  /** What the loop adds to `total_inventory_qty` for one row. */
  function LineStock(columns: seq<string>): InventoryRow -> real {
    row => ValueOr0(StockCell(columns, row))
  }

  /** What the loop adds to `total_inventory_value` for one row. */
  function LineValue(columns: seq<string>): InventoryRow -> real {
    row => ValueOr0(StockCell(columns, row)) * ValueOr0(PriceCell(columns, row))
  }

  /**
    The column of the sales table that the first inventory row reads and that is missing
    (pandas raises a KeyError), if any; with no inventory rows nothing is read.
   */
  function MissingSalesColumn(sales: Frame<SalesRow>, inventory: Frame<InventoryRow>): (missing: Option<string>)
    ensures missing.None? <==>
      inventory.rows == [] || ("barcode" in sales.columns && "quantity" in sales.columns)
    ensures missing.Some? ==> missing.value !in sales.columns
  {
    if inventory.rows == [] then None
    else if "barcode" !in sales.columns then Some("barcode")
    else if "quantity" !in sales.columns then Some("quantity")
    else None
  }

  /**
    When the inventory has both number columns, the sheet's sums are exactly what
    `calculate_inventory_totals` reports for the same rows.
   */
  lemma InventorySheetTotalsAgree(inventory: Frame<InventoryRow>)
    requires "available_quantity" in inventory.columns && "unit_price" in inventory.columns
    ensures (Sum(inventory.rows, LineStock(inventory.columns)), Sum(inventory.rows, LineValue(inventory.columns)))
      == CalculateInventoryTotals(inventory.rows)
  {
    SumCongruent(inventory.rows, LineStock(inventory.columns), Stock);
    SumCongruent(inventory.rows, LineValue(inventory.columns), StockValue);
  }

  /**
    `create_inventory_sheet_single`: appends the header and then, per inventory row, the
    product line with its status, summing the stock and its value; the columns are then
    fitted and the sums returned. A sales table without the barcode or quantity column
    stops it at the first row with the header alone written.
   */
  method CreateInventorySheet(brandName: string, mode: string, inventory: Frame<InventoryRow>,
                              sales: Frame<SalesRow>, hasDeal: bool, numText: real -> string)
    returns (ws: Worksheet, totals: Result<(real, real), string>)
    ensures fresh(ws) && ws.title == "Inventory"
    ensures MissingSalesColumn(sales, inventory).Some? ==>
      totals == Failure(MissingSalesColumn(sales, inventory).value)
      && ws.rows == [TextRow(InventoryHeaders)] && ws.widths == map[]
    ensures MissingSalesColumn(sales, inventory).None? ==>
      totals == Success((Sum(inventory.rows, LineStock(inventory.columns)),
                         Sum(inventory.rows, LineValue(inventory.columns))))
      && ws.rows == [TextRow(InventoryHeaders)]
           + Each(inventory.rows, InventoryLineOf(inventory.columns, brandName, mode, sales.rows, hasDeal))
      && ws.widths == FitWidths(map[], ws.rows, numText, MaxColumn(ws.rows))
  {
    ws := new Worksheet("Inventory");
    ws.Append(TextRow(InventoryHeaders));
    var missing := MissingSalesColumn(sales, inventory);
    if missing.Some? {
      totals := Failure(missing.value);
      return;
    }
    var lineOf := InventoryLineOf(inventory.columns, brandName, mode, sales.rows, hasDeal);
    var totalQty, totalValue := AppendProductLines(ws, inventory, lineOf);
    AutoFitColumns(ws, numText);
    totals := Success((totalQty, totalValue));
  }

  /** The row loop of `create_inventory_sheet_single`: a line per row, summing stock and value. */
  method AppendProductLines(ws: Worksheet, inventory: Frame<InventoryRow>, lineOf: InventoryRow -> seq<Cell>)
    returns (totalQty: real, totalValue: real)
    modifies ws
    ensures ws.title == old(ws.title) && ws.widths == old(ws.widths)
    ensures ws.rows == old(ws.rows) + Each(inventory.rows, lineOf)
    ensures totalQty == Sum(inventory.rows, LineStock(inventory.columns))
    ensures totalValue == Sum(inventory.rows, LineValue(inventory.columns))
  {
    var columns := inventory.columns;
    var rows := inventory.rows;
    totalQty, totalValue := 0.0, 0.0;
    var i := 0;
    while i < |rows|
      invariant 0 <= i <= |rows|
      invariant ws.title == old(ws.title) && ws.widths == old(ws.widths)
      invariant ws.rows == old(ws.rows) + Each(rows[..i], lineOf)
      invariant totalQty == Sum(rows[..i], LineStock(columns))
      invariant totalValue == Sum(rows[..i], LineValue(columns))
    {
      var row := rows[i];
      var qty := StockCell(columns, row);
      var price := PriceCell(columns, row);
      ws.Append(lineOf(row));
      EachPrefixStep(rows, i, lineOf);
      SumPrefixStep(rows, i, LineStock(columns));
      SumPrefixStep(rows, i, LineValue(columns));
      totalQty := totalQty + ValueOr0(qty);
      totalValue := totalValue + ValueOr0(qty) * ValueOr0(price);
      i := i + 1;
    }
    assert rows[..|rows|] == rows;
  }
}
