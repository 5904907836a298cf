/**
  The "Sales" sheet of a brand workbook (reports/sales_sheet.py): a header row, one line
  per sales row in table order, and a single TOTAL line holding the accumulated quantity
  and money, which are also returned.
 */
module SalesSheet {
  import opened Wrappers
  import opened Tables
  import opened Worksheets
  import opened ExcelHelpers
  import opened KpiEngine

  const SalesHeaders: seq<string> :=
    ["Branch Name", "Brand Name", "Product Name", "Barcode", "Quantity", "Total Price"]

  /** `row.get("quantity", 0)`. */
  function QtyCell(columns: seq<string>, row: SalesRow): Option<real> {
    Get(columns, "quantity", row.quantity, 0.0)
  }

  /** `row.get("total", 0)`. */
  function MoneyCell(columns: seq<string>, row: SalesRow): Option<real> {
    Get(columns, "total", row.total, 0.0)
  }

  /** What the loop adds to `total_qty` for one row (a missing cell adds 0). */
  function LineQty(columns: seq<string>): SalesRow -> real {
    row => ValueOr0(QtyCell(columns, row))
  }

  /** What the loop adds to `total_money` for one row. */
  function LineMoney(columns: seq<string>): SalesRow -> real {
    row => ValueOr0(MoneyCell(columns, row))
  }

  /** The line appended for one sales row. */
  function SalesLine(columns: seq<string>, brandName: string, mode: string, row: SalesRow): (line: seq<Cell>)
    ensures |line| == |SalesHeaders|
    ensures line[0] == Text(mode) && line[1] == Text(brandName)
    ensures line[4] == NumberCell(QtyCell(columns, row)) && line[5] == NumberCell(MoneyCell(columns, row))
  {
    [Text(mode), Text(brandName),
     TextCell(Get(columns, "product_name", row.productName, "")),
     TextCell(Get(columns, "barcode", row.barcode, "")),
     NumberCell(QtyCell(columns, row)),
     NumberCell(MoneyCell(columns, row))]
  }

  /** The line builder the loop applies to every sales row. */
  function SalesLineOf(columns: seq<string>, brandName: string, mode: string): SalesRow -> seq<Cell> {
    row => SalesLine(columns, brandName, mode, row)
  }

  /** The single TOTAL line. */
  function TotalLine(qty: real, money: real): seq<Cell> {
    [Text(""), Text(""), Text(""), Text("TOTAL"), Number(qty), Number(money)]
  }

  /** The rows of the finished sheet. */
  function SalesSheetRows(brandName: string, mode: string, sales: Frame<SalesRow>): seq<seq<Cell>> {
    [TextRow(SalesHeaders)]
      + Each(sales.rows, SalesLineOf(sales.columns, brandName, mode))
      + [TotalLine(Sum(sales.rows, LineQty(sales.columns)), Sum(sales.rows, LineMoney(sales.columns)))]
  }

  /**
    The sheet is the header, one line per sales row in order, each naming the branch mode
    and the brand, and then exactly one TOTAL line carrying the two sums.
   */
  lemma SalesSheetLayout(brandName: string, mode: string, sales: Frame<SalesRow>)
    ensures var rows := SalesSheetRows(brandName, mode, sales);
      && |rows| == |sales.rows| + 2
      && rows[0] == TextRow(SalesHeaders)
      && (forall i :: 0 <= i < |sales.rows| ==>
            rows[i + 1] == SalesLine(sales.columns, brandName, mode, sales.rows[i])
            && rows[i + 1][0] == Text(mode) && rows[i + 1][1] == Text(brandName))
      && rows[|rows| - 1][3] == Text("TOTAL")
      && rows[|rows| - 1][4] == Number(Sum(sales.rows, LineQty(sales.columns)))
      && rows[|rows| - 1][5] == Number(Sum(sales.rows, LineMoney(sales.columns)))
  {
    var lineOf := SalesLineOf(sales.columns, brandName, mode);
    var lines := Each(sales.rows, lineOf);
    var total := TotalLine(Sum(sales.rows, LineQty(sales.columns)), Sum(sales.rows, LineMoney(sales.columns)));
    var rows := [TextRow(SalesHeaders)] + lines + [total];
    assert rows == SalesSheetRows(brandName, mode, sales);
    forall i | 0 <= i < |sales.rows|
      ensures rows[i + 1] == SalesLine(sales.columns, brandName, mode, sales.rows[i])
    {
      assert rows[i + 1] == lines[i] == lineOf(sales.rows[i]);
    }
    assert rows[|rows| - 1] == total;
  }

  /**
    When the table has both number columns, the sheet's sums are exactly what
    `calculate_sales_totals` reports for the same rows.
   */
  lemma SalesSheetTotalsAgree(sales: Frame<SalesRow>)
    requires "quantity" in sales.columns && "total" in sales.columns
    ensures (Sum(sales.rows, LineQty(sales.columns)), Sum(sales.rows, LineMoney(sales.columns)))
      == CalculateSalesTotals(sales.rows)
  {
    SumCongruent(sales.rows, LineQty(sales.columns), Qty);
    SumCongruent(sales.rows, LineMoney(sales.columns), Money);
  }

  /**
    `create_sales_sheet`: appends the header, a line per row while summing quantity and
    money, then the TOTAL line; the columns are then fitted and the two sums returned.
   */
  method CreateSalesSheet(brandName: string, mode: string, sales: Frame<SalesRow>, numText: real -> string)
    returns (ws: Worksheet, totalQty: real, totalMoney: real)
    ensures fresh(ws) && ws.title == "Sales"
    ensures ws.rows == SalesSheetRows(brandName, mode, sales)
    ensures ws.widths == FitWidths(map[], ws.rows, numText, MaxColumn(ws.rows))
    ensures totalQty == Sum(sales.rows, LineQty(sales.columns))
    ensures totalMoney == Sum(sales.rows, LineMoney(sales.columns))
  {
    ws := new Worksheet("Sales");
    ws.Append(TextRow(SalesHeaders));
    totalQty, totalMoney := 0.0, 0.0;
    var rows := sales.rows;
    var lineOf := SalesLineOf(sales.columns, brandName, mode);
    var i := 0;
    while i < |rows|
      invariant 0 <= i <= |rows|
      invariant ws.title == "Sales" && ws.widths == map[]
      invariant ws.rows == [TextRow(SalesHeaders)] + Each(rows[..i], lineOf)
      invariant totalQty == Sum(rows[..i], LineQty(sales.columns))
      invariant totalMoney == Sum(rows[..i], LineMoney(sales.columns))
    {
      var qty := QtyCell(sales.columns, rows[i]);
      var total := MoneyCell(sales.columns, rows[i]);
      ws.Append(lineOf(rows[i]));
      EachPrefixStep(rows, i, lineOf);
      SumPrefixStep(rows, i, LineQty(sales.columns));
      SumPrefixStep(rows, i, LineMoney(sales.columns));
      totalQty := totalQty + ValueOr0(qty);
      totalMoney := totalMoney + ValueOr0(total);
      i := i + 1;
    }
    assert rows[..|rows|] == rows;
    ws.Append(TotalLine(totalQty, totalMoney));
    AutoFitColumns(ws, numText);
  }
}
