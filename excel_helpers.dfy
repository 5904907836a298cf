/**
  Worksheet helpers (utils/excel_helpers.py): the column widths `auto_fit_columns` sets
  and the colour `get_status_fill` gives a status cell. How `str()` prints a number is a
  parameter (`numText`): float formatting is not modelled.
 */
module ExcelHelpers {
  import opened Worksheets
  import opened KpiEngine

  /** Python truthiness of a cell value: None, "" and 0 are false. */
  predicate Truthy(c: Cell) {
    match c
    case Blank => false
    case Text(s) => s != ""
    case Number(v) => v != 0.0
  }

  /** `len(str(cell.value))`. */
  function CellLength(c: Cell, numText: real -> string): nat {
    match c
    case Blank => 0
    case Text(s) => |s|
    case Number(v) => |numText(v)|
  }

  /** The cell of `row` in column `col`; a short row has an empty cell there. */
  function CellAt(row: seq<Cell>, col: nat): Cell {
    if col < |row| then row[col] else Blank
  }

  /**
    How many columns `ws.columns` yields: none before any row is written, otherwise
    `ws.max_column`, the longest row but at least 1 (a sheet of empty rows still has column A).
   */
  function MaxColumn(rows: seq<seq<Cell>>): (n: nat)
    ensures n == 0 <==> rows == []
    ensures forall r :: 0 <= r < |rows| ==> |rows[r]| <= n
    ensures n > 1 ==> exists r :: 0 <= r < |rows| && |rows[r]| == n
  {
    if rows == [] then 0
    else
      var prev := MaxColumn(rows[..|rows| - 1]);
      var last := |rows[|rows| - 1]|;
      if last > prev then last else if prev == 0 then 1 else prev
  }

  /** `max_length` for column `col` after the first `n` rows: the longest truthy cell so far. */
  function MaxLength(rows: seq<seq<Cell>>, col: nat, numText: real -> string, n: nat): (m: nat)
    requires n <= |rows|
  {
    if n == 0 then 0
    else
      var prev := MaxLength(rows, col, numText, n - 1);
      var c := CellAt(rows[n - 1], col);
      if Truthy(c) && CellLength(c, numText) > prev then CellLength(c, numText) else prev
  }

  /** The maximum is reached by some truthy cell (or is 0) and bounds every truthy cell. */
  lemma {:induction false} MaxLengthIsMax(rows: seq<seq<Cell>>, col: nat, numText: real -> string, n: nat)
    requires n <= |rows|
    ensures forall r :: 0 <= r < n && Truthy(CellAt(rows[r], col)) ==>
      CellLength(CellAt(rows[r], col), numText) <= MaxLength(rows, col, numText, n)
    ensures MaxLength(rows, col, numText, n) == 0 || exists r :: (0 <= r < n
      && Truthy(CellAt(rows[r], col)) && CellLength(CellAt(rows[r], col), numText) == MaxLength(rows, col, numText, n))
  {
    if n > 0 {
      MaxLengthIsMax(rows, col, numText, n - 1);
    }
  }

  /** `max(12, min(max_length + 3, 50))`. */
  function AdjustedWidth(maxLength: nat): (w: nat)
    ensures 12 <= w <= 50
    ensures w == maxLength + 3 <==> 9 <= maxLength <= 47
    ensures maxLength < 9 ==> w == 12
    ensures maxLength > 47 ==> w == 50
  {
    var capped := if maxLength + 3 < 50 then maxLength + 3 else 50;
    if 12 > capped then 12 else capped
  }

  /** `widths` with the first `n` columns set to their fitted widths. */
  function FitWidths(widths: map<nat, nat>, rows: seq<seq<Cell>>, numText: real -> string, n: nat): map<nat, nat> {
    if n == 0 then widths
    else FitWidths(widths, rows, numText, n - 1)[n - 1 := AdjustedWidth(MaxLength(rows, n - 1, numText, |rows|))]
  }

  /**
    After fitting, the columns below `n` have the width their longest truthy cell calls for,
    and every other column keeps the width it had, if any.
   */
  lemma {:induction false} FitWidthsSpec(widths: map<nat, nat>, rows: seq<seq<Cell>>, numText: real -> string, n: nat)
    ensures forall c: nat :: c in FitWidths(widths, rows, numText, n) <==> c in widths || c < n
    ensures forall c :: c in FitWidths(widths, rows, numText, n) ==>
      FitWidths(widths, rows, numText, n)[c]
        == if c < n then AdjustedWidth(MaxLength(rows, c, numText, |rows|)) else widths[c]
  {
    if n > 0 {
      FitWidthsSpec(widths, rows, numText, n - 1);
    }
  }

  /** The inner loop of `auto_fit_columns`: the longest truthy cell of one column. */
  method ColumnMaxLength(rows: seq<seq<Cell>>, col: nat, numText: real -> string) returns (maxLength: nat)
    ensures maxLength == MaxLength(rows, col, numText, |rows|)
  {
    maxLength := 0;
    var r := 0;
    while r < |rows|
      invariant 0 <= r <= |rows|
      invariant maxLength == MaxLength(rows, col, numText, r)
    {
      var cell := CellAt(rows[r], col);
      if Truthy(cell) {
        var length := CellLength(cell, numText);
        if length > maxLength {
          maxLength := length;
        }
      }
      r := r + 1;
    }
  }

  /** `auto_fit_columns`: every column up to `max_column` gets its width; the cells are untouched. */
  method AutoFitColumns(ws: Worksheet, numText: real -> string)
    modifies ws
    ensures ws.rows == old(ws.rows) && ws.title == old(ws.title)
    ensures ws.widths == FitWidths(old(ws.widths), ws.rows, numText, MaxColumn(ws.rows))
  {
    FitFirstColumns(ws, numText, MaxColumn(ws.rows));
  }

  /** The outer loop of `auto_fit_columns` over the first `columns` columns. */
  method FitFirstColumns(ws: Worksheet, numText: real -> string, columns: nat)
    modifies ws
    ensures ws.rows == old(ws.rows) && ws.title == old(ws.title)
    ensures ws.widths == FitWidths(old(ws.widths), ws.rows, numText, columns)
  {
    var rows := ws.rows;
    var before := ws.widths;
    var widths := before;
    var col := 0;
    while col < columns
      invariant 0 <= col <= columns
      invariant widths == FitWidths(before, rows, numText, col)
      invariant ws.rows == rows && ws.title == old(ws.title)
    {
      var maxLength := ColumnMaxLength(rows, col, numText);
      widths := widths[col := AdjustedWidth(maxLength)];
      col := col + 1;
    }
    ws.widths := widths;
  }

  /** A `PatternFill` reduced to its two colours. */
  datatype Fill = Fill(startColor: string, endColor: string)

  const White: string := "FFFFFF"

  /** The colour table of `get_status_fill`. */
  function StatusColor(status: string): (color: string)
    ensures status == "Low Stock" ==> color == "FF4C4C"
    ensures status == "Slow Moving" ==> color == "FFA500"
    ensures status == "No Deal" ==> color == "9E9E9E"
    ensures status == "Healthy" ==> color == "2E7D32"
    ensures status !in {"Low Stock", "Slow Moving", "No Deal", "Healthy"} ==> color == White
  {
    if status == "Low Stock" then "FF4C4C"
    else if status == "Slow Moving" then "FFA500"
    else if status == "No Deal" then "9E9E9E"
    else if status == "Healthy" then "2E7D32"
    else White
  }

  /** `get_status_fill`: a solid fill whose two colours are the status colour. */
  function GetStatusFill(status: string): (fill: Fill)
    ensures fill.startColor == fill.endColor == StatusColor(status)
  {
    Fill(StatusColor(status), StatusColor(status))
  }

  /** Every status the ladder produces has its own colour, and none of them is white. */
  lemma StatusColorsDistinct(s: Status, t: Status)
    ensures StatusColor(StatusText(s)) != White
    ensures s != t ==> StatusColor(StatusText(s)) != StatusColor(StatusText(t))
  {
    StatusTextInjective(s, t);
  }
}
