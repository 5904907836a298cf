/**
  The part of an openpyxl worksheet the reports touch: its title, its rows of cell values
  (row 1 first) and the widths set on its columns. Styles, number formats, fills and table
  objects are not modelled.
 */
module Worksheets {
  import opened Wrappers

  /** A cell value: empty (None or NaN), text, or a number. */
  datatype Cell = Blank | Text(text: string) | Number(value: real)

  /** A text cell from a pandas cell; NaN leaves the cell empty. */
  function TextCell(o: Option<string>): (c: Cell)
    ensures o.None? <==> c == Blank
    ensures o.Some? ==> c == Text(o.value)
  {
    if o.Some? then Text(o.value) else Blank
  }

  /** A number cell from a pandas cell; NaN leaves the cell empty. */
  function NumberCell(o: Option<real>): (c: Cell)
    ensures o.None? <==> c == Blank
    ensures o.Some? ==> c == Number(o.value)
  {
    if o.Some? then Number(o.value) else Blank
  }

  function TextRow(labels: seq<string>): (row: seq<Cell>)
    ensures |row| == |labels|
    ensures forall i :: 0 <= i < |labels| ==> row[i] == Text(labels[i])
  {
    seq(|labels|, i requires 0 <= i < |labels| => Text(labels[i]))
  }

  class Worksheet {
    var title: string
    var rows: seq<seq<Cell>>
    /** `column_dimensions[letter].width`, by zero-based column index. */
    var widths: map<nat, nat>

    /** `wb.create_sheet(title)`: a new, empty sheet. */
    constructor (title: string)
      ensures this.title == title && rows == [] && widths == map[]
    {
      this.title := title;
      rows := [];
      widths := map[];
    }

    /** `ws.append(row)`: the row goes below the last one. */
    method Append(row: seq<Cell>)
      modifies this
      ensures rows == old(rows) + [row]
      ensures title == old(title) && widths == old(widths)
    {
      rows := rows + [row];
    }

    /** Setting cells by address in rows above any appended one, as the KPI cards do. */
    method SetRows(newRows: seq<seq<Cell>>)
      modifies this
      ensures rows == newRows
      ensures title == old(title) && widths == old(widths)
    {
      rows := newRows;
    }
  }
}
