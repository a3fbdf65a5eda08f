/**
 * The integer geometry of `MatplotlibPlot` in matplotlib_plot.py: the plot
 * boundary around the die area, and the row rectangles stacked up from it.
 * Both read `self.data` of the inherited BasePlot reader, passed here as a
 * value; colours and line widths are left out.
 */
module MatplotlibPlot {
  import opened Wrappers
  import opened Placement
  import opened Lenient

  /** `plot_margin_x` and `plot_margin_y` of `self.params`. */
  const PlotMarginX: int := 2000
  const PlotMarginY: int := 2000

  /** `(x_low, y_low, x_high, y_high)` of the plot. */
  datatype Boundary = Boundary(xl: int, yl: int, xh: int, yh: int)

  /** Position and size of one rectangle. */
  datatype Rect = Rect(x: int, y: int, w: int, h: int)

  /** `range(self.data['num_rows'])` raises TypeError when the row count was never read. */
  datatype GeometryError = NumRowsUnset

  /**
   * `_get_plot_boundary`: all zeros without a die area, otherwise the die
   * area with the margin added on every side.
   */
  function PlotBoundary(d: Data): (b: Boundary)
    ensures d.dieArea.None? ==> b == Boundary(0, 0, 0, 0)
    ensures d.dieArea.Some? ==>
      var a := d.dieArea.value;
      && b.xl < a.xl && b.yl < a.yl && a.xh < b.xh && a.yh < b.yh
      && a.xl - b.xl == b.xh - a.xh == PlotMarginX
      && a.yl - b.yl == b.yh - a.yh == PlotMarginY
  {
    match d.dieArea
    case None => Boundary(0, 0, 0, 0)
    case Some(a) => Boundary(a.xl - PlotMarginX, a.yl - PlotMarginY, a.xh + PlotMarginX, a.yh + PlotMarginY)
  }

  /** Every point of an ordered die area lies strictly inside the plot boundary. */
  lemma BoundaryContainsDieArea(d: Data, x: int, y: int)
    requires d.dieArea.Some?
    requires d.dieArea.value.xl <= x <= d.dieArea.value.xh && d.dieArea.value.yl <= y <= d.dieArea.value.yh
    ensures var b := PlotBoundary(d); b.xl < x < b.xh && b.yl < y < b.yh
    ensures var b := PlotBoundary(d); b.xh - b.xl == d.dieArea.value.xh - d.dieArea.value.xl + 2 * PlotMarginX
  {
  }

  /** Python's truth test of `die_area` and `row_height`: `None` and `0` are false; a four-tuple is true. */
  predicate HasRows(d: Data) {
    d.dieArea.Some? && d.rowHeight.Some? && d.rowHeight.value != 0
  }

  /** The number of values `range(n)` yields. */
  function RangeLength(n: int): nat {
    if n < 0 then 0 else n
  }

  /** `generate_one_row_rectangle(i)`: row `i` starts `i` row heights above the die area's lower edge. */
  function Row(a: DieArea, rowHeight: int, i: int): Rect {
    Rect(a.xl, a.yl + i * rowHeight, a.xh - a.xl, rowHeight)
  }

  /** Consecutive rows have the same left edge and width, and each starts where the one below it ends. */
  lemma RowsContiguous(a: DieArea, rowHeight: int, i: int)
    ensures Row(a, rowHeight, i + 1).y == Row(a, rowHeight, i).y + Row(a, rowHeight, i).h
    ensures Row(a, rowHeight, i + 1).x == Row(a, rowHeight, i).x && Row(a, rowHeight, i + 1).w == Row(a, rowHeight, i).w
  {
    assert (i + 1) * rowHeight == i * rowHeight + rowHeight;
  }

  /**
   * `_generate_row_rectangles`: no rows without a die area or a row height;
   * otherwise `num_rows` rows of the die area's width, stacked from its
   * lower edge.
   */
  method GenerateRowRectangles(d: Data) returns (r: Result<seq<Rect>, GeometryError>)
    ensures !HasRows(d) ==> r == Ok([])
    ensures HasRows(d) ==> (r.Err? <==> d.numRows.None?)
    ensures HasRows(d) && r.Ok? ==>
      && |r.value| == RangeLength(d.numRows.value)
      && forall i :: 0 <= i < |r.value| ==> r.value[i] == Row(d.dieArea.value, d.rowHeight.value, i)
    ensures r.Ok? ==> forall i :: 0 <= i < |r.value| - 1 ==>
      r.value[i + 1].y == r.value[i].y + r.value[i].h && r.value[i + 1].x == r.value[i].x && r.value[i + 1].w == r.value[i].w
  {
    if !HasRows(d) {
      return Ok([]);
    }
    var a := d.dieArea.value;
    var rowHeight := d.rowHeight.value;
    if d.numRows.None? {
      return Err(NumRowsUnset);
    }
    var count := RangeLength(d.numRows.value);
    var rows: seq<Rect> := [];
    for i := 0 to count
      invariant |rows| == i
      invariant forall j :: 0 <= j < i ==> rows[j] == Row(a, rowHeight, j)
    {
      rows := rows + [Row(a, rowHeight, i)];
    }
    forall j | 0 <= j < |rows| - 1
      ensures rows[j + 1].y == rows[j].y + rows[j].h && rows[j + 1].x == rows[j].x && rows[j + 1].w == rows[j].w
    {
      RowsContiguous(a, rowHeight, j);
    }
    return Ok(rows);
  }
}
