/** The subplot grid of `drawPlots`: how many rows and columns the figure gets for a number of
    queued plots, and which cell each plot is drawn in or which surplus cell is deleted. */
module Layout {

  datatype Option<T> = None | Some(value: T)

  /** The figure is created as `subplots(cols, rows)`: `cols` rows of `rows` axes each, indexed
      `axes[col][row]`. The names are the source's own, even though they read transposed. */
  datatype Grid = Grid(cols: nat, rows: nat)

  /** What ends up in one cell of the figure. */
  datatype Cell =
    | Blank          // not yet visited
    | Drawn(plot: nat)  // the plot queued at this position is drawn here
    | Deleted        // surplus cell removed with `delaxes`

  /** `int(sqrt(n))`: the integer square root. */
  function Isqrt(n: nat): (r: nat)
    ensures r * r <= n < (r + 1) * (r + 1)
  {
    if n == 0 then 0
    else
      var s := Isqrt(n - 1);
      if (s + 1) * (s + 1) <= n then
        assert (s + 1) * (s + 1) < (s + 2) * (s + 2);
        s + 1
      else s
  }

  /** `cols = int(sqrt(n))` and `rows = ceil(n / cols)`. With no plots queued, `cols` is 0 and the
      division raises ZeroDivisionError, modelled as `None`. Otherwise `cols` is the largest
      whole number whose square fits in `n`, and `rows` is the least row count whose grid
      holds all `n` plots. */
  function GridShape(numPlots: nat): (g: Option<Grid>)
    ensures g.None? <==> numPlots == 0
    ensures g.Some? ==> 1 <= g.value.cols
    ensures g.Some? ==> g.value.cols * g.value.cols <= numPlots < (g.value.cols + 1) * (g.value.cols + 1)
    ensures g.Some? ==> (g.value.rows - 1) * g.value.cols < numPlots <= g.value.rows * g.value.cols
  {
    var cols := Isqrt(numPlots);
    if cols == 0 then None
    else
      var rows := (numPlots + cols - 1) / cols;
      CeilingDivision(numPlots, cols);
      Some(Grid(cols, rows))
  }

  /** (n + c − 1) / c is the ceiling of n / c: the least q with q·c ≥ n. */
  lemma CeilingDivision(n: nat, c: nat)
    requires c >= 1
    ensures ((n + c - 1) / c - 1) * c < n <= ((n + c - 1) / c) * c
  {
    var q, m := (n + c - 1) / c, (n + c - 1) % c;
    assert n + c - 1 == q * c + m && 0 <= m < c;
    calc { (q - 1) * c; == q * c - c; }
  }

  /** A strict order of multiples of the same factor is the order of the multipliers. */
  lemma MulCancel(a: nat, b: nat, c: nat)
    requires a * c < b * c
    ensures a < b
  {
  }

  /** One more multiple of c. */
  lemma MulSucc(a: nat, c: nat)
    ensures (a + 1) * c == a * c + c
  {
  }

  /** The grid is never far from square: cols ≤ rows ≤ cols + 2. */
  lemma GridNearlySquare(numPlots: nat)
    requires numPlots > 0
    ensures GridShape(numPlots).value.cols <= GridShape(numPlots).value.rows
    ensures GridShape(numPlots).value.rows <= GridShape(numPlots).value.cols + 2
  {
    var g := GridShape(numPlots).value;
    var c, r := g.cols, g.rows;
    MulSucc(c, c);
    MulCancel(c - 1, r, c);
    MulSucc(c + 1, c);
    MulCancel(r - 1, c + 2, c);
  }

  /** One to three plots give `cols == 1`: `subplots(1, n)` makes a figure of one row holding
      n axes side by side, which is why those cases index the axes with one subscript. Four or
      more give `cols >= 2` and a two-dimensional array of axes. */
  lemma SmallGridIsOneRow(numPlots: nat)
    requires numPlots > 0
    ensures numPlots < 4 <==> GridShape(numPlots).value.cols == 1
    ensures numPlots < 4 ==> GridShape(numPlots).value.rows == numPlots
  {
    var c := GridShape(numPlots).value.cols;
    if numPlots < 4 {
      SquareBelowFour(c);
    }
  }

  /** Only 0 and 1 have a square below 4. */
  lemma SquareBelowFour(c: nat)
    requires c * c < 4
    ensures c <= 1
  {
  }

  /** The cell a plot queue of length `numPlots` leaves at (col, row) of a grid `cols` wide:
      cells are taken in the order of the source's loops, `col` inside `row`, and those past the
      last plot are deleted. A drawn cell holds
      a queued plot whose index leads back to the cell: row index div cols, column index mod cols. */
  function CellOf(numPlots: nat, cols: nat, col: nat, row: nat): (c: Cell)
    ensures !c.Blank?
    ensures c.Drawn? ==> c.plot < numPlots
    ensures c.Drawn? && col < cols ==> c.plot / cols == row && c.plot % cols == col
  {
    var k := row * cols + col;
    if k < numPlots then
      if col < cols then
        PositionDecodes(cols, row, col);
        Drawn(k)
      else Drawn(k)
    else Deleted
  }

  /** The row-major position row·c + col, col < c, gives back its row and column. */
  lemma PositionDecodes(c: nat, row: nat, col: nat)
    requires col < c
    ensures (row * c + col) / c == row && (row * c + col) % c == col
  {
    var k := row * c + col;
    RowMajorUnique(c, row, col, k / c, k % c);
  }

  /** A row-major position row·c + col with col < c determines the row and the column. */
  lemma RowMajorUnique(c: nat, row: nat, col: nat, q: nat, m: nat)
    requires col < c && m < c && row * c + col == q * c + m
    ensures row == q && col == m
  {
    MulSucc(q, c);
    MulCancel(row, q + 1, c);
    MulSucc(row, c);
    MulCancel(q, row + 1, c);
  }

  /** Every queued plot is drawn, in exactly one cell of the grid. */
  lemma EveryPlotDrawnOnce(numPlots: nat, k: nat)
    requires numPlots > 0 && k < numPlots
    ensures var g := GridShape(numPlots).value;
      k / g.cols < g.rows && CellOf(numPlots, g.cols, k % g.cols, k / g.cols) == Drawn(k)
    ensures var g := GridShape(numPlots).value;
      forall col: nat, row: nat ::
        col < g.cols && row < g.rows && CellOf(numPlots, g.cols, col, row) == Drawn(k) ==>
          col == k % g.cols && row == k / g.cols
  {
    var g := GridShape(numPlots).value;
    PlotCell(numPlots, g.cols, g.rows, k);
  }

  /** In a grid `c` wide with room for the `n` plots, plot `k` sits at column k % c of row k / c,
      and nowhere else. */
  lemma PlotCell(n: nat, c: nat, r: nat, k: nat)
    requires c >= 1 && n <= r * c && k < n
    ensures k / c < r && CellOf(n, c, k % c, k / c) == Drawn(k)
    ensures forall col: nat, row: nat ::
              col < c && row < r && CellOf(n, c, col, row) == Drawn(k) ==> col == k % c && row == k / c
  {
    var q, m := k / c, k % c;
    assert k == q * c + m;
    MulCancel(q, r, c);
    forall col: nat, row: nat | col < c && row < r && CellOf(n, c, col, row) == Drawn(k)
      ensures col == m && row == q
    {
      RowMajorUnique(c, row, col, q, m);
    }
  }

  /** Only cells with the last `row` index are ever deleted (the figure's last column, since the
      figure is `subplots(cols, rows)`), so fewer than `cols` cells are lost. */
  lemma DeletedOnlyInLastRow(numPlots: nat, col: nat, row: nat)
    requires numPlots > 0
    requires col < GridShape(numPlots).value.cols && row < GridShape(numPlots).value.rows
    requires CellOf(numPlots, GridShape(numPlots).value.cols, col, row) == Deleted
    ensures row == GridShape(numPlots).value.rows - 1
  {
    var g := GridShape(numPlots).value;
    DeletedCell(numPlots, g.cols, g.rows, col, row);
  }

  /** A deleted cell lies past the last plot, which lies beyond the first rows − 1 rows. */
  lemma DeletedCell(n: nat, c: nat, r: nat, col: nat, row: nat)
    requires c >= 1 && r >= 1 && (r - 1) * c < n && col < c && row < r
    requires CellOf(n, c, col, row) == Deleted
    ensures row == r - 1
  {
    MulSucc(row, c);
    MulCancel(r - 1, row + 1, c);
  }

  /** The grid arithmetic and the three drawing branches of `drawPlots`: a single plot takes the
      only cell, two or three plots fill the single figure row of n axes, four or more
      fill the grid one `row` at a time, `col` inside `row`.
      With no plots queued the grid arithmetic divides by zero and nothing is drawn. */
  method DrawPlots(numPlots: nat) returns (r: Option<array2<Cell>>)
    ensures r.None? <==> numPlots == 0
    ensures r.Some? ==> fresh(r.value)
    ensures r.Some? ==> r.value.Length0 == GridShape(numPlots).value.cols
    ensures r.Some? ==> r.value.Length1 == GridShape(numPlots).value.rows
    ensures r.Some? ==> forall col, row :: 0 <= col < r.value.Length0 && 0 <= row < r.value.Length1 ==>
      r.value[col, row] == CellOf(numPlots, r.value.Length0, col, row)
  {
    var g := GridShape(numPlots);
    if g.None? {
      return None;
    }
    var cols, rows := g.value.cols, g.value.rows;
    var axes := new Cell[cols, rows]((col, row) => Blank);
    if numPlots < 4 {
      SmallGridIsOneRow(numPlots);
      if numPlots == 1 {
        axes[0, 0] := Drawn(0);
      } else {
        FillRow(axes, numPlots);
      }
      assert forall row :: 0 <= row < rows ==> axes[0, row] == Drawn(row);
    } else {
      FillGrid(axes, numPlots);
    }
    return Some(axes);
  }

  /** Two or three plots: `subplots(1, n)` gives one figure row of n axes, and plot `row` goes
      into axes `row`. */
  method FillRow(axes: array2<Cell>, numPlots: nat)
    requires axes.Length0 == 1 && axes.Length1 == numPlots
    modifies axes
    ensures forall row :: 0 <= row < numPlots ==> axes[0, row] == Drawn(row)
  {
    var currPlot := 0;
    for row := 0 to axes.Length1
      invariant currPlot == row
      invariant forall j :: 0 <= j < row ==> axes[0, j] == Drawn(j)
    {
      axes[0, row] := Drawn(currPlot);
      currPlot := currPlot + 1;
    }
  }

  /** Four or more plots: every cell is visited, `col` inside `row`. A cell whose plot index is
      past the end of the queue hits the IndexError path and is deleted, without advancing
      the index, so every later cell is deleted too. */
  method FillGrid(axes: array2<Cell>, numPlots: nat)
    modifies axes
    ensures forall col, row :: 0 <= col < axes.Length0 && 0 <= row < axes.Length1 ==>
      axes[col, row] == CellOf(numPlots, axes.Length0, col, row)
  {
    var cols, rows := axes.Length0, axes.Length1;
    var currPlot := 0;
    ghost var base := 0;
    for row := 0 to rows
      invariant base == row * cols
      invariant currPlot == if base < numPlots then base else numPlots
      invariant forall i, j :: 0 <= i < cols && 0 <= j < row ==> axes[i, j] == CellOf(numPlots, cols, i, j)
    {
      for col := 0 to cols
        invariant currPlot == if base + col < numPlots then base + col else numPlots
        invariant forall i, j :: 0 <= i < cols && 0 <= j < row ==> axes[i, j] == CellOf(numPlots, cols, i, j)
        invariant forall i :: 0 <= i < col ==> axes[i, row] == CellOf(numPlots, cols, i, row)
      {
        if currPlot < numPlots {
          axes[col, row] := Drawn(currPlot);
          currPlot := currPlot + 1;
        } else {
          axes[col, row] := Deleted;
        }
      }
      MulSucc(row, cols);
      base := base + cols;
    }
  }
}
