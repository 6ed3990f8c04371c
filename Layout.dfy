/** The grid layout: how many cells are drawn and how they are arranged in columns and rows. */
module Layout {
  import opened Wrappers
  import opened Arithmetic

  /** Most cells one grid shows. */
  const MaxCells := 50
  /** Most columns of a grid. */
  const MaxColumns := 5

  /** Columns and rows of the grid (`gridTemplateColumns` and the row count the cell height divides by). */
  datatype Shape = Shape(columns: int, rows: int)

  /**
   * Number of cells the grid loop draws for a requested count: the count cut
   * to 50; none for a count below 1 or for `NaN` (`None`).
   */
  function CellsDrawn(cellCount: Option<int>): (k: nat)
    ensures k <= MaxCells
    ensures cellCount.Some? && 1 <= cellCount.value <= MaxCells ==> k == cellCount.value
    ensures cellCount.Some? && cellCount.value > MaxCells ==> k == MaxCells
    ensures cellCount.None? || cellCount.value < 1 ==> k == 0
  {
    match cellCount
    case None => 0
    case Some(c) => ArrayLength(Min(c, MaxCells))
  }

  /**
   * `columns = Math.min(c, 5)` and `rows = Math.ceil(c / columns)` for the
   * count `c` cut to 50. For a positive count the grid has at most 5 columns,
   * at least one row, and exactly enough rows: the last row is not empty.
   * A count of 0 divides 0 by 0 (`None`); a negative count gets that many
   * columns and one row.
   */
  function Arrange(cellCount: int): (shape: Option<Shape>)
    ensures shape.None? <==> cellCount == 0
    ensures cellCount >= 1 ==> (
      shape.Some? &&
      var c, columns, rows := Min(cellCount, MaxCells), shape.value.columns, shape.value.rows;
      columns == Min(c, MaxColumns) && 1 <= columns <= MaxColumns && 1 <= rows <= MaxCells / MaxColumns &&
      columns * (rows - 1) < c <= columns * rows)
    ensures cellCount < 0 ==> shape == Some(Shape(cellCount, 1))
  {
    var c := Min(cellCount, MaxCells);
    var columns := Min(c, MaxColumns);
    if columns == 0 then None else Some(Shape(columns, CeilDiv(c, columns)))
  }

  /** Seven cells are laid out in 5 columns and 2 rows. */
  lemma SevenCells()
    ensures Arrange(7) == Some(Shape(5, 2))
  {
  }
}
