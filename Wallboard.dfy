/**
 * The wallboard page: the grid of cells drawn from the flat item list, the
 * page-wide full-screen flag set by a valid submit, and the per-cell blink
 * alarm toggled by clicks.
 */
module Wallboard {
  import opened Wrappers
  import opened Status
  import opened Layout

  /** One drawn cell: the item's name and its look. */
  datatype Cell = Cell(name: string, look: Look)

  /**
   * The cell drawn for an item: its text is the item's name, and it is
   * coloured exactly when the status is one of the three the switch knows.
   */
  function Draw(item: Item): (cell: Cell)
    requires Presentable(item)
    ensures cell.name == item.name
    ensures cell.look.colour.Some? <==> item.status in {"Healthy", "Unhealthy", "Error"}
    ensures cell.look == Present(item)
  {
    Cell(item.name, Present(item))
  }

  /**
   * The first `k` items exist and can be drawn; otherwise the page stops
   * with a TypeError reading `Name` or splitting `Error` of `undefined`.
   */
  predicate Drawable(data: seq<Item>, k: nat) {
    k <= |data| && forall i :: 0 <= i < k ==> Presentable(data[i])
  }

  /** The cells of a grid of `k` cells: cell `i` shows item `i` of the whole flat list. */
  function Cells(data: seq<Item>, k: nat): (cells: seq<Cell>)
    requires Drawable(data, k)
    ensures |cells| == k
    ensures forall i :: 0 <= i < k ==> cells[i] == Draw(data[i])
  {
    if k == 0 then [] else Cells(data, k - 1) + [Draw(data[k - 1])]
  }

  /** What one click on a cell does: whether it blinks afterwards and whether the beep plays. */
  datatype Reaction = Reaction(blinking: bool, beep: bool)

  /**
   * The click handler of a cell: out of full-screen mode nothing happens; in
   * it the blink flag flips, and the beep plays exactly when blinking starts.
   */
  function Toggle(fullscreen: bool, blinking: bool): (r: Reaction)
    ensures !fullscreen ==> r == Reaction(blinking, false)
    ensures fullscreen ==> r.blinking == !blinking
    ensures r.beep <==> fullscreen && !blinking
  {
    if !fullscreen then Reaction(blinking, false)
    else if !blinking then Reaction(true, true)
    else Reaction(false, false)
  }

  /** Two clicks restore a cell, with exactly one beep in full-screen mode and none outside it. */
  lemma ToggleTwice(fullscreen: bool, blinking: bool)
    ensures Toggle(fullscreen, Toggle(fullscreen, blinking).blinking).blinking == blinking
    ensures (if Toggle(fullscreen, blinking).beep then 1 else 0) +
            (if Toggle(fullscreen, Toggle(fullscreen, blinking).blinking).beep then 1 else 0) ==
            (if fullscreen then 1 else 0)
  {
  }

  /** The page's state: the full-screen flag, the drawn grid, the blink flags and the beeps played. */
  class Board {
    var isFullscreen: bool
    var cells: seq<Cell>
    var blink: array<bool>
    var shape: Option<Shape>
    var beeps: nat

    /** Every drawn cell has its blink flag. */
    ghost predicate Valid()
      reads this
    {
      blink.Length == |cells|
    }

    /** The board shows the grid for `cellCount` cells of `data`, no cell blinking. */
    ghost predicate Shows(data: seq<Item>, cellCount: Option<int>)
      reads this, blink
    {
      Valid() &&
      Drawable(data, CellsDrawn(cellCount)) &&
      cells == Cells(data, CellsDrawn(cellCount)) &&
      (forall i :: 0 <= i < blink.Length ==> !blink[i]) &&
      shape == (if cellCount.Some? then Arrange(cellCount.value) else None)
    }

    /** The page as loaded: not full screen, no grid, nothing played. */
    constructor ()
      ensures Valid() && !isFullscreen && cells == [] && shape == None && beeps == 0
    {
      isFullscreen := false;
      cells := [];
      blink := new bool[0];
      shape := None;
      beeps := 0;
    }

    /**
     * `createGrid(cellCount)`, also what a change of the size dropdown runs:
     * clears the grid and draws items `0..k-1` of the whole list, `k` the
     * count cut to 50, each cell not blinking. The selected group and screen
     * play no part.
     */
    method Render(data: seq<Item>, cellCount: Option<int>)
      requires Drawable(data, CellsDrawn(cellCount))
      modifies this
      ensures Shows(data, cellCount) && fresh(blink)
      ensures isFullscreen == old(isFullscreen) && beeps == old(beeps)
    {
      var count := CellsDrawn(cellCount);
      var drawn: seq<Cell> := [];
      var i := 0;
      while i < count
        invariant 0 <= i <= count
        invariant drawn == Cells(data, i)
      {
        drawn := drawn + [Draw(data[i])];
        i := i + 1;
      }
      cells := drawn;
      blink := new bool[count](_ => false);
      shape := if cellCount.Some? then Arrange(cellCount.value) else None;
    }

    /**
     * The form's submit: a size that parses to 0 or `NaN` is refused and
     * nothing changes; any other size turns full-screen mode on and renders
     * the grid.
     */
    method Submit(data: seq<Item>, parsed: Option<int>) returns (accepted: bool)
      requires parsed.Some? && parsed.value != 0 ==> Drawable(data, CellsDrawn(parsed))
      modifies this
      ensures accepted <==> parsed.Some? && parsed.value != 0
      ensures !accepted ==> unchanged(this)
      ensures accepted ==> isFullscreen && Shows(data, parsed) && fresh(blink) && beeps == old(beeps)
    {
      if parsed.None? || parsed.value == 0 {
        return false;
      }
      isFullscreen := true;
      Render(data, parsed);
      accepted := true;
    }

    /**
     * A click on cell `i`: only in full-screen mode does it flip the cell's
     * blink flag, and only a flip to blinking plays the beep. No other cell
     * changes, and the full-screen flag stays as it was.
     */
    method Click(i: nat)
      requires Valid() && i < blink.Length
      modifies this`beeps, blink
      ensures Valid()
      ensures blink[..] == old(blink[..])[i := Toggle(isFullscreen, old(blink[i])).blinking]
      ensures beeps == old(beeps) + (if Toggle(isFullscreen, old(blink[i])).beep then 1 else 0)
    {
      if !isFullscreen {
        return;
      }
      if !blink[i] {
        beeps := beeps + 1;
        blink[i] := true;
      } else {
        blink[i] := false;
      }
    }
  }
}
