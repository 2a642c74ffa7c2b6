/**
 * `getGridPosition` of the board view (apps/web/components/GameBoard.tsx): the
 * forty board indices laid out clockwise from the bottom
 * right corner around the border of an 11 x 11 CSS grid, rows and columns
 * counted from 1.
 */
module GameBoardGrid {

  datatype GridPosition = GridPosition(gridRow: int, gridColumn: int)

  function GetGridPosition(index: int): GridPosition {
    if 0 <= index <= 10 then GridPosition(11, 11 - index)
    else if 11 <= index <= 19 then GridPosition(11 - (index - 10), 1)
    else if 20 <= index <= 30 then GridPosition(1, index - 19)
    else if 31 <= index <= 39 then GridPosition(index - 29, 11)
    else GridPosition(1, 1)
  }

  predicate OnBorder(p: GridPosition) {
    1 <= p.gridRow <= 11 && 1 <= p.gridColumn <= 11 &&
    (p.gridRow == 1 || p.gridRow == 11 || p.gridColumn == 1 || p.gridColumn == 11)
  }

  /** Cells that share a side. */
  predicate Adjacent(p: GridPosition, q: GridPosition) {
    (p.gridRow == q.gridRow && (p.gridColumn - q.gridColumn == 1 || q.gridColumn - p.gridColumn == 1)) ||
    (p.gridColumn == q.gridColumn && (p.gridRow - q.gridRow == 1 || q.gridRow - p.gridRow == 1))
  }

  /** Every board index lands on the border of the grid. */
  lemma OnTheBorder(i: int)
    requires 0 <= i < 40
    ensures OnBorder(GetGridPosition(i))
  {
  }

  /** Distinct board indices get distinct cells. */
  lemma Injective(i: int, j: int)
    requires 0 <= i < 40 && 0 <= j < 40
    requires GetGridPosition(i) == GetGridPosition(j)
    ensures i == j
  {
  }

  /** The border has exactly forty cells, and each of them is some board index's. */
  lemma CoversBorder(p: GridPosition)
    requires OnBorder(p)
    ensures exists i :: 0 <= i < 40 && GetGridPosition(i) == p
  {
    var i :=
      if p.gridRow == 11 then 11 - p.gridColumn
      else if p.gridColumn == 1 then 21 - p.gridRow
      else if p.gridRow == 1 then p.gridColumn + 19
      else p.gridRow + 29;
    assert GetGridPosition(i) == p;
  }

  lemma Corners()
    ensures GetGridPosition(0) == GridPosition(11, 11)
    ensures GetGridPosition(10) == GridPosition(11, 1)
    ensures GetGridPosition(20) == GridPosition(1, 1)
    ensures GetGridPosition(30) == GridPosition(1, 11)
  {
  }

  /** Moving one square, including from 39 back to 0, moves to a neighbouring cell. */
  lemma StepIsAdjacent(i: int)
    requires 0 <= i < 40
    ensures Adjacent(GetGridPosition(i), GetGridPosition((i + 1) % 40))
  {
  }

  /** Anything off the board, negative or past 39, is drawn in the top-left corner. */
  lemma OutOfRange(i: int)
    requires i < 0 || i >= 40
    ensures GetGridPosition(i) == GridPosition(1, 1)
  {
  }
}
