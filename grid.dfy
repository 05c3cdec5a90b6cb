/** Two-dimensional grids of cell values, as the estimator receives them:
    a row-major sequence of rows, read with zero padding outside its bounds. */
module Grids {

  /** A grid of cell values; `g[i][j]` is row `i`, column `j`. */
  type Grid = seq<seq<int>>

  /** Number of columns, read off the first row (0 for a grid without rows). */
  function Cols(g: Grid): nat {
    if |g| == 0 then 0 else |g[0]|
  }

  /** Every row has the same length, as in a two-dimensional array. */
  predicate Rectangular(g: Grid) {
    forall i :: 0 <= i < |g| ==> |g[i]| == Cols(g)
  }

  /** The grid is an excursion-set indicator: every cell holds 0 or 1. */
  predicate Binary(g: Grid) {
    forall i, j :: 0 <= i < |g| && 0 <= j < |g[i]| ==> g[i][j] == 0 || g[i][j] == 1
  }

  /** The value at (i, j), with the constant 0 outside the grid (zero padding). */
  function Cell(g: Grid, i: int, j: int): int {
    if 0 <= i < |g| && 0 <= j < |g[i]| then g[i][j] else 0
  }

  /** The transposed grid: row `i` of the result is column `i` of `g`. */
  function Transpose(g: Grid): (t: Grid)
    ensures |t| == Cols(g)
    ensures forall i :: 0 <= i < |t| ==> |t[i]| == |g|
    ensures Rectangular(t)
  {
    seq(Cols(g), i => seq(|g|, j => Cell(g, j, i)))
  }

  /** Reading the transposed grid at (i, j) reads the original at (j, i),
      including the zero padding around it. */
  lemma CellOfTranspose(g: Grid, i: int, j: int)
    requires Rectangular(g)
    ensures Cell(Transpose(g), i, j) == Cell(g, j, i)
  {
    var t := Transpose(g);
    if 0 <= i < |t| && 0 <= j < |t[i]| {
      assert t[i][j] == Cell(g, j, i);
    } else if 0 <= j < |g| {
      assert |g[j]| == Cols(g) == |t|;
    }
  }

  /** A binary grid reads 0 or 1 everywhere, and reads 1 only inside its bounds. */
  lemma CellOfBinary(g: Grid, i: int, j: int)
    requires Binary(g)
    ensures Cell(g, i, j) == 0 || Cell(g, i, j) == 1
    ensures Cell(g, i, j) == 1 ==> 0 <= i < |g| && 0 <= j < |g[i]|
  {
  }
}
