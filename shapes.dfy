/** The Euler characteristic the estimator gives for some whole families of
    excursion sets: none, a single cell, a full rectangle; and what happens
    when a cell holds a value other than 0 or 1. */
module ExcursionShapes {
  import opened Grids
  import opened Positions
  import opened EulerEstimator
  import opened CubicalComplex

  /** With every cell 0, no convolved value exceeds a threshold of 0 or more. */
  lemma NothingAbove(g: Grid, k: Kernel, t: int)
    requires forall i, j :: 0 <= i < |g| && 0 <= j < |g[i]| ==> g[i][j] == 0
    requires k.Valid() && t >= 0
    ensures CountAbove(g, k, t) == 0
  {
    CountAboveCard(g, k, t);
    assert AboveSet(g, k, t) == {};
  }

  /** The empty excursion set: nothing passes > 0, > 1 or > 3, so the result is 0. */
  lemma EmptyExcursionSet(g: Grid)
    requires forall i, j :: 0 <= i < |g| && 0 <= j < |g[i]| ==> g[i][j] == 0
    ensures Vertices(g) == 0 && Edges(g) == 0 && Faces(g) == 0
    ensures EulerCharacteristic(g) == 0
  {
    NothingAbove(g, PointFilter, 0);
    NothingAbove(g, RightEdgeFilter, 1);
    NothingAbove(g, BottomEdgeFilter, 1);
    NothingAbove(g, FaceFilter, 3);
  }

  /** A single set cell anywhere in the grid, on its border included, is one
      vertex with no edge and no face: the result is 1. */
  lemma SinglePoint(g: Grid, a: int, b: int)
    requires Rectangular(g) && 0 <= a < |g| && 0 <= b < Cols(g)
    requires forall i, j :: 0 <= i < |g| && 0 <= j < Cols(g) ==> g[i][j] == (if i == a && j == b then 1 else 0)
    ensures Vertices(g) == 1 && Edges(g) == 0 && Faces(g) == 0
    ensures EulerCharacteristic(g) == 1
  {
    assert Binary(g);
    assert SetCells(g) == {(a, b)};
    assert RightPairs(g) == {};
    assert DownPairs(g) == {};
    assert FullBlocks(g) == {};
    VerticesAreSetCells(g);
    RightEdgesArePairs(g);
    BottomEdgesArePairs(g);
    FacesAreBlocks(g);
  }

  /** A fully set m-by-n grid: every cell, pair and block inside it is present. */
  lemma FullComplex(g: Grid)
    requires Rectangular(g) && |g| > 0 && Cols(g) > 0
    requires forall i, j :: 0 <= i < |g| && 0 <= j < Cols(g) ==> g[i][j] == 1
    ensures Binary(g)
    ensures SetCells(g) == Rect(|g|, Cols(g))
    ensures RightPairs(g) == Rect(|g|, Cols(g) - 1)
    ensures DownPairs(g) == Rect(|g| - 1, Cols(g))
    ensures FullBlocks(g) == Rect(|g| - 1, Cols(g) - 1)
  {
  }

  lemma FullRectangleArith(m: int, n: int)
    ensures m * (n - 1) == m * n - m
    ensures (m - 1) * n == m * n - n
    ensures (m - 1) * (n - 1) == m * n - m - n + 1
  {
  }

  /** A fully set m-by-n grid has mn vertices, m(n - 1) + (m - 1)n edges and
      (m - 1)(n - 1) faces; it is one contractible piece, with Euler characteristic 1. */
  lemma FullRectangle(g: Grid)
    requires Rectangular(g) && |g| > 0 && Cols(g) > 0
    requires forall i, j :: 0 <= i < |g| && 0 <= j < Cols(g) ==> g[i][j] == 1
    ensures Vertices(g) == |g| * Cols(g)
    ensures Edges(g) == |g| * (Cols(g) - 1) + (|g| - 1) * Cols(g)
    ensures Faces(g) == (|g| - 1) * (Cols(g) - 1)
    ensures EulerCharacteristic(g) == 1
  {
    var m, n := |g|, Cols(g);
    FullComplex(g);
    RectCard(m, n);
    RectCard(m, n - 1);
    RectCard(m - 1, n);
    RectCard(m - 1, n - 1);
    VerticesAreSetCells(g);
    RightEdgesArePairs(g);
    BottomEdgesArePairs(g);
    FacesAreBlocks(g);
    FullRectangleArith(m, n);
  }

  /** A 3-by-3 grid whose centre cell holds 2 and whose other cells hold 0. */
  function LoneTwo(): Grid {
    [[0, 0, 0], [0, 2, 0], [0, 0, 0]]
  }

  /** As an excursion set, LoneTwo is one cell with no pair and no block around it. */
  lemma LoneTwoComplex(g: Grid)
    requires g == LoneTwo()
    ensures SetCells(g) == {(1, 1)}
    ensures RightPairs(g) == {} && DownPairs(g) == {} && FullBlocks(g) == {}
    ensures |SetCells(g)| - (|RightPairs(g)| + |DownPairs(g)|) + |FullBlocks(g)| == 1
  {
  }

  /** Row by row: the positive cells, and the windows whose sums pass > 1 and > 3. */
  lemma LoneTwoRows(i: nat)
    requires i < 3
    ensures CountRow(LoneTwo(), PointFilter, 0, i, 3) == [0, 1, 0][i]
    ensures CountRow(LoneTwo(), RightEdgeFilter, 1, i, 3) == [0, 2, 0][i]
    ensures CountRow(LoneTwo(), BottomEdgeFilter, 1, i, 3) == [1, 1, 0][i]
    ensures CountRow(LoneTwo(), FaceFilter, 3, i, 3) == 0
  {
  }

  lemma LoneTwoVertices(g: Grid)
    requires g == LoneTwo()
    ensures Vertices(g) == 1
  {
    LoneTwoRows(0); LoneTwoRows(1); LoneTwoRows(2);
  }

  /** The windows that pair the 2 with a zero neighbour, padded or not, sum to 2 > 1. */
  lemma LoneTwoEdges(g: Grid)
    requires g == LoneTwo()
    ensures Edges(g) == 4
  {
    LoneTwoRows(0); LoneTwoRows(1); LoneTwoRows(2);
  }

  lemma LoneTwoFaces(g: Grid)
    requires g == LoneTwo()
    ensures Faces(g) == 0
  {
    LoneTwoRows(0); LoneTwoRows(1); LoneTwoRows(2);
  }

  /** The thresholds > 1 and > 3 presume cells of 0 or 1: on LoneTwo, whose
      excursion set is a single cell of Euler characteristic 1, the estimator
      counts four edges and returns -3. */
  lemma LoneCellOfTwo(g: Grid)
    requires g == LoneTwo()
    ensures |SetCells(g)| - (|RightPairs(g)| + |DownPairs(g)|) + |FullBlocks(g)| == 1
    ensures EulerCharacteristic(g) == -3
  {
    LoneTwoComplex(g);
    LoneTwoVertices(g);
    LoneTwoEdges(g);
    LoneTwoFaces(g);
  }
}
