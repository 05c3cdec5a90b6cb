/** The cubical complex of an excursion set, stated without convolutions: its
    cells, its in-grid adjacent pairs and its full 2-by-2 blocks. The lemmas
    here show that the estimator's thresholded window sums count exactly
    these, so that it returns vertices minus edges plus faces of the complex. */
module CubicalComplex {
  import opened Grids
  import opened Positions
  import opened EulerEstimator

  /** The cells in the excursion set. */
  ghost function SetCells(g: Grid): set<Pos>
    requires Rectangular(g)
  {
    set i, j | 0 <= i < |g| && 0 <= j < Cols(g) && g[i][j] > 0 :: (i, j)
  }

  /** Set cells whose right neighbour, inside the grid, is set too; keyed by the left cell. */
  ghost function RightPairs(g: Grid): set<Pos>
    requires Rectangular(g)
  {
    set i, j | 0 <= i < |g| && 0 <= j && j + 1 < Cols(g) && g[i][j] > 0 && g[i][j + 1] > 0 :: (i, j)
  }

  /** Set cells whose lower neighbour, inside the grid, is set too; keyed by the upper cell. */
  ghost function DownPairs(g: Grid): set<Pos>
    requires Rectangular(g)
  {
    set i, j | 0 <= i && i + 1 < |g| && 0 <= j < Cols(g) && g[i][j] > 0 && g[i + 1][j] > 0 :: (i, j)
  }

  /** In-grid 2-by-2 blocks of four set cells; keyed by the top-left cell. */
  ghost function FullBlocks(g: Grid): set<Pos>
    requires Rectangular(g)
  {
    set i, j | 0 <= i && i + 1 < |g| && 0 <= j && j + 1 < Cols(g)
                 && g[i][j] > 0 && g[i][j + 1] > 0 && g[i + 1][j] > 0 && g[i + 1][j + 1] > 0 :: (i, j)
  }

  /** The vertex count is the number of positive cells, whatever their values. */
  lemma VerticesAreSetCells(g: Grid)
    requires Rectangular(g)
    ensures Vertices(g) == |SetCells(g)|
  {
    CountAboveCard(g, PointFilter, 0);
    assert AboveSet(g, PointFilter, 0) == SetCells(g);
  }

  /** On a 0/1 grid a right-edge sum exceeds 1 exactly at an in-grid pair of set
      cells; at the last column the padded 0 keeps the sum at most 1. */
  lemma RightEdgesArePairs(g: Grid)
    requires Rectangular(g) && Binary(g)
    ensures RightEdges(g) == |RightPairs(g)|
  {
    CountAboveCard(g, RightEdgeFilter, 1);
    forall p | p in AboveSet(g, RightEdgeFilter, 1) ensures p in RightPairs(g) {
      CellOfBinary(g, p.0, p.1);
      CellOfBinary(g, p.0, p.1 + 1);
    }
    assert AboveSet(g, RightEdgeFilter, 1) == RightPairs(g);
  }

  /** The same along columns: the bottom-edge count is the number of vertical pairs. */
  lemma BottomEdgesArePairs(g: Grid)
    requires Rectangular(g) && Binary(g)
    ensures BottomEdges(g) == |DownPairs(g)|
  {
    CountAboveCard(g, BottomEdgeFilter, 1);
    forall p | p in AboveSet(g, BottomEdgeFilter, 1) ensures p in DownPairs(g) {
      CellOfBinary(g, p.0, p.1);
      CellOfBinary(g, p.0 + 1, p.1);
    }
    assert AboveSet(g, BottomEdgeFilter, 1) == DownPairs(g);
  }

  /** On a 0/1 grid a face sum exceeds 3 exactly when all four cells are set;
      a window hanging off the grid holds a padded 0 and never counts. */
  lemma FacesAreBlocks(g: Grid)
    requires Rectangular(g) && Binary(g)
    ensures Faces(g) == |FullBlocks(g)|
  {
    CountAboveCard(g, FaceFilter, 3);
    forall p | p in AboveSet(g, FaceFilter, 3) ensures p in FullBlocks(g) {
      CellOfBinary(g, p.0, p.1);
      CellOfBinary(g, p.0, p.1 + 1);
      CellOfBinary(g, p.0 + 1, p.1);
      CellOfBinary(g, p.0 + 1, p.1 + 1);
    }
    assert AboveSet(g, FaceFilter, 3) == FullBlocks(g);
  }

  /** The estimator returns the Euler characteristic V - E + F of the cubical
      complex spanned by the set cells of a 0/1 grid. */
  lemma EulerOfComplex(g: Grid)
    requires Rectangular(g) && Binary(g)
    ensures EulerCharacteristic(g)
            == |SetCells(g)| - (|RightPairs(g)| + |DownPairs(g)|) + |FullBlocks(g)|
  {
    VerticesAreSetCells(g);
    RightEdgesArePairs(g);
    BottomEdgesArePairs(g);
    FacesAreBlocks(g);
  }

  /** Each count is bounded by the number of places its pattern fits in the grid. */
  lemma CountBounds(g: Grid)
    requires Rectangular(g) && Binary(g) && Cols(g) > 0
    ensures Vertices(g) <= |g| * Cols(g)
    ensures RightEdges(g) <= |g| * (Cols(g) - 1)
    ensures BottomEdges(g) <= (|g| - 1) * Cols(g)
    ensures Faces(g) <= (|g| - 1) * (Cols(g) - 1)
  {
    var m, n := |g|, Cols(g);
    RightEdgesArePairs(g);
    BottomEdgesArePairs(g);
    FacesAreBlocks(g);
    SubsetCard(RightPairs(g), Rect(m, n - 1));
    RectCard(m, n - 1);
    SubsetCard(DownPairs(g), Rect(m - 1, n));
    RectCard(m - 1, n);
    SubsetCard(FullBlocks(g), Rect(m - 1, n - 1));
    RectCard(m - 1, n - 1);
  }
}
