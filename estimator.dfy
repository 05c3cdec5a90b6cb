/** The discrete Euler-characteristic estimator of lee2d.py: count the cells,
    the adjacent pairs and the 2-by-2 blocks of an excursion-set grid by
    convolving it with small all-ones kernels under zero padding, keeping the
    positions whose convolved value exceeds a threshold, and summing. */
module EulerEstimator {
  import opened Grids
  import opened Positions

  /** An all-ones convolution kernel of `height` rows and `width` columns.
      The estimator uses only extents 1 and 2. */
  datatype Kernel = Ones(height: nat, width: nat) {
    predicate Valid() {
      1 <= height <= 2 && 1 <= width <= 2
    }

    /** The kernel's transpose (numpy's `.T`). */
    function Transposed(): (k: Kernel)
      ensures k.height == width && k.width == height
      ensures Valid() ==> k.Valid()
    {
      Ones(width, height)
    }
  }

  /** The 2-by-2 face filter. */
  const FaceFilter := Ones(2, 2)
  /** The 1-by-2 filter pairing a cell with its right neighbour. */
  const RightEdgeFilter := Ones(1, 2)
  /** The 2-by-1 filter pairing a cell with the cell below it. */
  const BottomEdgeFilter := RightEdgeFilter.Transposed()
  /** A single 1: convolving with it leaves the grid unchanged, so counting
      values above 0 after it is counting the positive cells. */
  const PointFilter := Ones(1, 1)

  /** The value at (i, j) of the grid convolved with the all-ones kernel `k`
      under zero padding (`mode='constant'`). Flipping an all-ones kernel
      changes nothing; along an axis of even extent 2 the window covers the
      position itself and the next one. */
  function Convolved(g: Grid, k: Kernel, i: int, j: int): int
    requires k.Valid()
  {
    Cell(g, i, j)
    + (if k.width == 2 then Cell(g, i, j + 1) else 0)
    + (if k.height == 2 then Cell(g, i + 1, j) else 0)
    + (if k.height == 2 && k.width == 2 then Cell(g, i + 1, j + 1) else 0)
  }

  /** How many of the first `n` positions of row `i` have a convolved value above `t`. */
  function CountRow(g: Grid, k: Kernel, t: int, i: int, n: nat): (c: nat)
    requires k.Valid()
    ensures c <= n
  {
    if n == 0 then 0
    else CountRow(g, k, t, i, n - 1) + (if Convolved(g, k, i, n - 1) > t then 1 else 0)
  }

  /** How many positions of the first `m` rows have a convolved value above `t`. */
  function CountRows(g: Grid, k: Kernel, t: int, m: nat): (c: nat)
    requires k.Valid()
    ensures c <= m * Cols(g)
  {
    if m == 0 then 0
    else
      var c := CountRows(g, k, t, m - 1) + CountRow(g, k, t, m - 1, Cols(g));
      assert c <= (m - 1) * Cols(g) + Cols(g) == m * Cols(g);
      c
  }

  /** `np.sum(convolve(g, k, mode='constant') > t)`: the number of positions of
      the output, which has the grid's shape, whose value exceeds `t`. */
  function CountAbove(g: Grid, k: Kernel, t: int): (c: nat)
    requires k.Valid()
    ensures c <= |g| * Cols(g)
  {
    CountRows(g, k, t, |g|)
  }

  /** `n_vertices`: the number of cells with a positive value. */
  function Vertices(g: Grid): nat {
    CountAbove(g, PointFilter, 0)
  }

  /** The first half of `n_edges`: right-edge filter sums above 1. */
  function RightEdges(g: Grid): nat {
    CountAbove(g, RightEdgeFilter, 1)
  }

  /** The second half of `n_edges`: bottom-edge filter sums above 1. */
  function BottomEdges(g: Grid): nat {
    CountAbove(g, BottomEdgeFilter, 1)
  }

  /** `n_edges`. */
  function Edges(g: Grid): nat {
    RightEdges(g) + BottomEdges(g)
  }

  /** `n_faces`: face filter sums above 3. */
  function Faces(g: Grid): nat {
    CountAbove(g, FaceFilter, 3)
  }

  /** `calculate_euler_characteristic`: vertices minus edges plus faces. */
  function EulerCharacteristic(g: Grid): int {
    Vertices(g) - Edges(g) + Faces(g)
  }

  // ---------------------------------------------------------------------
  // What the counts count: sizes of sets of output positions.

  /** The output positions whose convolved value exceeds `t`. */
  ghost function AboveSet(g: Grid, k: Kernel, t: int): set<Pos>
    requires k.Valid()
  {
    set i, j | 0 <= i < |g| && 0 <= j < Cols(g) && Convolved(g, k, i, j) > t :: (i, j)
  }

  ghost function RowAbove(g: Grid, k: Kernel, t: int, i: int, n: nat): set<Pos>
    requires k.Valid()
  {
    set j | 0 <= j < n && Convolved(g, k, i, j) > t :: (i, j)
  }

  ghost function RowsAbove(g: Grid, k: Kernel, t: int, m: nat): set<Pos>
    requires k.Valid()
  {
    set i, j | 0 <= i < m && 0 <= j < Cols(g) && Convolved(g, k, i, j) > t :: (i, j)
  }

  lemma {:induction false} RowAboveCard(g: Grid, k: Kernel, t: int, i: int, n: nat)
    requires k.Valid()
    ensures |RowAbove(g, k, t, i, n)| == CountRow(g, k, t, i, n)
  {
    if n > 0 {
      RowAboveCard(g, k, t, i, n - 1);
      if Convolved(g, k, i, n - 1) > t {
        assert RowAbove(g, k, t, i, n) == RowAbove(g, k, t, i, n - 1) + {(i, n - 1)};
      } else {
        assert RowAbove(g, k, t, i, n) == RowAbove(g, k, t, i, n - 1);
      }
    }
  }

  lemma RowsAboveSplit(g: Grid, k: Kernel, t: int, m: nat)
    requires k.Valid() && m > 0
    ensures RowsAbove(g, k, t, m) == RowsAbove(g, k, t, m - 1) + RowAbove(g, k, t, m - 1, Cols(g))
    ensures RowsAbove(g, k, t, m - 1) !! RowAbove(g, k, t, m - 1, Cols(g))
  {
    var top, last := RowsAbove(g, k, t, m - 1), RowAbove(g, k, t, m - 1, Cols(g));
    forall p | p in RowsAbove(g, k, t, m) ensures p in top + last {
      if p.0 < m - 1 { assert p in top; } else { assert p in last; }
    }
  }

  lemma {:induction false} RowsAboveCard(g: Grid, k: Kernel, t: int, m: nat)
    requires k.Valid()
    ensures |RowsAbove(g, k, t, m)| == CountRows(g, k, t, m)
  {
    if m > 0 {
      RowsAboveCard(g, k, t, m - 1);
      RowAboveCard(g, k, t, m - 1, Cols(g));
      RowsAboveSplit(g, k, t, m);
    }
  }

  /** Thresholding and summing counts exactly the output positions above the threshold. */
  lemma CountAboveCard(g: Grid, k: Kernel, t: int)
    requires k.Valid()
    ensures CountAbove(g, k, t) == |AboveSet(g, k, t)|
  {
    RowsAboveCard(g, k, t, |g|);
    assert AboveSet(g, k, t) == RowsAbove(g, k, t, |g|);
  }

  // ---------------------------------------------------------------------
  // Transposing the grid.

  /** Convolving the transposed grid is convolving the grid with the transposed kernel. */
  lemma ConvolvedOfTranspose(g: Grid, k: Kernel, i: int, j: int)
    requires Rectangular(g) && k.Valid()
    ensures Convolved(Transpose(g), k, i, j) == Convolved(g, k.Transposed(), j, i)
  {
    CellOfTranspose(g, i, j);
    CellOfTranspose(g, i, j + 1);
    CellOfTranspose(g, i + 1, j);
    CellOfTranspose(g, i + 1, j + 1);
  }

  lemma AboveSetOfTranspose(g: Grid, k: Kernel, t: int)
    requires Rectangular(g) && k.Valid()
    ensures AboveSet(Transpose(g), k, t) == Swapped(AboveSet(g, k.Transposed(), t))
  {
    var tg, kt := Transpose(g), k.Transposed();
    assert |tg| > 0 ==> Cols(tg) == |g|;
    forall p | p in AboveSet(tg, k, t) ensures p in Swapped(AboveSet(g, kt, t)) {
      ConvolvedOfTranspose(g, k, p.0, p.1);
      assert (p.1, p.0) in AboveSet(g, kt, t);
    }
    forall p | p in Swapped(AboveSet(g, kt, t)) ensures p in AboveSet(tg, k, t) {
      ConvolvedOfTranspose(g, k, p.0, p.1);
    }
  }

  /** Any threshold count of the transposed grid is that of the grid under the transposed kernel. */
  lemma CountAboveOfTranspose(g: Grid, k: Kernel, t: int)
    requires Rectangular(g) && k.Valid()
    ensures CountAbove(Transpose(g), k, t) == CountAbove(g, k.Transposed(), t)
  {
    CountAboveCard(Transpose(g), k, t);
    CountAboveCard(g, k.Transposed(), t);
    AboveSetOfTranspose(g, k, t);
    SwappedCard(AboveSet(g, k.Transposed(), t));
  }

  /** Transposing keeps the vertices and faces and swaps right and bottom edges. */
  lemma TransposeSwapsEdges(g: Grid)
    requires Rectangular(g)
    ensures Vertices(Transpose(g)) == Vertices(g)
    ensures RightEdges(Transpose(g)) == BottomEdges(g)
    ensures BottomEdges(Transpose(g)) == RightEdges(g)
    ensures Faces(Transpose(g)) == Faces(g)
  {
    CountAboveOfTranspose(g, PointFilter, 0);
    CountAboveOfTranspose(g, RightEdgeFilter, 1);
    CountAboveOfTranspose(g, BottomEdgeFilter, 1);
    CountAboveOfTranspose(g, FaceFilter, 3);
  }

  /** The Euler characteristic does not depend on which axis is the row axis. */
  lemma EulerOfTranspose(g: Grid)
    requires Rectangular(g)
    ensures EulerCharacteristic(Transpose(g)) == EulerCharacteristic(g)
  {
    TransposeSwapsEdges(g);
  }
}
