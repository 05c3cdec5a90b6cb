/** Finite sets of grid positions (row, column) and their sizes. */
module Positions {

  type Pos = (int, int)

  /** All positions of an m-by-n block anchored at (0, 0). */
  ghost function Rect(m: nat, n: nat): set<Pos> {
    set i, j | 0 <= i < m && 0 <= j < n :: (i, j)
  }

  /** The positions of row `i` with a column below `n`. */
  ghost function RowPrefix(i: int, n: nat): set<Pos> {
    set j | 0 <= j < n :: (i, j)
  }

  /** The mirror image of a set of positions across the main diagonal. */
  ghost function Swapped(s: set<Pos>): set<Pos> {
    set p | p in s :: (p.1, p.0)
  }

  lemma {:induction false} RowPrefixCard(i: int, n: nat)
    ensures |RowPrefix(i, n)| == n
  {
    if n > 0 {
      RowPrefixCard(i, n - 1);
      assert RowPrefix(i, n) == RowPrefix(i, n - 1) + {(i, n - 1)};
    }
  }

  /** An m-by-n block is its first m - 1 rows plus its last row. */
  lemma RectSplit(m: nat, n: nat)
    requires m > 0
    ensures Rect(m, n) == Rect(m - 1, n) + RowPrefix(m - 1, n)
    ensures Rect(m - 1, n) !! RowPrefix(m - 1, n)
  {
    forall p | p in Rect(m, n) ensures p in Rect(m - 1, n) + RowPrefix(m - 1, n) {
      if p.0 < m - 1 { assert p in Rect(m - 1, n); } else { assert p in RowPrefix(m - 1, n); }
    }
  }

  /** An m-by-n block has m * n positions. */
  lemma {:induction false} RectCard(m: nat, n: nat)
    ensures |Rect(m, n)| == m * n
  {
    if m > 0 {
      RectCard(m - 1, n);
      RowPrefixCard(m - 1, n);
      RectSplit(m, n);
      assert (m - 1) * n + n == m * n;
    }
  }

  /** Mirroring is a bijection, so it keeps the number of positions. */
  lemma {:induction false} SwappedCard(s: set<Pos>)
    ensures |Swapped(s)| == |s|
    decreases |s|
  {
    if s != {} {
      var p :| p in s;
      var rest := s - {p};
      SwappedCard(rest);
      assert Swapped(s) == Swapped(rest) + {(p.1, p.0)};
      assert (p.1, p.0) !in Swapped(rest);
    }
  }

  /** A subset is no larger than the set that contains it. */
  lemma SubsetCard(a: set<Pos>, b: set<Pos>)
    requires a <= b
    ensures |a| <= |b|
  {
    assert b == a + (b - a);
    assert a !! (b - a);
  }
}
