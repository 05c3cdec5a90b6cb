/** The reference excursion set of Fig. 3 of Vitells and Gross (arXiv:1105.4355),
    on which lee2d.py checks its estimator: the result must be 2. */
module FigureThree {
  import opened Grids
  import opened EulerEstimator

  /** The 7-by-7 grid as it is built cell by cell: cells (1,2), (1,3), (2,1..4),
      (3,1..5), (4,1..4), (5,3), (6,0) and (6,1) are set. */
  function Figure(): Grid {
    [[0, 0, 0, 0, 0, 0, 0],
     [0, 0, 1, 1, 0, 0, 0],
     [0, 1, 1, 1, 1, 0, 0],
     [0, 1, 1, 1, 1, 1, 0],
     [0, 1, 1, 1, 1, 0, 0],
     [0, 0, 0, 1, 0, 0, 0],
     [1, 1, 0, 0, 0, 0, 0]]
  }

  /** The grid the estimator is run on: the figure after transposition. */
  function ReferenceGrid(): Grid {
    [[0, 0, 0, 0, 0, 0, 1],
     [0, 0, 1, 1, 1, 0, 1],
     [0, 1, 1, 1, 1, 0, 0],
     [0, 1, 1, 1, 1, 1, 0],
     [0, 0, 1, 1, 1, 0, 0],
     [0, 0, 0, 1, 0, 0, 0],
     [0, 0, 0, 0, 0, 0, 0]]
  }

  lemma ReferenceGridIsTransposed()
    ensures ReferenceGrid() == Transpose(Figure())
  {
    var r, t := ReferenceGrid(), Transpose(Figure());
    forall i | 0 <= i < 7 ensures r[i] == t[i] {
      forall j | 0 <= j < 7 ensures r[i][j] == t[i][j] {
        assert t[i][j] == Figure()[j][i];
      }
    }
  }

  // Row by row: the set cells, the right pairs, the vertical pairs below and
  // the full blocks below each row of the reference grid.

  lemma VertexRows(i: nat)
    requires i < 7
    ensures CountRow(ReferenceGrid(), PointFilter, 0, i, 7) == [1, 4, 4, 5, 3, 1, 0][i]
  {
  }

  lemma RightEdgeRows(i: nat)
    requires i < 7
    ensures CountRow(ReferenceGrid(), RightEdgeFilter, 1, i, 7) == [0, 2, 3, 4, 2, 0, 0][i]
  {
  }

  lemma BottomEdgeRows(i: nat)
    requires i < 7
    ensures CountRow(ReferenceGrid(), BottomEdgeFilter, 1, i, 7) == [1, 3, 4, 3, 1, 0, 0][i]
  {
  }

  lemma FaceRows(i: nat)
    requires i < 7
    ensures CountRow(ReferenceGrid(), FaceFilter, 3, i, 7) == [0, 2, 3, 2, 0, 0, 0][i]
  {
  }

  lemma ReferenceVertices(a: Grid)
    requires a == ReferenceGrid()
    ensures Vertices(a) == 18
  {
    VertexRows(0); VertexRows(1); VertexRows(2); VertexRows(3); VertexRows(4); VertexRows(5); VertexRows(6);
  }

  lemma ReferenceRightEdges(a: Grid)
    requires a == ReferenceGrid()
    ensures RightEdges(a) == 11
  {
    RightEdgeRows(0); RightEdgeRows(1); RightEdgeRows(2); RightEdgeRows(3); RightEdgeRows(4); RightEdgeRows(5); RightEdgeRows(6);
  }

  lemma ReferenceBottomEdges(a: Grid)
    requires a == ReferenceGrid()
    ensures BottomEdges(a) == 12
  {
    BottomEdgeRows(0); BottomEdgeRows(1); BottomEdgeRows(2); BottomEdgeRows(3); BottomEdgeRows(4); BottomEdgeRows(5); BottomEdgeRows(6);
  }

  lemma ReferenceFaces(a: Grid)
    requires a == ReferenceGrid()
    ensures Faces(a) == 7
  {
    FaceRows(0); FaceRows(1); FaceRows(2); FaceRows(3); FaceRows(4); FaceRows(5); FaceRows(6);
  }

  /** Right and bottom edges together: the 23 edges of the printed tally. */
  lemma ReferenceEdges(a: Grid)
    requires a == ReferenceGrid()
    ensures Edges(a) == 23
  {
    ReferenceRightEdges(a);
    ReferenceBottomEdges(a);
  }

  /** The check of lee2d.py: on the figure transposed, the estimator returns 2
      (18 vertices - 23 edges + 7 faces; two pieces, no hole). */
  lemma ReferenceCheck(a: Grid)
    requires a == Transpose(Figure())
    ensures EulerCharacteristic(a) == 2
  {
    ReferenceGridIsTransposed();
    ReferenceVertices(a);
    ReferenceRightEdges(a);
    ReferenceBottomEdges(a);
    ReferenceFaces(a);
  }
}
