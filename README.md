# Euler characteristic of a 2-d excursion set

`lee2d.py` corrects a local significance for the look-elsewhere effect in a
two-dimensional search, following Vitells and Gross (arXiv:1105.4355). The
correction needs the Euler characteristic of excursion sets: the grid cells of
a scan where the test statistic exceeds a level. `calculate_euler_characteristic`
computes it from a 0/1 grid `a` as

- **faces**: positions where `a` convolved with a 2-by-2 all-ones filter exceeds 3,
- **edges**: positions where `a` convolved with a 1-by-2 filter exceeds 1, plus
  positions where `a` convolved with its 2-by-1 transpose exceeds 1,
- **vertices**: cells of `a` above 0,

and returns vertices − edges + faces. The script's own check builds the
7-by-7 set of Fig. 3 of the paper, transposes it, and expects 2.

This project models that estimator and that check, and proves what the counts
mean.

- `Grids` (grid.dfy): grids as sequences of rows, zero-padded reads, transposition.
- `Positions` (positions.dfy): sets of (row, column) positions and their sizes.
- `EulerEstimator` (estimator.dfy): the all-ones kernels, the zero-padded
  convolution (`mode='constant'`), the thresholded counts, the four counts and
  their combination. It also proves that each count is the size of a set of
  output positions, and that transposing the grid keeps the result.
- `CubicalComplex` (complex.dfy): the cubical complex of an excursion set,
  defined directly: set cells, in-grid adjacent pairs, in-grid full 2-by-2
  blocks. On a 0/1 grid the estimator counts exactly these, with bounds on each count.
- `ExcursionShapes` (shapes.dfy): whole families of inputs. An empty set gives 0,
  a single cell gives 1 and a full rectangle gives 1. The 3-by-3 grid whose centre
  cell holds 2 (the rest 0) gives −3.
- `FigureThree` (figure.dfy): the Fig. 3 grid, its transpose, and the
  reference check: 18 vertices, 23 edges, 7 faces, result 2.

About the convolution: for a filter of even extent 2 along an axis,
`scipy.ndimage.convolve` with the default origin puts the window over the
output position and the next one, so with zero padding the right-edge value at
(i, j) is `a[i][j] + a[i][j+1]`. The padding outside the grid reads 0.
Flipping an all-ones filter changes nothing. The model counts
`convolve(...) > t` row by row and position by position. It does not build
the convolved array. The vertex count is the same count for a 1-by-1 filter
with threshold 0.

## Model

| member | source | states |
|---|---|---|
| EulerEstimator.Kernel.Transposed | lee2d.py:90-91 | `.T` of an all-ones filter swaps its height and width and keeps it a valid 1- or 2-extent filter; the bottom-edge filter is the 2-by-1 transpose of the right-edge filter |
| EulerEstimator.CountRow | lee2d.py:93-96 | the number of positions of one row whose convolved value exceeds the threshold is at most the number of positions examined |
| EulerEstimator.CountRows | lee2d.py:93-96 | the count over the first m rows is at most m times the number of columns |
| EulerEstimator.CountAbove | lee2d.py:93-96 | `np.sum(convolve(a, k) > t)` is at most the size of the output, which has the grid's shape |
| EulerEstimator.CountAboveCard | lee2d.py:93-96 | thresholding then summing counts exactly the set of in-grid output positions whose zero-padded convolved value exceeds the threshold |
| EulerEstimator.ConvolvedOfTranspose | lee2d.py:91 | the convolved value of the transposed grid at (i, j) equals the value of the grid convolved with the transposed filter at (j, i), padding included |
| EulerEstimator.AboveSetOfTranspose | lee2d.py:93-96 | the positions above threshold for the transposed grid are the mirror image of those for the grid under the transposed filter |
| EulerEstimator.CountAboveOfTranspose | lee2d.py:93-96 | each thresholded count of the transposed grid equals the count of the grid under the transposed filter |
| EulerEstimator.TransposeSwapsEdges | lee2d.py:89-96 | transposing the grid keeps the vertex and face counts and exchanges the right-edge and bottom-edge counts |
| EulerEstimator.EulerOfTranspose | lee2d.py:98-101 | the returned characteristic is the same for a grid and its transpose, so the `a.T` before the check does not change the result |
| Grids.Transpose | lee2d.py:113 | the transpose of a grid with R rows and C columns is a rectangular grid of C rows of length R |
| Grids.CellOfTranspose | lee2d.py:113 | the transpose read at (i, j) is the grid read at (j, i), including the zero padding outside it |
| Grids.CellOfBinary | lee2d.py:87-88 | a 0/1 level set reads 0 or 1 everywhere and reads 1 only inside its bounds |
| Positions.RectCard | lee2d.py:93-96 | an m-by-n block of output positions has m·n elements |
| Positions.SwappedCard | lee2d.py:113 | mirroring a set of positions across the diagonal keeps its size |
| CubicalComplex.VerticesAreSetCells | lee2d.py:96 | `n_vertices` is the number of cells with a positive value, on any rectangular grid |
| CubicalComplex.RightEdgesArePairs | lee2d.py:90-94 | on a 0/1 grid the right-edge count is the number of horizontally adjacent pairs of set cells inside the grid; the padded last column never counts |
| CubicalComplex.BottomEdgesArePairs | lee2d.py:91-95 | on a 0/1 grid the bottom-edge count is the number of vertically adjacent pairs of set cells inside the grid |
| CubicalComplex.FacesAreBlocks | lee2d.py:89-93 | on a 0/1 grid the face count is the number of in-grid 2-by-2 blocks whose four cells are all set |
| CubicalComplex.EulerOfComplex | lee2d.py:98-101 | on a 0/1 grid the result is vertices − edges + faces of the cubical complex spanned by the set cells |
| CubicalComplex.CountBounds | lee2d.py:93-96 | on an R-by-C 0/1 grid: at most R·C vertices, R(C−1) right edges, (R−1)C bottom edges and (R−1)(C−1) faces |
| ExcursionShapes.NothingAbove | lee2d.py:93-96 | on an all-zero grid no convolved value exceeds a non-negative threshold |
| ExcursionShapes.EmptyExcursionSet | lee2d.py:93-101 | the empty excursion set has no vertex, edge or face, and the result is 0 |
| ExcursionShapes.SinglePoint | lee2d.py:93-101 | a single set cell anywhere, on the border included, is one vertex with no edge and no face, and the result is 1 |
| ExcursionShapes.FullRectangle | lee2d.py:93-101 | a fully set m-by-n grid has mn vertices, m(n−1) + (m−1)n edges, (m−1)(n−1) faces, and the result is 1 |
| ExcursionShapes.LoneTwoComplex | lee2d.py:87-88 | the grid whose centre cell is 2 and the rest 0 has a single-cell excursion set with no pair and no block, so its complex has V − E + F = 1 |
| ExcursionShapes.LoneTwoRows | lee2d.py:93-96 | row by row, that grid has one positive cell, and four filter windows sum to 2 > 1 because they pair the 2 with a zero |
| ExcursionShapes.LoneTwoVertices | lee2d.py:96 | that grid has one vertex |
| ExcursionShapes.LoneTwoEdges | lee2d.py:94-95 | that grid counts four edges |
| ExcursionShapes.LoneTwoFaces | lee2d.py:93 | that grid counts no face |
| ExcursionShapes.LoneCellOfTwo | lee2d.py:93-101 | on that grid the cubical complex of the excursion set has V − E + F = 1, while the estimator returns −3: the thresholds 1 and 3 assume cells of 0 or 1 |
| FigureThree.ReferenceGridIsTransposed | lee2d.py:106-113 | the grid built cell by cell and then transposed is the reference grid, cell for cell |
| FigureThree.VertexRows | lee2d.py:96 | the set cells per row of the reference grid are 1, 4, 4, 5, 3, 1, 0 |
| FigureThree.RightEdgeRows | lee2d.py:94 | the right-edge windows above 1 per row are 0, 2, 3, 4, 2, 0, 0 |
| FigureThree.BottomEdgeRows | lee2d.py:95 | the bottom-edge windows above 1 per row are 1, 3, 4, 3, 1, 0, 0 |
| FigureThree.FaceRows | lee2d.py:93 | the face windows above 3 per row are 0, 2, 3, 2, 0, 0, 0 |
| FigureThree.ReferenceVertices | lee2d.py:96 | the reference grid has 18 vertices |
| FigureThree.ReferenceRightEdges | lee2d.py:94 | the reference grid has 11 right edges |
| FigureThree.ReferenceBottomEdges | lee2d.py:95 | the reference grid has 12 bottom edges |
| FigureThree.ReferenceFaces | lee2d.py:93 | the reference grid has 7 faces |
| FigureThree.ReferenceEdges | lee2d.py:94-95 | the reference grid has 23 edges in all |
| FigureThree.ReferenceCheck | lee2d.py:105-118 | on the transposed Fig. 3 grid the estimator returns 2 (18 − 23 + 7), so the check takes its "ok" branch |

## Left out

- `expected_euler`, `_equations`, `get_coefficients`, `global_pvalue` and `do_LEE_correction` (lee2d.py:47-84): floating-point formulas over `chi2`, `norm` and `fsolve` from scipy, with no discrete structure to model. Note that line 49 uses `chi2.cdf(u, 1)`, while the formula in the module docstring (line 21) uses the survival probability P(χ²₁ > u).
- The printing in `do_LEE_correction` (lines 81-83), in `calculate_euler_characteristic` (line 99) and in the check (lines 116-118): output only. The check's two messages are modelled as the value `ReferenceCheck` proves.
- The plot at line 114 (`plt.imshow`): display only.
- create_test_histograms.py: it draws random pseudo-experiments and writes ROOT histograms. Randomness and file I/O are outside the model.
- Cell values are modelled as unbounded integers. The script's own grid is float (lee2d.py:107, `np.zeros`), and its sums and comparisons on whole numbers are exact. The estimator accepts any array, though, and `convolve` gives its output the dtype of its input; the model does not cover that, so bounded-integer or boolean grids, whose window sums would be computed in that dtype, and fractional cell values are outside it.
- `convolve` is modelled only for the all-ones filters of extent 1 or 2 with zero padding that the estimator uses. Other filters, origins and boundary modes are not modelled.
- Grids with cells other than 0 and 1: the counts are defined for every integer grid. The edge, face and Euler lemmas in `CubicalComplex` assume a 0/1 grid, as the thresholds do. `LoneCellOfTwo` shows what happens otherwise.
- CubicalComplex.CountBounds: requires at least one column. For a grid with rows and no columns, the bound (R−1)(C−1) on faces would be negative, while the count is 0.
- Grids that are not rectangular (ragged rows): numpy arrays cannot hold them. The transposition and meaning lemmas require rectangular grids.
