/** Two-dimensional arrays with an explicit shape, and the numpy slicing used by the DMD code. */
module Matrices {

  function Min(a: int, b: int): int { if a <= b then a else b }

  /** A rows x cols array; the shape is kept apart from the entries so that an array with no
      rows still has a number of columns, as a numpy array of shape (0, n) does. */
  datatype Grid<T> = Grid(rows: nat, cols: nat, entries: seq<seq<T>>)

  predicate WellShaped<T>(g: Grid<T>) {
    |g.entries| == g.rows && forall i :: 0 <= i < g.rows ==> |g.entries[i]| == g.cols
  }

  type Matrix<T> = g: Grid<T> | WellShaped(g) witness Grid(0, 0, [])

  /** Column j of M, top to bottom (numpy `M[:, j]`). */
  function Column<T>(M: Matrix<T>, j: nat): (c: seq<T>)
    requires j < M.cols
    ensures |c| == M.rows
    ensures forall i :: 0 <= i < M.rows ==> c[i] == M.entries[i][j]
  {
    seq(M.rows, i requires 0 <= i < M.rows => M.entries[i][j])
  }

  /** Python's normalisation of a slice bound `i` against a length: negative bounds count from
      the end, and both directions clamp to [0, len]. */
  function SliceBound(i: int, len: nat): (b: nat)
    ensures b <= len
    ensures 0 <= i ==> b == Min(i, len)
    ensures i < 0 ==> b == (if i + len < 0 then 0 else i + len)
  {
    if i < 0 then (if i + len < 0 then 0 else i + len)
    else if i < len then i else len
  }

  /** Columns lo up to (not including) hi. */
  function ColumnRange<T>(M: Matrix<T>, lo: nat, hi: nat): (R: Matrix<T>)
    requires lo <= hi <= M.cols
    ensures R.rows == M.rows && R.cols == hi - lo
    ensures forall i, j :: 0 <= i < R.rows && 0 <= j < R.cols ==> R.entries[i][j] == M.entries[i][lo + j]
  {
    Grid(M.rows, hi - lo, seq(M.rows, i requires 0 <= i < M.rows => M.entries[i][lo..hi]))
  }

  /** numpy `M[:, start:]`. */
  function ColumnsFrom<T>(M: Matrix<T>, start: int): (R: Matrix<T>)
    ensures R.rows == M.rows && R.cols == M.cols - SliceBound(start, M.cols)
    ensures forall i, j :: 0 <= i < R.rows && 0 <= j < R.cols ==>
      R.entries[i][j] == M.entries[i][SliceBound(start, M.cols) + j]
  {
    ColumnRange(M, SliceBound(start, M.cols), M.cols)
  }

  /** numpy `M[:, :stop]`. */
  function ColumnsUpTo<T>(M: Matrix<T>, stop: int): (R: Matrix<T>)
    ensures R.rows == M.rows && R.cols == SliceBound(stop, M.cols)
    ensures forall i, j :: 0 <= i < R.rows && 0 <= j < R.cols ==> R.entries[i][j] == M.entries[i][j]
  {
    ColumnRange(M, 0, SliceBound(stop, M.cols))
  }

  /** numpy `M[:k]` for k >= 0: the first k rows, or all of them when there are fewer. */
  function TakeRows<T>(M: Matrix<T>, k: nat): (R: Matrix<T>)
    ensures R.rows == Min(k, M.rows) && R.cols == M.cols
    ensures forall i, j :: 0 <= i < R.rows && 0 <= j < R.cols ==> R.entries[i][j] == M.entries[i][j]
  {
    var h := Min(k, M.rows);
    Grid(h, M.cols, M.entries[..h])
  }

  /** The transpose; on the real matrices of this model it is also numpy's `.conj().T`. */
  function Transpose<T>(M: Matrix<T>): (R: Matrix<T>)
    ensures R.rows == M.cols && R.cols == M.rows
    ensures forall i, j :: 0 <= i < R.rows && 0 <= j < R.cols ==> R.entries[i][j] == M.entries[j][i]
  {
    Grid(M.cols, M.rows,
      seq(M.cols, i requires 0 <= i < M.cols =>
        seq(M.rows, j requires 0 <= j < M.rows => M.entries[j][i])))
  }

  /** numpy `np.vstack((X, U))`: the rows of U below the rows of X. */
  function StackRows<T>(X: Matrix<T>, U: Matrix<T>): (R: Matrix<T>)
    requires X.cols == U.cols
    ensures R.rows == X.rows + U.rows && R.cols == X.cols
    ensures forall i, j :: 0 <= i < X.rows && 0 <= j < R.cols ==> R.entries[i][j] == X.entries[i][j]
    ensures forall i, j :: 0 <= i < U.rows && 0 <= j < R.cols ==> R.entries[X.rows + i][j] == U.entries[i][j]
  {
    Grid(X.rows + U.rows, X.cols, X.entries + U.entries)
  }

  /** Two matrices of the same shape with the same entries are the same matrix. */
  lemma {:induction false} Extensionality<T>(M: Matrix<T>, N: Matrix<T>)
    requires M.rows == N.rows && M.cols == N.cols
    requires forall i, j :: 0 <= i < M.rows && 0 <= j < M.cols ==> M.entries[i][j] == N.entries[i][j]
    ensures M == N
  {
    forall i | 0 <= i < M.rows
      ensures M.entries[i] == N.entries[i]
    {
      assert |M.entries[i]| == |N.entries[i]| == M.cols;
      forall j | 0 <= j < M.cols ensures M.entries[i][j] == N.entries[i][j] { }
    }
    assert M.entries == N.entries;
  }
}
