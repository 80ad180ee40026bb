/** Matrices as the ICA converter sees them: shogun's SGMatrix handle over a
    shared column-major buffer, and the dense linear-algebra backend whose
    arithmetic is left uninterpreted. */
module Linalg {

  /** An SGMatrix<float64_t>: a handle to a column-major buffer of
      numRows * numCols entries. Copying the handle shares the buffer; a handle
      whose `matrix` is null owns no storage. */
  datatype SGMatrix = SGMatrix(matrix: array?<real>, numRows: nat, numCols: nat)
  {
    /** The test `if (m.matrix)`: the handle points at a buffer. */
    predicate HasStorage() { matrix != null }

    /** The handle points at a buffer of exactly numRows * numCols entries. */
    predicate Wf() { matrix != null && matrix.Length == numRows * numCols }

    /** The heap objects the handle refers to. */
    function Buffer(): set<object> { if matrix == null then {} else {matrix} }
  }

  /** `SGMatrix<float64_t>()`: no storage, zero rows, zero columns. */
  const Empty: SGMatrix := SGMatrix(null, 0, 0)

  /** The value of a matrix at one moment: its shape and its entries,
      column-major (entry (i, j) at index i + j * rows). */
  datatype Dense = Dense(rows: nat, cols: nat, entries: seq<real>)

  /** The current value held by a well-formed handle. */
  function Contents(m: SGMatrix): (d: Dense)
    requires m.Wf()
    reads m.Buffer()
    ensures d.rows == m.numRows && d.cols == m.numCols
    ensures |d.entries| == d.rows * d.cols
  {
    Dense(m.numRows, m.numCols, m.matrix[..])
  }

  /** SGMatrix::clone: a handle to a fresh buffer holding the same entries. */
  method Clone(m: SGMatrix) returns (c: SGMatrix)
    requires m.Wf()
    ensures c.Wf() && fresh(c.matrix)
    ensures c.numRows == m.numRows && c.numCols == m.numCols
    ensures c.matrix[..] == m.matrix[..]
  {
    var s := m.matrix[..];
    var a := new real[|s|](i requires 0 <= i < |s| => s[i]);
    c := SGMatrix(a, m.numRows, m.numCols);
  }

  /** The backend's two products, left uninterpreted: entry k (column-major)
      of C.inverse() * X and of M * X. Each entry may depend on the whole of
      both operands; nothing about floating-point arithmetic is assumed. */
  datatype Backend = Backend(
    inverseTimes: (Dense, Dense, nat) -> real,
    times: (Dense, Dense, nat) -> real)

  /** `C.inverse() * X`, assigned back into X's shape. */
  function InverseTimes(b: Backend, c: Dense, x: Dense): (r: Dense)
    ensures r.rows == x.rows && r.cols == x.cols
    ensures |r.entries| == |x.entries|
  {
    Dense(x.rows, x.cols, seq(|x.entries|, k requires 0 <= k => b.inverseTimes(c, x, k)))
  }

  /** `matrix_prod(M, X, X)`: M * X, written into X's shape. */
  function Times(b: Backend, m: Dense, x: Dense): (r: Dense)
    ensures r.rows == x.rows && r.cols == x.cols
    ensures |r.entries| == |x.entries|
  {
    Dense(x.rows, x.cols, seq(|x.entries|, k requires 0 <= k => b.times(m, x, k)))
  }
}
