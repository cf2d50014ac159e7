/** Dense real matrices as sequences of rows, with the numpy operations the
    objectives use: matrix-vector and matrix-matrix products, transpose,
    elementwise difference, the sum of squared entries, and the row-major
    `reshape` / `flatten` pair. */
module Matrices {
  import opened Vectors

  type Matrix = seq<seq<real>>

  /** M has `rows` rows of `cols` entries each (numpy's `M.shape`). */
  predicate IsMatrix(M: Matrix, rows: nat, cols: nat)
  {
    |M| == rows && forall i :: 0 <= i < rows ==> |M[i]| == cols
  }

  /** `M[:, j]` */
  function Column(M: Matrix, j: nat): (r: Vector)
    requires forall i :: 0 <= i < |M| ==> j < |M[i]|
    ensures |r| == |M| && forall i :: 0 <= i < |M| ==> r[i] == M[i][j]
  {
    seq(|M|, i requires 0 <= i < |M| => M[i][j])
  }

  /** `M @ v` */
  function MatVec(M: Matrix, v: Vector): (r: Vector)
    requires forall i :: 0 <= i < |M| ==> |M[i]| == |v|
    ensures |r| == |M| && forall i :: 0 <= i < |M| ==> r[i] == Dot(M[i], v)
  {
    seq(|M|, i requires 0 <= i < |M| => Dot(M[i], v))
  }

  /** `M.T @ e` for an n-by-cols matrix M and a length-n vector e. */
  function TransposeTimes(M: Matrix, e: Vector, cols: nat): (r: Vector)
    requires IsMatrix(M, |e|, cols)
    ensures |r| == cols && forall j :: 0 <= j < cols ==> r[j] == Dot(Column(M, j), e)
  {
    seq(cols, j requires 0 <= j < cols => Dot(Column(M, j), e))
  }

  /** `M.transpose()` of a matrix with `cols` columns. */
  function Transpose(M: Matrix, cols: nat): (r: Matrix)
    requires IsMatrix(M, |M|, cols)
    ensures IsMatrix(r, cols, |M|)
    ensures forall j, i :: 0 <= j < cols && 0 <= i < |M| ==> r[j][i] == M[i][j]
  {
    seq(cols, j requires 0 <= j < cols => Column(M, j))
  }

  /** `np.dot(A, B)` for a k-by-d matrix B. */
  function MatMul(A: Matrix, B: Matrix, k: nat, d: nat): (r: Matrix)
    requires IsMatrix(A, |A|, k) && IsMatrix(B, k, d)
    ensures IsMatrix(r, |A|, d)
    ensures forall i, j :: 0 <= i < |A| && 0 <= j < d ==> r[i][j] == Dot(A[i], Column(B, j))
  {
    seq(|A|, i requires 0 <= i < |A| =>
      seq(d, j requires 0 <= j < d => Dot(A[i], Column(B, j))))
  }

  /** `A - B` for two matrices of one shape. */
  function MatSub(A: Matrix, B: Matrix, cols: nat): (r: Matrix)
    requires IsMatrix(A, |A|, cols) && IsMatrix(B, |A|, cols)
    ensures IsMatrix(r, |A|, cols)
    ensures forall i :: 0 <= i < |A| ==> r[i] == Sub(A[i], B[i])
  {
    seq(|A|, i requires 0 <= i < |A| => Sub(A[i], B[i]))
  }

  /** `M.T @ e` is the product of the transpose with e. */
  lemma TransposeTimesIsMatVec(M: Matrix, e: Vector, cols: nat)
    requires IsMatrix(M, |e|, cols)
    ensures TransposeTimes(M, e, cols) == MatVec(Transpose(M, cols), e)
  {
    var T := Transpose(M, cols);
    forall j | 0 <= j < cols ensures T[j] == Column(M, j) {
    }
  }

  /** Transposing twice gives back the matrix. */
  lemma TransposeTwice(M: Matrix, cols: nat)
    requires IsMatrix(M, |M|, cols)
    ensures Transpose(Transpose(M, cols), |M|) == M
  {
    var R := Transpose(Transpose(M, cols), |M|);
    forall i | 0 <= i < |M| ensures R[i] == M[i] {
      assert forall j :: 0 <= j < cols ==> R[i][j] == M[i][j];
    }
  }

  /** `M @ (a - b) == M @ a - M @ b` */
  lemma MatVecSub(M: Matrix, a: Vector, b: Vector)
    requires |a| == |b| && forall i :: 0 <= i < |M| ==> |M[i]| == |a|
    ensures MatVec(M, Sub(a, b)) == Sub(MatVec(M, a), MatVec(M, b))
  {
    forall i | 0 <= i < |M| ensures MatVec(M, Sub(a, b))[i] == Sub(MatVec(M, a), MatVec(M, b))[i] {
      DotSub(M[i], a, b);
    }
  }

  /** Row i of `A @ B` is `B.T @ A[i]`. */
  lemma MatMulRows(A: Matrix, B: Matrix, k: nat, d: nat)
    requires IsMatrix(A, |A|, k) && IsMatrix(B, k, d)
    ensures forall i :: 0 <= i < |A| ==> MatMul(A, B, k, d)[i] == MatVec(Transpose(B, d), A[i])
  {
    var T := Transpose(B, d);
    forall i | 0 <= i < |A| ensures MatMul(A, B, k, d)[i] == MatVec(T, A[i]) {
      forall j | 0 <= j < d ensures MatMul(A, B, k, d)[i][j] == MatVec(T, A[i])[j] {
        assert T[j] == Column(B, j);
        DotComm(A[i], Column(B, j));
      }
    }
  }

  /** `np.sum(M ** 2)` */
  function SumSquares(M: Matrix): real
  {
    if |M| == 0 then 0.0 else Dot(M[0], M[0]) + SumSquares(M[1..])
  }

  /** A sum of squared entries is never negative, and it is zero exactly
      when every row is the zero vector. */
  lemma {:induction false} SumSquaresZero(M: Matrix)
    ensures SumSquares(M) >= 0.0
    ensures SumSquares(M) == 0.0 <==>
      forall i, j :: 0 <= i < |M| && 0 <= j < |M[i]| ==> M[i][j] == 0.0
  {
    if |M| > 0 {
      SumSquaresZero(M[1..]);
      DotSelf(M[0]);
      assert forall i :: 1 <= i < |M| ==> M[1..][i - 1] == M[i];
    }
  }

  /** The squared residual of two matrices of one shape is zero exactly
      when they are equal. */
  lemma ResidualZero(A: Matrix, B: Matrix, cols: nat)
    requires IsMatrix(A, |A|, cols) && IsMatrix(B, |A|, cols)
    ensures SumSquares(MatSub(A, B, cols)) >= 0.0
    ensures SumSquares(MatSub(A, B, cols)) == 0.0 <==> A == B
  {
    var R := MatSub(A, B, cols);
    SumSquaresZero(R);
    if forall i, j :: 0 <= i < |R| && 0 <= j < |R[i]| ==> R[i][j] == 0.0 {
      forall i | 0 <= i < |A| ensures A[i] == B[i] {
        assert forall j :: 0 <= j < cols ==> R[i][j] == A[i][j] - B[i][j];
      }
    }
  }

  /** Row-major `v.reshape(rows, cols)`. */
  function Reshape(v: Vector, rows: nat, cols: nat): (r: Matrix)
    requires |v| == rows * cols
    ensures IsMatrix(r, rows, cols)
    decreases rows
  {
    if rows == 0 then []
    else
      assert |v| == cols + (rows - 1) * cols;
      [v[..cols]] + Reshape(v[cols..], rows - 1, cols)
  }

  /** Row-major `M.flatten()`. */
  function Flatten(M: Matrix): (r: Vector)
  {
    if |M| == 0 then [] else M[0] + Flatten(M[1..])
  }

  /** Flattening a rows-by-cols matrix gives rows * cols entries. */
  lemma {:induction false} FlattenLength(M: Matrix, rows: nat, cols: nat)
    requires IsMatrix(M, rows, cols)
    ensures |Flatten(M)| == rows * cols
  {
    if rows > 0 {
      assert IsMatrix(M[1..], rows - 1, cols) by {
        assert forall i :: 0 <= i < rows - 1 ==> M[1..][i] == M[i + 1];
      }
      FlattenLength(M[1..], rows - 1, cols);
      assert rows * cols == cols + (rows - 1) * cols;
    }
  }

  /** `reshape` and `flatten` are inverse to each other: a flattened
      gradient reshaped with the shape it came from gives back the matrix,
      and a vector survives a reshape followed by a flatten. */
  lemma {:induction false} FlattenReshape(v: Vector, rows: nat, cols: nat)
    requires |v| == rows * cols
    ensures Flatten(Reshape(v, rows, cols)) == v
    decreases rows
  {
    if rows > 0 {
      assert |v| == cols + (rows - 1) * cols;
      FlattenReshape(v[cols..], rows - 1, cols);
    }
  }

  lemma {:induction false} ReshapeFlatten(M: Matrix, rows: nat, cols: nat)
    requires IsMatrix(M, rows, cols)
    ensures |Flatten(M)| == rows * cols
    ensures Reshape(Flatten(M), rows, cols) == M
    decreases rows
  {
    FlattenLength(M, rows, cols);
    if rows > 0 {
      assert IsMatrix(M[1..], rows - 1, cols) by {
        assert forall i :: 0 <= i < rows - 1 ==> M[1..][i] == M[i + 1];
      }
      ReshapeFlatten(M[1..], rows - 1, cols);
      var v := Flatten(M);
      assert v == M[0] + Flatten(M[1..]);
      assert v[..cols] == M[0];
      assert v[cols..] == Flatten(M[1..]);
      assert Reshape(v, rows, cols) == [M[0]] + M[1..];
      assert [M[0]] + M[1..] == M;
    }
  }
}
