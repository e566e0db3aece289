/** Dense matrices as sequences of rows, with the handful of numpy array
    operations the two-layer network uses: row-major flatten and reshape,
    transpose, matrix product, column sum, elementwise arithmetic and the
    broadcast of a bias row over every row of a matrix.

    A matrix of shape (rows, cols) is a `seq<seq<T>>` of `rows` rows of
    `cols` entries each. Because a matrix with no rows does not remember
    its column count, operations whose result width would otherwise be
    unknown take it as an explicit argument, as numpy's shape tuple does. */
module Tensors {

  /** `m` is a numpy 2-D array of shape (rows, cols). */
  predicate IsMatrix<T>(m: seq<seq<T>>, rows: nat, cols: nat) {
    |m| == rows && forall i :: 0 <= i < rows ==> |m[i]| == cols
  }

  /** Every row of `m` has `cols` entries (whatever the number of rows). */
  predicate HasCols<T>(m: seq<seq<T>>, cols: nat) {
    IsMatrix(m, |m|, cols)
  }

  // ---------------------------------------------------------------------
  // Row-major flatten and reshape

  /** `ndarray.flatten()`: the rows of `m`, concatenated in order. */
  function Flatten<T>(m: seq<seq<T>>): seq<T> {
    if m == [] then [] else m[0] + Flatten(m[1..])
  }

  /** `np.reshape(s, (rows, cols))` for a vector of exactly rows*cols entries:
      consecutive runs of `cols` entries become the rows. */
  function Reshape<T>(s: seq<T>, rows: nat, cols: nat): (m: seq<seq<T>>)
    requires |s| == rows * cols
    ensures IsMatrix(m, rows, cols)
  {
    if rows == 0 then []
    else
      MulSucc(rows - 1, cols);
      [s[..cols]] + Reshape(s[cols..], rows - 1, cols)
  }

  lemma MulSucc(a: nat, c: nat)
    ensures (a + 1) * c == a * c + c
  {
  }

  lemma ZeroMul(c: nat)
    ensures 0 * c == 0
  {
  }

  lemma OneMul(c: nat)
    ensures 1 * c == c
  {
  }

  lemma MulBound(i: nat, j: nat, rows: nat, cols: nat)
    requires i < rows && j < cols
    ensures i * cols + j < rows * cols
  {
    MulSucc(i, cols);
    assert (i + 1) * cols <= rows * cols by {
      MulMono(i + 1, rows, cols);
    }
  }

  lemma MulMono(a: nat, b: nat, c: nat)
    requires a <= b
    ensures a * c <= b * c
  {
  }

  /** A matrix of shape (rows, cols) flattens to rows*cols entries. */
  lemma {:induction false} FlattenLength<T>(m: seq<seq<T>>, rows: nat, cols: nat)
    requires IsMatrix(m, rows, cols)
    ensures |Flatten(m)| == rows * cols
  {
    if rows > 0 {
      FlattenLength(m[1..], rows - 1, cols);
      MulSucc(rows - 1, cols);
    }
  }

  /** Entry (i, j) of a (rows, cols) matrix sits at index i*cols + j of its
      flattening: flatten is row-major. */
  lemma {:induction false} FlattenAt<T>(m: seq<seq<T>>, rows: nat, cols: nat, i: nat, j: nat)
    requires IsMatrix(m, rows, cols) && i < rows && j < cols
    ensures i * cols + j < |Flatten(m)|
    ensures Flatten(m)[i * cols + j] == m[i][j]
  {
    FlattenLength(m, rows, cols);
    MulBound(i, j, rows, cols);
    if i > 0 {
      FlattenAt(m[1..], rows - 1, cols, i - 1, j);
      MulSucc(i - 1, cols);
      assert |m[0]| == cols;
    }
  }

  /** Entry (i, j) of `np.reshape(s, (rows, cols))` is `s[i*cols + j]`:
      reshape is row-major. */
  lemma {:induction false} ReshapeAt<T>(s: seq<T>, rows: nat, cols: nat, i: nat, j: nat)
    requires |s| == rows * cols && i < rows && j < cols
    ensures i * cols + j < |s|
    ensures Reshape(s, rows, cols)[i][j] == s[i * cols + j]
  {
    MulBound(i, j, rows, cols);
    MulSucc(rows - 1, cols);
    if i > 0 {
      ReshapeAt(s[cols..], rows - 1, cols, i - 1, j);
      MulSucc(i - 1, cols);
    }
  }

  /** Reshaping a flattened (rows, cols) matrix gives the matrix back. */
  lemma {:induction false} ReshapeFlatten<T>(m: seq<seq<T>>, rows: nat, cols: nat)
    requires IsMatrix(m, rows, cols)
    ensures |Flatten(m)| == rows * cols
    ensures Reshape(Flatten(m), rows, cols) == m
  {
    FlattenLength(m, rows, cols);
    if rows > 0 {
      ReshapeFlatten(m[1..], rows - 1, cols);
      var s := Flatten(m);
      assert s[..cols] == m[0];
      assert s[cols..] == Flatten(m[1..]);
      assert m == [m[0]] + m[1..];
    }
  }

  /** Flattening a reshaped vector gives the vector back. */
  lemma {:induction false} FlattenReshape<T>(s: seq<T>, rows: nat, cols: nat)
    requires |s| == rows * cols
    ensures Flatten(Reshape(s, rows, cols)) == s
  {
    if rows > 0 {
      MulSucc(rows - 1, cols);
      FlattenReshape(s[cols..], rows - 1, cols);
      var m := Reshape(s, rows, cols);
      assert m[1..] == Reshape(s[cols..], rows - 1, cols);
      assert s == s[..cols] + s[cols..];
    }
  }

  /** The four parts of a concatenation are its consecutive slices. */
  lemma Concat4Slices<T>(a: seq<T>, b: seq<T>, c: seq<T>, e: seq<T>)
    ensures var s := a + b + c + e;
      && s[..|a|] == a
      && s[|a|..|a| + |b|] == b
      && s[|a| + |b|..|a| + |b| + |c|] == c
      && s[|a| + |b| + |c|..|a| + |b| + |c| + |e|] == e
  {
  }

  /** A prefix is the concatenation of its consecutive slices. */
  lemma Slices4<T>(s: seq<T>, e1: nat, e2: nat, e3: nat, e4: nat)
    requires e1 <= e2 <= e3 <= e4 <= |s|
    ensures s[..e4] == s[..e1] + s[e1..e2] + s[e2..e3] + s[e3..e4]
  {
  }

  /** A single row flattens to itself (a (1, n) array flattens to its row). */
  lemma FlattenSingleRow<T>(v: seq<T>)
    ensures Flatten([v]) == v
  {
    assert [v][1..] == [];
  }

  // ---------------------------------------------------------------------
  // Sums, columns and products over exact reals

  /** Sum of the entries of a vector. */
  function Sum(s: seq<real>): real {
    if s == [] then 0.0 else s[0] + Sum(s[1..])
  }

  /** Sum of a concatenation is the sum of the sums. */
  lemma {:induction false} SumConcat(a: seq<real>, b: seq<real>)
    ensures Sum(a + b) == Sum(a) + Sum(b)
  {
    if a != [] {
      assert (a + b)[1..] == a[1..] + b;
      SumConcat(a[1..], b);
    } else {
      assert a + b == b;
    }
  }

  /** A sum of entries none of which is positive is not positive. */
  lemma {:induction false} SumNonPositive(s: seq<real>)
    requires forall k :: 0 <= k < |s| ==> s[k] <= 0.0
    ensures Sum(s) <= 0.0
  {
    if s != [] {
      SumNonPositive(s[1..]);
    }
  }

  /** The sum of each row of `m`. */
  function RowSums(m: seq<seq<real>>): (r: seq<real>)
    ensures |r| == |m|
    ensures forall i :: 0 <= i < |m| ==> r[i] == Sum(m[i])
  {
    seq(|m|, i requires 0 <= i < |m| => Sum(m[i]))
  }

  /** Summing a flattened matrix is summing its row sums. */
  lemma {:induction false} SumFlatten(m: seq<seq<real>>)
    ensures Sum(Flatten(m)) == Sum(RowSums(m))
  {
    if m != [] {
      SumConcat(m[0], Flatten(m[1..]));
      SumFlatten(m[1..]);
      assert RowSums(m)[1..] == RowSums(m[1..]);
    }
  }

  /** The inner product of two vectors of equal length. */
  function Dot(u: seq<real>, v: seq<real>): real
    requires |u| == |v|
  {
    if u == [] then 0.0 else u[0] * v[0] + Dot(u[1..], v[1..])
  }

  /** The inner product is symmetric. */
  lemma {:induction false} DotSymmetric(u: seq<real>, v: seq<real>)
    requires |u| == |v|
    ensures Dot(u, v) == Dot(v, u)
  {
    if u != [] {
      DotSymmetric(u[1..], v[1..]);
    }
  }

  /** The entrywise products of two vectors of equal length. */
  function Products(v: seq<real>, w: seq<real>): (r: seq<real>)
    requires |v| == |w|
    ensures |r| == |v|
    ensures forall k :: 0 <= k < |v| ==> r[k] == v[k] * w[k]
  {
    seq(|v|, k requires 0 <= k < |v| => v[k] * w[k])
  }

  /** Summing the entrywise products is the inner product. */
  lemma {:induction false} SumProducts(v: seq<real>, w: seq<real>)
    requires |v| == |w|
    ensures Sum(Products(v, w)) == Dot(v, w)
  {
    if v != [] {
      forall k | 0 <= k < |v| - 1
        ensures Products(v, w)[1..][k] == Products(v[1..], w[1..])[k]
      {
        assert v[1..][k] == v[k + 1] && w[1..][k] == w[k + 1];
      }
      assert Products(v, w)[1..] == Products(v[1..], w[1..]);
      SumProducts(v[1..], w[1..]);
    }
  }

  /** The inner product with a vector of zeros is zero. */
  lemma {:induction false} DotZeros(v: seq<real>, w: seq<real>)
    requires |v| == |w| && forall k :: 0 <= k < |v| ==> v[k] == 0.0
    ensures Dot(v, w) == 0.0
  {
    if v != [] {
      DotZeros(v[1..], w[1..]);
    }
  }

  /** A vector of n ones. */
  function Ones(n: nat): (r: seq<real>)
    ensures |r| == n
  {
    seq(n, _ => 1.0)
  }

  /** Dotting with a vector of ones sums the vector. */
  lemma {:induction false} DotOnes(v: seq<real>)
    ensures Dot(Ones(|v|), v) == Sum(v)
  {
    if v != [] {
      assert Ones(|v|)[1..] == Ones(|v| - 1);
      DotOnes(v[1..]);
    }
  }

  /** Column j of `m`, read top to bottom. */
  function Column(m: seq<seq<real>>, j: nat): (c: seq<real>)
    requires forall i :: 0 <= i < |m| ==> j < |m[i]|
    ensures |c| == |m|
    ensures forall i :: 0 <= i < |m| ==> c[i] == m[i][j]
  {
    seq(|m|, i requires 0 <= i < |m| => m[i][j])
  }

  /** `m.T` for a matrix with `cols` columns. */
  function Transpose(m: seq<seq<real>>, cols: nat): (t: seq<seq<real>>)
    requires HasCols(m, cols)
    ensures IsMatrix(t, cols, |m|)
    ensures forall j, i :: 0 <= j < cols && 0 <= i < |m| ==> t[j][i] == m[i][j]
  {
    seq(cols, j requires 0 <= j < cols => Column(m, j))
  }

  /** Transposing twice gives the matrix back. */
  lemma TransposeTwice(m: seq<seq<real>>, rows: nat, cols: nat)
    requires IsMatrix(m, rows, cols)
    ensures Transpose(Transpose(m, cols), rows) == m
  {
    var t := Transpose(Transpose(m, cols), rows);
    assert forall i :: 0 <= i < rows ==> t[i] == m[i];
  }

  /** `a @ b` where `b` has `cols` columns and as many rows as `a` has
      columns: entry (i, j) is row i of `a` dotted with column j of `b`. */
  function MatMul(a: seq<seq<real>>, b: seq<seq<real>>, cols: nat): (r: seq<seq<real>>)
    requires HasCols(a, |b|) && HasCols(b, cols)
    ensures IsMatrix(r, |a|, cols)
  {
    seq(|a|, i requires 0 <= i < |a| =>
      seq(cols, j requires 0 <= j < cols => Dot(a[i], Column(b, j))))
  }

  /** `np.sum(m, axis=0)` for a matrix with `cols` columns. */
  function ColSum(m: seq<seq<real>>, cols: nat): (r: seq<real>)
    requires HasCols(m, cols)
    ensures |r| == cols
  {
    seq(cols, j requires 0 <= j < cols => Sum(Column(m, j)))
  }

  /** The column sum is the product of a row of ones with the matrix:
      `np.sum(m, axis=0) == (ones(1, rows) @ m)[0]`. */
  lemma ColSumIsOnesProduct(m: seq<seq<real>>, cols: nat)
    requires HasCols(m, cols)
    ensures ColSum(m, cols) == MatMul([Ones(|m|)], m, cols)[0]
  {
    var p := MatMul([Ones(|m|)], m, cols)[0];
    forall j | 0 <= j < cols
      ensures ColSum(m, cols)[j] == p[j]
    {
      DotOnes(Column(m, j));
    }
  }

  /** The sum of the entrywise differences is the difference of the sums. */
  lemma {:induction false} SumDifferences(u: seq<real>, v: seq<real>)
    requires |u| == |v|
    ensures Sum(seq(|u|, k requires 0 <= k < |u| => u[k] - v[k])) == Sum(u) - Sum(v)
  {
    if u != [] {
      var d := seq(|u|, k requires 0 <= k < |u| => u[k] - v[k]);
      assert d[1..] == seq(|u| - 1, k requires 0 <= k < |u| - 1 => u[1..][k] - v[1..][k]);
      SumDifferences(u[1..], v[1..]);
    }
  }

  /** A sum of zeros is zero. */
  lemma {:induction false} SumZeros(s: seq<real>)
    requires forall k :: 0 <= k < |s| ==> s[k] == 0.0
    ensures Sum(s) == 0.0
  {
    if s != [] {
      SumZeros(s[1..]);
    }
  }

  /** Adding up the column sums adds up every entry, as adding up the row
      sums does. */
  lemma {:induction false} SumColSum(m: seq<seq<real>>, cols: nat)
    requires HasCols(m, cols)
    ensures Sum(ColSum(m, cols)) == Sum(RowSums(m))
  {
    if m == [] {
      SumZeros(ColSum(m, cols));
    } else {
      var rest := ColSum(m[1..], cols);
      var sums := seq(cols, j requires 0 <= j < cols => m[0][j] + rest[j]);
      forall j | 0 <= j < cols
        ensures ColSum(m, cols)[j] == sums[j]
      {
        assert Column(m, j) == [m[0][j]] + Column(m[1..], j);
      }
      assert ColSum(m, cols) == sums;
      SumOfSums(m[0], rest);
      SumColSum(m[1..], cols);
      assert RowSums(m)[1..] == RowSums(m[1..]);
    }
  }

  /** The sum of the entrywise sums is the sum of the sums. */
  lemma {:induction false} SumOfSums(u: seq<real>, v: seq<real>)
    requires |u| == |v|
    ensures Sum(seq(|u|, k requires 0 <= k < |u| => u[k] + v[k])) == Sum(u) + Sum(v)
  {
    if u != [] {
      var d := seq(|u|, k requires 0 <= k < |u| => u[k] + v[k]);
      assert d[1..] == seq(|u| - 1, k requires 0 <= k < |u| - 1 => u[1..][k] + v[1..][k]);
      SumOfSums(u[1..], v[1..]);
    }
  }

  /** Elementwise `a - b` for two arrays of the same shape. */
  function Sub(a: seq<seq<real>>, b: seq<seq<real>>, cols: nat): (r: seq<seq<real>>)
    requires HasCols(a, cols) && IsMatrix(b, |a|, cols)
    ensures IsMatrix(r, |a|, cols)
  {
    seq(|a|, i requires 0 <= i < |a| => seq(cols, j requires 0 <= j < cols => a[i][j] - b[i][j]))
  }

  /** Elementwise `a * b` for two arrays of the same shape. */
  function Hadamard(a: seq<seq<real>>, b: seq<seq<real>>, cols: nat): (r: seq<seq<real>>)
    requires HasCols(a, cols) && IsMatrix(b, |a|, cols)
    ensures IsMatrix(r, |a|, cols)
  {
    seq(|a|, i requires 0 <= i < |a| => seq(cols, j requires 0 <= j < cols => a[i][j] * b[i][j]))
  }

  /** `f` applied to every entry (a numpy ufunc). */
  function MapEntries(f: real -> real, m: seq<seq<real>>, cols: nat): (r: seq<seq<real>>)
    requires HasCols(m, cols)
    ensures IsMatrix(r, |m|, cols)
  {
    seq(|m|, i requires 0 <= i < |m| => seq(cols, j requires 0 <= j < cols => f(m[i][j])))
  }

  /** `m + bias` where `bias` has shape (1, cols): numpy broadcasts the bias
      row over every row of `m`. */
  function AddRow(m: seq<seq<real>>, bias: seq<real>): (r: seq<seq<real>>)
    requires HasCols(m, |bias|)
    ensures IsMatrix(r, |m|, |bias|)
  {
    seq(|m|, i requires 0 <= i < |m| => seq(|bias|, j requires 0 <= j < |bias| => m[i][j] + bias[j]))
  }
}
