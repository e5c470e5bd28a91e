/**
  The affine (fully connected) layer.  The batch enters as its reshape
  `x.reshape(N, D)`: example i is row i, the row-major flattening of its
  d_1 x ... x d_k entries, so x is an N x D matrix.  Matrices are sequences of
  rows.
  */
module Affine {
  import opened Sums

  /** m has `rows` rows of `cols` entries each. */
  predicate IsMatrix(m: seq<seq<real>>, rows: nat, cols: nat)
  {
    |m| == rows && forall i | 0 <= i < rows :: |m[i]| == cols
  }

  /** Column j of m, `m[:, j]`. */
  function Column(m: seq<seq<real>>, j: nat): (v: seq<real>)
    requires forall i | 0 <= i < |m| :: j < |m[i]|
    ensures |v| == |m|
    ensures forall i | 0 <= i < |m| :: v[i] == m[i][j]
  {
    seq(|m|, i requires 0 <= i < |m| => m[i][j])
  }

  /** `m.T` for a matrix of `cols` columns. */
  function Transpose(m: seq<seq<real>>, cols: nat): (t: seq<seq<real>>)
    requires IsMatrix(m, |m|, cols)
    ensures IsMatrix(t, cols, |m|)
    ensures forall j, i | 0 <= j < cols && 0 <= i < |m| :: t[j][i] == m[i][j]
  {
    seq(cols, j requires 0 <= j < cols => Column(m, j))
  }

  /** `v.dot(w)` for a vector v and a |v| x M matrix w: entry j is v's dot product with column j. */
  function VecMat(v: seq<real>, w: seq<seq<real>>, M: nat): (p: seq<real>)
    requires IsMatrix(w, |v|, M)
    ensures |p| == M
    ensures forall j | 0 <= j < M :: p[j] == Dot(v, Column(w, j))
  {
    seq(M, j requires 0 <= j < M => Dot(v, Column(w, j)))
  }

  /** `a.dot(b)` for a matrix a of D columns and a D x M matrix b: row i is a[i].dot(b). */
  function MatMul(a: seq<seq<real>>, b: seq<seq<real>>, D: nat, M: nat): (p: seq<seq<real>>)
    requires IsMatrix(a, |a|, D) && IsMatrix(b, D, M)
    ensures IsMatrix(p, |a|, M)
    ensures forall i | 0 <= i < |a| :: p[i] == VecMat(a[i], b, M)
  {
    seq(|a|, i requires 0 <= i < |a| => VecMat(a[i], b, M))
  }

  /** N copies of the row b: what numpy broadcasts b to in `... + b`. */
  function Broadcast(b: seq<real>, N: nat): (m: seq<seq<real>>)
    ensures IsMatrix(m, N, |b|)
    ensures forall i | 0 <= i < N :: m[i] == b
  {
    seq(N, i requires 0 <= i < N => b)
  }

  /** Entrywise sum of two matrices of the same shape. */
  function Plus(a: seq<seq<real>>, b: seq<seq<real>>, cols: nat): (m: seq<seq<real>>)
    requires IsMatrix(a, |a|, cols) && IsMatrix(b, |a|, cols)
    ensures IsMatrix(m, |a|, cols)
    ensures forall i, j | 0 <= i < |a| && 0 <= j < cols :: m[i][j] == a[i][j] + b[i][j]
  {
    seq(|a|, i requires 0 <= i < |a| => seq(cols, j requires 0 <= j < cols => a[i][j] + b[i][j]))
  }

  /** `np.sum(m, axis=0)`: the sum of each column. */
  function ColumnSums(m: seq<seq<real>>, cols: nat): (s: seq<real>)
    requires IsMatrix(m, |m|, cols)
    ensures |s| == cols
    ensures forall j | 0 <= j < cols :: s[j] == Sum(Column(m, j))
  {
    seq(cols, j requires 0 <= j < cols => Sum(Column(m, j)))
  }

  /** `(a * b).sum()` for two matrices of the same shape: the sum of their entrywise products. */
  function Inner(a: seq<seq<real>>, b: seq<seq<real>>): real
    requires |a| == |b| && forall i | 0 <= i < |a| :: |a[i]| == |b[i]|
  {
    Sum(RowDots(a, b))
  }

  /** Entry i is row i of a dotted with row i of b. */
  function RowDots(a: seq<seq<real>>, b: seq<seq<real>>): (s: seq<real>)
    requires |a| == |b| && forall i | 0 <= i < |a| :: |a[i]| == |b[i]|
    ensures |s| == |a|
    ensures forall i | 0 <= i < |a| :: s[i] == Dot(a[i], b[i])
  {
    seq(|a|, i requires 0 <= i < |a| => Dot(a[i], b[i]))
  }

  /**
    `affine_forward`: `reshapeX.dot(w) + b`.  Example i scores output j by its
    dot product with column j of w, plus the bias b[j].
    */
  function AffineForward(x: seq<seq<real>>, w: seq<seq<real>>, b: seq<real>, D: nat, M: nat): (out: seq<seq<real>>)
    requires IsMatrix(x, |x|, D) && IsMatrix(w, D, M) && |b| == M
    ensures IsMatrix(out, |x|, M)
    ensures forall i, j | 0 <= i < |x| && 0 <= j < M :: out[i][j] == Dot(x[i], Column(w, j)) + b[j]
  {
    Plus(MatMul(x, w, D, M), Broadcast(b, |x|), M)
  }

  /** The three gradients that `affine_backward` returns. */
  datatype AffineGrads = AffineGrads(dx: seq<seq<real>>, dw: seq<seq<real>>, db: seq<real>)

  /**
    `affine_backward`: dx = dout.dot(w.T), dw = reshapeX.T.dot(dout) and
    db = np.sum(dout, axis=0).  Entry (i, d) of dx pairs row i of dout with
    row d of w, entry (d, j) of dw pairs column d of x with column j of dout,
    and db[j] adds up column j of dout.
    */
  function AffineBackward(dout: seq<seq<real>>, x: seq<seq<real>>, w: seq<seq<real>>, D: nat, M: nat): (g: AffineGrads)
    requires IsMatrix(x, |x|, D) && IsMatrix(w, D, M) && IsMatrix(dout, |x|, M)
    ensures IsMatrix(g.dx, |x|, D) && IsMatrix(g.dw, D, M) && |g.db| == M
    ensures forall i, d | 0 <= i < |x| && 0 <= d < D :: g.dx[i][d] == Dot(dout[i], w[d])
    ensures forall d, j | 0 <= d < D && 0 <= j < M :: g.dw[d][j] == Dot(Column(x, d), Column(dout, j))
    ensures forall j | 0 <= j < M :: g.db[j] == Sum(Column(dout, j))
  {
    var wt := Transpose(w, M);
    assert forall d | 0 <= d < D :: Column(wt, d) == w[d];
    AffineGrads(MatMul(dout, wt, M, D), MatMul(Transpose(x, D), dout, |x|, M), ColumnSums(dout, M))
  }

  // ---- sums of products ----

  /** The entrywise products a[k] * b[k]. */
  function Products(a: seq<real>, b: seq<real>): (s: seq<real>)
    requires |a| == |b|
    ensures |s| == |a|
  {
    seq(|a|, k requires 0 <= k < |a| => a[k] * b[k])
  }

  /** Every term multiplied by c. */
  function Scale(c: real, s: seq<real>): (t: seq<real>)
    ensures |t| == |s|
  {
    seq(|s|, k requires 0 <= k < |s| => c * s[k])
  }

  /** A dot product is the sum of the entrywise products. */
  lemma {:induction false} SumProducts(a: seq<real>, b: seq<real>)
    requires |a| == |b|
    ensures Sum(Products(a, b)) == Dot(a, b)
  {
    if |a| > 0 {
      var n := |a| - 1;
      var p, p' := Products(a, b), Products(a[..n], b[..n]);
      forall k | 0 <= k < n
        ensures p[k] == p'[k]
      {
        assert p[k] == a[k] * b[k];
      }
      assert p[..n] == p';
      SumProducts(a[..n], b[..n]);
    }
  }

  /** Scaling every term scales the sum. */
  lemma {:induction false} SumScale(c: real, s: seq<real>)
    ensures Sum(Scale(c, s)) == c * Sum(s)
  {
    if |s| > 0 {
      var n := |s| - 1;
      var t, t' := Scale(c, s), Scale(c, s[..n]);
      forall k | 0 <= k < n
        ensures t[k] == t'[k]
      {
        assert t[k] == c * s[k];
      }
      assert t[..n] == t';
      SumScale(c, s[..n]);
    }
  }

  /** The dot product is symmetric. */
  lemma DotCommutes(a: seq<real>, b: seq<real>)
    requires |a| == |b|
    ensures Dot(a, b) == Dot(b, a)
  {
    SumProducts(a, b);
    SumProducts(b, a);
    assert Products(a, b) == Products(b, a);
  }

  /** The dot product distributes over entrywise addition. */
  lemma {:induction false} DotAdd(a: seq<real>, p: seq<real>, q: seq<real>, r: seq<real>)
    requires |a| == |p| == |q| == |r|
    requires forall k | 0 <= k < |r| :: r[k] == p[k] + q[k]
    ensures Dot(a, r) == Dot(a, p) + Dot(a, q)
  {
    if |a| > 0 {
      var n := |a| - 1;
      DotAdd(a[..n], p[..n], q[..n], r[..n]);
      assert a[n] * r[n] == a[n] * p[n] + a[n] * q[n];
    }
  }

  /** Adding up a matrix row by row or column by column gives the same total. */
  lemma {:induction false} SumTranspose(m: seq<seq<real>>, cols: nat)
    requires IsMatrix(m, |m|, cols)
    ensures Sum2(m) == Sum2(Transpose(m, cols))
  {
    var t := Transpose(m, cols);
    if |m| == 0 {
      assert RowSums(m) == [];
      Sum2Zeros(t);
    } else {
      var n := |m| - 1;
      var m' := m[..n];
      var t' := Transpose(m', cols);
      SumTranspose(m', cols);
      Sum2Last(m);
      forall j | 0 <= j < cols
        ensures RowSums(t)[j] == RowSums(t')[j] + m[n][j]
      {
        assert t[j][..n] == t'[j];
      }
      SumAdd(RowSums(t'), m[n], RowSums(t));
    }
  }

  /** The terms v[d] * (u[j] * w[d][j]) of the bilinear form of v, w and u: row d is v[d] times the products of u and w[d]. */
  function BilinearTerms(v: seq<real>, w: seq<seq<real>>, u: seq<real>): (t: seq<seq<real>>)
    requires IsMatrix(w, |v|, |u|)
    ensures IsMatrix(t, |v|, |u|)
  {
    seq(|v|, d requires 0 <= d < |v| => Scale(v[d], Products(u, w[d])))
  }

  /** Row d of the bilinear terms adds up to v[d] times u . w[d], the d-th entry of u w^T. */
  lemma BilinearRow(v: seq<real>, w: seq<seq<real>>, u: seq<real>, d: nat)
    requires IsMatrix(w, |v|, |u|) && d < |v|
    ensures Sum(BilinearTerms(v, w, u)[d]) == v[d] * VecMat(u, Transpose(w, |u|), |v|)[d]
  {
    assert Column(Transpose(w, |u|), d) == w[d];
    SumScale(v[d], Products(u, w[d]));
    SumProducts(u, w[d]);
  }

  /** Column j of the bilinear terms is u[j] times the products of v and column j of w. */
  lemma BilinearTermsColumn(v: seq<real>, w: seq<seq<real>>, u: seq<real>, j: nat)
    requires IsMatrix(w, |v|, |u|) && j < |u|
    ensures Transpose(BilinearTerms(v, w, u), |u|)[j] == Scale(u[j], Products(v, Column(w, j)))
  {
    var c := Transpose(BilinearTerms(v, w, u), |u|)[j];
    var e := Scale(u[j], Products(v, Column(w, j)));
    forall d | 0 <= d < |v|
      ensures c[d] == e[d]
    {
      assert c[d] == v[d] * (u[j] * w[d][j]);
      assert e[d] == u[j] * (v[d] * w[d][j]);
    }
    assert |c| == |e|;
  }

  /** Column j of the bilinear terms adds up to u[j] times v . w[:, j], the j-th entry of v w. */
  lemma BilinearColumn(v: seq<real>, w: seq<seq<real>>, u: seq<real>, j: nat)
    requires IsMatrix(w, |v|, |u|) && j < |u|
    ensures Sum(Transpose(BilinearTerms(v, w, u), |u|)[j]) == u[j] * VecMat(v, w, |u|)[j]
  {
    BilinearTermsColumn(v, w, u, j);
    SumScale(u[j], Products(v, Column(w, j)));
    SumProducts(v, Column(w, j));
  }

  /** Entry j of s is v[j] * p[j]. */
  predicate IsProducts(s: seq<real>, v: seq<real>, p: seq<real>)
  {
    |s| == |v| == |p| && forall j | 0 <= j < |s| :: s[j] == v[j] * p[j]
  }

  /** Every row d of the bilinear terms adds up to v[d] times entry d of u w^T. */
  lemma BilinearRows(v: seq<real>, w: seq<seq<real>>, u: seq<real>)
    requires IsMatrix(w, |v|, |u|)
    ensures IsProducts(RowSums(BilinearTerms(v, w, u)), v, VecMat(u, Transpose(w, |u|), |v|))
  {
    forall d | 0 <= d < |v|
      ensures RowSums(BilinearTerms(v, w, u))[d] == v[d] * VecMat(u, Transpose(w, |u|), |v|)[d]
    {
      BilinearRow(v, w, u, d);
    }
  }

  /** Every column j of the bilinear terms adds up to u[j] times entry j of v w. */
  lemma BilinearColumns(v: seq<real>, w: seq<seq<real>>, u: seq<real>)
    requires IsMatrix(w, |v|, |u|)
    ensures IsProducts(RowSums(Transpose(BilinearTerms(v, w, u), |u|)), u, VecMat(v, w, |u|))
  {
    forall j | 0 <= j < |u|
      ensures RowSums(Transpose(BilinearTerms(v, w, u), |u|))[j] == u[j] * VecMat(v, w, |u|)[j]
    {
      BilinearColumn(v, w, u, j);
    }
  }

  /**
    A matrix t whose row d adds up to v[d] * p[d] and whose column j adds up to
    u[j] * q[j] has total v . p == u . q.
    */
  lemma SumBothWays(t: seq<seq<real>>, v: seq<real>, p: seq<real>, u: seq<real>, q: seq<real>)
    requires IsMatrix(t, |v|, |u|) && |p| == |v| && |q| == |u|
    requires IsProducts(RowSums(t), v, p)
    requires IsProducts(RowSums(Transpose(t, |u|)), u, q)
    ensures Dot(u, q) == Dot(v, p)
  {
    SumIsDot(RowSums(t), v, p);
    SumIsDot(RowSums(Transpose(t, |u|)), u, q);
    SumTranspose(t, |u|);
  }

  /**
    The bilinear form of v, w and u added up in either order:
    u . (v w) == v . (u w^T), both being the sum of v[d] * w[d][j] * u[j].
    */
  lemma BilinearSwap(v: seq<real>, w: seq<seq<real>>, u: seq<real>)
    requires IsMatrix(w, |v|, |u|)
    ensures Dot(u, VecMat(v, w, |u|)) == Dot(v, VecMat(u, Transpose(w, |u|), |v|))
  {
    BilinearRows(v, w, u);
    BilinearColumns(v, w, u);
    SumBothWays(BilinearTerms(v, w, u), v, VecMat(u, Transpose(w, |u|), |v|), u, VecMat(v, w, |u|));
  }

  // ---- the backward pass is the gradient of the forward pass ----

  /** Two pairs of matrices whose rows have equal dot products have equal inner products. */
  lemma InnerRowsEqual(a: seq<seq<real>>, p: seq<seq<real>>, b: seq<seq<real>>, q: seq<seq<real>>)
    requires |a| == |p| == |b| == |q|
    requires forall i | 0 <= i < |a| :: |a[i]| == |p[i]| && |b[i]| == |q[i]|
    requires forall i | 0 <= i < |a| :: Dot(a[i], p[i]) == Dot(b[i], q[i])
    ensures Inner(a, p) == Inner(b, q)
  {
    var l, r := RowDots(a, p), RowDots(b, q);
    forall i | 0 <= i < |a|
      ensures l[i] == r[i]
    {
    }
    assert l == r;
  }

  /** A sequence whose entry j is v[j] * p[j] adds up to v . p. */
  lemma {:induction false} SumIsDot(s: seq<real>, v: seq<real>, p: seq<real>)
    requires IsProducts(s, v, p)
    ensures Sum(s) == Dot(v, p)
  {
    if |s| > 0 {
      var n := |s| - 1;
      SumIsDot(s[..n], v[..n], p[..n]);
    }
  }

  /** The entrywise products of two matrices of the same shape, `b * q`. */
  function EntryProducts(b: seq<seq<real>>, q: seq<seq<real>>): (t: seq<seq<real>>)
    requires |b| == |q| && forall i | 0 <= i < |b| :: |b[i]| == |q[i]|
    ensures |t| == |b|
    ensures forall i | 0 <= i < |b| :: t[i] == Products(b[i], q[i])
  {
    seq(|b|, i requires 0 <= i < |b| => Products(b[i], q[i]))
  }

  /** (b * q).sum() adds up every entrywise product. */
  lemma InnerIsTotal(b: seq<seq<real>>, q: seq<seq<real>>)
    requires |b| == |q| && forall i | 0 <= i < |b| :: |b[i]| == |q[i]|
    ensures Inner(b, q) == Sum2(EntryProducts(b, q))
  {
    var l, r := RowSums(EntryProducts(b, q)), RowDots(b, q);
    forall i | 0 <= i < |b|
      ensures l[i] == r[i]
    {
      SumProducts(b[i], q[i]);
    }
    assert l == r;
  }

  /** Transposing both factors transposes the matrix of entrywise products. */
  lemma TransposeEntryProducts(b: seq<seq<real>>, q: seq<seq<real>>, D: nat)
    requires IsMatrix(b, |b|, D) && IsMatrix(q, |b|, D)
    ensures forall d, i | 0 <= d < D && 0 <= i < |b| ::
      Transpose(EntryProducts(b, q), D)[d][i] == EntryProducts(Transpose(b, D), Transpose(q, D))[d][i]
  {
  }

  /** (b * q).sum() == (b.T * q.T).sum(): the inner product does not depend on the order of the entries. */
  lemma InnerTranspose(b: seq<seq<real>>, q: seq<seq<real>>, D: nat)
    requires IsMatrix(b, |b|, D) && IsMatrix(q, |b|, D)
    ensures Inner(b, q) == Inner(Transpose(b, D), Transpose(q, D))
  {
    InnerIsTotal(b, q);
    InnerIsTotal(Transpose(b, D), Transpose(q, D));
    SumTranspose(EntryProducts(b, q), D);
    TransposeEntryProducts(b, q, D);
    Sum2Equal(Transpose(EntryProducts(b, q), D), EntryProducts(Transpose(b, D), Transpose(q, D)));
  }

  /** Column d of m.T is row d of m. */
  lemma ColumnOfTranspose(m: seq<seq<real>>, cols: nat, d: nat)
    requires IsMatrix(m, |m|, cols) && d < |m|
    ensures Column(Transpose(m, cols), d) == m[d]
  {
  }

  /** (a * b.dot(c)).sum() == (b * a.dot(c.T)).sum(): the identity behind dx = dout.dot(w.T). */
  lemma InnerMatMulRight(a: seq<seq<real>>, b: seq<seq<real>>, c: seq<seq<real>>, D: nat, M: nat)
    requires IsMatrix(a, |a|, M) && IsMatrix(b, |a|, D) && IsMatrix(c, D, M)
    ensures Inner(a, MatMul(b, c, D, M)) == Inner(b, MatMul(a, Transpose(c, M), M, D))
  {
    var p, q := MatMul(b, c, D, M), MatMul(a, Transpose(c, M), M, D);
    forall i | 0 <= i < |a|
      ensures Dot(a[i], p[i]) == Dot(b[i], q[i])
    {
      BilinearSwap(b[i], c, a[i]);
    }
    InnerRowsEqual(a, p, b, q);
  }

  /** Row d of (a.dot(c.T)).T is c[d].dot(a.T): entry i of both is a[i] . c[d]. */
  lemma TransposedProductRow(a: seq<seq<real>>, c: seq<seq<real>>, D: nat, M: nat, d: nat)
    requires IsMatrix(a, |a|, M) && IsMatrix(c, D, M) && d < D
    ensures Transpose(MatMul(a, Transpose(c, M), M, D), D)[d] == VecMat(c[d], Transpose(a, M), |a|)
  {
    var q := MatMul(a, Transpose(c, M), M, D);
    var l, r := Transpose(q, D)[d], VecMat(c[d], Transpose(a, M), |a|);
    ColumnOfTranspose(c, M, d);
    forall i | 0 <= i < |a|
      ensures l[i] == r[i]
    {
      ColumnOfTranspose(a, M, i);
      DotCommutes(a[i], c[d]);
    }
    assert |l| == |r|;
  }

  /** Row d of the swapped sums: b[:, d] . (c[d].dot(a.T)) == c[d] . (b.T.dot(a))[d]. */
  lemma LeftRow(a: seq<seq<real>>, b: seq<seq<real>>, c: seq<seq<real>>, D: nat, M: nat, d: nat)
    requires IsMatrix(a, |a|, M) && IsMatrix(b, |a|, D) && IsMatrix(c, D, M) && d < D
    ensures Dot(Transpose(b, D)[d], VecMat(c[d], Transpose(a, M), |a|)) == Dot(c[d], MatMul(Transpose(b, D), a, |a|, M)[d])
  {
    BilinearSwap(Transpose(b, D)[d], a, c[d]);
  }

  /** (a * b.dot(c)).sum() == (c * b.T.dot(a)).sum(): the identity behind dw = reshapeX.T.dot(dout). */
  lemma InnerMatMulLeft(a: seq<seq<real>>, b: seq<seq<real>>, c: seq<seq<real>>, D: nat, M: nat)
    requires IsMatrix(a, |a|, M) && IsMatrix(b, |a|, D) && IsMatrix(c, D, M)
    ensures Inner(a, MatMul(b, c, D, M)) == Inner(c, MatMul(Transpose(b, D), a, |a|, M))
  {
    var bt := Transpose(b, D);
    var q := MatMul(a, Transpose(c, M), M, D);
    var qt := Transpose(q, D);
    var r := MatMul(bt, a, |a|, M);
    InnerMatMulRight(a, b, c, D, M);
    InnerTranspose(b, q, D);
    forall d | 0 <= d < D
      ensures Dot(bt[d], qt[d]) == Dot(c[d], r[d])
    {
      TransposedProductRow(a, c, D, M, d);
      LeftRow(a, b, c, D, M, d);
    }
    InnerRowsEqual(bt, qt, c, r);
  }

  /** A vector dotted with a constant vector of k's is k times the vector's sum. */
  lemma {:induction false} DotConstant(s: seq<real>, e: seq<real>, k: real)
    requires |s| == |e|
    requires forall i | 0 <= i < |e| :: e[i] == k
    ensures Dot(s, e) == Sum(s) * k
  {
    if |s| > 0 {
      var n := |s| - 1;
      DotConstant(s[..n], e[..n], k);
    }
  }

  /** Column j of a dotted with column j of the broadcast b is the sum of column j of a times b[j]. */
  lemma BroadcastColumnDot(a: seq<seq<real>>, b: seq<real>, j: nat)
    requires IsMatrix(a, |a|, |b|) && j < |b|
    ensures RowDots(Transpose(a, |b|), Transpose(Broadcast(b, |a|), |b|))[j] == ColumnSums(a, |b|)[j] * b[j]
  {
    var M := |b|;
    var e := Transpose(Broadcast(b, |a|), M)[j];
    forall i | 0 <= i < |a|
      ensures e[i] == b[j]
    {
    }
    assert Transpose(a, M)[j] == Column(a, j);
    DotConstant(Transpose(a, M)[j], e, b[j]);
  }

  /** Column j of a dotted with column j of the broadcast b is entry j of the column sums of a times b[j]. */
  lemma BroadcastColumnProducts(a: seq<seq<real>>, b: seq<real>)
    requires IsMatrix(a, |a|, |b|)
    ensures IsProducts(RowDots(Transpose(a, |b|), Transpose(Broadcast(b, |a|), |b|)), ColumnSums(a, |b|), b)
  {
    forall j | 0 <= j < |b|
      ensures RowDots(Transpose(a, |b|), Transpose(Broadcast(b, |a|), |b|))[j] == ColumnSums(a, |b|)[j] * b[j]
    {
      BroadcastColumnDot(a, b, j);
    }
  }

  /** Dotting the columns of a with those of the broadcast b, and adding up, gives the column sums of a dotted with b. */
  lemma BroadcastColumnDots(a: seq<seq<real>>, b: seq<real>)
    requires IsMatrix(a, |a|, |b|)
    ensures Inner(Transpose(a, |b|), Transpose(Broadcast(b, |a|), |b|)) == Dot(ColumnSums(a, |b|), b)
  {
    BroadcastColumnProducts(a, b);
    SumIsDot(RowDots(Transpose(a, |b|), Transpose(Broadcast(b, |a|), |b|)), ColumnSums(a, |b|), b);
  }

  /** (a * b broadcast).sum() == np.sum(a, axis=0).dot(b): the identity behind db. */
  lemma InnerBroadcast(a: seq<seq<real>>, b: seq<real>)
    requires IsMatrix(a, |a|, |b|)
    ensures Inner(a, Broadcast(b, |a|)) == Dot(ColumnSums(a, |b|), b)
  {
    InnerTranspose(a, Broadcast(b, |a|), |b|);
    BroadcastColumnDots(a, b);
  }

  /** (a * (p + q)).sum() == (a * p).sum() + (a * q).sum(). */
  lemma InnerPlus(a: seq<seq<real>>, p: seq<seq<real>>, q: seq<seq<real>>, M: nat)
    requires IsMatrix(a, |a|, M) && IsMatrix(p, |a|, M) && IsMatrix(q, |a|, M)
    ensures Inner(a, Plus(p, q, M)) == Inner(a, p) + Inner(a, q)
  {
    var r := Plus(p, q, M);
    forall i | 0 <= i < |a|
      ensures Dot(a[i], r[i]) == Dot(a[i], p[i]) + Dot(a[i], q[i])
    {
      DotAdd(a[i], p[i], q[i], r[i]);
    }
    SumAdd(seq(|a|, i requires 0 <= i < |a| => Dot(a[i], p[i])), seq(|a|, i requires 0 <= i < |a| => Dot(a[i], q[i])),
           seq(|a|, i requires 0 <= i < |a| => Dot(a[i], r[i])));
  }

  /**
    The backward pass returns the gradients of the forward pass.  The scalar
    (dout * out).sum() that dout stands for equals (x * dx).sum() + db . b and
    also (w * dw).sum() + db . b, where dx depends only on dout and w, dw only
    on dout and x, and db only on dout: so dx, dw and db are its gradients with
    respect to x, w and b.
    */
  lemma AffineBackwardIsGradient(dout: seq<seq<real>>, x: seq<seq<real>>, w: seq<seq<real>>, b: seq<real>, D: nat, M: nat)
    requires IsMatrix(x, |x|, D) && IsMatrix(w, D, M) && |b| == M && IsMatrix(dout, |x|, M)
    ensures var g := AffineBackward(dout, x, w, D, M);
      && Inner(dout, AffineForward(x, w, b, D, M)) == Inner(x, g.dx) + Dot(g.db, b)
      && Inner(dout, AffineForward(x, w, b, D, M)) == Inner(w, g.dw) + Dot(g.db, b)
  {
    var g := AffineBackward(dout, x, w, D, M);
    assert g.dx == MatMul(dout, Transpose(w, M), M, D);
    assert g.dw == MatMul(Transpose(x, D), dout, |x|, M);
    assert g.db == ColumnSums(dout, M);
    InnerPlus(dout, MatMul(x, w, D, M), Broadcast(b, |x|), M);
    InnerMatMulRight(dout, x, w, D, M);
    InnerMatMulLeft(dout, x, w, D, M);
    InnerBroadcast(dout, b);
  }
}
