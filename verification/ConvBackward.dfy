/**
  `conv_backward_naive`: the bias, filter and input gradients of the naive
  convolution, computed from the upstream gradient dout and the cached X_col
  and X_pad of the forward pass.
  */
module ConvBackward {
  import opened Index
  import opened Sums
  import opened Geometry
  import opened ConvForward
  import opened Scatter

  /**
    Entry (f, col) of `dout_re = dout.transpose(1, 0, 2, 3).reshape(F, -1)`:
    column col = n*Hs*Ws + j*Ws + k holds dout[n, f, j, k].
    */
  function DoutRe(dout: array4<real>, f: nat, col: nat): real
    reads dout
    requires dout.Length2 > 0 && dout.Length3 > 0
    requires f < dout.Length1 && col < dout.Length0 * dout.Length2 * dout.Length3
  {
    Flatten3Encode(col, dout.Length0, dout.Length2, dout.Length3);
    dout[Outer3(col, dout.Length2, dout.Length3), f, Mid3(col, dout.Length2, dout.Length3), Inner3(col, dout.Length3)]
  }

  /** Column n*Hs*Ws + j*Ws + k of row f of dout_re is dout[n, f, j, k]. */
  lemma DoutReAt(dout: array4<real>, f: nat, n: nat, j: nat, k: nat, N: nat, Hs: nat, Ws: nat)
    requires dout.Length0 == N && dout.Length2 == Hs && dout.Length3 == Ws
    requires f < dout.Length1 && n < N && j < Hs && k < Ws
    ensures DoutRe(dout, f, Flatten3(n, j, k, N, Hs, Ws)) == dout[n, f, j, k]
  {
    Flatten3Decode(n, j, k, N, Hs, Ws);
  }

  // ---- db ----

  /** The upstream gradients of filter f, indexed by (image, output row, output column). */
  function DoutOfFilter(dout: array4<real>, f: nat): (t: seq<seq<seq<real>>>)
    reads dout
    requires f < dout.Length1
    ensures |t| == dout.Length0
    ensures forall n | 0 <= n < |t| :: |t[n]| == dout.Length2
    ensures forall n, j | 0 <= n < |t| && 0 <= j < dout.Length2 :: |t[n][j]| == dout.Length3
    ensures forall n, j, k | 0 <= n < |t| && 0 <= j < dout.Length2 && 0 <= k < dout.Length3 :: t[n][j][k] == dout[n, f, j, k]
  {
    seq(dout.Length0, n requires 0 <= n < dout.Length0 reads dout =>
      seq(dout.Length2, j requires 0 <= j < dout.Length2 reads dout =>
        seq(dout.Length3, k requires 0 <= k < dout.Length3 reads dout => dout[n, f, j, k])))
  }

  /** `db[f] = np.sum(dout, axis=(0, 2, 3))[f]`: the sum over images and output positions. */
  function BiasGrad(dout: array4<real>, f: nat): real
    reads dout
    requires f < dout.Length1
  {
    Sum3(DoutOfFilter(dout, f))
  }

  /** Row f of dout_re. */
  function DoutRow(dout: array4<real>, f: nat): (s: seq<real>)
    reads dout
    requires dout.Length2 > 0 && dout.Length3 > 0 && f < dout.Length1
    ensures |s| == dout.Length0 * dout.Length2 * dout.Length3
    ensures forall col | 0 <= col < |s| :: s[col] == DoutRe(dout, f, col)
  {
    seq(dout.Length0 * dout.Length2 * dout.Length3,
        col requires 0 <= col < dout.Length0 * dout.Length2 * dout.Length3 reads dout => DoutRe(dout, f, col))
  }

  /**
    The bias gradient of filter f is the sum of row f of dout_re, the row of
    the forward product to every entry of which b[f] was added.
    */
  lemma BiasGradIsRowSum(dout: array4<real>, f: nat)
    requires dout.Length2 > 0 && dout.Length3 > 0 && f < dout.Length1
    ensures BiasGrad(dout, f) == Sum(DoutRow(dout, f))
  {
    var s, t := DoutRow(dout, f), DoutOfFilter(dout, f);
    forall n, j, k | 0 <= n < |t| && 0 <= j < dout.Length2 && 0 <= k < dout.Length3
      ensures s[Flatten3(n, j, k, |t|, dout.Length2, dout.Length3)] == t[n][j][k]
    {
      DoutReAt(dout, f, n, j, k, dout.Length0, dout.Length2, dout.Length3);
    }
    SumBlocks3(s, t, dout.Length2, dout.Length3);
  }

  // ---- dw ----

  /** Entry (f, row) of `dout_re.dot(X_col.T)`: sum over col of dout_re[f, col] * X_col[row, col]. */
  function FilterGradProduct(dout: array4<real>, xcol: array2<real>, f: nat, row: nat): real
    reads dout, xcol
    requires dout.Length2 > 0 && dout.Length3 > 0 && f < dout.Length1
    requires xcol.Length1 == dout.Length0 * dout.Length2 * dout.Length3 && row < xcol.Length0
  {
    Sum(ColumnTimesDout(dout, xcol, f, row))
  }

  /** The products dout_re[f, col] * X_col[row, col] over the columns col. */
  function ColumnTimesDout(dout: array4<real>, xcol: array2<real>, f: nat, row: nat): (s: seq<real>)
    reads dout, xcol
    requires dout.Length2 > 0 && dout.Length3 > 0 && f < dout.Length1
    requires xcol.Length1 == dout.Length0 * dout.Length2 * dout.Length3 && row < xcol.Length0
    ensures |s| == xcol.Length1
    ensures forall col | 0 <= col < |s| :: s[col] == DoutRe(dout, f, col) * xcol[row, col]
  {
    seq(xcol.Length1, col requires 0 <= col < xcol.Length1 reads dout, xcol => DoutRe(dout, f, col) * xcol[row, col])
  }

  /** The products dout[n, f, j, k] * X_pad[n, c, j*stride + p, k*stride + q], indexed by (n, j, k). */
  function DoutTimesWindow(dout: array4<real>, xp: array4<real>, g: Sliding, f: nat, c: nat, p: nat, q: nat)
    : (t: seq<seq<seq<real>>>)
    reads dout, xp
    requires g.Inside(xp.Length2, xp.Length3)
    requires dout.Length0 == xp.Length0 && dout.Length2 == g.rows && dout.Length3 == g.cols
    requires f < dout.Length1 && c < xp.Length1 && p < g.height && q < g.width
    ensures |t| == xp.Length0
    ensures forall n | 0 <= n < |t| :: |t[n]| == g.rows
    ensures forall n, j | 0 <= n < |t| && 0 <= j < g.rows :: |t[n][j]| == g.cols
    ensures forall n, j, k | 0 <= n < |t| && 0 <= j < g.rows && 0 <= k < g.cols ::
      t[n][j][k] == dout[n, f, j, k] * WindowAt(xp, g, n, c, j, k, p, q)
  {
    seq(xp.Length0, n requires 0 <= n < xp.Length0 reads dout, xp =>
      seq(g.rows, j requires 0 <= j < g.rows reads dout, xp =>
        seq(g.cols, k requires 0 <= k < g.cols reads dout, xp =>
          dout[n, f, j, k] * WindowAt(xp, g, n, c, j, k, p, q))))
  }

  /**
    The filter gradient dw[f, c, p, q]: the sum over images n and output
    positions (j, k) of dout[n, f, j, k] * X_pad[n, c, j*stride + p, k*stride + q].
    */
  function FilterGrad(dout: array4<real>, xp: array4<real>, g: Sliding, f: nat, c: nat, p: nat, q: nat): real
    reads dout, xp
    requires g.Inside(xp.Length2, xp.Length3)
    requires dout.Length0 == xp.Length0 && dout.Length2 == g.rows && dout.Length3 == g.cols
    requires f < dout.Length1 && c < xp.Length1 && p < g.height && q < g.width
  {
    Sum3(DoutTimesWindow(dout, xp, g, f, c, p, q))
  }

  /** The matrix product with X_col computes the filter gradient: entry (f, (c*HH + p)*WW + q) is dw[f, c, p, q]. */
  lemma {:induction false} FilterGradProductIsWindowSum(dout: array4<real>, xp: array4<real>, xcol: array2<real>, g: Sliding,
                                                       f: nat, c: nat, p: nat, q: nat)
    requires IsColumnMatrix(xcol, xp, g)
    requires dout.Length0 == xp.Length0 && dout.Length2 == g.rows && dout.Length3 == g.cols
    requires f < dout.Length1 && c < xp.Length1 && p < g.height && q < g.width
    ensures FilterGradProduct(dout, xcol, f, Flatten3(c, p, q, xp.Length1, g.height, g.width)) == FilterGrad(dout, xp, g, f, c, p, q)
  {
    var row := Flatten3(c, p, q, xp.Length1, g.height, g.width);
    var s := ColumnTimesDout(dout, xcol, f, row);
    var t := DoutTimesWindow(dout, xp, g, f, c, p, q);
    DoutTimesWindowMatch(dout, xp, xcol, g, f, c, p, q);
    SumBlocks3(s, t, g.rows, g.cols);
  }

  /** The flat products of the matrix product enumerate the window products in (n, j, k) order. */
  lemma DoutTimesWindowMatch(dout: array4<real>, xp: array4<real>, xcol: array2<real>, g: Sliding,
                             f: nat, c: nat, p: nat, q: nat)
    requires IsColumnMatrix(xcol, xp, g)
    requires dout.Length0 == xp.Length0 && dout.Length2 == g.rows && dout.Length3 == g.cols
    requires f < dout.Length1 && c < xp.Length1 && p < g.height && q < g.width
    ensures forall n, j, k | 0 <= n < xp.Length0 && 0 <= j < g.rows && 0 <= k < g.cols ::
      ColumnTimesDout(dout, xcol, f, Flatten3(c, p, q, xp.Length1, g.height, g.width))[Flatten3(n, j, k, xp.Length0, g.rows, g.cols)]
      == DoutTimesWindow(dout, xp, g, f, c, p, q)[n][j][k]
  {
    var row := Flatten3(c, p, q, xp.Length1, g.height, g.width);
    forall n, j, k | 0 <= n < xp.Length0 && 0 <= j < g.rows && 0 <= k < g.cols
      ensures ColumnTimesDout(dout, xcol, f, row)[Flatten3(n, j, k, xp.Length0, g.rows, g.cols)]
        == DoutTimesWindow(dout, xp, g, f, c, p, q)[n][j][k]
    {
      var col := Flatten3(n, j, k, xp.Length0, g.rows, g.cols);
      DoutReAt(dout, f, n, j, k, xp.Length0, g.rows, g.cols);
      DoutTimesColumnAt(dout, xp, xcol, g, f, c, p, q, n, j, k, row, col);
    }
  }

  /**
    Term (n, j, k) of the product of row f of dout_re with row `row` of X_col,
    where column `col` of dout_re holds dout[n, f, j, k] and entry (row, col) of
    X_col holds offset (c, p, q) of window (j, k) of image n.
    */
  lemma DoutTimesColumnAt(dout: array4<real>, xp: array4<real>, xcol: array2<real>, g: Sliding,
                          f: nat, c: nat, p: nat, q: nat, n: nat, j: nat, k: nat, row: nat, col: nat)
    requires g.Inside(xp.Length2, xp.Length3)
    requires dout.Length0 == xp.Length0 && dout.Length2 == g.rows && dout.Length3 == g.cols && g.rows > 0 && g.cols > 0
    requires f < dout.Length1 && c < xp.Length1 && p < g.height && q < g.width
    requires n < xp.Length0 && j < g.rows && k < g.cols
    requires xcol.Length1 == dout.Length0 * dout.Length2 * dout.Length3 && row < xcol.Length0 && col < xcol.Length1
    requires DoutRe(dout, f, col) == dout[n, f, j, k]
    requires xcol[row, col] == WindowAt(xp, g, n, c, j, k, p, q)
    ensures ColumnTimesDout(dout, xcol, f, row)[col] == DoutTimesWindow(dout, xp, g, f, c, p, q)[n][j][k]
  {
    var t := DoutTimesWindow(dout, xp, g, f, c, p, q);
    assert t[n][j][k] == dout[n, f, j, k] * WindowAt(xp, g, n, c, j, k, p, q);
  }

  // ---- dx_col ----

  /** The products W_row[f, row] * dout_re[f, col] over the filters f. */
  function FilterTimesDout(w: array4<real>, dout: array4<real>, row: nat, col: nat): (s: seq<real>)
    reads w, dout
    requires w.Length2 > 0 && w.Length3 > 0 && row < w.Length1 * w.Length2 * w.Length3
    requires dout.Length1 == w.Length0 && dout.Length2 > 0 && dout.Length3 > 0
    requires col < dout.Length0 * dout.Length2 * dout.Length3
    ensures |s| == w.Length0
    ensures forall f | 0 <= f < |s| :: s[f] == FilterRow(w, f, row) * DoutRe(dout, f, col)
  {
    seq(w.Length0, f requires 0 <= f < w.Length0 reads w, dout => FilterRow(w, f, row) * DoutRe(dout, f, col))
  }

  /** Entry (row, col) of `dx_col = W_row.T.dot(dout_re)`. */
  function ColumnGrad(w: array4<real>, dout: array4<real>, row: nat, col: nat): real
    reads w, dout
    requires w.Length2 > 0 && w.Length3 > 0 && row < w.Length1 * w.Length2 * w.Length3
    requires dout.Length1 == w.Length0 && dout.Length2 > 0 && dout.Length3 > 0
    requires col < dout.Length0 * dout.Length2 * dout.Length3
  {
    Sum(FilterTimesDout(w, dout, row, col))
  }

  /** The products w[f, c, p, q] * dout[n, f, j, k] over the filters f. */
  function WeightTimesDout(w: array4<real>, dout: array4<real>, c: nat, p: nat, q: nat, n: nat, j: nat, k: nat): (s: seq<real>)
    reads w, dout
    requires dout.Length1 == w.Length0
    requires c < w.Length1 && p < w.Length2 && q < w.Length3 && n < dout.Length0 && j < dout.Length2 && k < dout.Length3
    ensures |s| == w.Length0
    ensures forall f | 0 <= f < |s| :: s[f] == w[f, c, p, q] * dout[n, f, j, k]
  {
    seq(w.Length0, f requires 0 <= f < w.Length0 reads w, dout => w[f, c, p, q] * dout[n, f, j, k])
  }

  /**
    Entry ((c*HH + p)*WW + q, n*Hs*Ws + j*Ws + k) of dx_col is the sum over
    filters f of w[f, c, p, q] * dout[n, f, j, k].
    */
  lemma ColumnGradAt(w: array4<real>, dout: array4<real>, c: nat, p: nat, q: nat, n: nat, j: nat, k: nat)
    requires dout.Length1 == w.Length0
    requires c < w.Length1 && p < w.Length2 && q < w.Length3 && n < dout.Length0 && j < dout.Length2 && k < dout.Length3
    ensures ColumnGrad(w, dout, Flatten3(c, p, q, w.Length1, w.Length2, w.Length3), Flatten3(n, j, k, dout.Length0, dout.Length2, dout.Length3))
         == Sum(WeightTimesDout(w, dout, c, p, q, n, j, k))
  {
    var row := Flatten3(c, p, q, w.Length1, w.Length2, w.Length3);
    var col := Flatten3(n, j, k, dout.Length0, dout.Length2, dout.Length3);
    var s, t := FilterTimesDout(w, dout, row, col), WeightTimesDout(w, dout, c, p, q, n, j, k);
    Flatten3Decode(c, p, q, w.Length1, w.Length2, w.Length3);
    forall f | 0 <= f < w.Length0
      ensures s[f] == t[f]
    {
      DoutReAt(dout, f, n, j, k, dout.Length0, dout.Length2, dout.Length3);
    }
    assert s == t;
  }

  // ---- cropping dx_pad ----

  /**
    Extent of Python's slice `a[pad:-pad]` of an axis of length len, as the
    source crops dx_pad: the stop `-pad` counts from the end, except that
    `-0 == 0` is the start of the axis.
    */
  function CropExtentAsWritten(len: nat, pad: nat): (e: nat)
    ensures e <= len
  {
    var start := if pad <= len then pad else len;
    var stop := if pad == 0 then 0 else if pad <= len then len - pad else 0;
    if start <= stop then stop - start else 0
  }

  /**
    The slice keeps the H interior rows of the padded axis when pad > 0, and
    none at all when pad == 0.
    */
  lemma CropAsWrittenExtent(H: nat, pad: nat)
    ensures pad > 0 ==> CropExtentAsWritten(H + 2 * pad, pad) == H
    ensures pad == 0 ==> CropExtentAsWritten(H + 2 * pad, pad) == 0
  {
  }

  /** `dx_pad[:, :, pad:-pad, pad:-pad]` as written. */
  method CropAsWritten(dxpad: array4<real>, pad: nat) returns (dx: array4<real>)
    ensures dx.Length0 == dxpad.Length0 && dx.Length1 == dxpad.Length1
    ensures dx.Length2 == CropExtentAsWritten(dxpad.Length2, pad) && dx.Length3 == CropExtentAsWritten(dxpad.Length3, pad)
    ensures pad == 0 ==> dx.Length2 == 0 && dx.Length3 == 0
    ensures forall n, c, h, v | 0 <= n < dx.Length0 && 0 <= c < dx.Length1 && 0 <= h < dx.Length2 && 0 <= v < dx.Length3 ::
      h + pad < dxpad.Length2 && v + pad < dxpad.Length3 && dx[n, c, h, v] == dxpad[n, c, h + pad, v + pad]
  {
    var eh, ew := CropExtentAsWritten(dxpad.Length2, pad), CropExtentAsWritten(dxpad.Length3, pad);
    dx := new real[dxpad.Length0, dxpad.Length1, eh, ew]((n: nat, c: nat, h: nat, v: nat)
      requires n < dxpad.Length0 && c < dxpad.Length1 && h < eh && v < ew reads dxpad =>
      dxpad[n, c, h + pad, v + pad]);
  }

  /** Corrected crop `dx_pad[:, :, pad:pad+H, pad:pad+W]`: the interior, for every pad including 0. */
  method Crop(dxpad: array4<real>, pad: nat, H: nat, W: nat) returns (dx: array4<real>)
    requires dxpad.Length2 == H + 2 * pad && dxpad.Length3 == W + 2 * pad
    ensures dx.Length0 == dxpad.Length0 && dx.Length1 == dxpad.Length1 && dx.Length2 == H && dx.Length3 == W
    ensures forall n, c, h, v | 0 <= n < dx.Length0 && 0 <= c < dx.Length1 && 0 <= h < H && 0 <= v < W ::
      dx[n, c, h, v] == dxpad[n, c, h + pad, v + pad]
  {
    dx := new real[dxpad.Length0, dxpad.Length1, H, W]((n: nat, c: nat, h: nat, v: nat)
      requires n < dxpad.Length0 && c < dxpad.Length1 && h < H && v < W reads dxpad =>
      dxpad[n, c, h + pad, v + pad]);
  }

  // ---- the layer ----

  /** `db = np.sum(dout, axis=(0, 2, 3))`. */
  method BiasGradient(dout: array4<real>) returns (db: array<real>)
    ensures db.Length == dout.Length1
    ensures forall f | 0 <= f < db.Length :: db[f] == BiasGrad(dout, f)
  {
    db := new real[dout.Length1]((f: nat) requires f < dout.Length1 reads dout => BiasGrad(dout, f));
  }

  /** `dw = dout_re.dot(X_col.T).reshape(w.shape)`: the filter gradient. */
  method FilterGradient(dout: array4<real>, xcol: array2<real>, xpad: array4<real>, g: Sliding)
    returns (dw: array4<real>)
    requires IsColumnMatrix(xcol, xpad, g)
    requires dout.Length0 == xpad.Length0 && dout.Length2 == g.rows && dout.Length3 == g.cols
    ensures dw.Length0 == dout.Length1 && dw.Length1 == xpad.Length1 && dw.Length2 == g.height && dw.Length3 == g.width
    ensures forall f, c, p, q | 0 <= f < dw.Length0 && 0 <= c < dw.Length1 && 0 <= p < dw.Length2 && 0 <= q < dw.Length3 ::
      dw[f, c, p, q] == FilterGrad(dout, xpad, g, f, c, p, q)
  {
    var F, C, HH, WW := dout.Length1, xpad.Length1, g.height, g.width;
    dw := new real[F, C, HH, WW]((f: nat, c: nat, p: nat, q: nat)
      requires f < F && c < C && p < HH && q < WW reads dout, xcol =>
      FilterGradProduct(dout, xcol, f, Flatten3(c, p, q, C, HH, WW)));
    forall f, c, p, q | 0 <= f < F && 0 <= c < C && 0 <= p < HH && 0 <= q < WW
      ensures dw[f, c, p, q] == FilterGrad(dout, xpad, g, f, c, p, q)
    {
      FilterGradProductIsWindowSum(dout, xpad, xcol, g, f, c, p, q);
    }
  }

  /** `dx_col = W_row.T.dot(dout_re)`. */
  method ColumnGradient(w: array4<real>, dout: array4<real>, g: Sliding) returns (dxcol: array2<real>)
    requires 0 < g.height == w.Length2 && 0 < g.width == w.Length3 && g.rows > 0 && g.cols > 0
    requires dout.Length1 == w.Length0 && dout.Length2 == g.rows && dout.Length3 == g.cols
    ensures ColumnShape(dxcol, g, dout.Length0, w.Length1)
    ensures forall row, col | 0 <= row < dxcol.Length0 && 0 <= col < dxcol.Length1 :: dxcol[row, col] == ColumnGrad(w, dout, row, col)
  {
    var R, K := w.Length1 * w.Length2 * w.Length3, dout.Length0 * dout.Length2 * dout.Length3;
    dxcol := new real[R, K]((row: nat, col: nat) requires row < R && col < K reads w, dout => ColumnGrad(w, dout, row, col));
  }

  /**
    `conv_backward_naive`, with the corrected crop.  Given the forward cache
    (x for its shape, w, X_col and X_pad) it returns
      db[f] = sum of dout[n, f, j, k] over n, j, k;
      dw[f, c, p, q] = sum over n, j, k of dout[n, f, j, k] * X_pad[n, c, j*stride + p, k*stride + q];
      dx[n, c, h, v] = entry (n, c, h + pad, v + pad) of the scatter of dx_col,
    where dx_col[row, col] = sum over f of W_row[f, row] * dout_re[f, col] is
    returned as well.
    */
  method ConvBackwardNaive(dout: array4<real>, x: array4<real>, w: array4<real>, xcol: array2<real>, xpad: array4<real>,
                           stride: nat, pad: nat)
    returns (dx: array4<real>, dw: array4<real>, db: array<real>, dxcol: array2<real>)
    requires w.Length1 == x.Length1
    requires stride > 0 && 0 < w.Length2 <= x.Length2 + 2 * pad && 0 < w.Length3 <= x.Length3 + 2 * pad
    requires xpad.Length0 == x.Length0 && xpad.Length1 == x.Length1
    requires xpad.Length2 == x.Length2 + 2 * pad && xpad.Length3 == x.Length3 + 2 * pad
    requires IsColumnMatrix(xcol, xpad, ConvGeometry(x.Length2, x.Length3, w.Length2, w.Length3, stride, pad))
    requires var g := ConvGeometry(x.Length2, x.Length3, w.Length2, w.Length3, stride, pad);
      dout.Length0 == x.Length0 && dout.Length1 == w.Length0 && dout.Length2 == g.rows && dout.Length3 == g.cols
    ensures db.Length == w.Length0
    ensures forall f | 0 <= f < w.Length0 :: db[f] == BiasGrad(dout, f)
    ensures dw.Length0 == w.Length0 && dw.Length1 == w.Length1 && dw.Length2 == w.Length2 && dw.Length3 == w.Length3
    ensures var g := ConvGeometry(x.Length2, x.Length3, w.Length2, w.Length3, stride, pad);
      forall f, c, p, q | 0 <= f < dw.Length0 && 0 <= c < dw.Length1 && 0 <= p < dw.Length2 && 0 <= q < dw.Length3 ::
        dw[f, c, p, q] == FilterGrad(dout, xpad, g, f, c, p, q)
    ensures var g := ConvGeometry(x.Length2, x.Length3, w.Length2, w.Length3, stride, pad);
      && ColumnShape(dxcol, g, x.Length0, x.Length1)
      && (forall row, col | 0 <= row < dxcol.Length0 && 0 <= col < dxcol.Length1 :: dxcol[row, col] == ColumnGrad(w, dout, row, col))
      && dx.Length0 == x.Length0 && dx.Length1 == x.Length1 && dx.Length2 == x.Length2 && dx.Length3 == x.Length3
      && forall n, c, h, v | 0 <= n < dx.Length0 && 0 <= c < dx.Length1 && 0 <= h < dx.Length2 && 0 <= v < dx.Length3 ::
           dx[n, c, h, v] == ScatterSum(dxcol, g, x.Length0, x.Length1, n, c, h + pad, v + pad)
  {
    var g := ConvGeometry(x.Length2, x.Length3, w.Length2, w.Length3, stride, pad);
    db := BiasGradient(dout);
    dw := FilterGradient(dout, xcol, xpad, g);
    dxcol := ColumnGradient(w, dout, g);
    var dxpad := Col2Im(dxcol, g, x.Length0, x.Length1, x.Length2 + 2 * pad, x.Length3 + 2 * pad);
    dx := Crop(dxpad, pad, x.Length2, x.Length3);
  }
}
