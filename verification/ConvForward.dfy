/**
  `conv_forward_naive`: zero-pad the batch, gather every receptive field into
  one column of X_col (im2col), then multiply by the filters reshaped into
  rows and add the biases.
  */
module ConvForward {
  import opened Index
  import opened Sums
  import opened Geometry
  import opened Padding

  /**
    Window geometry of the convolution of an H x W input, padded by `pad`, with
    HH x WW filters: the Hs x Ws output positions of
    `Hs = 1 + (H + 2*pad - HH) / stride`, `Ws = 1 + (W + 2*pad - WW) / stride`.
    */
  function ConvGeometry(H: nat, W: nat, HH: nat, WW: nat, stride: nat, pad: nat): (g: Sliding)
    requires stride > 0 && 0 < HH <= H + 2 * pad && 0 < WW <= W + 2 * pad
    ensures g.height == HH && g.width == WW && g.stride == stride
    ensures g.Inside(H + 2 * pad, W + 2 * pad)
    ensures H + 2 * pad < g.rows * stride + HH && W + 2 * pad < g.cols * stride + WW
  {
    Sliding(HH, WW, stride, ConvOutSize(H, pad, HH, stride), ConvOutSize(W, pad, WW, stride))
  }

  /**
    Entry (row, col) of X_col, read through the flat indices: column
    col = i*Hs*Ws + j*Ws + k holds window (j, k) of image i, flattened over
    (channel c, offset p, offset q) as row = (c*HH + p)*WW + q.
    */
  function ColumnEntry(xp: array4<real>, g: Sliding, row: nat, col: nat): real
    reads xp
    requires g.Inside(xp.Length2, xp.Length3)
    requires row < xp.Length1 * g.height * g.width && col < xp.Length0 * g.rows * g.cols
  {
    Flatten3Encode(row, xp.Length1, g.height, g.width);
    Flatten3Encode(col, xp.Length0, g.rows, g.cols);
    WindowAt(xp, g, Outer3(col, g.rows, g.cols), Outer3(row, g.height, g.width),
             Mid3(col, g.rows, g.cols), Inner3(col, g.cols),
             Mid3(row, g.height, g.width), Inner3(row, g.width))
  }

  /** Row (c*HH + p)*WW + q of column i*Hs*Ws + j*Ws + k of X_col is X_pad[i, c, j*stride + p, k*stride + q]. */
  lemma ColumnEntryAt(xp: array4<real>, g: Sliding, i: nat, j: nat, k: nat, c: nat, p: nat, q: nat)
    requires g.Inside(xp.Length2, xp.Length3)
    requires i < xp.Length0 && j < g.rows && k < g.cols && c < xp.Length1 && p < g.height && q < g.width
    ensures ColumnEntry(xp, g, Flatten3(c, p, q, xp.Length1, g.height, g.width), Flatten3(i, j, k, xp.Length0, g.rows, g.cols))
         == WindowAt(xp, g, i, c, j, k, p, q)
  {
    Flatten3Decode(c, p, q, xp.Length1, g.height, g.width);
    Flatten3Decode(i, j, k, xp.Length0, g.rows, g.cols);
  }

  /** X_col has shape (C*HH*WW, N*Hs*Ws) and its first `done` columns hold their windows. */
  ghost predicate ColumnsDone(xcol: array2<real>, xp: array4<real>, g: Sliding, done: nat)
    reads xcol, xp
  {
    && g.Inside(xp.Length2, xp.Length3)
    && xcol.Length0 == xp.Length1 * g.height * g.width
    && xcol.Length1 == xp.Length0 * g.rows * g.cols
    && forall row, col | 0 <= row < xcol.Length0 && 0 <= col < xcol.Length1 && col < done ::
         xcol[row, col] == ColumnEntry(xp, g, row, col)
  }

  /**
    X_col is the complete im2col matrix of X_pad: it has shape
    (C*HH*WW, N*Hs*Ws), and row (c*HH + p)*WW + q of column i*Hs*Ws + j*Ws + k
    is X_pad[i, c, j*stride + p, k*stride + q].  The two flattenings are onto,
    so this fixes every entry.
    */
  ghost predicate IsColumnMatrix(xcol: array2<real>, xp: array4<real>, g: Sliding)
    reads xcol, xp
  {
    && g.Inside(xp.Length2, xp.Length3)
    && xcol.Length0 == xp.Length1 * g.height * g.width
    && xcol.Length1 == xp.Length0 * g.rows * g.cols
    && forall i, j, k, c, p, q | 0 <= i < xp.Length0 && 0 <= j < g.rows && 0 <= k < g.cols &&
                                 0 <= c < xp.Length1 && 0 <= p < g.height && 0 <= q < g.width ::
         xcol[Flatten3(c, p, q, xp.Length1, g.height, g.width), Flatten3(i, j, k, xp.Length0, g.rows, g.cols)]
         == WindowAt(xp, g, i, c, j, k, p, q)
  }

  /** Once every column holds its window, X_col is the im2col matrix. */
  lemma AllColumnsDone(xcol: array2<real>, xp: array4<real>, g: Sliding)
    requires ColumnsDone(xcol, xp, g, xcol.Length1)
    ensures IsColumnMatrix(xcol, xp, g)
  {
    forall i, j, k, c, p, q | 0 <= i < xp.Length0 && 0 <= j < g.rows && 0 <= k < g.cols &&
                              0 <= c < xp.Length1 && 0 <= p < g.height && 0 <= q < g.width
      ensures xcol[Flatten3(c, p, q, xp.Length1, g.height, g.width), Flatten3(i, j, k, xp.Length0, g.rows, g.cols)]
              == WindowAt(xp, g, i, c, j, k, p, q)
    {
      ColumnEntryAt(xp, g, i, j, k, c, p, q);
    }
  }

  /** `X_col[:, i*Hs*Ws + j*Ws + k] = X_pad[i, :, j*s:j*s+HH, k*s:k*s+WW].flatten()`. */
  method GatherColumn(xcol: array2<real>, xp: array4<real>, g: Sliding, i: nat, j: nat, k: nat)
    requires g.Inside(xp.Length2, xp.Length3)
    requires i < xp.Length0 && j < g.rows && k < g.cols
    requires xcol.Length0 == xp.Length1 * g.height * g.width && xcol.Length1 == xp.Length0 * g.rows * g.cols
    modifies xcol
    ensures forall row, col | 0 <= row < xcol.Length0 && 0 <= col < xcol.Length1 ::
      xcol[row, col] == if col == Flatten3(i, j, k, xp.Length0, g.rows, g.cols) then ColumnEntry(xp, g, row, col)
                        else old(xcol[row, col])
  {
    var C, HH, WW := xp.Length1, g.height, g.width;
    var col := Flatten3(i, j, k, xp.Length0, g.rows, g.cols);
    for c := 0 to C
      invariant forall row, col' | 0 <= row < xcol.Length0 && 0 <= col' < xcol.Length1 ::
        xcol[row, col'] == if col' == col && row < c * HH * WW then ColumnEntry(xp, g, row, col') else old(xcol[row, col'])
    {
      GatherChannel(xcol, xp, g, i, j, k, c);
      assert c * HH * WW + HH * WW == (c + 1) * HH * WW;
    }
  }

  /** The rows of channel c in the column of window (j, k) of image i: `(c*HH + p)*WW + q` for all p, q. */
  method GatherChannel(xcol: array2<real>, xp: array4<real>, g: Sliding, i: nat, j: nat, k: nat, c: nat)
    requires g.Inside(xp.Length2, xp.Length3)
    requires i < xp.Length0 && j < g.rows && k < g.cols && c < xp.Length1
    requires xcol.Length0 == xp.Length1 * g.height * g.width && xcol.Length1 == xp.Length0 * g.rows * g.cols
    modifies xcol
    ensures forall row, col | 0 <= row < xcol.Length0 && 0 <= col < xcol.Length1 ::
      xcol[row, col] ==
        if col == Flatten3(i, j, k, xp.Length0, g.rows, g.cols) && c * g.height * g.width <= row < c * g.height * g.width + g.height * g.width
        then ColumnEntry(xp, g, row, col)
        else old(xcol[row, col])
  {
    var C, HH, WW := xp.Length1, g.height, g.width;
    var col := Flatten3(i, j, k, xp.Length0, g.rows, g.cols);
    var base := c * HH * WW;
    for p := 0 to HH
      invariant forall row, col' | 0 <= row < xcol.Length0 && 0 <= col' < xcol.Length1 ::
        xcol[row, col'] == if col' == col && base <= row < base + p * WW then ColumnEntry(xp, g, row, col') else old(xcol[row, col'])
    {
      for q := 0 to WW
        invariant forall row, col' | 0 <= row < xcol.Length0 && 0 <= col' < xcol.Length1 ::
          xcol[row, col'] == if col' == col && base <= row < base + p * WW + q then ColumnEntry(xp, g, row, col') else old(xcol[row, col'])
      {
        var row := Flatten3(c, p, q, C, HH, WW);
        ColumnEntryAt(xp, g, i, j, k, c, p, q);
        xcol[row, col] := WindowAt(xp, g, i, c, j, k, p, q);
      }
      assert p * WW + WW == (p + 1) * WW;
    }
  }

  /** The im2col loop of the forward pass: one column per image and window position. */
  method Im2Col(xp: array4<real>, g: Sliding) returns (xcol: array2<real>)
    requires g.Inside(xp.Length2, xp.Length3)
    ensures IsColumnMatrix(xcol, xp, g)
  {
    var N, Hs, Ws := xp.Length0, g.rows, g.cols;
    xcol := new real[xp.Length1 * g.height * g.width, N * Hs * Ws]((row, col) => 0.0);
    for i := 0 to N
      invariant ColumnsDone(xcol, xp, g, i * Hs * Ws)
    {
      for j := 0 to Hs
        invariant ColumnsDone(xcol, xp, g, i * Hs * Ws + j * Ws)
      {
        for k := 0 to Ws
          invariant ColumnsDone(xcol, xp, g, i * Hs * Ws + j * Ws + k)
        {
          GatherColumn(xcol, xp, g, i, j, k);
        }
        assert i * Hs * Ws + j * Ws + Ws == i * Hs * Ws + (j + 1) * Ws;
      }
      assert i * Hs * Ws + Hs * Ws == (i + 1) * Hs * Ws;
    }
    AllColumnsDone(xcol, xp, g);
  }

  /** Row f of `W_row = w.reshape(F, C*HH*WW)`: entry (c*HH + p)*WW + q is w[f, c, p, q]. */
  function FilterRow(w: array4<real>, f: nat, r: nat): real
    reads w
    requires w.Length2 > 0 && w.Length3 > 0
    requires f < w.Length0 && r < w.Length1 * w.Length2 * w.Length3
  {
    Flatten3Encode(r, w.Length1, w.Length2, w.Length3);
    w[f, Outer3(r, w.Length2, w.Length3), Mid3(r, w.Length2, w.Length3), Inner3(r, w.Length3)]
  }

  /** The products W_row[f, r] * X_col[r, col] over the rows r of X_col. */
  function ColumnProducts(w: array4<real>, xcol: array2<real>, f: nat, col: nat): (s: seq<real>)
    reads w, xcol
    requires w.Length2 > 0 && w.Length3 > 0 && xcol.Length0 == w.Length1 * w.Length2 * w.Length3
    requires f < w.Length0 && col < xcol.Length1
    ensures |s| == xcol.Length0
    ensures forall r | 0 <= r < xcol.Length0 :: s[r] == FilterRow(w, f, r) * xcol[r, col]
  {
    seq(xcol.Length0, r requires 0 <= r < xcol.Length0 reads w, xcol => FilterRow(w, f, r) * xcol[r, col])
  }

  /** Entry (f, col) of `W_row.dot(X_col)`. */
  function FilterDotColumn(w: array4<real>, xcol: array2<real>, f: nat, col: nat): real
    reads w, xcol
    requires w.Length2 > 0 && w.Length3 > 0 && xcol.Length0 == w.Length1 * w.Length2 * w.Length3
    requires f < w.Length0 && col < xcol.Length1
  {
    Sum(ColumnProducts(w, xcol, f, col))
  }

  /** The products w[f, c, p, q] * X_pad[n, c, j*stride + p, k*stride + q], indexed by (c, p, q). */
  function WindowProducts(xp: array4<real>, w: array4<real>, g: Sliding, n: nat, f: nat, j: nat, k: nat)
    : (t: seq<seq<seq<real>>>)
    reads xp, w
    requires g.Inside(xp.Length2, xp.Length3)
    requires w.Length1 == xp.Length1 && w.Length2 == g.height && w.Length3 == g.width
    requires n < xp.Length0 && f < w.Length0 && j < g.rows && k < g.cols
    ensures |t| == xp.Length1
    ensures forall c | 0 <= c < |t| :: |t[c]| == g.height
    ensures forall c, p | 0 <= c < |t| && 0 <= p < g.height :: |t[c][p]| == g.width
    ensures forall c, p, q | 0 <= c < |t| && 0 <= p < g.height && 0 <= q < g.width ::
      t[c][p][q] == w[f, c, p, q] * WindowAt(xp, g, n, c, j, k, p, q)
  {
    seq(xp.Length1, c requires 0 <= c < xp.Length1 reads xp, w =>
      seq(g.height, p requires 0 <= p < g.height reads xp, w =>
        seq(g.width, q requires 0 <= q < g.width reads xp, w =>
          w[f, c, p, q] * WindowAt(xp, g, n, c, j, k, p, q))))
  }

  /**
    The convolution at output position (j, k) of image n and filter f, without
    the bias: the sum over c, p, q of w[f, c, p, q] * X_pad[n, c, j*stride + p, k*stride + q].
    */
  function ConvSum(xp: array4<real>, w: array4<real>, g: Sliding, n: nat, f: nat, j: nat, k: nat): real
    reads xp, w
    requires g.Inside(xp.Length2, xp.Length3)
    requires w.Length1 == xp.Length1 && w.Length2 == g.height && w.Length3 == g.width
    requires n < xp.Length0 && f < w.Length0 && j < g.rows && k < g.cols
  {
    Sum3(WindowProducts(xp, w, g, n, f, j, k))
  }

  /**
    Multiplying filter row f by the column of window (j, k) of image n computes
    the convolution sum at that window: the matrix product over the flattened
    (c, p, q) index is the triple sum.
    */
  lemma {:induction false} FilterDotColumnIsConvSum(xp: array4<real>, w: array4<real>, xcol: array2<real>, g: Sliding,
                                                   n: nat, f: nat, j: nat, k: nat)
    requires IsColumnMatrix(xcol, xp, g)
    requires w.Length1 == xp.Length1 && w.Length2 == g.height && w.Length3 == g.width
    requires n < xp.Length0 && f < w.Length0 && j < g.rows && k < g.cols
    ensures FilterDotColumn(w, xcol, f, Flatten3(n, j, k, xp.Length0, g.rows, g.cols)) == ConvSum(xp, w, g, n, f, j, k)
  {
    var col := Flatten3(n, j, k, xp.Length0, g.rows, g.cols);
    var s := ColumnProducts(w, xcol, f, col);
    var t := WindowProducts(xp, w, g, n, f, j, k);
    ProductsMatch(xp, w, xcol, g, n, f, j, k);
    SumBlocks3(s, t, g.height, g.width);
  }

  /** The flat products of the matrix product enumerate the window products in (c, p, q) order. */
  lemma ProductsMatch(xp: array4<real>, w: array4<real>, xcol: array2<real>, g: Sliding,
                      n: nat, f: nat, j: nat, k: nat)
    requires IsColumnMatrix(xcol, xp, g)
    requires w.Length1 == xp.Length1 && w.Length2 == g.height && w.Length3 == g.width
    requires n < xp.Length0 && f < w.Length0 && j < g.rows && k < g.cols
    ensures forall c, p, q | 0 <= c < xp.Length1 && 0 <= p < g.height && 0 <= q < g.width ::
      ColumnProducts(w, xcol, f, Flatten3(n, j, k, xp.Length0, g.rows, g.cols))[Flatten3(c, p, q, xp.Length1, g.height, g.width)]
      == WindowProducts(xp, w, g, n, f, j, k)[c][p][q]
  {
    forall c, p, q | 0 <= c < xp.Length1 && 0 <= p < g.height && 0 <= q < g.width
      ensures ColumnProducts(w, xcol, f, Flatten3(n, j, k, xp.Length0, g.rows, g.cols))[Flatten3(c, p, q, xp.Length1, g.height, g.width)]
        == WindowProducts(xp, w, g, n, f, j, k)[c][p][q]
    {
      ProductAt(xp, w, xcol, g, n, f, j, k, c, p, q);
    }
  }

  /** Term (c, p, q) of the product of filter row f with the column of window (j, k) of image n. */
  lemma ProductAt(xp: array4<real>, w: array4<real>, xcol: array2<real>, g: Sliding,
                  n: nat, f: nat, j: nat, k: nat, c: nat, p: nat, q: nat)
    requires IsColumnMatrix(xcol, xp, g)
    requires w.Length1 == xp.Length1 && w.Length2 == g.height && w.Length3 == g.width
    requires n < xp.Length0 && f < w.Length0 && j < g.rows && k < g.cols
    requires c < xp.Length1 && p < g.height && q < g.width
    ensures ColumnProducts(w, xcol, f, Flatten3(n, j, k, xp.Length0, g.rows, g.cols))[Flatten3(c, p, q, xp.Length1, g.height, g.width)]
         == WindowProducts(xp, w, g, n, f, j, k)[c][p][q]
  {
    FilterRowAt(w, f, c, p, q);
  }

  /** Entry (c*HH + p)*WW + q of row f of W_row is w[f, c, p, q]. */
  lemma FilterRowAt(w: array4<real>, f: nat, c: nat, p: nat, q: nat)
    requires f < w.Length0 && c < w.Length1 && p < w.Length2 && q < w.Length3
    ensures FilterRow(w, f, Flatten3(c, p, q, w.Length1, w.Length2, w.Length3)) == w[f, c, p, q]
  {
    Flatten3Decode(c, p, q, w.Length1, w.Length2, w.Length3);
  }

  /**
    `conv_forward_naive`: returns out of shape (N, F, Hs, Ws) with
    out[n, f, j, k] = b[f] + sum over c, p, q of w[f, c, p, q] * X_pad[n, c, j*stride + p, k*stride + q],
    together with the cached X_pad (the zero padding of x) and X_col (its im2col matrix).
    */
  method ConvForwardNaive(x: array4<real>, w: array4<real>, b: array<real>, stride: nat, pad: nat)
    returns (out: array4<real>, xcol: array2<real>, xpad: array4<real>)
    requires w.Length1 == x.Length1 && b.Length == w.Length0
    requires stride > 0 && 0 < w.Length2 <= x.Length2 + 2 * pad && 0 < w.Length3 <= x.Length3 + 2 * pad
    ensures ZeroPadded(x, xpad, pad)
    ensures IsColumnMatrix(xcol, xpad, ConvGeometry(x.Length2, x.Length3, w.Length2, w.Length3, stride, pad))
    ensures var g := ConvGeometry(x.Length2, x.Length3, w.Length2, w.Length3, stride, pad);
      && out.Length0 == x.Length0 && out.Length1 == w.Length0 && out.Length2 == g.rows && out.Length3 == g.cols
      && forall n, f, j, k | 0 <= n < out.Length0 && 0 <= f < out.Length1 && 0 <= j < out.Length2 && 0 <= k < out.Length3 ::
           out[n, f, j, k] == b[f] + ConvSum(xpad, w, g, n, f, j, k)
  {
    var g := ConvGeometry(x.Length2, x.Length3, w.Length2, w.Length3, stride, pad);
    var N, F := x.Length0, w.Length0;
    xpad := Pad(x, pad);
    xcol := Im2Col(xpad, g);
    out := new real[N, F, g.rows, g.cols]((n: nat, f: nat, j: nat, k: nat)
      requires n < N && f < F && j < g.rows && k < g.cols
      requires xcol.Length0 == w.Length1 * w.Length2 * w.Length3 && xcol.Length1 == N * g.rows * g.cols
      reads w, xcol, b =>
      b[f] + FilterDotColumn(w, xcol, f, Flatten3(n, j, k, N, g.rows, g.cols)));
    forall n, f, j, k | 0 <= n < N && 0 <= f < F && 0 <= j < g.rows && 0 <= k < g.cols
      ensures out[n, f, j, k] == b[f] + ConvSum(xpad, w, g, n, f, j, k)
    {
      FilterDotColumnIsConvSum(xpad, w, xcol, g, n, f, j, k);
    }
  }
}
