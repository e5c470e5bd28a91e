/**
  `max_pool_forward_naive`: gather every pooling window of every (image,
  channel) plane into one row of x_col, take the maximum of each row, and
  reshape the maxima to (N, C, Hs, Ws).
  */
module PoolForward {
  import opened Index
  import opened Geometry
  import opened Extrema

  /**
    Window geometry of ph x pw pooling with stride ps over an H x W input:
    `Hs = (H - ph) / ps + 1` rows and `Ws = (W - pw) / ps + 1` columns of windows.
    */
  function PoolGeometry(H: nat, W: nat, ph: nat, pw: nat, ps: nat): (g: Sliding)
    requires ps > 0 && 0 < ph <= H && 0 < pw <= W
    ensures g.height == ph && g.width == pw && g.stride == ps
    ensures g.Inside(H, W)
    ensures H < g.rows * ps + ph && W < g.cols * ps + pw
  {
    Sliding(ph, pw, ps, PoolOutSize(H, ph, ps), PoolOutSize(W, pw, ps))
  }

  /** x_col has one row per (image, channel, window row, window column) and one column per window offset. */
  predicate PoolColumnShape(xcol: array2<real>, g: Sliding, N: nat, C: nat)
    reads xcol
  {
    && g.height > 0 && g.width > 0 && g.rows > 0 && g.cols > 0
    && xcol.Length0 == N * C * g.rows * g.cols
    && xcol.Length1 == g.height * g.width
  }

  /**
    Entry (row, col) of x_col read through the flat indices: row
    i*C*Hs*Ws + j*Hs*Ws + k*Ws + t holds window (k, t) of plane (i, j),
    flattened over its offsets as col = p*pw + q.
    */
  function PoolEntry(x: array4<real>, g: Sliding, row: nat, col: nat): real
    reads x
    requires g.Inside(x.Length2, x.Length3) && x.Length1 > 0
    requires row < x.Length0 * x.Length1 * g.rows * g.cols && col < g.height * g.width
  {
    Flatten3Encode(row, x.Length0 * x.Length1, g.rows, g.cols);
    PlaneEntry(x, g, Outer3(row, g.rows, g.cols), Mid3(row, g.rows, g.cols), Inner3(row, g.cols), col)
  }

  /** Offset col = p*pw + q of window (k, t) of plane number `plane` = i*C + j: x[i, j, k*ps + p, t*ps + q]. */
  function PlaneEntry(x: array4<real>, g: Sliding, plane: nat, k: nat, t: nat, col: nat): real
    reads x
    requires g.Inside(x.Length2, x.Length3) && x.Length1 > 0
    requires plane < x.Length0 * x.Length1 && k < g.rows && t < g.cols && col < g.height * g.width
  {
    Flatten2Encode(plane, x.Length0, x.Length1);
    Flatten2Encode(col, g.height, g.width);
    WindowAt(x, g, Outer2(plane, x.Length1), Inner2(plane, x.Length1), k, t, Outer2(col, g.width), Inner2(col, g.width))
  }

  /** Offset (p, q) of row i*C*Hs*Ws + j*Hs*Ws + k*Ws + t of x_col is x[i, j, k*ps + p, t*ps + q]. */
  lemma PoolEntryAt(x: array4<real>, g: Sliding, i: nat, j: nat, k: nat, t: nat, p: nat, q: nat)
    requires g.Inside(x.Length2, x.Length3)
    requires i < x.Length0 && j < x.Length1 && k < g.rows && t < g.cols && p < g.height && q < g.width
    ensures PoolEntry(x, g, Flatten4(i, j, k, t, x.Length0, x.Length1, g.rows, g.cols), Flatten2(p, q, g.height, g.width))
         == WindowAt(x, g, i, j, k, t, p, q)
  {
    Flatten4Decode(i, j, k, t, x.Length0, x.Length1, g.rows, g.cols);
    Flatten2Decode(p, q, g.height, g.width);
  }

  /** x_col has its shape and its first `done` rows hold their windows. */
  ghost predicate PoolRowsDone(xcol: array2<real>, x: array4<real>, g: Sliding, done: int)
    reads xcol, x
  {
    && g.Inside(x.Length2, x.Length3) && x.Length1 > 0
    && PoolColumnShape(xcol, g, x.Length0, x.Length1)
    && forall row, col | 0 <= row < xcol.Length0 && 0 <= col < xcol.Length1 && row < done ::
         xcol[row, col] == PoolEntry(x, g, row, col)
  }

  /**
    x_col is the complete window matrix of x: shape (N*C*Hs*Ws, ph*pw), and
    offset p*pw + q of row i*C*Hs*Ws + j*Hs*Ws + k*Ws + t is x[i, j, k*ps + p, t*ps + q].
    */
  ghost predicate IsPoolColumns(xcol: array2<real>, x: array4<real>, g: Sliding)
    reads xcol, x
  {
    && g.Inside(x.Length2, x.Length3) && x.Length1 > 0
    && PoolColumnShape(xcol, g, x.Length0, x.Length1)
    && forall i, j, k, t, p, q | 0 <= i < x.Length0 && 0 <= j < x.Length1 && 0 <= k < g.rows && 0 <= t < g.cols &&
                                 0 <= p < g.height && 0 <= q < g.width ::
         xcol[Flatten4(i, j, k, t, x.Length0, x.Length1, g.rows, g.cols), Flatten2(p, q, g.height, g.width)]
         == WindowAt(x, g, i, j, k, t, p, q)
  }

  /** Once every row holds its window, x_col is the window matrix. */
  lemma AllPoolRowsDone(xcol: array2<real>, x: array4<real>, g: Sliding)
    requires PoolRowsDone(xcol, x, g, xcol.Length0)
    ensures IsPoolColumns(xcol, x, g)
  {
    forall i, j, k, t, p, q | 0 <= i < x.Length0 && 0 <= j < x.Length1 && 0 <= k < g.rows && 0 <= t < g.cols &&
                              0 <= p < g.height && 0 <= q < g.width
      ensures xcol[Flatten4(i, j, k, t, x.Length0, x.Length1, g.rows, g.cols), Flatten2(p, q, g.height, g.width)]
              == WindowAt(x, g, i, j, k, t, p, q)
    {
      PoolEntryAt(x, g, i, j, k, t, p, q);
    }
  }

  /** Every row of x_col from row `from` on holds what it held on entry to the enclosing method. */
  twostate predicate RowsKept(xcol: array2<real>, from: int)
    reads xcol
  {
    forall row, col | 0 <= row < xcol.Length0 && from <= row && 0 <= col < xcol.Length1 ::
      xcol[row, col] == old(xcol[row, col])
  }

  /** `x_col[i*C*Hs*Ws + j*Hs*Ws + k*Ws + t, :] = x[i, j, k*ps:k*ps+ph, t*ps:t*ps+pw].flatten()`. */
  method GatherWindow(xcol: array2<real>, x: array4<real>, g: Sliding, i: nat, j: nat, k: nat, t: nat)
    requires g.Inside(x.Length2, x.Length3) && PoolColumnShape(xcol, g, x.Length0, x.Length1)
    requires i < x.Length0 && j < x.Length1 && k < g.rows && t < g.cols
    modifies xcol
    ensures forall row, col | 0 <= row < xcol.Length0 && 0 <= col < xcol.Length1 ::
      xcol[row, col] == if row == Flatten4(i, j, k, t, x.Length0, x.Length1, g.rows, g.cols) then PoolEntry(x, g, row, col)
                        else old(xcol[row, col])
  {
    var row := Flatten4(i, j, k, t, x.Length0, x.Length1, g.rows, g.cols);
    for p := 0 to g.height
      invariant forall row', col | 0 <= row' < xcol.Length0 && 0 <= col < xcol.Length1 ::
        xcol[row', col] == if row' == row && col < p * g.width then PoolEntry(x, g, row', col) else old(xcol[row', col])
    {
      for q := 0 to g.width
        invariant forall row', col | 0 <= row' < xcol.Length0 && 0 <= col < xcol.Length1 ::
          xcol[row', col] == if row' == row && col < p * g.width + q then PoolEntry(x, g, row', col) else old(xcol[row', col])
      {
        PoolEntryAt(x, g, i, j, k, t, p, q);
        xcol[row, Flatten2(p, q, g.height, g.width)] := WindowAt(x, g, i, j, k, t, p, q);
      }
      assert p * g.width + g.width == (p + 1) * g.width;
    }
  }

  /**
    The (k, t) loops of the gather for plane (i, j): its Hs*Ws rows follow the
    rows of the planes before it, and the rows after it are untouched.
    */
  method GatherPlane(xcol: array2<real>, x: array4<real>, g: Sliding, i: nat, j: nat)
    requires i < x.Length0 && j < x.Length1
    requires PoolRowsDone(xcol, x, g, i * x.Length1 * g.rows * g.cols + j * g.rows * g.cols)
    modifies xcol
    ensures PoolRowsDone(xcol, x, g, i * x.Length1 * g.rows * g.cols + j * g.rows * g.cols + g.rows * g.cols)
    ensures RowsKept(xcol, i * x.Length1 * g.rows * g.cols + j * g.rows * g.cols + g.rows * g.cols)
  {
    var Hs, Ws := g.rows, g.cols;
    ghost var base := i * x.Length1 * Hs * Ws + j * Hs * Ws;
    for k := 0 to Hs
      invariant PoolRowsDone(xcol, x, g, base + k * Ws)
      invariant RowsKept(xcol, base + k * Ws)
    {
      for t := 0 to Ws
        invariant PoolRowsDone(xcol, x, g, base + k * Ws + t)
        invariant RowsKept(xcol, base + k * Ws + t)
      {
        GatherWindow(xcol, x, g, i, j, k, t);
      }
      NextBlock2(k, Ws);
    }
  }

  /**
    The (j, k, t) loops of the gather for image i: its C*Hs*Ws rows follow the
    rows of the images before it, and the rows after it are untouched.
    */
  method GatherImage(xcol: array2<real>, x: array4<real>, g: Sliding, i: nat)
    requires i < x.Length0
    requires PoolRowsDone(xcol, x, g, i * x.Length1 * g.rows * g.cols)
    modifies xcol
    ensures PoolRowsDone(xcol, x, g, (i + 1) * x.Length1 * g.rows * g.cols)
    ensures RowsKept(xcol, (i + 1) * x.Length1 * g.rows * g.cols)
  {
    ghost var base := i * x.Length1 * g.rows * g.cols;
    for j := 0 to x.Length1
      invariant PoolRowsDone(xcol, x, g, base + j * g.rows * g.cols)
      invariant RowsKept(xcol, base + j * g.rows * g.cols)
    {
      GatherPlane(xcol, x, g, i, j);
      NextBlock3(j, g.rows, g.cols);
    }
    NextBlock4(i, x.Length1, g.rows, g.cols);
  }

  /** The quadruple gather loop of the forward pass: one row per (image, channel, window). */
  method GatherWindows(x: array4<real>, g: Sliding) returns (xcol: array2<real>)
    requires g.Inside(x.Length2, x.Length3) && x.Length1 > 0
    ensures IsPoolColumns(xcol, x, g)
  {
    var rows := x.Length0 * x.Length1 * g.rows * g.cols;
    xcol := new real[rows, g.height * g.width]((row, col) => 0.0);
    for i := 0 to x.Length0
      invariant PoolRowsDone(xcol, x, g, i * x.Length1 * g.rows * g.cols)
    {
      GatherImage(xcol, x, g, i);
    }
    AllPoolRowsDone(xcol, x, g);
  }

  /** Row r of x_col as a sequence. */
  function PoolRow(xcol: array2<real>, r: nat): (s: seq<real>)
    reads xcol
    requires r < xcol.Length0
    ensures |s| == xcol.Length1
    ensures forall col | 0 <= col < |s| :: s[col] == xcol[r, col]
  {
    seq(xcol.Length1, col requires 0 <= col < xcol.Length1 reads xcol => xcol[r, col])
  }

  /** v is the maximum of window (k, t) of plane (n, c) of x: no entry of the window exceeds v, and one equals it. */
  ghost predicate IsWindowMax(v: real, x: array4<real>, g: Sliding, n: nat, c: nat, k: nat, t: nat)
    reads x
    requires g.Inside(x.Length2, x.Length3) && n < x.Length0 && c < x.Length1 && k < g.rows && t < g.cols
  {
    && (forall p, q | 0 <= p < g.height && 0 <= q < g.width :: WindowAt(x, g, n, c, k, t, p, q) <= v)
    && (exists p, q | 0 <= p < g.height && 0 <= q < g.width :: WindowAt(x, g, n, c, k, t, p, q) == v)
  }

  /** The maximum of the row of x_col that holds window (k, t) of plane (n, c) is that window's maximum. */
  lemma RowMaxIsWindowMax(xcol: array2<real>, x: array4<real>, g: Sliding, n: nat, c: nat, k: nat, t: nat)
    requires IsPoolColumns(xcol, x, g)
    requires n < x.Length0 && c < x.Length1 && k < g.rows && t < g.cols
    ensures IsWindowMax(Max(PoolRow(xcol, Flatten4(n, c, k, t, x.Length0, x.Length1, g.rows, g.cols))), x, g, n, c, k, t)
  {
    var s := PoolRow(xcol, Flatten4(n, c, k, t, x.Length0, x.Length1, g.rows, g.cols));
    var m := Max(s);
    forall p, q | 0 <= p < g.height && 0 <= q < g.width
      ensures WindowAt(x, g, n, c, k, t, p, q) <= m
    {
      assert s[Flatten2(p, q, g.height, g.width)] == WindowAt(x, g, n, c, k, t, p, q);
    }
    var col :| 0 <= col < |s| && s[col] == m;
    Flatten2Encode(col, g.height, g.width);
    assert WindowAt(x, g, n, c, k, t, Outer2(col, g.width), Inner2(col, g.width)) == m;
  }

  /**
    `max_pool_forward_naive`: out has shape (N, C, Hs, Ws), out[n, c, k, t] is
    the maximum of row n*C*Hs*Ws + c*Hs*Ws + k*Ws + t of the returned x_col, and
    that is the maximum of window x[n, c, k*ps : k*ps+ph, t*ps : t*ps+pw].
    */
  method MaxPoolForwardNaive(x: array4<real>, ph: nat, pw: nat, ps: nat) returns (out: array4<real>, xcol: array2<real>)
    requires ps > 0 && 0 < ph <= x.Length2 && 0 < pw <= x.Length3 && x.Length1 > 0
    ensures var g := PoolGeometry(x.Length2, x.Length3, ph, pw, ps);
      && IsPoolColumns(xcol, x, g)
      && out.Length0 == x.Length0 && out.Length1 == x.Length1 && out.Length2 == g.rows && out.Length3 == g.cols
      && (forall n, c, k, t | 0 <= n < out.Length0 && 0 <= c < out.Length1 && 0 <= k < out.Length2 && 0 <= t < out.Length3 ::
            out[n, c, k, t] == Max(PoolRow(xcol, Flatten4(n, c, k, t, x.Length0, x.Length1, g.rows, g.cols))))
      && (forall n, c, k, t | 0 <= n < out.Length0 && 0 <= c < out.Length1 && 0 <= k < out.Length2 && 0 <= t < out.Length3 ::
            IsWindowMax(out[n, c, k, t], x, g, n, c, k, t))
  {
    var g := PoolGeometry(x.Length2, x.Length3, ph, pw, ps);
    var N, C := x.Length0, x.Length1;
    xcol := GatherWindows(x, g);
    out := new real[N, C, g.rows, g.cols]((n: nat, c: nat, k: nat, t: nat)
      requires n < N && c < C && k < g.rows && t < g.cols reads xcol =>
      Max(PoolRow(xcol, Flatten4(n, c, k, t, N, C, g.rows, g.cols))));
    forall n, c, k, t | 0 <= n < N && 0 <= c < C && 0 <= k < g.rows && 0 <= t < g.cols
      ensures IsWindowMax(out[n, c, k, t], x, g, n, c, k, t)
    {
      RowMaxIsWindowMax(xcol, x, g, n, c, k, t);
    }
  }
}
