/**
  `max_pool_backward_naive`: route the upstream gradient of every window to
  the first position of the window that attains its maximum (np.argmax on
  the rows of x_col), then write the routed rows back into the windows of dx.
  The source writes them with `=`, so where windows overlap the last window
  overwrites the others; the corrected pass adds them with `+=`.
  */
module PoolBackward {
  import opened Index
  import opened Geometry
  import opened Extrema
  import opened PoolForward
  import opened Slices

  /**
    Entry r of `dout.reshape(N*C*Hs*Ws)`: position r = n*C*Hs*Ws + c*Hs*Ws + k*Ws + t
    holds dout[n, c, k, t].
    */
  function DoutFlat(dout: array4<real>, r: nat): real
    reads dout
    requires dout.Length1 > 0 && dout.Length2 > 0 && dout.Length3 > 0
    requires r < dout.Length0 * dout.Length1 * dout.Length2 * dout.Length3
  {
    Flatten4Encode(r, dout.Length0, dout.Length1, dout.Length2, dout.Length3);
    var plane := Outer3(r, dout.Length2, dout.Length3);
    dout[Outer2(plane, dout.Length1), Inner2(plane, dout.Length1), Mid3(r, dout.Length2, dout.Length3), Inner3(r, dout.Length3)]
  }

  /** Position n*C*Hs*Ws + c*Hs*Ws + k*Ws + t of the flattened dout holds dout[n, c, k, t]. */
  lemma DoutFlatAt(dout: array4<real>, n: nat, c: nat, k: nat, t: nat)
    requires n < dout.Length0 && c < dout.Length1 && k < dout.Length2 && t < dout.Length3
    ensures DoutFlat(dout, Flatten4(n, c, k, t, dout.Length0, dout.Length1, dout.Length2, dout.Length3)) == dout[n, c, k, t]
  {
    Flatten4Decode(n, c, k, t, dout.Length0, dout.Length1, dout.Length2, dout.Length3);
  }

  /**
    Entry (r, col) of dx_col after `dx_col[range(rows), x_idx_max] = dout_flat`:
    the upstream gradient of window r at the first maximum of row r of x_col,
    zero elsewhere.
    */
  function RoutedGrad(xcol: array2<real>, dout: array4<real>, r: nat, col: nat): (v: real)
    reads xcol, dout
    requires xcol.Length1 > 0 && r < xcol.Length0
    requires dout.Length1 > 0 && dout.Length2 > 0 && dout.Length3 > 0
    requires xcol.Length0 == dout.Length0 * dout.Length1 * dout.Length2 * dout.Length3
    ensures IsFirstMax(PoolRow(xcol, r), col) ==> v == DoutFlat(dout, r)
    ensures !IsFirstMax(PoolRow(xcol, r), col) ==> v == 0.0
  {
    FirstMaxIsArgMax(PoolRow(xcol, r), col);
    if col == ArgMax(PoolRow(xcol, r)) then DoutFlat(dout, r) else 0.0
  }


  /** dout has the shape of the pooled output: one entry per (image, channel, window). */
  predicate DoutShape(dout: array4<real>, g: Sliding, N: nat, C: nat)
    reads dout
  {
    dout.Length0 == N && dout.Length1 == C && dout.Length2 == g.rows && dout.Length3 == g.cols
  }

  /**
    `x_idx_max = np.argmax(x_col, axis=1)`, then dx_col = zeros with
    `dx_col[range(rows), x_idx_max] = dout.reshape(...)`: in each row only the
    first maximum of the window receives the window's upstream gradient.
    */
  method RouteGradient(xcol: array2<real>, dout: array4<real>, g: Sliding, N: nat, C: nat) returns (dxcol: array2<real>)
    requires PoolColumnShape(xcol, g, N, C) && DoutShape(dout, g, N, C) && C > 0
    ensures dxcol.Length0 == xcol.Length0 && dxcol.Length1 == xcol.Length1
    ensures forall r, col | 0 <= r < dxcol.Length0 && 0 <= col < dxcol.Length1 :: dxcol[r, col] == RoutedGrad(xcol, dout, r, col)
  {
    assert xcol.Length1 > 0 by { MulAtLeast(g.height, g.width); }
    dxcol := new real[xcol.Length0, xcol.Length1]((r: nat, col: nat)
      requires r < xcol.Length0 && col < xcol.Length1 reads xcol, dout => RoutedGrad(xcol, dout, r, col));
  }

  /**
    In the row of window (k, t) of plane (n, c), the routed gradient is
    dout[n, c, k, t] at the first maximum of the window and zero at every other
    offset.  With x_col the window matrix of x, that first maximum is the first
    offset (p, q), in row-major order, at which the window attains its maximum.
    */
  lemma RoutedToFirstMax(xcol: array2<real>, x: array4<real>, dout: array4<real>, g: Sliding,
                         n: nat, c: nat, k: nat, t: nat, p: nat, q: nat)
    requires IsPoolColumns(xcol, x, g) && DoutShape(dout, g, x.Length0, x.Length1)
    requires n < x.Length0 && c < x.Length1 && k < g.rows && t < g.cols && p < g.height && q < g.width
    ensures var r := Flatten4(n, c, k, t, x.Length0, x.Length1, g.rows, g.cols);
      RoutedGrad(xcol, dout, r, Flatten2(p, q, g.height, g.width))
      == if IsFirstWindowMax(x, g, n, c, k, t, p, q) then dout[n, c, k, t] else 0.0
  {
    var r := Flatten4(n, c, k, t, x.Length0, x.Length1, g.rows, g.cols);
    var s := PoolRow(xcol, r);
    var col := Flatten2(p, q, g.height, g.width);
    DoutFlatAt(dout, n, c, k, t);
    assert s[col] == WindowAt(x, g, n, c, k, t, p, q);
    if IsFirstWindowMax(x, g, n, c, k, t, p, q) {
      forall i | 0 <= i < col
        ensures s[i] < s[col]
      {
        Flatten2Encode(i, g.height, g.width);
        var p', q' := Outer2(i, g.width), Inner2(i, g.width);
        assert s[i] == WindowAt(x, g, n, c, k, t, p', q');
      }
      forall i | 0 <= i < |s|
        ensures s[i] <= s[col]
      {
        Flatten2Encode(i, g.height, g.width);
        var p', q' := Outer2(i, g.width), Inner2(i, g.width);
        assert s[i] == WindowAt(x, g, n, c, k, t, p', q');
      }
      ArgMaxUnique(s, col);
    } else {
      ArgMaxIsFirstWindowMax(xcol, x, g, n, c, k, t, p, q);
    }
  }

  /** When the first argmax of a window's row sits at offset (p, q), that offset is the window's first maximum. */
  lemma ArgMaxIsFirstWindowMax(xcol: array2<real>, x: array4<real>, g: Sliding,
                               n: nat, c: nat, k: nat, t: nat, p: nat, q: nat)
    requires IsPoolColumns(xcol, x, g)
    requires n < x.Length0 && c < x.Length1 && k < g.rows && t < g.cols && p < g.height && q < g.width
    ensures ArgMax(PoolRow(xcol, Flatten4(n, c, k, t, x.Length0, x.Length1, g.rows, g.cols))) == Flatten2(p, q, g.height, g.width)
      ==> IsFirstWindowMax(x, g, n, c, k, t, p, q)
  {
    var s := PoolRow(xcol, Flatten4(n, c, k, t, x.Length0, x.Length1, g.rows, g.cols));
    var col := Flatten2(p, q, g.height, g.width);
    if ArgMax(s) == col {
      assert s[col] == WindowAt(x, g, n, c, k, t, p, q);
      forall p', q' | 0 <= p' < g.height && 0 <= q' < g.width
        ensures WindowAt(x, g, n, c, k, t, p', q') <= WindowAt(x, g, n, c, k, t, p, q)
      {
        assert s[Flatten2(p', q', g.height, g.width)] == WindowAt(x, g, n, c, k, t, p', q');
      }
      forall p', q' | 0 <= p' < g.height && 0 <= q' < g.width && Flatten2(p', q', g.height, g.width) < col
        ensures WindowAt(x, g, n, c, k, t, p', q') < WindowAt(x, g, n, c, k, t, p, q)
      {
        assert s[Flatten2(p', q', g.height, g.width)] == WindowAt(x, g, n, c, k, t, p', q');
      }
    }
  }

  /**
    Offset (p, q) is the first maximum of window (k, t) of plane (n, c): no
    entry of the window exceeds it, and every entry before it in row-major
    order is strictly smaller.
    */
  ghost predicate IsFirstWindowMax(x: array4<real>, g: Sliding, n: nat, c: nat, k: nat, t: nat, p: nat, q: nat)
    reads x
    requires g.Inside(x.Length2, x.Length3)
    requires n < x.Length0 && c < x.Length1 && k < g.rows && t < g.cols && p < g.height && q < g.width
  {
    && (forall p', q' | 0 <= p' < g.height && 0 <= q' < g.width ::
          WindowAt(x, g, n, c, k, t, p', q') <= WindowAt(x, g, n, c, k, t, p, q))
    && (forall p', q' | 0 <= p' < g.height && 0 <= q' < g.width && Flatten2(p', q', g.height, g.width) < Flatten2(p, q, g.height, g.width) ::
          WindowAt(x, g, n, c, k, t, p', q') < WindowAt(x, g, n, c, k, t, p, q))
  }

  // ---- writing the routed rows back into the windows ----

  /** Window (k, t) covers position (r, s) of its plane. */
  predicate WindowCovers(g: Sliding, k: nat, t: nat, r: nat, s: nat)
  {
    Covers(k, g.stride, g.height, r) && Covers(t, g.stride, g.width, s)
  }

  /**
    What window (k, t) of plane (n, c) carries to position (r, s): the entry of
    its row of dx_col at offset (r - k*ps, s - t*ps) when it covers (r, s),
    nothing otherwise.
    */
  function PoolTerm(dxcol: array2<real>, g: Sliding, N: nat, C: nat, n: nat, c: nat, r: nat, s: nat, k: nat, t: nat): real
    reads dxcol
    requires PoolColumnShape(dxcol, g, N, C) && n < N && c < C && k < g.rows && t < g.cols
  {
    if WindowCovers(g, k, t, r, s)
    then dxcol[Flatten4(n, c, k, t, N, C, g.rows, g.cols), Flatten2(r - k * g.stride, s - t * g.stride, g.height, g.width)]
    else 0.0
  }

  /**
    Value at (r, s) after the windows (k, 0), ..., (k, t - 1) are written with
    `=` in the loop's order, starting from `before`: the last of them that
    covers (r, s) decides it.
    */
  function RowWritten(dxcol: array2<real>, g: Sliding, N: nat, C: nat, n: nat, c: nat, r: nat, s: nat,
                      k: nat, t: nat, before: real): real
    reads dxcol
    requires PoolColumnShape(dxcol, g, N, C) && n < N && c < C && k < g.rows && t <= g.cols
  {
    if t == 0 then before
    else if WindowCovers(g, k, t - 1, r, s) then PoolTerm(dxcol, g, N, C, n, c, r, s, k, t - 1)
    else RowWritten(dxcol, g, N, C, n, c, r, s, k, t - 1, before)
  }

  /** Value at (r, s) of plane (n, c), initially zero, after the windows of the first k window rows are written with `=`. */
  function RowsWritten(dxcol: array2<real>, g: Sliding, N: nat, C: nat, n: nat, c: nat, r: nat, s: nat, k: nat): real
    reads dxcol
    requires PoolColumnShape(dxcol, g, N, C) && n < N && c < C && k <= g.rows
  {
    if k == 0 then 0.0
    else RowWritten(dxcol, g, N, C, n, c, r, s, k - 1, g.cols, RowsWritten(dxcol, g, N, C, n, c, r, s, k - 1))
  }

  /** Entry (n, c, r, s) of dx as the source computes it: the last covering window in loop order wins. */
  function PoolWritten(dxcol: array2<real>, g: Sliding, N: nat, C: nat, n: nat, c: nat, r: nat, s: nat): real
    reads dxcol
    requires PoolColumnShape(dxcol, g, N, C) && n < N && c < C
  {
    RowsWritten(dxcol, g, N, C, n, c, r, s, g.rows)
  }

  /** What windows (k, 0), ..., (k, t - 1) add at (r, s) when written with `+=`. */
  function RowAdded(dxcol: array2<real>, g: Sliding, N: nat, C: nat, n: nat, c: nat, r: nat, s: nat, k: nat, t: nat): real
    reads dxcol
    requires PoolColumnShape(dxcol, g, N, C) && n < N && c < C && k < g.rows && t <= g.cols
  {
    if t == 0 then 0.0
    else RowAdded(dxcol, g, N, C, n, c, r, s, k, t - 1) + PoolTerm(dxcol, g, N, C, n, c, r, s, k, t - 1)
  }

  /** What the windows of the first k window rows add at (r, s) of plane (n, c). */
  function RowsAdded(dxcol: array2<real>, g: Sliding, N: nat, C: nat, n: nat, c: nat, r: nat, s: nat, k: nat): real
    reads dxcol
    requires PoolColumnShape(dxcol, g, N, C) && n < N && c < C && k <= g.rows
  {
    if k == 0 then 0.0
    else RowsAdded(dxcol, g, N, C, n, c, r, s, k - 1) + RowAdded(dxcol, g, N, C, n, c, r, s, k - 1, g.cols)
  }

  /** Entry (n, c, r, s) of the corrected dx: the sum of what every window of plane (n, c) carries there. */
  function PoolAdded(dxcol: array2<real>, g: Sliding, N: nat, C: nat, n: nat, c: nat, r: nat, s: nat): real
    reads dxcol
    requires PoolColumnShape(dxcol, g, N, C) && n < N && c < C
  {
    RowsAdded(dxcol, g, N, C, n, c, r, s, g.rows)
  }

  /** Row `row` of dx_col reshaped to ph x pw, as `dx_col[row, :].reshape(ph, pw)`. */
  function RowBlock(dxcol: array2<real>, g: Sliding, N: nat, C: nat, row: nat): (b: seq<seq<real>>)
    reads dxcol
    requires PoolColumnShape(dxcol, g, N, C) && row < dxcol.Length0
    ensures |b| == g.height && IsBlock(b, g.width)
    ensures forall p, q | 0 <= p < g.height && 0 <= q < g.width :: b[p][q] == dxcol[row, Flatten2(p, q, g.height, g.width)]
  {
    seq(g.height, p requires 0 <= p < g.height reads dxcol =>
      seq(g.width, q requires 0 <= q < g.width reads dxcol => dxcol[row, Flatten2(p, q, g.height, g.width)]))
  }

  /** Placed at window (k, t), the reshaped row of window (i, j, k, t) covers what the window covers and carries its term. */
  lemma PlacedIsPoolTerm(dxcol: array2<real>, g: Sliding, N: nat, C: nat, i: nat, j: nat, k: nat, t: nat, r: nat, s: nat)
    requires PoolColumnShape(dxcol, g, N, C) && i < N && j < C && k < g.rows && t < g.cols
    ensures Flatten4(i, j, k, t, N, C, g.rows, g.cols) < dxcol.Length0
    ensures var b := RowBlock(dxcol, g, N, C, Flatten4(i, j, k, t, N, C, g.rows, g.cols));
      && (Under(b, g.width, k * g.stride, t * g.stride, r, s) <==> WindowCovers(g, k, t, r, s))
      && Placed(b, g.width, k * g.stride, t * g.stride, r, s) == PoolTerm(dxcol, g, N, C, i, j, r, s, k, t)
  {
  }

  /** `dx[i, j, k*ps:k*ps+ph, t*ps:t*ps+pw] = dx_col[i*C*Hs*Ws + j*Hs*Ws + k*Ws + t, :].reshape(ph, pw)`. */
  method WriteWindow(dx: array4<real>, dxcol: array2<real>, g: Sliding, N: nat, C: nat, i: nat, j: nat, k: nat, t: nat)
    requires PoolColumnShape(dxcol, g, N, C) && dx.Length0 == N && dx.Length1 == C
    requires g.Inside(dx.Length2, dx.Length3)
    requires i < N && j < C && k < g.rows && t < g.cols
    modifies dx
    ensures forall n, c, r, s | 0 <= n < N && 0 <= c < C && 0 <= r < dx.Length2 && 0 <= s < dx.Length3 ::
      dx[n, c, r, s] == if n == i && c == j && WindowCovers(g, k, t, r, s) then PoolTerm(dxcol, g, N, C, n, c, r, s, k, t)
                        else old(dx[n, c, r, s])
  {
    var b := RowBlock(dxcol, g, N, C, Flatten4(i, j, k, t, N, C, g.rows, g.cols));
    WindowInside(k, g.rows, g.stride, g.height, dx.Length2, g.height - 1);
    WindowInside(t, g.cols, g.stride, g.width, dx.Length3, g.width - 1);
    WriteBlock(dx, i, j, k * g.stride, t * g.stride, b, g.width);
    forall r, s | 0 <= r < dx.Length2 && 0 <= s < dx.Length3
      ensures Under(b, g.width, k * g.stride, t * g.stride, r, s) <==> WindowCovers(g, k, t, r, s)
      ensures Placed(b, g.width, k * g.stride, t * g.stride, r, s) == PoolTerm(dxcol, g, N, C, i, j, r, s, k, t)
    {
      PlacedIsPoolTerm(dxcol, g, N, C, i, j, k, t, r, s);
    }
  }

  /** The (k, t) loops of the source for plane (i, j), which starts out zero. */
  method WritePlaneWindows(dx: array4<real>, dxcol: array2<real>, g: Sliding, N: nat, C: nat, i: nat, j: nat)
    requires PoolColumnShape(dxcol, g, N, C) && dx.Length0 == N && dx.Length1 == C
    requires g.Inside(dx.Length2, dx.Length3) && i < N && j < C
    requires forall r, s | 0 <= r < dx.Length2 && 0 <= s < dx.Length3 :: dx[i, j, r, s] == 0.0
    modifies dx
    ensures forall n, c, r, s | 0 <= n < N && 0 <= c < C && 0 <= r < dx.Length2 && 0 <= s < dx.Length3 ::
      dx[n, c, r, s] == if n == i && c == j then PoolWritten(dxcol, g, N, C, n, c, r, s) else old(dx[n, c, r, s])
  {
    for k := 0 to g.rows
      invariant forall n, c, r, s | 0 <= n < N && 0 <= c < C && 0 <= r < dx.Length2 && 0 <= s < dx.Length3 ::
        dx[n, c, r, s] == if n == i && c == j then RowsWritten(dxcol, g, N, C, n, c, r, s, k) else old(dx[n, c, r, s])
    {
      for t := 0 to g.cols
        invariant forall n, c, r, s | 0 <= n < N && 0 <= c < C && 0 <= r < dx.Length2 && 0 <= s < dx.Length3 ::
          dx[n, c, r, s] == if n == i && c == j then RowWritten(dxcol, g, N, C, n, c, r, s, k, t, RowsWritten(dxcol, g, N, C, n, c, r, s, k))
                            else old(dx[n, c, r, s])
      {
        WriteWindow(dx, dxcol, g, N, C, i, j, k, t);
      }
    }
  }

  /** `dx[i, j, k*ps:k*ps+ph, t*ps:t*ps+pw] += ...`: the corrected write of one window. */
  method AddWindow(dx: array4<real>, dxcol: array2<real>, g: Sliding, N: nat, C: nat, i: nat, j: nat, k: nat, t: nat)
    requires PoolColumnShape(dxcol, g, N, C) && dx.Length0 == N && dx.Length1 == C
    requires g.Inside(dx.Length2, dx.Length3)
    requires i < N && j < C && k < g.rows && t < g.cols
    modifies dx
    ensures forall n, c, r, s | 0 <= n < N && 0 <= c < C && 0 <= r < dx.Length2 && 0 <= s < dx.Length3 ::
      dx[n, c, r, s] == old(dx[n, c, r, s]) + if n == i && c == j then PoolTerm(dxcol, g, N, C, n, c, r, s, k, t) else 0.0
  {
    var b := RowBlock(dxcol, g, N, C, Flatten4(i, j, k, t, N, C, g.rows, g.cols));
    WindowInside(k, g.rows, g.stride, g.height, dx.Length2, g.height - 1);
    WindowInside(t, g.cols, g.stride, g.width, dx.Length3, g.width - 1);
    AddBlock(dx, i, j, k * g.stride, t * g.stride, b, g.width);
    forall r, s | 0 <= r < dx.Length2 && 0 <= s < dx.Length3
      ensures Placed(b, g.width, k * g.stride, t * g.stride, r, s) == PoolTerm(dxcol, g, N, C, i, j, r, s, k, t)
    {
      PlacedIsPoolTerm(dxcol, g, N, C, i, j, k, t, r, s);
    }
  }

  /** The (k, t) loops of the corrected pass for plane (i, j). */
  method AddPlaneWindows(dx: array4<real>, dxcol: array2<real>, g: Sliding, N: nat, C: nat, i: nat, j: nat)
    requires PoolColumnShape(dxcol, g, N, C) && dx.Length0 == N && dx.Length1 == C
    requires g.Inside(dx.Length2, dx.Length3) && i < N && j < C
    modifies dx
    ensures forall n, c, r, s | 0 <= n < N && 0 <= c < C && 0 <= r < dx.Length2 && 0 <= s < dx.Length3 ::
      dx[n, c, r, s] == old(dx[n, c, r, s]) + if n == i && c == j then PoolAdded(dxcol, g, N, C, n, c, r, s) else 0.0
  {
    for k := 0 to g.rows
      invariant forall n, c, r, s | 0 <= n < N && 0 <= c < C && 0 <= r < dx.Length2 && 0 <= s < dx.Length3 ::
        dx[n, c, r, s] == old(dx[n, c, r, s]) + if n == i && c == j then RowsAdded(dxcol, g, N, C, n, c, r, s, k) else 0.0
    {
      for t := 0 to g.cols
        invariant forall n, c, r, s | 0 <= n < N && 0 <= c < C && 0 <= r < dx.Length2 && 0 <= s < dx.Length3 ::
          dx[n, c, r, s] == old(dx[n, c, r, s]) +
            if n == i && c == j then RowsAdded(dxcol, g, N, C, n, c, r, s, k) + RowAdded(dxcol, g, N, C, n, c, r, s, k, t) else 0.0
      {
        AddWindow(dx, dxcol, g, N, C, i, j, k, t);
      }
    }
  }

  /** The (i, j) loops of the source: every plane of the zero-filled dx gets its windows written with `=`. */
  method WriteAllPlanes(dx: array4<real>, dxcol: array2<real>, g: Sliding, N: nat, C: nat)
    requires PoolColumnShape(dxcol, g, N, C) && dx.Length0 == N && dx.Length1 == C && g.Inside(dx.Length2, dx.Length3)
    requires forall n, c, r, s | 0 <= n < N && 0 <= c < C && 0 <= r < dx.Length2 && 0 <= s < dx.Length3 :: dx[n, c, r, s] == 0.0
    modifies dx
    ensures forall n, c, r, s | 0 <= n < N && 0 <= c < C && 0 <= r < dx.Length2 && 0 <= s < dx.Length3 ::
      dx[n, c, r, s] == PoolWritten(dxcol, g, N, C, n, c, r, s)
  {
    for i := 0 to N
      invariant forall n, c, r, s | 0 <= n < N && 0 <= c < C && 0 <= r < dx.Length2 && 0 <= s < dx.Length3 ::
        dx[n, c, r, s] == if n < i then PoolWritten(dxcol, g, N, C, n, c, r, s) else 0.0
    {
      for j := 0 to C
        invariant forall n, c, r, s | 0 <= n < N && 0 <= c < C && 0 <= r < dx.Length2 && 0 <= s < dx.Length3 ::
          dx[n, c, r, s] == if n < i || (n == i && c < j) then PoolWritten(dxcol, g, N, C, n, c, r, s) else 0.0
      {
        WritePlaneWindows(dx, dxcol, g, N, C, i, j);
      }
    }
  }

  /** The (i, j) loops of the corrected pass: every plane of the zero-filled dx gets its windows added. */
  method AddAllPlanes(dx: array4<real>, dxcol: array2<real>, g: Sliding, N: nat, C: nat)
    requires PoolColumnShape(dxcol, g, N, C) && dx.Length0 == N && dx.Length1 == C && g.Inside(dx.Length2, dx.Length3)
    requires forall n, c, r, s | 0 <= n < N && 0 <= c < C && 0 <= r < dx.Length2 && 0 <= s < dx.Length3 :: dx[n, c, r, s] == 0.0
    modifies dx
    ensures forall n, c, r, s | 0 <= n < N && 0 <= c < C && 0 <= r < dx.Length2 && 0 <= s < dx.Length3 ::
      dx[n, c, r, s] == PoolAdded(dxcol, g, N, C, n, c, r, s)
  {
    for i := 0 to N
      invariant forall n, c, r, s | 0 <= n < N && 0 <= c < C && 0 <= r < dx.Length2 && 0 <= s < dx.Length3 ::
        dx[n, c, r, s] == if n < i then PoolAdded(dxcol, g, N, C, n, c, r, s) else 0.0
    {
      for j := 0 to C
        invariant forall n, c, r, s | 0 <= n < N && 0 <= c < C && 0 <= r < dx.Length2 && 0 <= s < dx.Length3 ::
          dx[n, c, r, s] == if n < i || (n == i && c < j) then PoolAdded(dxcol, g, N, C, n, c, r, s) else 0.0
      {
        AddPlaneWindows(dx, dxcol, g, N, C, i, j);
      }
    }
  }

  // ---- the layer ----

  /**
    `max_pool_backward_naive` as written: route dout to the first maximum of
    each window, then write each window's routed row into dx with `=`.  Entry
    (n, c, r, s) of dx ends as what the last covering window in loop order
    carries there, and zero where no window reaches.  The routed dx_col is
    returned as well.
    */
  method MaxPoolBackwardNaive(dout: array4<real>, x: array4<real>, xcol: array2<real>, ph: nat, pw: nat, ps: nat)
    returns (dx: array4<real>, dxcol: array2<real>)
    requires ps > 0 && 0 < ph <= x.Length2 && 0 < pw <= x.Length3 && x.Length1 > 0
    requires PoolColumnShape(xcol, PoolGeometry(x.Length2, x.Length3, ph, pw, ps), x.Length0, x.Length1)
    requires DoutShape(dout, PoolGeometry(x.Length2, x.Length3, ph, pw, ps), x.Length0, x.Length1)
    ensures dxcol.Length0 == xcol.Length0 && dxcol.Length1 == xcol.Length1
    ensures forall r, col | 0 <= r < dxcol.Length0 && 0 <= col < dxcol.Length1 :: dxcol[r, col] == RoutedGrad(xcol, dout, r, col)
    ensures dx.Length0 == x.Length0 && dx.Length1 == x.Length1 && dx.Length2 == x.Length2 && dx.Length3 == x.Length3
    ensures var g := PoolGeometry(x.Length2, x.Length3, ph, pw, ps);
      forall n, c, r, s | 0 <= n < dx.Length0 && 0 <= c < dx.Length1 && 0 <= r < dx.Length2 && 0 <= s < dx.Length3 ::
        dx[n, c, r, s] == PoolWritten(dxcol, g, x.Length0, x.Length1, n, c, r, s)
  {
    var g := PoolGeometry(x.Length2, x.Length3, ph, pw, ps);
    dxcol := RouteGradient(xcol, dout, g, x.Length0, x.Length1);
    dx := new real[x.Length0, x.Length1, x.Length2, x.Length3]((n, c, r, s) => 0.0);
    WriteAllPlanes(dx, dxcol, g, x.Length0, x.Length1);
  }

  /**
    The corrected backward pass: the same routing, with every window's routed
    row added into dx (`+=`), so that entry (n, c, r, s) is the sum of what all
    windows of plane (n, c) carry there.
    */
  method MaxPoolBackward(dout: array4<real>, x: array4<real>, xcol: array2<real>, ph: nat, pw: nat, ps: nat)
    returns (dx: array4<real>, dxcol: array2<real>)
    requires ps > 0 && 0 < ph <= x.Length2 && 0 < pw <= x.Length3 && x.Length1 > 0
    requires PoolColumnShape(xcol, PoolGeometry(x.Length2, x.Length3, ph, pw, ps), x.Length0, x.Length1)
    requires DoutShape(dout, PoolGeometry(x.Length2, x.Length3, ph, pw, ps), x.Length0, x.Length1)
    ensures dxcol.Length0 == xcol.Length0 && dxcol.Length1 == xcol.Length1
    ensures forall r, col | 0 <= r < dxcol.Length0 && 0 <= col < dxcol.Length1 :: dxcol[r, col] == RoutedGrad(xcol, dout, r, col)
    ensures dx.Length0 == x.Length0 && dx.Length1 == x.Length1 && dx.Length2 == x.Length2 && dx.Length3 == x.Length3
    ensures var g := PoolGeometry(x.Length2, x.Length3, ph, pw, ps);
      forall n, c, r, s | 0 <= n < dx.Length0 && 0 <= c < dx.Length1 && 0 <= r < dx.Length2 && 0 <= s < dx.Length3 ::
        dx[n, c, r, s] == PoolAdded(dxcol, g, x.Length0, x.Length1, n, c, r, s)
  {
    var g := PoolGeometry(x.Length2, x.Length3, ph, pw, ps);
    dxcol := RouteGradient(xcol, dout, g, x.Length0, x.Length1);
    dx := new real[x.Length0, x.Length1, x.Length2, x.Length3]((n, c, r, s) => 0.0);
    AddAllPlanes(dx, dxcol, g, x.Length0, x.Length1);
  }

  // ---- properties ----

  /** No window reaches (r, s) of any plane. */
  predicate Uncovered(g: Sliding, r: nat, s: nat)
  {
    forall k, t | 0 <= k < g.rows && 0 <= t < g.cols :: !WindowCovers(g, k, t, r, s)
  }

  /** A position that no window reaches keeps the zero of np.zeros, in the source and in the corrected pass. */
  lemma {:induction false} UncoveredStaysZero(dxcol: array2<real>, g: Sliding, N: nat, C: nat, n: nat, c: nat, r: nat, s: nat, k: nat)
    requires PoolColumnShape(dxcol, g, N, C) && n < N && c < C && k <= g.rows && Uncovered(g, r, s)
    ensures RowsWritten(dxcol, g, N, C, n, c, r, s, k) == 0.0
    ensures RowsAdded(dxcol, g, N, C, n, c, r, s, k) == 0.0
  {
    if k > 0 {
      UncoveredStaysZero(dxcol, g, N, C, n, c, r, s, k - 1);
      UncoveredRow(dxcol, g, N, C, n, c, r, s, k - 1, g.cols, 0.0);
    }
  }

  /** Along a window row that does not reach (r, s), writing leaves the value and adding adds nothing. */
  lemma {:induction false} UncoveredRow(dxcol: array2<real>, g: Sliding, N: nat, C: nat, n: nat, c: nat, r: nat, s: nat,
                                        k: nat, t: nat, before: real)
    requires PoolColumnShape(dxcol, g, N, C) && n < N && c < C && k < g.rows && t <= g.cols
    requires forall t' | 0 <= t' < g.cols :: !WindowCovers(g, k, t', r, s)
    ensures RowWritten(dxcol, g, N, C, n, c, r, s, k, t, before) == before
    ensures RowAdded(dxcol, g, N, C, n, c, r, s, k, t) == 0.0
  {
    if t > 0 {
      UncoveredRow(dxcol, g, N, C, n, c, r, s, k, t - 1, before);
    }
  }

  /**
    With windows that do not overlap (stride at least the window extent), a
    position covered by window (k, t) ends holding exactly that window's entry,
    whether the windows are written with `=` or added with `+=`.
    */
  lemma {:induction false} DisjointWindowsAgree(dxcol: array2<real>, g: Sliding, N: nat, C: nat,
                                                n: nat, c: nat, r: nat, s: nat, k: nat, t: nat, rows: nat)
    requires PoolColumnShape(dxcol, g, N, C) && n < N && c < C && k < g.rows && t < g.cols && rows <= g.rows
    requires g.stride >= g.height && g.stride >= g.width && WindowCovers(g, k, t, r, s)
    ensures RowsWritten(dxcol, g, N, C, n, c, r, s, rows) == if k < rows then PoolTerm(dxcol, g, N, C, n, c, r, s, k, t) else 0.0
    ensures RowsAdded(dxcol, g, N, C, n, c, r, s, rows) == if k < rows then PoolTerm(dxcol, g, N, C, n, c, r, s, k, t) else 0.0
  {
    if rows > 0 {
      var before := RowsWritten(dxcol, g, N, C, n, c, r, s, rows - 1);
      DisjointWindowsAgree(dxcol, g, N, C, n, c, r, s, k, t, rows - 1);
      if rows - 1 == k {
        DisjointRow(dxcol, g, N, C, n, c, r, s, k, t, g.cols, before);
      } else {
        var k' := rows - 1;
        forall t' | 0 <= t' < g.cols
          ensures !WindowCovers(g, k', t', r, s)
        {
          OnlyOneCover(k, k', g.stride, g.height, r);
        }
        UncoveredRow(dxcol, g, N, C, n, c, r, s, k', g.cols, before);
      }
    }
  }

  /** Along the window row k of the covering window (k, t), only that window reaches (r, s). */
  lemma {:induction false} DisjointRow(dxcol: array2<real>, g: Sliding, N: nat, C: nat,
                                       n: nat, c: nat, r: nat, s: nat, k: nat, t: nat, cols: nat, before: real)
    requires PoolColumnShape(dxcol, g, N, C) && n < N && c < C && k < g.rows && t < g.cols && cols <= g.cols
    requires g.stride >= g.width && WindowCovers(g, k, t, r, s)
    ensures RowWritten(dxcol, g, N, C, n, c, r, s, k, cols, before)
         == if t < cols then PoolTerm(dxcol, g, N, C, n, c, r, s, k, t) else before
    ensures RowAdded(dxcol, g, N, C, n, c, r, s, k, cols)
         == if t < cols then PoolTerm(dxcol, g, N, C, n, c, r, s, k, t) else 0.0
  {
    if cols > 0 {
      DisjointRow(dxcol, g, N, C, n, c, r, s, k, t, cols - 1, before);
      if cols - 1 != t {
        OnlyOneCover(t, cols - 1, g.stride, g.width, s);
      }
    }
  }

  /**
    With non-overlapping windows the source's `=` and the corrected `+=` give
    the same dx, and a position covered by window (k, t) receives that window's
    upstream gradient exactly when it is the first maximum of the window, and
    zero otherwise.
    */
  lemma DisjointWindowsRouteOnce(xcol: array2<real>, x: array4<real>, dout: array4<real>, dxcol: array2<real>, g: Sliding,
                                 n: nat, c: nat, r: nat, s: nat, k: nat, t: nat)
    requires IsPoolColumns(xcol, x, g) && DoutShape(dout, g, x.Length0, x.Length1)
    requires dxcol.Length0 == xcol.Length0 && dxcol.Length1 == xcol.Length1
    requires forall r', col | 0 <= r' < dxcol.Length0 && 0 <= col < dxcol.Length1 :: dxcol[r', col] == RoutedGrad(xcol, dout, r', col)
    requires n < x.Length0 && c < x.Length1 && k < g.rows && t < g.cols
    requires g.stride >= g.height && g.stride >= g.width && WindowCovers(g, k, t, r, s)
    ensures PoolWritten(dxcol, g, x.Length0, x.Length1, n, c, r, s) == PoolAdded(dxcol, g, x.Length0, x.Length1, n, c, r, s)
    ensures PoolAdded(dxcol, g, x.Length0, x.Length1, n, c, r, s)
         == if IsFirstWindowMax(x, g, n, c, k, t, r - k * g.stride, s - t * g.stride) then dout[n, c, k, t] else 0.0
  {
    var p, q := r - k * g.stride, s - t * g.stride;
    DisjointWindowsAgree(dxcol, g, x.Length0, x.Length1, n, c, r, s, k, t, g.rows);
    var row := Flatten4(n, c, k, t, x.Length0, x.Length1, g.rows, g.cols);
    var col := Flatten2(p, q, g.height, g.width);
    assert PoolTerm(dxcol, g, x.Length0, x.Length1, n, c, r, s, k, t) == dxcol[row, col];
    assert dxcol[row, col] == RoutedGrad(xcol, dout, row, col);
    RoutedToFirstMax(xcol, x, dout, g, n, c, k, t, p, q);
  }

  /**
    Overlapping windows lose gradient in the source.  When the two windows of a
    one-row, two-column window grid both cover (r, s) (a stride smaller than
    the window), the source leaves only what the second window routes there,
    while the gradient of the layer is the sum of both.  For the row
    x = [0, 2, 1] pooled with 1 x 2 windows at stride 1 and dout = [1, 1],
    both windows have their first maximum at the middle entry, so both route 1
    there (RoutedToFirstMax), and the source writes 1 where the sum is 2.
    */
  lemma OverlappingWindowsLoseGradient(dxcol: array2<real>, g: Sliding, N: nat, C: nat, n: nat, c: nat, r: nat, s: nat)
    requires PoolColumnShape(dxcol, g, N, C) && n < N && c < C
    requires g.rows == 1 && g.cols == 2 && WindowCovers(g, 0, 0, r, s) && WindowCovers(g, 0, 1, r, s)
    ensures PoolWritten(dxcol, g, N, C, n, c, r, s) == PoolTerm(dxcol, g, N, C, n, c, r, s, 0, 1)
    ensures PoolAdded(dxcol, g, N, C, n, c, r, s) == PoolTerm(dxcol, g, N, C, n, c, r, s, 0, 0) + PoolTerm(dxcol, g, N, C, n, c, r, s, 0, 1)
    ensures PoolTerm(dxcol, g, N, C, n, c, r, s, 0, 0) != 0.0 ==> PoolWritten(dxcol, g, N, C, n, c, r, s) != PoolAdded(dxcol, g, N, C, n, c, r, s)
  {
    assert RowsAdded(dxcol, g, N, C, n, c, r, s, 0) == 0.0;
    assert RowAdded(dxcol, g, N, C, n, c, r, s, 0, 1) == PoolTerm(dxcol, g, N, C, n, c, r, s, 0, 0);
  }
}
