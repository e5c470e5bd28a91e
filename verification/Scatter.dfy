/**
  The scatter (col2im) half of `conv_backward_naive`: every column of dx_col is
  reshaped to (C, HH, WW) and added into the window of the padded gradient
  buffer it came from; overlapping windows accumulate.
  */
module Scatter {
  import opened Index
  import opened Sums
  import opened Geometry
  import opened Slices

  /** dx_col has one row per (channel, offset, offset) and one column per (image, window). */
  predicate ColumnShape(dxcol: array2<real>, g: Sliding, N: nat, C: nat)
    reads dxcol
  {
    && g.height > 0 && g.width > 0 && g.rows > 0 && g.cols > 0
    && dxcol.Length0 == C * g.height * g.width
    && dxcol.Length1 == N * g.rows * g.cols
  }

  /**
    What window (j, k) of image n adds at position (r, s) of channel c: the
    entry of its column at offset (r - j*stride, s - k*stride) when the window
    covers (r, s), and nothing otherwise.
    */
  function ScatterTerm(dxcol: array2<real>, g: Sliding, N: nat, C: nat, n: nat, c: nat, r: nat, s: nat, j: nat, k: nat): real
    reads dxcol
    requires ColumnShape(dxcol, g, N, C) && n < N && c < C && j < g.rows && k < g.cols
  {
    if Covers(j, g.stride, g.height, r) && Covers(k, g.stride, g.width, s)
    then dxcol[Flatten3(c, r - j * g.stride, s - k * g.stride, C, g.height, g.width), Flatten3(n, j, k, N, g.rows, g.cols)]
    else 0.0
  }

  /** What windows (j, 0), ..., (j, k - 1) of image n, added in the loop's order, add at (c, r, s). */
  function RowScatter(dxcol: array2<real>, g: Sliding, N: nat, C: nat, n: nat, c: nat, r: nat, s: nat, j: nat, k: nat): real
    reads dxcol
    requires ColumnShape(dxcol, g, N, C) && n < N && c < C && j < g.rows && k <= g.cols
  {
    if k == 0 then 0.0
    else RowScatter(dxcol, g, N, C, n, c, r, s, j, k - 1) + ScatterTerm(dxcol, g, N, C, n, c, r, s, j, k - 1)
  }

  /** What all windows in the first j rows of window positions of image n add at (c, r, s). */
  function ScatterRows(dxcol: array2<real>, g: Sliding, N: nat, C: nat, n: nat, c: nat, r: nat, s: nat, j: nat): real
    reads dxcol
    requires ColumnShape(dxcol, g, N, C) && n < N && c < C && j <= g.rows
  {
    if j == 0 then 0.0
    else ScatterRows(dxcol, g, N, C, n, c, r, s, j - 1) + RowScatter(dxcol, g, N, C, n, c, r, s, j - 1, g.cols)
  }

  /** Entry (n, c, r, s) of the finished dx_pad: the sum, over all windows of image n, of what each adds there. */
  function ScatterSum(dxcol: array2<real>, g: Sliding, N: nat, C: nat, n: nat, c: nat, r: nat, s: nat): real
    reads dxcol
    requires ColumnShape(dxcol, g, N, C) && n < N && c < C
  {
    ScatterRows(dxcol, g, N, C, n, c, r, s, g.rows)
  }

  /** A position that no window covers receives nothing: it keeps the zero of np.zeros. */
  lemma {:induction false} UncoveredStaysZero(dxcol: array2<real>, g: Sliding, N: nat, C: nat, n: nat, c: nat, r: nat, s: nat, j: nat)
    requires ColumnShape(dxcol, g, N, C) && n < N && c < C && j <= g.rows
    requires forall j', k' | 0 <= j' < g.rows && 0 <= k' < g.cols ::
      !(Covers(j', g.stride, g.height, r) && Covers(k', g.stride, g.width, s))
    ensures ScatterRows(dxcol, g, N, C, n, c, r, s, j) == 0.0
  {
    if j > 0 {
      UncoveredStaysZero(dxcol, g, N, C, n, c, r, s, j - 1);
      UncoveredRowZero(dxcol, g, N, C, n, c, r, s, j - 1, g.cols);
    }
  }

  /** Along one row of window positions, a position no window covers receives nothing. */
  lemma {:induction false} UncoveredRowZero(dxcol: array2<real>, g: Sliding, N: nat, C: nat, n: nat, c: nat, r: nat, s: nat, j: nat, k: nat)
    requires ColumnShape(dxcol, g, N, C) && n < N && c < C && j < g.rows && k <= g.cols
    requires forall k' | 0 <= k' < g.cols :: !(Covers(j, g.stride, g.height, r) && Covers(k', g.stride, g.width, s))
    ensures RowScatter(dxcol, g, N, C, n, c, r, s, j, k) == 0.0
  {
    if k > 0 {
      UncoveredRowZero(dxcol, g, N, C, n, c, r, s, j, k - 1);
    }
  }

  /**
    With windows that do not overlap (stride at least the window extent), a
    position covered by window (j, k) receives exactly that window's entry.
    */
  lemma {:induction false} DisjointWindowsScatterOnce(dxcol: array2<real>, g: Sliding, N: nat, C: nat,
                                                      n: nat, c: nat, r: nat, s: nat, j: nat, k: nat, rows: nat)
    requires ColumnShape(dxcol, g, N, C) && n < N && c < C && j < g.rows && k < g.cols && rows <= g.rows
    requires g.stride >= g.height && g.stride >= g.width
    requires Covers(j, g.stride, g.height, r) && Covers(k, g.stride, g.width, s)
    ensures ScatterRows(dxcol, g, N, C, n, c, r, s, rows)
         == if j < rows then ScatterTerm(dxcol, g, N, C, n, c, r, s, j, k) else 0.0
  {
    if rows > 0 {
      DisjointWindowsScatterOnce(dxcol, g, N, C, n, c, r, s, j, k, rows - 1);
      DisjointRowScatter(dxcol, g, N, C, n, c, r, s, j, k, rows - 1, g.cols);
    }
  }

  /** Along row j' of window positions, only window (j, k) adds anything at a position it covers. */
  lemma {:induction false} DisjointRowScatter(dxcol: array2<real>, g: Sliding, N: nat, C: nat,
                                              n: nat, c: nat, r: nat, s: nat, j: nat, k: nat, j': nat, cols: nat)
    requires ColumnShape(dxcol, g, N, C) && n < N && c < C && j < g.rows && k < g.cols && j' < g.rows && cols <= g.cols
    requires g.stride >= g.height && g.stride >= g.width
    requires Covers(j, g.stride, g.height, r) && Covers(k, g.stride, g.width, s)
    ensures RowScatter(dxcol, g, N, C, n, c, r, s, j', cols)
         == if j' == j && k < cols then ScatterTerm(dxcol, g, N, C, n, c, r, s, j, k) else 0.0
  {
    if cols > 0 {
      DisjointRowScatter(dxcol, g, N, C, n, c, r, s, j, k, j', cols - 1);
      if (j', cols - 1) != (j, k) {
        OtherWindowAddsNothing(dxcol, g, N, C, n, c, r, s, j, k, j', cols - 1);
      }
    }
  }

  /** With disjoint windows, no window other than the one covering (r, s) adds anything there. */
  lemma OtherWindowAddsNothing(dxcol: array2<real>, g: Sliding, N: nat, C: nat,
                               n: nat, c: nat, r: nat, s: nat, j: nat, k: nat, j': nat, k': nat)
    requires ColumnShape(dxcol, g, N, C) && n < N && c < C && j' < g.rows && k' < g.cols
    requires g.stride >= g.height && g.stride >= g.width
    requires Covers(j, g.stride, g.height, r) && Covers(k, g.stride, g.width, s) && (j', k') != (j, k)
    ensures ScatterTerm(dxcol, g, N, C, n, c, r, s, j', k') == 0.0
  {
    if j' != j {
      OnlyOneCover(j, j', g.stride, g.height, r);
    } else {
      OnlyOneCover(k, k', g.stride, g.width, s);
    }
  }

  /** Channel c of column col of dx_col, reshaped to HH x WW. */
  function ChannelBlock(dxcol: array2<real>, g: Sliding, N: nat, C: nat, col: nat, c: nat): (b: seq<seq<real>>)
    reads dxcol
    requires ColumnShape(dxcol, g, N, C) && col < dxcol.Length1 && c < C
    ensures |b| == g.height
    ensures forall p | 0 <= p < g.height :: |b[p]| == g.width
    ensures forall p, q | 0 <= p < g.height && 0 <= q < g.width :: b[p][q] == dxcol[Flatten3(c, p, q, C, g.height, g.width), col]
  {
    seq(g.height, p requires 0 <= p < g.height reads dxcol =>
      seq(g.width, q requires 0 <= q < g.width reads dxcol => dxcol[Flatten3(c, p, q, C, g.height, g.width), col]))
  }

  /** Placed at window (j, k), channel c of column (i, j, k) adds exactly that window's scatter term. */
  lemma PlacedIsScatterTerm(dxcol: array2<real>, g: Sliding, N: nat, C: nat, i: nat, j: nat, k: nat, c: nat, r: nat, s: nat)
    requires ColumnShape(dxcol, g, N, C) && i < N && j < g.rows && k < g.cols && c < C
    ensures Flatten3(i, j, k, N, g.rows, g.cols) < dxcol.Length1
    ensures Placed(ChannelBlock(dxcol, g, N, C, Flatten3(i, j, k, N, g.rows, g.cols), c), g.width, j * g.stride, k * g.stride, r, s)
         == ScatterTerm(dxcol, g, N, C, i, c, r, s, j, k)
  {
  }

  /** `dx_pad[i, c, j*s:j*s+HH, k*s:k*s+WW] += dx_col[c*HH*WW : (c+1)*HH*WW, i*Hs*Ws + j*Ws + k].reshape(HH, WW)`. */
  method AddWindowChannel(dxpad: array4<real>, dxcol: array2<real>, g: Sliding, N: nat, C: nat, i: nat, j: nat, k: nat, c: nat)
    requires ColumnShape(dxcol, g, N, C) && dxpad.Length0 == N && dxpad.Length1 == C
    requires g.Inside(dxpad.Length2, dxpad.Length3)
    requires i < N && j < g.rows && k < g.cols && c < C
    modifies dxpad
    ensures forall n, c', r, s | 0 <= n < N && 0 <= c' < C && 0 <= r < dxpad.Length2 && 0 <= s < dxpad.Length3 ::
      dxpad[n, c', r, s] == old(dxpad[n, c', r, s]) + if n == i && c' == c then ScatterTerm(dxcol, g, N, C, n, c', r, s, j, k) else 0.0
  {
    var b := ChannelBlock(dxcol, g, N, C, Flatten3(i, j, k, N, g.rows, g.cols), c);
    WindowInside(j, g.rows, g.stride, g.height, dxpad.Length2, g.height - 1);
    WindowInside(k, g.cols, g.stride, g.width, dxpad.Length3, g.width - 1);
    AddBlock(dxpad, i, c, j * g.stride, k * g.stride, b, g.width);
    forall r, s | 0 <= r < dxpad.Length2 && 0 <= s < dxpad.Length3
      ensures Placed(b, g.width, j * g.stride, k * g.stride, r, s) == ScatterTerm(dxcol, g, N, C, i, c, r, s, j, k)
    {
      PlacedIsScatterTerm(dxcol, g, N, C, i, j, k, c, r, s);
    }
  }

  /** `dx_pad[i, :, j*s:j*s+HH, k*s:k*s+WW] += dx_col[:, i*Hs*Ws + j*Ws + k].reshape(C, HH, WW)`. */
  method AddWindow(dxpad: array4<real>, dxcol: array2<real>, g: Sliding, N: nat, C: nat, i: nat, j: nat, k: nat)
    requires ColumnShape(dxcol, g, N, C) && dxpad.Length0 == N && dxpad.Length1 == C
    requires g.Inside(dxpad.Length2, dxpad.Length3)
    requires i < N && j < g.rows && k < g.cols
    modifies dxpad
    ensures forall n, c, r, s | 0 <= n < N && 0 <= c < C && 0 <= r < dxpad.Length2 && 0 <= s < dxpad.Length3 ::
      dxpad[n, c, r, s] == old(dxpad[n, c, r, s]) + if n == i then ScatterTerm(dxcol, g, N, C, n, c, r, s, j, k) else 0.0
  {
    for c := 0 to C
      invariant forall n, c', r, s | 0 <= n < N && 0 <= c' < C && 0 <= r < dxpad.Length2 && 0 <= s < dxpad.Length3 ::
        dxpad[n, c', r, s] == old(dxpad[n, c', r, s]) + if n == i && c' < c then ScatterTerm(dxcol, g, N, C, n, c', r, s, j, k) else 0.0
    {
      AddWindowChannel(dxpad, dxcol, g, N, C, i, j, k, c);
    }
  }

  /** The (j, k) loops of the scatter for image i: add every window of image i, in row-major order. */
  method ScatterImage(dxpad: array4<real>, dxcol: array2<real>, g: Sliding, N: nat, C: nat, i: nat)
    requires ColumnShape(dxcol, g, N, C) && dxpad.Length0 == N && dxpad.Length1 == C
    requires g.Inside(dxpad.Length2, dxpad.Length3) && i < N
    modifies dxpad
    ensures forall n, c, r, s | 0 <= n < N && 0 <= c < C && 0 <= r < dxpad.Length2 && 0 <= s < dxpad.Length3 ::
      dxpad[n, c, r, s] == old(dxpad[n, c, r, s]) + if n == i then ScatterSum(dxcol, g, N, C, n, c, r, s) else 0.0
  {
    for j := 0 to g.rows
      invariant forall n, c, r, s | 0 <= n < N && 0 <= c < C && 0 <= r < dxpad.Length2 && 0 <= s < dxpad.Length3 ::
        dxpad[n, c, r, s] == old(dxpad[n, c, r, s]) + if n == i then ScatterRows(dxcol, g, N, C, n, c, r, s, j) else 0.0
    {
      for k := 0 to g.cols
        invariant forall n, c, r, s | 0 <= n < N && 0 <= c < C && 0 <= r < dxpad.Length2 && 0 <= s < dxpad.Length3 ::
          dxpad[n, c, r, s] == old(dxpad[n, c, r, s]) +
            if n == i then ScatterRows(dxcol, g, N, C, n, c, r, s, j) + RowScatter(dxcol, g, N, C, n, c, r, s, j, k) else 0.0
      {
        AddWindow(dxpad, dxcol, g, N, C, i, j, k);
      }
    }
  }

  /**
    The scatter loop: starting from zeros, add every column of dx_col into its
    window.  Entry (n, c, r, s) ends as the sum over all windows of image n of
    what each adds at (c, r, s).
    */
  method Col2Im(dxcol: array2<real>, g: Sliding, N: nat, C: nat, extentH: nat, extentW: nat) returns (dxpad: array4<real>)
    requires ColumnShape(dxcol, g, N, C) && g.Inside(extentH, extentW)
    ensures dxpad.Length0 == N && dxpad.Length1 == C && dxpad.Length2 == extentH && dxpad.Length3 == extentW
    ensures forall n, c, r, s | 0 <= n < N && 0 <= c < C && 0 <= r < extentH && 0 <= s < extentW ::
      dxpad[n, c, r, s] == ScatterSum(dxcol, g, N, C, n, c, r, s)
  {
    dxpad := new real[N, C, extentH, extentW]((n, c, r, s) => 0.0);
    for i := 0 to N
      invariant forall n, c, r, s | 0 <= n < N && 0 <= c < C && 0 <= r < extentH && 0 <= s < extentW ::
        dxpad[n, c, r, s] == if n < i then ScatterSum(dxcol, g, N, C, n, c, r, s) else 0.0
    {
      ScatterImage(dxpad, dxcol, g, N, C, i);
    }
  }
}
