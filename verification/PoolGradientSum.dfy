/**
  Gradient conservation in max-pooling backward: every window routes its
  upstream gradient to a single position of itself, so when the routed rows
  are added into dx (`+=`) each plane of dx sums to the same plane of dout,
  whatever the stride.  When windows do not overlap, the source's `=` gives
  the same dx, and so the same sums.
  */
module PoolGradientSum {
  import opened Index
  import opened Sums
  import opened Geometry
  import opened Slices
  import opened Extrema
  import opened PoolForward
  import opened PoolBackward

  /** Plane (n, c) of a 4-D array as a matrix, `a[n, c]`. */
  function PlaneOf(a: array4<real>, n: nat, c: nat): (m: seq<seq<real>>)
    reads a
    requires n < a.Length0 && c < a.Length1
    ensures |m| == a.Length2 && IsBlock(m, a.Length3)
    ensures forall r, s | 0 <= r < a.Length2 && 0 <= s < a.Length3 :: m[r][s] == a[n, c, r, s]
  {
    seq(a.Length2, r requires 0 <= r < a.Length2 reads a =>
      seq(a.Length3, s requires 0 <= s < a.Length3 reads a => a[n, c, r, s]))
  }

  /** `a[n, c].sum()`. */
  function PlaneSum(a: array4<real>, n: nat, c: nat): real
    reads a
    requires n < a.Length0 && c < a.Length1
  {
    Sum2(PlaneOf(a, n, c))
  }

  /** What window (k, t) of plane (n, c) carries to each position of an H x W plane. */
  function TermPlane(dxcol: array2<real>, g: Sliding, N: nat, C: nat, n: nat, c: nat, H: nat, W: nat, k: nat, t: nat)
    : (m: seq<seq<real>>)
    reads dxcol
    requires PoolColumnShape(dxcol, g, N, C) && n < N && c < C && k < g.rows && t < g.cols
    ensures |m| == H && IsBlock(m, W)
    ensures forall r, s | 0 <= r < H && 0 <= s < W :: m[r][s] == PoolTerm(dxcol, g, N, C, n, c, r, s, k, t)
  {
    seq(H, r requires 0 <= r < H reads dxcol =>
      seq(W, s requires 0 <= s < W reads dxcol => PoolTerm(dxcol, g, N, C, n, c, r, s, k, t)))
  }

  /** What windows (k, 0), ..., (k, t - 1) add at each position of an H x W plane. */
  function RowAddedPlane(dxcol: array2<real>, g: Sliding, N: nat, C: nat, n: nat, c: nat, H: nat, W: nat, k: nat, t: nat)
    : (m: seq<seq<real>>)
    reads dxcol
    requires PoolColumnShape(dxcol, g, N, C) && n < N && c < C && k < g.rows && t <= g.cols
    ensures |m| == H && IsBlock(m, W)
    ensures forall r, s | 0 <= r < H && 0 <= s < W :: m[r][s] == RowAdded(dxcol, g, N, C, n, c, r, s, k, t)
  {
    seq(H, r requires 0 <= r < H reads dxcol =>
      seq(W, s requires 0 <= s < W reads dxcol => RowAdded(dxcol, g, N, C, n, c, r, s, k, t)))
  }

  /** What the windows of the first k window rows add at each position of an H x W plane. */
  function RowsAddedPlane(dxcol: array2<real>, g: Sliding, N: nat, C: nat, n: nat, c: nat, H: nat, W: nat, k: nat)
    : (m: seq<seq<real>>)
    reads dxcol
    requires PoolColumnShape(dxcol, g, N, C) && n < N && c < C && k <= g.rows
    ensures |m| == H && IsBlock(m, W)
    ensures forall r, s | 0 <= r < H && 0 <= s < W :: m[r][s] == RowsAdded(dxcol, g, N, C, n, c, r, s, k)
  {
    seq(H, r requires 0 <= r < H reads dxcol =>
      seq(W, s requires 0 <= s < W reads dxcol => RowsAdded(dxcol, g, N, C, n, c, r, s, k)))
  }

  /** The total that window (k, t) of plane (n, c) routes: the sum of its row of dx_col. */
  function WindowTotal(dxcol: array2<real>, g: Sliding, N: nat, C: nat, n: nat, c: nat, k: nat, t: nat): real
    reads dxcol
    requires PoolColumnShape(dxcol, g, N, C) && n < N && c < C && k < g.rows && t < g.cols
  {
    Sum(PoolRow(dxcol, Flatten4(n, c, k, t, N, C, g.rows, g.cols)))
  }

  /** The totals of the windows of plane (n, c), laid out as the window grid. */
  function TotalsPlane(dxcol: array2<real>, g: Sliding, N: nat, C: nat, n: nat, c: nat): (m: seq<seq<real>>)
    reads dxcol
    requires PoolColumnShape(dxcol, g, N, C) && n < N && c < C
    ensures |m| == g.rows && IsBlock(m, g.cols)
    ensures forall k, t | 0 <= k < g.rows && 0 <= t < g.cols :: m[k][t] == WindowTotal(dxcol, g, N, C, n, c, k, t)
  {
    seq(g.rows, k requires 0 <= k < g.rows reads dxcol =>
      seq(g.cols, t requires 0 <= t < g.cols reads dxcol => WindowTotal(dxcol, g, N, C, n, c, k, t)))
  }

  /** Spread over the plane, window (k, t) carries exactly the total of its row of dx_col: nothing is lost or duplicated. */
  lemma TermPlaneSum(dxcol: array2<real>, g: Sliding, N: nat, C: nat, n: nat, c: nat, H: nat, W: nat, k: nat, t: nat)
    requires PoolColumnShape(dxcol, g, N, C) && g.Inside(H, W) && n < N && c < C && k < g.rows && t < g.cols
    ensures Sum2(TermPlane(dxcol, g, N, C, n, c, H, W, k, t)) == WindowTotal(dxcol, g, N, C, n, c, k, t)
  {
    var row := Flatten4(n, c, k, t, N, C, g.rows, g.cols);
    var b := RowBlock(dxcol, g, N, C, row);
    var m := TermPlane(dxcol, g, N, C, n, c, H, W, k, t);
    WindowInside(k, g.rows, g.stride, g.height, H, g.height - 1);
    WindowInside(t, g.cols, g.stride, g.width, W, g.width - 1);
    forall r, s | 0 <= r < H && 0 <= s < W
      ensures m[r][s] == Placed(b, g.width, k * g.stride, t * g.stride, r, s)
    {
      PlacedIsPoolTerm(dxcol, g, N, C, n, c, k, t, r, s);
    }
    SumPlaced(m, b, g.width, k * g.stride, t * g.stride);
    SumBlocks(PoolRow(dxcol, row), b, g.width);
  }

  /** Added into the plane, windows (k, 0), ..., (k, t - 1) contribute the totals of their rows of dx_col. */
  lemma {:induction false} RowAddedSum(dxcol: array2<real>, g: Sliding, N: nat, C: nat, n: nat, c: nat,
                                       H: nat, W: nat, k: nat, t: nat)
    requires PoolColumnShape(dxcol, g, N, C) && g.Inside(H, W) && n < N && c < C && k < g.rows && t <= g.cols
    ensures Sum2(RowAddedPlane(dxcol, g, N, C, n, c, H, W, k, t)) == Sum(TotalsPlane(dxcol, g, N, C, n, c)[k][..t])
  {
    var totals := TotalsPlane(dxcol, g, N, C, n, c)[k];
    if t == 0 {
      Sum2Zeros(RowAddedPlane(dxcol, g, N, C, n, c, H, W, k, t));
    } else {
      RowAddedSum(dxcol, g, N, C, n, c, H, W, k, t - 1);
      TermPlaneSum(dxcol, g, N, C, n, c, H, W, k, t - 1);
      Sum2Add(RowAddedPlane(dxcol, g, N, C, n, c, H, W, k, t - 1), TermPlane(dxcol, g, N, C, n, c, H, W, k, t - 1),
              RowAddedPlane(dxcol, g, N, C, n, c, H, W, k, t));
      assert totals[..t][..t - 1] == totals[..t - 1];
    }
  }

  /** Added into the plane, the windows of the first k window rows contribute the totals of their rows of dx_col. */
  lemma {:induction false} RowsAddedSum(dxcol: array2<real>, g: Sliding, N: nat, C: nat, n: nat, c: nat,
                                        H: nat, W: nat, k: nat)
    requires PoolColumnShape(dxcol, g, N, C) && g.Inside(H, W) && n < N && c < C && k <= g.rows
    ensures Sum2(RowsAddedPlane(dxcol, g, N, C, n, c, H, W, k)) == Sum2(TotalsPlane(dxcol, g, N, C, n, c)[..k])
  {
    var totals := TotalsPlane(dxcol, g, N, C, n, c);
    if k == 0 {
      Sum2Zeros(RowsAddedPlane(dxcol, g, N, C, n, c, H, W, k));
      Sum2Zeros(totals[..k]);
    } else {
      RowsAddedSum(dxcol, g, N, C, n, c, H, W, k - 1);
      RowAddedSum(dxcol, g, N, C, n, c, H, W, k - 1, g.cols);
      Sum2Add(RowsAddedPlane(dxcol, g, N, C, n, c, H, W, k - 1), RowAddedPlane(dxcol, g, N, C, n, c, H, W, k - 1, g.cols),
              RowsAddedPlane(dxcol, g, N, C, n, c, H, W, k));
      Sum2Last(totals[..k]);
      assert totals[..k][..k - 1] == totals[..k - 1];
      assert totals[k - 1][..g.cols] == totals[k - 1];
    }
  }

  /** Every entry of dx_col is the routed gradient: the upstream gradient at the first maximum of its row, zero elsewhere. */
  ghost predicate Routed(xcol: array2<real>, dout: array4<real>, dxcol: array2<real>)
    reads xcol, dout, dxcol
  {
    && dout.Length1 > 0 && dout.Length2 > 0 && dout.Length3 > 0
    && xcol.Length0 == dout.Length0 * dout.Length1 * dout.Length2 * dout.Length3
    && dxcol.Length0 == xcol.Length0 && dxcol.Length1 == xcol.Length1
    && forall r, col | 0 <= r < dxcol.Length0 && 0 <= col < dxcol.Length1 :: dxcol[r, col] == RoutedGrad(xcol, dout, r, col)
  }

  /** A routed row of dx_col holds the upstream gradient of its window once, so it sums to that gradient. */
  lemma RoutedWindowTotal(xcol: array2<real>, dout: array4<real>, dxcol: array2<real>, g: Sliding, N: nat, C: nat,
                          n: nat, c: nat, k: nat, t: nat)
    requires PoolColumnShape(xcol, g, N, C) && DoutShape(dout, g, N, C) && Routed(xcol, dout, dxcol)
    requires n < N && c < C && k < g.rows && t < g.cols
    ensures WindowTotal(dxcol, g, N, C, n, c, k, t) == dout[n, c, k, t]
  {
    var row := Flatten4(n, c, k, t, N, C, g.rows, g.cols);
    var s := PoolRow(dxcol, row);
    var a := ArgMax(PoolRow(xcol, row));
    forall i | 0 <= i < |s| && i != a
      ensures s[i] == 0.0
    {
      assert s[i] == RoutedGrad(xcol, dout, row, i);
    }
    assert s[a] == RoutedGrad(xcol, dout, row, a);
    SumSingle(s, a);
    DoutFlatAt(dout, n, c, k, t);
  }

  /**
    The corrected backward pass conserves the gradient: with the routed rows
    added into dx, each plane of dx sums to the same plane of dout, for every
    stride, overlapping windows included.
    */
  lemma AddedGradientConserved(xcol: array2<real>, dout: array4<real>, dxcol: array2<real>, dx: array4<real>,
                               g: Sliding, n: nat, c: nat)
    requires PoolColumnShape(xcol, g, dx.Length0, dx.Length1) && DoutShape(dout, g, dx.Length0, dx.Length1)
    requires g.Inside(dx.Length2, dx.Length3) && Routed(xcol, dout, dxcol) && n < dx.Length0 && c < dx.Length1
    requires forall r, s | 0 <= r < dx.Length2 && 0 <= s < dx.Length3 ::
      dx[n, c, r, s] == PoolAdded(dxcol, g, dx.Length0, dx.Length1, n, c, r, s)
    ensures PlaneSum(dx, n, c) == PlaneSum(dout, n, c)
  {
    var N, C, H, W := dx.Length0, dx.Length1, dx.Length2, dx.Length3;
    RowsAddedSum(dxcol, g, N, C, n, c, H, W, g.rows);
    Sum2Equal(PlaneOf(dx, n, c), RowsAddedPlane(dxcol, g, N, C, n, c, H, W, g.rows));
    var totals := TotalsPlane(dxcol, g, N, C, n, c);
    assert totals[..g.rows] == totals;
    forall k, t | 0 <= k < g.rows && 0 <= t < g.cols
      ensures totals[k][t] == dout[n, c, k, t]
    {
      RoutedWindowTotal(xcol, dout, dxcol, g, N, C, n, c, k, t);
    }
    Sum2Equal(totals, PlaneOf(dout, n, c));
  }

  /** With windows that do not overlap, writing the windows with `=` and adding them with `+=` give the same dx. */
  lemma DisjointWrittenIsAdded(dxcol: array2<real>, g: Sliding, N: nat, C: nat, n: nat, c: nat, r: nat, s: nat)
    requires PoolColumnShape(dxcol, g, N, C) && n < N && c < C
    requires g.stride >= g.height && g.stride >= g.width
    ensures PoolWritten(dxcol, g, N, C, n, c, r, s) == PoolAdded(dxcol, g, N, C, n, c, r, s)
  {
    if k, t :| 0 <= k < g.rows && 0 <= t < g.cols && WindowCovers(g, k, t, r, s) {
      DisjointWindowsAgree(dxcol, g, N, C, n, c, r, s, k, t, g.rows);
    } else {
      UncoveredStaysZero(dxcol, g, N, C, n, c, r, s, g.rows);
    }
  }

  /**
    The source's pass conserves the gradient when windows do not overlap
    (stride at least the window extent): each plane of dx sums to the same
    plane of dout.
    */
  lemma WrittenGradientConserved(xcol: array2<real>, dout: array4<real>, dxcol: array2<real>, dx: array4<real>,
                                 g: Sliding, n: nat, c: nat)
    requires PoolColumnShape(xcol, g, dx.Length0, dx.Length1) && DoutShape(dout, g, dx.Length0, dx.Length1)
    requires g.Inside(dx.Length2, dx.Length3) && Routed(xcol, dout, dxcol) && n < dx.Length0 && c < dx.Length1
    requires g.stride >= g.height && g.stride >= g.width
    requires forall r, s | 0 <= r < dx.Length2 && 0 <= s < dx.Length3 ::
      dx[n, c, r, s] == PoolWritten(dxcol, g, dx.Length0, dx.Length1, n, c, r, s)
    ensures PlaneSum(dx, n, c) == PlaneSum(dout, n, c)
  {
    forall r, s | 0 <= r < dx.Length2 && 0 <= s < dx.Length3
      ensures dx[n, c, r, s] == PoolAdded(dxcol, g, dx.Length0, dx.Length1, n, c, r, s)
    {
      DisjointWrittenIsAdded(dxcol, g, dx.Length0, dx.Length1, n, c, r, s);
    }
    AddedGradientConserved(xcol, dout, dxcol, dx, g, n, c);
  }
}
