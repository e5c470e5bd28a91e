/**
  Sliding-window geometry shared by the naive convolution and max-pooling
  layers: how many window positions fit, and where window (j, k) reads.
  */
module Geometry {
  import opened Index

  /**
    A grid of `rows` x `cols` windows of `height` x `width` entries, the window
    in grid position (j, k) starting at (j*stride, k*stride).
    */
  datatype Sliding = Sliding(height: nat, width: nat, stride: nat, rows: nat, cols: nat)
  {
    /** Every window lies inside an extentH x extentW image, and none is empty. */
    predicate Inside(extentH: nat, extentW: nat)
    {
      && stride > 0 && height > 0 && width > 0 && rows > 0 && cols > 0
      && (rows - 1) * stride + height <= extentH
      && (cols - 1) * stride + width <= extentW
    }
  }

  /**
    Output extent of the convolution, `1 + (size + 2*pad - field) / stride`
    (Python 2 integer division of a non-negative number): the number of
    positions at which a `field`-wide window, moved `stride` at a time, fits in
    the padded input, and no more.
    */
  function ConvOutSize(size: nat, pad: nat, field: nat, stride: nat): (n: nat)
    requires stride > 0 && field <= size + 2 * pad
    ensures n >= 1
    ensures (n - 1) * stride + field <= size + 2 * pad
    ensures size + 2 * pad < n * stride + field
  {
    var m := (size + 2 * pad - field) / stride;
    assert m * stride <= size + 2 * pad - field < m * stride + stride;
    1 + m
  }

  /** Output extent of max pooling, `(size - field) / stride + 1`: the unpadded case of ConvOutSize. */
  function PoolOutSize(size: nat, field: nat, stride: nat): (n: nat)
    requires stride > 0 && field <= size
    ensures n == ConvOutSize(size, 0, field, stride)
    ensures (n - 1) * stride + field <= size < n * stride + field
  {
    (size - field) / stride + 1
  }

  /** Offset p of window j lies inside the extent that the last window fits in. */
  lemma {:induction false} WindowInside(j: nat, count: nat, stride: nat, field: nat, extent: nat, p: nat)
    requires j < count && p < field && (count - 1) * stride + field <= extent
    ensures j * stride + p < extent
  {
    MulMono(j, count - 1, stride);
  }

  /** Entry (p, q) of window (j, k) of plane (n, c) of x: x[n, c, j*stride + p, k*stride + q]. */
  function WindowAt(x: array4<real>, g: Sliding, n: nat, c: nat, j: nat, k: nat, p: nat, q: nat): real
    reads x
    requires g.Inside(x.Length2, x.Length3)
    requires n < x.Length0 && c < x.Length1 && j < g.rows && k < g.cols && p < g.height && q < g.width
  {
    WindowInside(j, g.rows, g.stride, g.height, x.Length2, p);
    WindowInside(k, g.cols, g.stride, g.width, x.Length3, q);
    x[n, c, j * g.stride + p, k * g.stride + q]
  }

  /** Position r lies in window j (of the given extent along one axis). */
  predicate Covers(j: nat, stride: nat, field: nat, r: nat)
  {
    j * stride <= r < j * stride + field
  }

  /** Along one axis, windows placed at least their extent apart cover a position at most once. */
  lemma OnlyOneCover(j: nat, j': nat, stride: nat, field: nat, r: nat)
    requires stride >= field && Covers(j, stride, field, r) && j' != j
    ensures !Covers(j', stride, field, r)
  {
    if j' < j {
      MulMono(j' + 1, j, stride);
    } else {
      MulMono(j + 1, j', stride);
    }
  }
}
