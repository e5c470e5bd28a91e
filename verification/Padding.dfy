/**
  Zero padding of a batch of images (N, C, H, W) by `pad` pixels on each side
  of the two spatial axes: numpy's constant-mode pad that the convolution
  uses, and the hand-written helper pair `padwithzero` / `pad_matrix`.
  */
module Padding {

  /** Interior entries of xp are x shifted by (pad, pad); the border of width pad is zero. */
  ghost predicate ZeroPadded(x: array4<real>, xp: array4<real>, pad: nat)
    reads x, xp
  {
    && xp.Length0 == x.Length0 && xp.Length1 == x.Length1
    && xp.Length2 == x.Length2 + 2 * pad && xp.Length3 == x.Length3 + 2 * pad
    && (forall n, c, h, v | 0 <= n < x.Length0 && 0 <= c < x.Length1 && 0 <= h < x.Length2 && 0 <= v < x.Length3 ::
          xp[n, c, h + pad, v + pad] == x[n, c, h, v])
    && (forall n, c, r, s | 0 <= n < xp.Length0 && 0 <= c < xp.Length1 && 0 <= r < xp.Length2 && 0 <= s < xp.Length3 ::
          !(pad <= r < pad + x.Length2 && pad <= s < pad + x.Length3) ==> xp[n, c, r, s] == 0.0)
  }

  /** Entry (n, c, r, s) of the padded batch: the shifted input inside, zero on the border. */
  function PaddedAt(x: array4<real>, pad: nat, n: nat, c: nat, r: nat, s: nat): real
    reads x
    requires n < x.Length0 && c < x.Length1
  {
    if pad <= r < pad + x.Length2 && pad <= s < pad + x.Length3 then x[n, c, r - pad, s - pad] else 0.0
  }

  /** `np.pad(x, [(0,0), (0,0), (pad,pad), (pad,pad)], 'constant')`. */
  method Pad(x: array4<real>, pad: nat) returns (xp: array4<real>)
    ensures ZeroPadded(x, xp, pad)
  {
    xp := new real[x.Length0, x.Length1, x.Length2 + 2 * pad, x.Length3 + 2 * pad](
      (n: nat, c: nat, r: nat, s: nat) requires n < x.Length0 && c < x.Length1 reads x => PaddedAt(x, pad, n, c, r, s));
  }

  /**
    Start of Python's tail slice `v[-k:]` on a vector of length len.  Since
    `-0 == 0`, k == 0 selects the whole vector.
    */
  function TailSliceStart(len: nat, k: nat): (start: nat)
    ensures start <= len
  {
    if k == 0 then 0 else if k <= len then len - k else 0
  }

  /** `padwithzero` as written: `vector[:before] = 0`, then `vector[-after:] = 0`. */
  function PadWithZero(v: seq<real>, before: nat, after: nat): (r: seq<real>)
    ensures |r| == |v|
    ensures forall i | 0 <= i < |v| :: r[i] == v[i] || r[i] == 0.0
  {
    var head := seq(|v|, i requires 0 <= i < |v| => if i < before then 0.0 else v[i]);
    seq(|v|, i requires 0 <= i < |v| => if i >= TailSliceStart(|v|, after) then 0.0 else head[i])
  }

  /**
    With a positive trailing width, padwithzero clears exactly the two borders:
    the first `before` and the last `after` entries.
    */
  lemma PadWithZeroClearsBorders(v: seq<real>, before: nat, after: nat)
    requires 0 < after <= |v|
    ensures forall i | 0 <= i < |v| ::
      PadWithZero(v, before, after)[i] == if before <= i < |v| - after then v[i] else 0.0
  {
    var r := PadWithZero(v, before, after);
    forall i | 0 <= i < |v|
      ensures r[i] == if before <= i < |v| - after then v[i] else 0.0
    {
      assert TailSliceStart(|v|, after) == |v| - after;
    }
  }

  /** With a zero trailing width, `vector[-0:] = 0` clears the whole vector. */
  lemma PadWithZeroClearsAllWhenNoTail(v: seq<real>, before: nat)
    ensures forall i | 0 <= i < |v| :: PadWithZero(v, before, 0)[i] == 0.0
  {
    var r := PadWithZero(v, before, 0);
    forall i | 0 <= i < |v|
      ensures r[i] == 0.0
    {
      assert TailSliceStart(|v|, 0) == 0;
    }
  }

  /** Corrected padwithzero: `vector[len(vector) - after:] = 0` clears the borders for every width. */
  function PadWithZeroFixed(v: seq<real>, before: nat, after: nat): (r: seq<real>)
    requires after <= |v|
    ensures |r| == |v|
    ensures forall i | 0 <= i < |v| :: r[i] == if before <= i < |v| - after then v[i] else 0.0
  {
    var head := seq(|v|, i requires 0 <= i < |v| => if i < before then 0.0 else v[i]);
    seq(|v|, i requires 0 <= i < |v| => if i >= |v| - after then 0.0 else head[i])
  }

  /** The fixed callback with no padding leaves the vector unchanged. */
  lemma PadWithZeroFixedNoPadIsIdentity(v: seq<real>)
    ensures PadWithZeroFixed(v, 0, 0) == v
  {
  }

  /** Whether the as-written padwithzero leaves position i of a vector of length len in place. */
  predicate KeptByPadWithZero(len: nat, pad: nat, i: nat)
  {
    pad <= i < TailSliceStart(len, pad)
  }

  /** The callback as written, with the same width on both sides, keeps exactly the positions KeptByPadWithZero names. */
  lemma PadWithZeroKeeps(v: seq<real>, pad: nat)
    ensures forall i | 0 <= i < |v| :: PadWithZero(v, pad, pad)[i] == if KeptByPadWithZero(|v|, pad, i) then v[i] else 0.0
  {
  }

  /**
    Entry (r, s) of `np.lib.pad(plane, pad, padwithzero)` for plane (n, c) of x:
    numpy zero-extends the plane and hands every column and then every row to
    the callback, which can only clear entries; so an entry keeps its value
    exactly when the callback keeps its row position in the column and its
    column position in the row (PadWithZeroKeeps, LibPadAppliesCallback).  For pad > 0 that is
    the zero padding; for pad == 0 every entry is cleared.
    */
  function LibPadAt(x: array4<real>, pad: nat, n: nat, c: nat, r: nat, s: nat): (v: real)
    reads x
    requires n < x.Length0 && c < x.Length1
    ensures v == PaddedAt(x, pad, n, c, r, s) || v == 0.0
    ensures 0 < pad ==> v == PaddedAt(x, pad, n, c, r, s)
    ensures pad == 0 ==> v == 0.0
  {
    if KeptByPadWithZero(x.Length2 + 2 * pad, pad, r) && KeptByPadWithZero(x.Length3 + 2 * pad, pad, s)
    then PaddedAt(x, pad, n, c, r, s)
    else 0.0
  }

  /** Column s of the zero-extended plane (n, c): the vector numpy hands to the callback along axis 0. */
  function ExtendedColumn(x: array4<real>, pad: nat, n: nat, c: nat, s: nat): (col: seq<real>)
    reads x
    requires n < x.Length0 && c < x.Length1
    ensures |col| == x.Length2 + 2 * pad
    ensures forall r | 0 <= r < |col| :: col[r] == PaddedAt(x, pad, n, c, r, s)
  {
    seq(x.Length2 + 2 * pad, r requires 0 <= r < x.Length2 + 2 * pad reads x => PaddedAt(x, pad, n, c, r, s))
  }

  /** Row r of the plane after the callback ran on every column: the vector handed to the callback along axis 1. */
  function ColumnsPadded(x: array4<real>, pad: nat, n: nat, c: nat, r: nat): (row: seq<real>)
    reads x
    requires n < x.Length0 && c < x.Length1 && r < x.Length2 + 2 * pad
    ensures |row| == x.Length3 + 2 * pad
    ensures forall s | 0 <= s < |row| :: row[s] == PadWithZero(ExtendedColumn(x, pad, n, c, s), pad, pad)[r]
  {
    seq(x.Length3 + 2 * pad, s requires 0 <= s < x.Length3 + 2 * pad reads x =>
      PadWithZero(ExtendedColumn(x, pad, n, c, s), pad, pad)[r])
  }

  /**
    LibPadAt is what numpy's pad produces with the callback: padwithzero run on
    every column of the zero-extended plane, then on every row of the result.
    */
  lemma LibPadAppliesCallback(x: array4<real>, pad: nat, n: nat, c: nat, r: nat, s: nat)
    requires n < x.Length0 && c < x.Length1 && r < x.Length2 + 2 * pad && s < x.Length3 + 2 * pad
    ensures LibPadAt(x, pad, n, c, r, s) == PadWithZero(ColumnsPadded(x, pad, n, c, r), pad, pad)[s]
  {
    PadWithZeroKeeps(ExtendedColumn(x, pad, n, c, s), pad);
    PadWithZeroKeeps(ColumnsPadded(x, pad, n, c, r), pad);
  }

  /**
    `pad_matrix` as written.  For pad > 0 it is the zero padding; for pad == 0
    the callback clears every entry, so the result is all zeros instead of x.
    */
  method PadMatrix(x: array4<real>, pad: nat) returns (xp: array4<real>)
    ensures xp.Length0 == x.Length0 && xp.Length1 == x.Length1
    ensures xp.Length2 == x.Length2 + 2 * pad && xp.Length3 == x.Length3 + 2 * pad
    ensures pad > 0 ==> ZeroPadded(x, xp, pad)
    ensures pad == 0 ==> forall n, c, r, s | 0 <= n < xp.Length0 && 0 <= c < xp.Length1 && 0 <= r < xp.Length2 && 0 <= s < xp.Length3 ::
      xp[n, c, r, s] == 0.0
  {
    xp := new real[x.Length0, x.Length1, x.Length2 + 2 * pad, x.Length3 + 2 * pad]((n, c, r, s) => 0.0);
    for i := 0 to x.Length0
      invariant forall n, c, r, s | 0 <= n < xp.Length0 && 0 <= c < xp.Length1 && 0 <= r < xp.Length2 && 0 <= s < xp.Length3 ::
        xp[n, c, r, s] == if n < i then LibPadAt(x, pad, n, c, r, s) else 0.0
    {
      for j := 0 to x.Length1
        invariant forall n, c, r, s | 0 <= n < xp.Length0 && 0 <= c < xp.Length1 && 0 <= r < xp.Length2 && 0 <= s < xp.Length3 ::
          xp[n, c, r, s] == if n < i || (n == i && c < j) then LibPadAt(x, pad, n, c, r, s) else 0.0
      {
        WritePlane(x, xp, pad, i, j);
      }
    }
    PadMatrixMeaning(x, xp, pad);
  }

  /** `X_pad[i, j, :, :] = np.lib.pad(x[i, j, :, :], pad, padwithzero)`. */
  method WritePlane(x: array4<real>, xp: array4<real>, pad: nat, i: nat, j: nat)
    requires xp != x && i < x.Length0 && j < x.Length1
    requires xp.Length0 == x.Length0 && xp.Length1 == x.Length1
    requires xp.Length2 == x.Length2 + 2 * pad && xp.Length3 == x.Length3 + 2 * pad
    modifies xp
    ensures forall n, c, r, s | 0 <= n < xp.Length0 && 0 <= c < xp.Length1 && 0 <= r < xp.Length2 && 0 <= s < xp.Length3 ::
      xp[n, c, r, s] == if n == i && c == j then LibPadAt(x, pad, n, c, r, s) else old(xp[n, c, r, s])
  {
    for r := 0 to xp.Length2
      invariant forall n, c, r', s | 0 <= n < xp.Length0 && 0 <= c < xp.Length1 && 0 <= r' < xp.Length2 && 0 <= s < xp.Length3 ::
        xp[n, c, r', s] == if n == i && c == j && r' < r then LibPadAt(x, pad, n, c, r', s) else old(xp[n, c, r', s])
    {
      for s := 0 to xp.Length3
        invariant forall n, c, r', s' | 0 <= n < xp.Length0 && 0 <= c < xp.Length1 && 0 <= r' < xp.Length2 && 0 <= s' < xp.Length3 ::
          xp[n, c, r', s'] == if n == i && c == j && (r' < r || (r' == r && s' < s)) then LibPadAt(x, pad, n, c, r', s') else old(xp[n, c, r', s'])
      {
        xp[i, j, r, s] := LibPadAt(x, pad, i, j, r, s);
      }
    }
  }

  /** What the entries LibPadAt describes add up to, for positive and for zero padding. */
  lemma PadMatrixMeaning(x: array4<real>, xp: array4<real>, pad: nat)
    requires xp.Length0 == x.Length0 && xp.Length1 == x.Length1
    requires xp.Length2 == x.Length2 + 2 * pad && xp.Length3 == x.Length3 + 2 * pad
    requires forall n, c, r, s | 0 <= n < xp.Length0 && 0 <= c < xp.Length1 && 0 <= r < xp.Length2 && 0 <= s < xp.Length3 ::
      xp[n, c, r, s] == LibPadAt(x, pad, n, c, r, s)
    ensures pad > 0 ==> ZeroPadded(x, xp, pad)
    ensures pad == 0 ==> forall n, c, r, s | 0 <= n < xp.Length0 && 0 <= c < xp.Length1 && 0 <= r < xp.Length2 && 0 <= s < xp.Length3 ::
      xp[n, c, r, s] == 0.0
  {
    if pad > 0 {
      forall n, c, h, v | 0 <= n < x.Length0 && 0 <= c < x.Length1 && 0 <= h < x.Length2 && 0 <= v < x.Length3
        ensures xp[n, c, h + pad, v + pad] == x[n, c, h, v]
      {
        assert LibPadAt(x, pad, n, c, h + pad, v + pad) == x[n, c, h, v];
      }
    }
  }
}
