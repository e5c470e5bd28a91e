/**
  Slice assignment on one plane of a 4-D array, as numpy writes it:
  `a[n, c, r0:r0+h, s0:s0+w] = b` and `a[n, c, r0:r0+h, s0:s0+w] += b` for an
  h x w block b, entry by entry in row-major order.
  */
module Slices {
  import opened Sums

  /** Every row of b has w entries. */
  predicate IsBlock(b: seq<seq<real>>, w: nat)
  {
    forall p | 0 <= p < |b| :: |b[p]| == w
  }

  /** Position (r, s) lies under block b (of width w) placed with its corner at (r0, s0). */
  predicate Under(b: seq<seq<real>>, w: nat, r0: nat, s0: nat, r: nat, s: nat)
  {
    r0 <= r < r0 + |b| && s0 <= s < s0 + w
  }

  /** The entry of block b placed at (r0, s0) that lands on (r, s), and zero off the block. */
  function Placed(b: seq<seq<real>>, w: nat, r0: nat, s0: nat, r: nat, s: nat): real
    requires IsBlock(b, w)
  {
    if Under(b, w, r0, s0, r, s) then b[r - r0][s - s0] else 0.0
  }

  /** A plane that holds block b placed at (r0, s0), and zeros off it, has the double sum of b. */
  lemma SumPlaced(m: seq<seq<real>>, b: seq<seq<real>>, w: nat, r0: nat, s0: nat)
    requires IsBlock(b, w) && r0 + |b| <= |m|
    requires forall r | 0 <= r < |m| :: s0 + w <= |m[r]|
    requires forall r, s | 0 <= r < |m| && 0 <= s < |m[r]| :: m[r][s] == Placed(b, w, r0, s0, r, s)
    ensures Sum2(m) == Sum2(b)
  {
    forall r | 0 <= r < |m|
      ensures RowSums(m)[r] == if r0 <= r < r0 + |b| then RowSums(b)[r - r0] else 0.0
    {
      if r0 <= r < r0 + |b| {
        SumEmbedded(m[r], b[r - r0], s0);
      } else {
        SumZeros(m[r]);
      }
    }
    SumEmbedded(RowSums(m), RowSums(b), r0);
  }

  /** `a[n0, c0, r, s0:s0+|v|] += v`. */
  method AddRow(a: array4<real>, n0: nat, c0: nat, r: nat, s0: nat, v: seq<real>)
    requires n0 < a.Length0 && c0 < a.Length1 && r < a.Length2 && s0 + |v| <= a.Length3
    modifies a
    ensures forall n, c, r', s | 0 <= n < a.Length0 && 0 <= c < a.Length1 && 0 <= r' < a.Length2 && 0 <= s < a.Length3 ::
      a[n, c, r', s] == old(a[n, c, r', s]) + if n == n0 && c == c0 && r' == r && s0 <= s < s0 + |v| then v[s - s0] else 0.0
  {
    for q := 0 to |v|
      invariant forall n, c, r', s | 0 <= n < a.Length0 && 0 <= c < a.Length1 && 0 <= r' < a.Length2 && 0 <= s < a.Length3 ::
        a[n, c, r', s] == old(a[n, c, r', s]) + if n == n0 && c == c0 && r' == r && s0 <= s < s0 + q then v[s - s0] else 0.0
    {
      a[n0, c0, r, s0 + q] := a[n0, c0, r, s0 + q] + v[q];
    }
  }

  /** `a[n0, c0, r0:r0+|b|, s0:s0+w] += b`: every position under the block gains its entry, nothing else changes. */
  method AddBlock(a: array4<real>, n0: nat, c0: nat, r0: nat, s0: nat, b: seq<seq<real>>, w: nat)
    requires IsBlock(b, w)
    requires n0 < a.Length0 && c0 < a.Length1 && r0 + |b| <= a.Length2 && s0 + w <= a.Length3
    modifies a
    ensures forall n, c, r, s | 0 <= n < a.Length0 && 0 <= c < a.Length1 && 0 <= r < a.Length2 && 0 <= s < a.Length3 ::
      a[n, c, r, s] == old(a[n, c, r, s]) + if n == n0 && c == c0 then Placed(b, w, r0, s0, r, s) else 0.0
  {
    for p := 0 to |b|
      invariant forall n, c, r, s | 0 <= n < a.Length0 && 0 <= c < a.Length1 && 0 <= r < a.Length2 && 0 <= s < a.Length3 ::
        a[n, c, r, s] == old(a[n, c, r, s]) + if n == n0 && c == c0 && r0 <= r < r0 + p then Placed(b, w, r0, s0, r, s) else 0.0
    {
      AddRow(a, n0, c0, r0 + p, s0, b[p]);
    }
  }

  /** `a[n0, c0, r, s0:s0+|v|] = v`. */
  method WriteRow(a: array4<real>, n0: nat, c0: nat, r: nat, s0: nat, v: seq<real>)
    requires n0 < a.Length0 && c0 < a.Length1 && r < a.Length2 && s0 + |v| <= a.Length3
    modifies a
    ensures forall n, c, r', s | 0 <= n < a.Length0 && 0 <= c < a.Length1 && 0 <= r' < a.Length2 && 0 <= s < a.Length3 ::
      a[n, c, r', s] == if n == n0 && c == c0 && r' == r && s0 <= s < s0 + |v| then v[s - s0] else old(a[n, c, r', s])
  {
    for q := 0 to |v|
      invariant forall n, c, r', s | 0 <= n < a.Length0 && 0 <= c < a.Length1 && 0 <= r' < a.Length2 && 0 <= s < a.Length3 ::
        a[n, c, r', s] == if n == n0 && c == c0 && r' == r && s0 <= s < s0 + q then v[s - s0] else old(a[n, c, r', s])
    {
      a[n0, c0, r, s0 + q] := v[q];
    }
  }

  /** `a[n0, c0, r0:r0+|b|, s0:s0+w] = b`: the block replaces what was under it, nothing else changes. */
  method WriteBlock(a: array4<real>, n0: nat, c0: nat, r0: nat, s0: nat, b: seq<seq<real>>, w: nat)
    requires IsBlock(b, w)
    requires n0 < a.Length0 && c0 < a.Length1 && r0 + |b| <= a.Length2 && s0 + w <= a.Length3
    modifies a
    ensures forall n, c, r, s | 0 <= n < a.Length0 && 0 <= c < a.Length1 && 0 <= r < a.Length2 && 0 <= s < a.Length3 ::
      a[n, c, r, s] == if n == n0 && c == c0 && Under(b, w, r0, s0, r, s) then Placed(b, w, r0, s0, r, s) else old(a[n, c, r, s])
  {
    for p := 0 to |b|
      invariant forall n, c, r, s | 0 <= n < a.Length0 && 0 <= c < a.Length1 && 0 <= r < a.Length2 && 0 <= s < a.Length3 ::
        a[n, c, r, s] == if n == n0 && c == c0 && r < r0 + p && Under(b, w, r0, s0, r, s) then Placed(b, w, r0, s0, r, s)
                         else old(a[n, c, r, s])
    {
      WriteRow(a, n0, c0, r0 + p, s0, b[p]);
    }
  }
}
