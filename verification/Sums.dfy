/**
  Finite sums of reals, and the reindexing facts that relate a sum over a flat
  (row-major) index to the nested sum over the multi-index it encodes.
  */
module Sums {
  import opened Index

  /** Sum of a finite sequence, added left to right. */
  function Sum(s: seq<real>): real
  {
    if |s| == 0 then 0.0 else Sum(s[..|s| - 1]) + s[|s| - 1]
  }

  /** The sums of the rows of a matrix. */
  function RowSums(t: seq<seq<real>>): seq<real>
  {
    seq(|t|, a requires 0 <= a < |t| => Sum(t[a]))
  }

  /** Sum over both indices of a nested sequence: sum over a of sum over b of t[a][b]. */
  function Sum2(t: seq<seq<real>>): real
  {
    Sum(RowSums(t))
  }

  /** Sum over all three indices: sum over a, b, c of t[a][b][c]. */
  function Sum3(t: seq<seq<seq<real>>>): real
  {
    Sum(seq(|t|, a requires 0 <= a < |t| => Sum2(t[a])))
  }

  /** Inner product of two sequences of the same length, added left to right. */
  function Dot(a: seq<real>, b: seq<real>): real
    requires |a| == |b|
  {
    if |a| == 0 then 0.0 else Dot(a[..|a| - 1], b[..|b| - 1]) + a[|a| - 1] * b[|b| - 1]
  }

  lemma {:induction false} SumAppend(a: seq<real>, b: seq<real>)
    ensures Sum(a + b) == Sum(a) + Sum(b)
  {
    if |b| == 0 {
      assert a + b == a;
    } else {
      var b' := b[..|b| - 1];
      assert (a + b)[..|a + b| - 1] == a + b';
      SumAppend(a, b');
    }
  }

  /** A sum whose terms are all zero is zero. */
  lemma {:induction false} SumZeros(s: seq<real>)
    requires forall i | 0 <= i < |s| :: s[i] == 0.0
    ensures Sum(s) == 0.0
  {
    if |s| > 0 {
      SumZeros(s[..|s| - 1]);
    }
  }

  /** A sum whose only non-zero term is s[k] equals s[k]. */
  lemma {:induction false} SumSingle(s: seq<real>, k: nat)
    requires k < |s|
    requires forall i | 0 <= i < |s| && i != k :: s[i] == 0.0
    ensures Sum(s) == s[k]
  {
    if k == |s| - 1 {
      SumZeros(s[..|s| - 1]);
    } else {
      SumSingle(s[..|s| - 1], k);
    }
  }

  /** Term-by-term addition of two sequences of equal length adds their sums. */
  lemma {:induction false} SumAdd(s: seq<real>, t: seq<real>, u: seq<real>)
    requires |s| == |t| == |u|
    requires forall i | 0 <= i < |u| :: u[i] == s[i] + t[i]
    ensures Sum(u) == Sum(s) + Sum(t)
  {
    if |u| > 0 {
      SumAdd(s[..|s| - 1], t[..|t| - 1], u[..|u| - 1]);
    }
  }

  /** A sequence holding v from offset k on and zeros everywhere else has the sum of v. */
  lemma SumEmbedded(u: seq<real>, v: seq<real>, k: nat)
    requires k + |v| <= |u|
    requires forall i | 0 <= i < |u| :: u[i] == if k <= i < k + |v| then v[i - k] else 0.0
    ensures Sum(u) == Sum(v)
  {
    var e := k + |v|;
    assert u == u[..k] + u[k..e] + u[e..];
    assert u[k..e] == v;
    SumZeros(u[..k]);
    SumZeros(u[e..]);
    SumAppend(u[..k] + u[k..e], u[e..]);
    SumAppend(u[..k], u[k..e]);
  }

  /** A matrix of zeros has double sum zero. */
  lemma Sum2Zeros(m: seq<seq<real>>)
    requires forall r, s | 0 <= r < |m| && 0 <= s < |m[r]| :: m[r][s] == 0.0
    ensures Sum2(m) == 0.0
  {
    forall r | 0 <= r < |m|
      ensures RowSums(m)[r] == 0.0
    {
      SumZeros(m[r]);
    }
    SumZeros(RowSums(m));
  }

  /** Adding two matrices of the same shape entry by entry adds their double sums. */
  lemma Sum2Add(a: seq<seq<real>>, b: seq<seq<real>>, m: seq<seq<real>>)
    requires |a| == |b| == |m|
    requires forall r | 0 <= r < |m| :: |a[r]| == |b[r]| == |m[r]|
    requires forall r, s | 0 <= r < |m| && 0 <= s < |m[r]| :: m[r][s] == a[r][s] + b[r][s]
    ensures Sum2(m) == Sum2(a) + Sum2(b)
  {
    forall r | 0 <= r < |m|
      ensures RowSums(m)[r] == RowSums(a)[r] + RowSums(b)[r]
    {
      SumAdd(a[r], b[r], m[r]);
    }
    SumAdd(RowSums(a), RowSums(b), RowSums(m));
  }

  /** Two matrices of the same shape that agree entry by entry have the same double sum. */
  lemma Sum2Equal(a: seq<seq<real>>, b: seq<seq<real>>)
    requires |a| == |b|
    requires forall r | 0 <= r < |a| :: |a[r]| == |b[r]|
    requires forall r, s | 0 <= r < |a| && 0 <= s < |a[r]| :: a[r][s] == b[r][s]
    ensures Sum2(a) == Sum2(b)
  {
    forall r | 0 <= r < |a|
      ensures a[r] == b[r]
    {
      assert a[r] == b[r];
    }
    assert a == b;
  }

  /** The double sum of a non-empty matrix is that of all rows but the last, plus the last row's sum. */
  lemma Sum2Last(t: seq<seq<real>>)
    requires |t| > 0
    ensures Sum2(t) == Sum2(t[..|t| - 1]) + Sum(t[|t| - 1])
  {
    assert RowSums(t)[..|t| - 1] == RowSums(t[..|t| - 1]);
  }

  /** s lists the rows of t, each of m entries, one after the other. */
  predicate Blocked(s: seq<real>, t: seq<seq<real>>, m: nat)
  {
    && |s| == |t| * m
    && (forall a | 0 <= a < |t| :: |t[a]| == m)
    && (forall a, b | 0 <= a < |t| && 0 <= b < m :: s[Flatten2(a, b, |t|, m)] == t[a][b])
  }

  /**
    A flat sequence laid out as |t| consecutive blocks of m entries, block a
    being t[a], has the same sum as the nested sequence.
    */
  lemma {:induction false} SumBlocks(s: seq<real>, t: seq<seq<real>>, m: nat)
    requires Blocked(s, t, m)
    ensures Sum(s) == Sum2(t)
  {
    var n := |t|;
    if n == 0 {
      assert RowSums(t) == [];
    } else {
      var n' := n - 1;
      BlocksSplit(s, t, m, n');
      SumBlocks(s[..n' * m], t[..n'], m);
      LastBlock(s, t, n' * m);
    }
  }

  /** When s ends with the last row of t, the last row's sum is the last term of both sums. */
  lemma LastBlock(s: seq<real>, t: seq<seq<real>>, k: nat)
    requires |t| > 0 && k <= |s| && s[k..] == t[|t| - 1]
    ensures Sum(s) == Sum(s[..k]) + Sum(t[|t| - 1])
    ensures Sum2(t) == Sum2(t[..|t| - 1]) + Sum(t[|t| - 1])
  {
    assert s == s[..k] + s[k..];
    SumAppend(s[..k], s[k..]);
    assert RowSums(t)[..|t| - 1] == RowSums(t[..|t| - 1]);
  }

  /** Splitting off the last block of a blocked sequence leaves a blocked sequence. */
  lemma BlocksSplit(s: seq<real>, t: seq<seq<real>>, m: nat, n': nat)
    requires |t| == n' + 1 && Blocked(s, t, m)
    ensures n' * m <= |s|
    ensures s[n' * m..] == t[n']
    ensures Blocked(s[..n' * m], t[..n'], m)
  {
    var n := |t|;
    var k := n' * m;
    assert n * m == k + m;
    var front, back := s[..k], s[k..];
    forall b | 0 <= b < m
      ensures back[b] == t[n'][b]
    {
      assert Flatten2(n', b, n, m) == k + b;
    }
    forall a, b | 0 <= a < n' && 0 <= b < m
      ensures front[Flatten2(a, b, n', m)] == t[..n'][a][b]
    {
      assert Flatten2(a, b, n', m) == Flatten2(a, b, n, m);
    }
  }

  /** Cuts a sequence of n*m entries into n consecutive blocks of m entries. */
  function Blocks(s: seq<real>, n: nat, m: nat): (u: seq<seq<real>>)
    requires |s| == n * m
    ensures |u| == n
    ensures forall a | 0 <= a < n :: |u[a]| == m
    ensures forall a, b | 0 <= a < n && 0 <= b < m :: u[a][b] == s[Flatten2(a, b, n, m)]
  {
    seq(n, a requires 0 <= a < n => BlockAt(s, n, m, a))
  }

  function BlockAt(s: seq<real>, n: nat, m: nat, a: nat): (v: seq<real>)
    requires |s| == n * m && a < n
    ensures |v| == m
    ensures forall b | 0 <= b < m :: v[b] == s[Flatten2(a, b, n, m)]
  {
    MulMono(a + 1, n, m);
    s[a * m .. a * m + m]
  }

  /**
    A flat sequence enumerating t[a][b][c] in row-major order has the same sum as
    the triple sum over a, b, c.
    */
  lemma {:induction false} SumBlocks3(s: seq<real>, t: seq<seq<seq<real>>>, nb: nat, nc: nat)
    requires |s| == |t| * nb * nc
    requires forall a | 0 <= a < |t| :: |t[a]| == nb
    requires forall a, b | 0 <= a < |t| && 0 <= b < nb :: |t[a][b]| == nc
    requires forall a, b, c | 0 <= a < |t| && 0 <= b < nb && 0 <= c < nc ::
      s[Flatten3(a, b, c, |t|, nb, nc)] == t[a][b][c]
    ensures Sum(s) == Sum3(t)
  {
    var m := nb * nc;
    var n := |t|;
    MulAssoc(n, nb, nc);
    var u := Blocks(s, n, m);
    SumBlocks(s, u, m);
    forall a | 0 <= a < n
      ensures Sum(u[a]) == Sum2(t[a])
    {
      forall b, c | 0 <= b < nb && 0 <= c < nc
        ensures u[a][Flatten2(b, c, nb, nc)] == t[a][b][c]
      {
        Flatten3Nested(a, b, c, n, nb, nc);
      }
      SumBlocks(u[a], t[a], nc);
    }
    assert RowSums(u) == seq(n, a requires 0 <= a < n => Sum2(t[a]));
  }
}
