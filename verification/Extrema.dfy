/**
  `np.max` and `np.argmax` along one row: the largest entry of a non-empty
  sequence, and the position of its first occurrence (numpy's tie rule).
  */
module Extrema {

  /** The largest entry of s: no entry exceeds it, and some entry equals it. */
  function Max(s: seq<real>): (m: real)
    requires |s| > 0
    ensures forall i | 0 <= i < |s| :: s[i] <= m
    ensures exists i | 0 <= i < |s| :: s[i] == m
  {
    if |s| == 1 then s[0]
    else
      var m' := Max(s[..|s| - 1]);
      assert forall i | 0 <= i < |s| - 1 :: s[..|s| - 1][i] == s[i];
      if s[|s| - 1] > m' then s[|s| - 1] else m'
  }

  /**
    The position of the first largest entry of s: it holds the maximum, and
    every entry before it is strictly smaller.
    */
  function ArgMax(s: seq<real>): (a: nat)
    requires |s| > 0
    ensures a < |s| && s[a] == Max(s)
    ensures forall i | 0 <= i < a :: s[i] < s[a]
  {
    if |s| == 1 then 0
    else
      var a' := ArgMax(s[..|s| - 1]);
      assert forall i | 0 <= i < |s| - 1 :: s[..|s| - 1][i] == s[i];
      if s[|s| - 1] > s[a'] then |s| - 1 else a'
  }

  /** The first maximum is the only position with both properties: the maximum there, nothing as large before it. */
  lemma ArgMaxUnique(s: seq<real>, a: nat)
    requires a < |s| && s[a] == Max(s)
    requires forall i | 0 <= i < a :: s[i] < s[a]
    ensures ArgMax(s) == a
  {
  }

  /** Position a of s holds the maximum of s and every entry before it is strictly smaller. */
  predicate IsFirstMax(s: seq<real>, a: nat)
    requires |s| > 0
  {
    a < |s| && s[a] == Max(s) && forall i | 0 <= i < a :: s[i] < s[a]
  }

  /** ArgMax is the first maximum, and the only one: a position is the first maximum exactly when it is ArgMax. */
  lemma FirstMaxIsArgMax(s: seq<real>, a: nat)
    requires |s| > 0
    ensures IsFirstMax(s, a) <==> a == ArgMax(s)
  {
    if IsFirstMax(s, a) {
      ArgMaxUnique(s, a);
    }
  }
}
