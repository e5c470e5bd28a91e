/**
  `svm_loss`: the multiclass hinge loss of a batch of class scores and its
  gradient.  x has one row of C class scores per example and y one label per
  example; the margin of a wrong class is how far its score comes within 1 of
  the score of the label.
  */
module SvmLoss {
  import opened Sums

  /** N > 0 examples, each a row of the same number C of scores, each label a class below C. */
  predicate IsBatch(x: seq<seq<real>>, y: seq<nat>)
  {
    && |x| > 0 && |y| == |x|
    && (forall i | 0 <= i < |x| :: |x[i]| == |x[0]|)
    && (forall i | 0 <= i < |y| :: y[i] < |x[0]|)
  }

  /**
    `margins[i]` after `np.maximum(0, x - correct_class_scores + 1.0)` and
    `margins[i, y[i]] = 0`: zero at the label; elsewhere the hinge of the score
    against the label's score plus one, never negative.
    */
  function MarginRow(row: seq<real>, target: nat): (m: seq<real>)
    requires target < |row|
    ensures |m| == |row| && m[target] == 0.0
    ensures forall j | 0 <= j < |row| :: m[j] >= 0.0
    ensures forall j | 0 <= j < |row| && j != target :: m[j] >= row[j] - row[target] + 1.0
    ensures forall j | 0 <= j < |row| && j != target :: m[j] == 0.0 || m[j] == row[j] - row[target] + 1.0
  {
    seq(|row|, j requires 0 <= j < |row| =>
      if j == target then 0.0
      else if row[j] - row[target] + 1.0 > 0.0 then row[j] - row[target] + 1.0 else 0.0)
  }

  /** A margin is positive exactly when the class scores above the label's score minus one. */
  lemma MarginPositive(row: seq<real>, target: nat, j: nat)
    requires target < |row| && j < |row|
    ensures MarginRow(row, target)[j] > 0.0 <==> j != target && row[j] > row[target] - 1.0
  {
  }

  /**
    `margins` for the batch: zero at each example's label; elsewhere the larger
    of 0 and the score minus the label's score plus one.
    */
  function Margins(x: seq<seq<real>>, y: seq<nat>): (m: seq<seq<real>>)
    requires IsBatch(x, y)
    ensures |m| == |x|
    ensures forall i | 0 <= i < |x| :: |m[i]| == |x[i]| && m[i][y[i]] == 0.0
    ensures forall i, j | 0 <= i < |x| && 0 <= j < |x[i]| :: m[i][j] >= 0.0
    ensures forall i, j | 0 <= i < |x| && 0 <= j < |x[i]| && j != y[i] ::
      && m[i][j] >= x[i][j] - x[i][y[i]] + 1.0
      && (m[i][j] == 0.0 || m[i][j] == x[i][j] - x[i][y[i]] + 1.0)
  {
    seq(|x|, i requires 0 <= i < |x| => MarginRow(x[i], y[i]))
  }

  /** A sum of non-negative terms is non-negative, and zero only when every term is. */
  lemma {:induction false} SumNonNegative(s: seq<real>)
    requires forall j | 0 <= j < |s| :: s[j] >= 0.0
    ensures Sum(s) >= 0.0
    ensures Sum(s) == 0.0 <==> forall j | 0 <= j < |s| :: s[j] == 0.0
  {
    if |s| > 0 {
      SumNonNegative(s[..|s| - 1]);
      assert forall j | 0 <= j < |s| - 1 :: s[..|s| - 1][j] == s[j];
    }
  }

  /** The total margin of the batch is non-negative, and zero only when every margin is. */
  lemma {:induction false} MarginTotal(m: seq<seq<real>>)
    requires forall i, j | 0 <= i < |m| && 0 <= j < |m[i]| :: m[i][j] >= 0.0
    ensures Sum2(m) >= 0.0
    ensures Sum2(m) == 0.0 <==> forall i, j | 0 <= i < |m| && 0 <= j < |m[i]| :: m[i][j] == 0.0
  {
    var sums := RowSums(m);
    forall i | 0 <= i < |m|
      ensures sums[i] >= 0.0 && (sums[i] == 0.0 <==> forall j | 0 <= j < |m[i]| :: m[i][j] == 0.0)
    {
      SumNonNegative(m[i]);
    }
    SumNonNegative(sums);
  }

  /** `loss = np.sum(margins) / N`: never negative. */
  function Loss(x: seq<seq<real>>, y: seq<nat>): (loss: real)
    requires IsBatch(x, y)
    ensures loss >= 0.0
  {
    MarginTotal(Margins(x, y));
    Sum2(Margins(x, y)) / (|x| as real)
  }

  /**
    The loss is zero exactly when every example scores its label at least 1
    above every other class.
    */
  lemma LossZeroIff(x: seq<seq<real>>, y: seq<nat>)
    requires IsBatch(x, y)
    ensures Loss(x, y) == 0.0 <==> forall i | 0 <= i < |x| :: TargetWins(x[i], y[i])
  {
    var m := Margins(x, y);
    MarginTotal(m);
    forall i | 0 <= i < |x|
      ensures (forall j | 0 <= j < |m[i]| :: m[i][j] == 0.0) <==> TargetWins(x[i], y[i])
    {
      forall j | 0 <= j < |x[i]|
        ensures m[i][j] == 0.0 <==> j == y[i] || x[i][y[i]] >= x[i][j] + 1.0
      {
        MarginPositive(x[i], y[i], j);
      }
    }
  }

  /** The score of the target class is at least 1 above the score of every other class. */
  predicate TargetWins(row: seq<real>, target: nat)
    requires target < |row|
  {
    forall j | 0 <= j < |row| && j != target :: row[target] >= row[j] + 1.0
  }

  /** `num_pos[i] = np.sum(margins[i] > 0)`: the number of positive margins in a row. */
  function PositiveCount(m: seq<real>): (n: nat)
    ensures n <= |m|
  {
    if |m| == 0 then 0 else PositiveCount(m[..|m| - 1]) + (if m[|m| - 1] > 0.0 then 1 else 0)
  }

  /** 1 where the margin is positive, 0 elsewhere: `dx[margins > 0] = 1` on a zero row. */
  function Indicator(m: seq<real>): (d: seq<real>)
    ensures |d| == |m|
    ensures forall j | 0 <= j < |m| :: d[j] == if m[j] > 0.0 then 1.0 else 0.0
  {
    seq(|m|, j requires 0 <= j < |m| => if m[j] > 0.0 then 1.0 else 0.0)
  }

  /** The indicator sums to the count of positive margins. */
  lemma {:induction false} IndicatorSum(m: seq<real>)
    ensures Sum(Indicator(m)) == PositiveCount(m) as real
  {
    if |m| > 0 {
      assert Indicator(m)[..|m| - 1] == Indicator(m[..|m| - 1]);
      IndicatorSum(m[..|m| - 1]);
    }
  }

  /**
    Row i of dx after `dx[margins > 0] = 1`, `dx[i, y[i]] -= num_pos[i]` and
    `dx /= N`: 1/N at every class with a positive margin, minus the number of
    them over N at the label, zero elsewhere.
    */
  function GradientRow(m: seq<real>, target: nat, N: nat): (d: seq<real>)
    requires target < |m| && m[target] == 0.0 && N > 0
    ensures |d| == |m|
    ensures d[target] == -(PositiveCount(m) as real) / (N as real)
    ensures forall j | 0 <= j < |m| && j != target :: d[j] == if m[j] > 0.0 then 1.0 / (N as real) else 0.0
  {
    var count := PositiveCount(m) as real;
    seq(|m|, j requires 0 <= j < |m| =>
      ((if m[j] > 0.0 then 1.0 else 0.0) - (if j == target then count else 0.0)) / (N as real))
  }

  /**
    `dx`, the gradient of the loss with respect to the scores: 1/N at every
    class with a positive margin, minus `num_pos[i]`/N at the label, zero
    elsewhere.
    */
  function Gradient(x: seq<seq<real>>, y: seq<nat>): (dx: seq<seq<real>>)
    requires IsBatch(x, y)
    ensures |dx| == |x|
    ensures forall i | 0 <= i < |x| :: |dx[i]| == |x[i]|
    ensures forall i | 0 <= i < |x| :: dx[i][y[i]] == -(PositiveCount(Margins(x, y)[i]) as real) / (|x| as real)
    ensures forall i, j | 0 <= i < |x| && 0 <= j < |x[i]| && j != y[i] ::
      dx[i][j] == if Margins(x, y)[i][j] > 0.0 then 1.0 / (|x| as real) else 0.0
  {
    var m := Margins(x, y);
    seq(|x|, i requires 0 <= i < |x| => GradientRow(m[i], y[i], |x|))
  }

  /** Dividing every difference of two sequences by d divides the difference of their sums. */
  lemma {:induction false} SumScaledDifference(a: seq<real>, b: seq<real>, s: seq<real>, d: real)
    requires |a| == |b| == |s| && d != 0.0
    requires forall j | 0 <= j < |s| :: s[j] == (a[j] - b[j]) / d
    ensures Sum(s) == (Sum(a) - Sum(b)) / d
  {
    if |s| > 0 {
      var n := |s| - 1;
      SumScaledDifference(a[..n], b[..n], s[..n], d);
      assert (Sum(a[..n]) - Sum(b[..n])) / d + (a[n] - b[n]) / d == (Sum(a[..n]) + a[n] - (Sum(b[..n]) + b[n])) / d;
    }
  }

  /** The sequence of length n that is v at `target` and zero elsewhere. */
  function Spike(n: nat, target: nat, v: real): (s: seq<real>)
    requires target < n
    ensures |s| == n && s[target] == v
    ensures forall j | 0 <= j < n && j != target :: s[j] == 0.0
  {
    seq(n, j requires 0 <= j < n => if j == target then v else 0.0)
  }

  /** A gradient row is the indicator of the positive margins minus num_pos at the label, divided by N. */
  lemma GradientRowIsScaledDifference(m: seq<real>, target: nat, N: nat)
    requires target < |m| && m[target] == 0.0 && N > 0
    ensures forall j | 0 <= j < |m| ::
      GradientRow(m, target, N)[j] == (Indicator(m)[j] - Spike(|m|, target, PositiveCount(m) as real)[j]) / (N as real)
  {
  }

  /** A gradient row sums to zero. */
  lemma GradientRowSum(m: seq<real>, target: nat, N: nat)
    requires target < |m| && m[target] == 0.0 && N > 0
    ensures Sum(GradientRow(m, target, N)) == 0.0
  {
    var spike := Spike(|m|, target, PositiveCount(m) as real);
    GradientRowIsScaledDifference(m, target, N);
    SumScaledDifference(Indicator(m), spike, GradientRow(m, target, N), N as real);
    IndicatorSum(m);
    SumSingle(spike, target);
  }

  /**
    Every row of the gradient sums to zero: what the positive margins add is
    taken back at the label.
    */
  lemma GradientRowSumsToZero(x: seq<seq<real>>, y: seq<nat>, i: nat)
    requires IsBatch(x, y) && i < |x|
    ensures Sum(Gradient(x, y)[i]) == 0.0
  {
    GradientRowSum(Margins(x, y)[i], y[i], |x|);
  }
}

