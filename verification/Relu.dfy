/**
  The rectified linear unit, elementwise over a tensor of any shape; the tensor
  is taken in its row-major flattening, so both passes work on one sequence.
  */
module Relu {
  import opened Sums

  /**
    `relu_forward`: `np.where(x > 0, x, 0)`.  Each output entry is the larger
    of the input entry and zero: at least both, and equal to one of them.
    */
  function ReluForward(x: seq<real>): (out: seq<real>)
    ensures |out| == |x|
    ensures forall i | 0 <= i < |x| :: out[i] >= 0.0 && out[i] >= x[i]
    ensures forall i | 0 <= i < |x| :: out[i] == x[i] || out[i] == 0.0
  {
    seq(|x|, i requires 0 <= i < |x| => if x[i] > 0.0 then x[i] else 0.0)
  }

  /** Applying the unit twice changes nothing: its output is already non-negative. */
  lemma ReluForwardIdempotent(x: seq<real>)
    ensures ReluForward(ReluForward(x)) == ReluForward(x)
  {
    var out := ReluForward(x);
    assert forall i | 0 <= i < |out| :: ReluForward(out)[i] == out[i];
  }

  /**
    `relu_backward`: `dout * np.where(x > 0, 1, 0)`.  The upstream gradient
    passes where the input was positive and is stopped everywhere else.
    */
  function ReluBackward(dout: seq<real>, x: seq<real>): (dx: seq<real>)
    requires |dout| == |x|
    ensures |dx| == |x|
    ensures forall i | 0 <= i < |x| :: x[i] > 0.0 ==> dx[i] == dout[i]
    ensures forall i | 0 <= i < |x| :: x[i] <= 0.0 ==> dx[i] == 0.0
  {
    seq(|x|, i requires 0 <= i < |x| => dout[i] * (if x[i] > 0.0 then 1.0 else 0.0))
  }

  /** The backward pass stops the gradient exactly where the forward pass outputs zero. */
  lemma ReluBackwardMasksZeros(dout: seq<real>, x: seq<real>, i: nat)
    requires |dout| == |x| && i < |x|
    ensures ReluForward(x)[i] == 0.0 ==> ReluBackward(dout, x)[i] == 0.0
    ensures ReluForward(x)[i] != 0.0 ==> ReluBackward(dout, x)[i] == dout[i]
  {
  }

  /**
    The backward pass is the adjoint of the (positively homogeneous) forward
    pass at x: the inner product of dx with x equals the inner product of dout
    with the output.
    */
  lemma {:induction false} ReluBackwardAdjoint(dout: seq<real>, x: seq<real>)
    requires |dout| == |x|
    ensures Dot(ReluBackward(dout, x), x) == Dot(dout, ReluForward(x))
  {
    if |x| > 0 {
      var n := |x| - 1;
      assert ReluBackward(dout, x)[..n] == ReluBackward(dout[..n], x[..n]);
      assert ReluForward(x)[..n] == ReluForward(x[..n]);
      ReluBackwardAdjoint(dout[..n], x[..n]);
    }
  }
}
