/**
  Row-major (C-order) flattening of multi-indices: the layout that numpy's
  `flatten` and `reshape` use, and the explicit column and row numbers that the
  naive convolution and pooling layers compute by hand.  Each flattening
  function takes the full shape, so that its contract can say the flat position
  is inside the flattened array.
  */
module Index {

  /** Position of entry (a, b) of an (na, nb) matrix laid out row by row. */
  function Flatten2(a: nat, b: nat, na: nat, nb: nat): (x: nat)
    requires a < na && b < nb
    ensures x < na * nb
  {
    MulMono(a + 1, na, nb);
    a * nb + b
  }

  /** Position of (a, b, c) in a row-major (na, nb, nc) block: the source's `i*Hs*Ws + j*Ws + k`. */
  function Flatten3(a: nat, b: nat, c: nat, na: nat, nb: nat, nc: nat): (x: nat)
    requires a < na && b < nb && c < nc
    ensures x < na * nb * nc
    ensures x == a * nb * nc + b * nc + c
  {
    var ab := Flatten2(a, b, na, nb);
    assert ab * nc == a * nb * nc + b * nc;
    Flatten2(ab, c, na * nb, nc)
  }

  /**
    Position of (a, b, c, d) in a row-major (na, nb, nc, nd) block: `i*C*Hs*Ws + j*Hs*Ws + k*Ws + t`.
    It is the 3-index position of (plane, c, d), plane = a*nb + b numbering the (a, b) planes.
    */
  function Flatten4(a: nat, b: nat, c: nat, d: nat, na: nat, nb: nat, nc: nat, nd: nat): (x: nat)
    requires a < na && b < nb && c < nc && d < nd
    ensures x < na * nb * nc * nd
    ensures x == a * nb * nc * nd + b * nc * nd + c * nd + d
  {
    var plane := Flatten2(a, b, na, nb);
    assert plane * nc * nd == a * nb * nc * nd + b * nc * nd;
    Flatten3(plane, c, d, na * nb, nc, nd)
  }

  // Decoding a flat position back into its multi-index.

  function Outer2(x: nat, nb: nat): nat
    requires nb > 0
  {
    x / nb
  }

  function Inner2(x: nat, nb: nat): nat
    requires nb > 0
  {
    x % nb
  }

  function Outer3(x: nat, nb: nat, nc: nat): nat
    requires nb > 0 && nc > 0
  {
    x / nc / nb
  }

  function Mid3(x: nat, nb: nat, nc: nat): nat
    requires nb > 0 && nc > 0
  {
    x / nc % nb
  }

  function Inner3(x: nat, nc: nat): nat
    requires nc > 0
  {
    x % nc
  }

  /** Quotient and remainder are determined by any decomposition with a remainder in range. */
  lemma DivModUnique(x: int, q: int, r: int, d: int)
    requires d > 0 && 0 <= r < d && x == q * d + r
    ensures x / d == q && x % d == r
  {
    var q', r' := x / d, x % d;
    assert x == q' * d + r';
    assert (q - q') * d == r' - r;
    if q > q' {
      assert (q - q') * d >= d by { MulAtLeast(q - q', d); }
    } else if q < q' {
      assert (q' - q) * d >= d by { MulAtLeast(q' - q, d); }
    }
  }

  lemma MulAtLeast(m: int, d: int)
    requires m >= 1 && d >= 0
    ensures m * d >= d
  {
  }

  lemma MulMono(a: nat, b: nat, c: nat)
    requires a <= b
    ensures a * c <= b * c
  {
  }

  /** The next block of a row-major layout starts one block size further on. */
  lemma NextBlock2(a: nat, b: nat)
    ensures a * b + b == (a + 1) * b
  {
  }

  lemma NextBlock3(a: nat, b: nat, c: nat)
    ensures a * b * c + b * c == (a + 1) * b * c
  {
  }

  lemma NextBlock4(a: nat, b: nat, c: nat, d: nat)
    ensures a * b * c * d + b * c * d == (a + 1) * b * c * d
  {
    NextBlock3(a, b, c);
  }

  lemma MulAssoc(a: nat, b: nat, c: nat)
    ensures a * (b * c) == a * b * c
  {
  }

  /** A 3-index flattens as the block number a followed by the position (b, c) inside the block. */
  lemma Flatten3Nested(a: nat, b: nat, c: nat, na: nat, nb: nat, nc: nat)
    requires a < na && b < nb && c < nc
    ensures na * (nb * nc) == na * nb * nc
    ensures Flatten3(a, b, c, na, nb, nc) == Flatten2(a, Flatten2(b, c, nb, nc), na, nb * nc)
  {
    MulAssoc(na, nb, nc);
    MulAssoc(a, nb, nc);
  }

  lemma {:induction false} Flatten2Decode(a: nat, b: nat, na: nat, nb: nat)
    requires a < na && b < nb
    ensures Outer2(Flatten2(a, b, na, nb), nb) == a && Inner2(Flatten2(a, b, na, nb), nb) == b
  {
    DivModUnique(Flatten2(a, b, na, nb), a, b, nb);
  }

  /** Every position below na*nb is the flat position of an in-range pair. */
  lemma {:induction false} Flatten2Encode(x: nat, na: nat, nb: nat)
    requires nb > 0 && x < na * nb
    ensures Outer2(x, nb) < na && Inner2(x, nb) < nb
    ensures Flatten2(Outer2(x, nb), Inner2(x, nb), na, nb) == x
  {
    assert x == x / nb * nb + x % nb;
    if x / nb >= na {
      MulMono(na, x / nb, nb);
      assert false;
    }
  }

  /** The flat position of an in-range 3-index decodes back to that 3-index. */
  lemma {:induction false} Flatten3Decode(a: nat, b: nat, c: nat, na: nat, nb: nat, nc: nat)
    requires a < na && b < nb && c < nc
    ensures Outer3(Flatten3(a, b, c, na, nb, nc), nb, nc) == a
    ensures Mid3(Flatten3(a, b, c, na, nb, nc), nb, nc) == b
    ensures Inner3(Flatten3(a, b, c, na, nb, nc), nc) == c
  {
    var ab := Flatten2(a, b, na, nb);
    assert Flatten3(a, b, c, na, nb, nc) == Flatten2(ab, c, na * nb, nc);
    Flatten2Decode(ab, c, na * nb, nc);
    Flatten2Decode(a, b, na, nb);
  }

  /** Every position below na*nb*nc is the flat position of an in-range 3-index. */
  lemma {:induction false} Flatten3Encode(x: nat, na: nat, nb: nat, nc: nat)
    requires nb > 0 && nc > 0 && x < na * nb * nc
    ensures Outer3(x, nb, nc) < na && Mid3(x, nb, nc) < nb && Inner3(x, nc) < nc
    ensures Flatten3(Outer3(x, nb, nc), Mid3(x, nb, nc), Inner3(x, nc), na, nb, nc) == x
  {
    var y := x / nc;
    assert x == y * nc + x % nc;
    assert y == y / nb * nb + y % nb;
    assert x == (y / nb * nb + y % nb) * nc + x % nc;
    if y / nb >= na {
      MulMono(na, y / nb, nb);
      MulMono(na * nb, y, nc);
      assert false;
    }
  }

  /** Distinct in-range 3-indices have distinct flat positions. */
  lemma {:induction false} Flatten3Injective(a: nat, b: nat, c: nat, a': nat, b': nat, c': nat, na: nat, nb: nat, nc: nat)
    requires a < na && b < nb && c < nc && a' < na && b' < nb && c' < nc
    requires Flatten3(a, b, c, na, nb, nc) == Flatten3(a', b', c', na, nb, nc)
    ensures a == a' && b == b' && c == c'
  {
    Flatten3Decode(a, b, c, na, nb, nc);
    Flatten3Decode(a', b', c', na, nb, nc);
  }

  /** The flat position of an in-range 4-index decodes back to its plane a*nb + b and its (c, d). */
  lemma {:induction false} Flatten4Decode(a: nat, b: nat, c: nat, d: nat, na: nat, nb: nat, nc: nat, nd: nat)
    requires a < na && b < nb && c < nc && d < nd
    ensures Outer3(Flatten4(a, b, c, d, na, nb, nc, nd), nc, nd) == Flatten2(a, b, na, nb)
    ensures Mid3(Flatten4(a, b, c, d, na, nb, nc, nd), nc, nd) == c
    ensures Inner3(Flatten4(a, b, c, d, na, nb, nc, nd), nd) == d
    ensures Outer2(Flatten2(a, b, na, nb), nb) == a && Inner2(Flatten2(a, b, na, nb), nb) == b
  {
    var plane := Flatten2(a, b, na, nb);
    assert Flatten4(a, b, c, d, na, nb, nc, nd) == Flatten3(plane, c, d, na * nb, nc, nd);
    Flatten3Decode(plane, c, d, na * nb, nc, nd);
    Flatten2Decode(a, b, na, nb);
  }

  /** Every position below na*nb*nc*nd decodes to an in-range 4-index whose flat position is that position again. */
  lemma {:induction false} Flatten4Encode(x: nat, na: nat, nb: nat, nc: nat, nd: nat)
    requires nb > 0 && nc > 0 && nd > 0 && x < na * nb * nc * nd
    ensures Outer2(Outer3(x, nc, nd), nb) < na && Inner2(Outer3(x, nc, nd), nb) < nb
    ensures Mid3(x, nc, nd) < nc && Inner3(x, nd) < nd
    ensures Flatten4(Outer2(Outer3(x, nc, nd), nb), Inner2(Outer3(x, nc, nd), nb), Mid3(x, nc, nd), Inner3(x, nd), na, nb, nc, nd) == x
  {
    Flatten3Encode(x, na * nb, nc, nd);
    var plane := Outer3(x, nc, nd);
    Flatten2Encode(plane, na, nb);
    var a, b := Outer2(plane, nb), Inner2(plane, nb);
    assert Flatten4(a, b, Mid3(x, nc, nd), Inner3(x, nd), na, nb, nc, nd)
        == Flatten3(Flatten2(a, b, na, nb), Mid3(x, nc, nd), Inner3(x, nd), na * nb, nc, nd);
  }
}
