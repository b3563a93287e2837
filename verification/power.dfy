/**
  Natural-number powers of reals, the exact stand-in for the element-wise
  `**` the lattice uses to build its rate levels.
 */
module RealPow {

  /** x raised to the natural power n. */
  function Pow(x: real, n: nat): real
    decreases n
  {
    if n == 0 then 1.0 else x * Pow(x, n - 1)
  }

  /** A power of a positive base is positive. */
  lemma {:induction false} PowPositive(x: real, n: nat)
    requires x > 0.0
    ensures Pow(x, n) > 0.0
    decreases n
  {
    if n > 0 {
      PowPositive(x, n - 1);
      assert Pow(x, n) == x * Pow(x, n - 1);
    }
  }

  /** The powers of x and of its reciprocal cancel. */
  lemma {:induction false} PowReciprocal(x: real, n: nat)
    requires x != 0.0
    ensures Pow(1.0 / x, n) * Pow(x, n) == 1.0
    decreases n
  {
    if n > 0 {
      PowReciprocal(x, n - 1);
      calc {
        Pow(1.0 / x, n) * Pow(x, n);
        ((1.0 / x) * Pow(1.0 / x, n - 1)) * (x * Pow(x, n - 1));
        ((1.0 / x) * x) * (Pow(1.0 / x, n - 1) * Pow(x, n - 1));
        1.0;
      }
    }
  }

  /** Two more factors of x: x^(m+2) is x*x times x^m. */
  lemma PowTwoMore(x: real, m: nat)
    ensures Pow(x, m + 2) == (x * x) * Pow(x, m)
  {
    assert Pow(x, m + 2) == x * Pow(x, m + 1);
    assert Pow(x, m + 1) == x * Pow(x, m);
  }
}
