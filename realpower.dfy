/** Natural powers of reals, used to state the batch radius of the r-disk
    roadmap through its power law instead of a fractional exponent. */
module RealPower {

  /** x raised to the natural power n. */
  function Pow(x: real, n: nat): real
  {
    if n == 0 then 1.0 else x * Pow(x, n - 1)
  }

  lemma {:induction false} PowPositive(x: real, n: nat)
    requires 0.0 < x
    ensures 0.0 < Pow(x, n)
  {
    if n > 0 {
      PowPositive(x, n - 1);
    }
  }

  lemma {:induction false} PowOne(n: nat)
    ensures Pow(1.0, n) == 1.0
  {
    if n > 0 {
      PowOne(n - 1);
    }
  }

  /** Powers distribute over products. */
  lemma {:induction false} PowMul(x: real, y: real, n: nat)
    ensures Pow(x * y, n) == Pow(x, n) * Pow(y, n)
  {
    if n > 0 {
      PowMul(x, y, n - 1);
      var a, b := Pow(x, n - 1), Pow(y, n - 1);
      assert Pow(x * y, n) == (x * y) * (a * b);
      assert (x * y) * (a * b) == (x * a) * (y * b);
    }
  }

  /** On positive reals a positive power is strictly increasing. */
  lemma {:induction false} PowStrictlyIncreasing(x: real, y: real, n: nat)
    requires 0.0 < x < y
    requires 1 <= n
    ensures Pow(x, n) < Pow(y, n)
  {
    if n > 1 {
      PowStrictlyIncreasing(x, y, n - 1);
      PowPositive(x, n - 1);
      var px, py := Pow(x, n - 1), Pow(y, n - 1);
      assert x * px < y * px;
      assert y * px < y * py;
    }
  }

  /** Positive n-th roots are unique. */
  lemma RootUnique(x: real, y: real, n: nat)
    requires 0.0 < x && 0.0 < y
    requires 1 <= n
    requires Pow(x, n) == Pow(y, n)
    ensures x == y
  {
    if x < y {
      PowStrictlyIncreasing(x, y, n);
    } else if y < x {
      PowStrictlyIncreasing(y, x, n);
    }
  }
}
