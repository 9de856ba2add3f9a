/**
 * Natural-number powers of a real, the model of Python's `x ** n` for an
 * integer exponent, with the growth facts the annuity formula relies on.
 */
module Power {

  /** `x` raised to the natural power `n`. */
  function Pow(x: real, n: nat): real
  {
    if n == 0 then 1.0 else x * Pow(x, n - 1)
  }

  /** Multiplying both sides of `b <= c` by a non-negative `a` keeps the order. */
  lemma MulLeftMonotone(a: real, b: real, c: real)
    requires a >= 0.0 && b <= c
    ensures a * b <= a * c
  {
  }

  /** One to any power is one. */
  lemma {:induction false} PowOne(n: nat)
    ensures Pow(1.0, n) == 1.0
  {
    if n > 0 { PowOne(n - 1); }
  }

  /** A base of at least one gives a power of at least one. */
  lemma {:induction false} PowAtLeastOne(x: real, n: nat)
    requires x >= 1.0
    ensures Pow(x, n) >= 1.0
  {
    if n > 0 {
      PowAtLeastOne(x, n - 1);
      assert x * Pow(x, n - 1) >= 1.0 * Pow(x, n - 1);
    }
  }

  /** A base above one gives a power above one for every positive exponent. */
  lemma {:induction false} PowAboveOne(x: real, n: nat)
    requires x > 1.0 && n >= 1
    ensures Pow(x, n) > 1.0
  {
    PowAtLeastOne(x, n - 1);
    assert x * Pow(x, n - 1) > 1.0 * Pow(x, n - 1);
  }

  /** Powers of a base of at least one do not decrease with the exponent. */
  lemma {:induction false} PowMonotone(x: real, k: nat, n: nat)
    requires x >= 1.0 && k <= n
    ensures Pow(x, k) <= Pow(x, n)
  {
    if k < n {
      PowMonotone(x, k, n - 1);
      PowAtLeastOne(x, n - 1);
      assert x * Pow(x, n - 1) >= 1.0 * Pow(x, n - 1);
    }
  }

  /**
   * `(1 + r)^n - 1` vanishes for a non-negative rate and a positive exponent
   * exactly when the rate is zero: the denominator of the annuity formula.
   */
  lemma PowMinusOneZeroIff(r: real, n: nat)
    requires r >= 0.0 && n >= 1
    ensures Pow(1.0 + r, n) - 1.0 == 0.0 <==> r == 0.0
  {
    if r == 0.0 { PowOne(n); } else { PowAboveOne(1.0 + r, n); }
  }

  /** Bernoulli's inequality: `(1 + r)^n >= 1 + n r` for `r >= 0`. */
  lemma {:induction false} Bernoulli(r: real, n: nat)
    requires r >= 0.0
    ensures Pow(1.0 + r, n) >= 1.0 + (n as real) * r
  {
    if n > 0 {
      Bernoulli(r, n - 1);
      var p := Pow(1.0 + r, n - 1);
      MulLeftMonotone(1.0 + r, 1.0 + ((n - 1) as real) * r, p);
      assert (1.0 + r) * (1.0 + ((n - 1) as real) * r)
          == 1.0 + (n as real) * r + ((n - 1) as real) * r * r;
      assert ((n - 1) as real) * r * r >= 0.0;
    }
  }

  /**
   * The growth of `(1 + r)^n` over `n` steps is at most `n` times its final
   * step: `(1 + r)^n - 1 <= n r (1 + r)^n` for `r >= 0`.
   */
  lemma {:induction false} PowGrowthBound(r: real, n: nat)
    requires r >= 0.0
    ensures Pow(1.0 + r, n) - 1.0 <= (n as real) * r * Pow(1.0 + r, n)
  {
    if n > 0 {
      PowGrowthBound(r, n - 1);
      PowMonotone(1.0 + r, n - 1, n);
      GrowthStep(r, Pow(1.0 + r, n - 1), Pow(1.0 + r, n), (n - 1) as real);
    }
  }

  /** One step of the bound above, with the powers abstracted to `p` and `q`. */
  lemma GrowthStep(r: real, p: real, q: real, m: real)
    requires r >= 0.0 && m >= 0.0 && p <= q && q == (1.0 + r) * p
    requires p - 1.0 <= m * r * p
    ensures q - 1.0 <= (m + 1.0) * r * q
  {
    MulLeftMonotone(r, p, q);
    MulLeftMonotone(m * r, p, q);
  }
}
