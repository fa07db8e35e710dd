/** JavaScript numbers as the status scripts see them: a finite value, NaN or
    an infinity. Finite values are exact reals; rounding to double precision
    is not modelled. */
module Numbers {

  datatype Num = Finite(value: real) | NaN | Infinity(negative: bool)

  /** Number.isFinite on a number. */
  predicate IsFinite(n: Num)
  {
    n.Finite?
  }

  /** Math.floor of a finite number. */
  function Floor(x: real): (r: int)
    ensures r as real <= x < r as real + 1.0
  {
    x.Floor
  }

  /** Quotient and remainder of a division by a positive number are the only
      such pair. */
  lemma DivUnique(n: int, d: int, q: int, r: int)
    requires d > 0 && 0 <= r < d && n == d * q + r
    ensures n / d == q && n % d == r
  {
    var q', r' := n / d, n % d;
    if q' < q {
      MulAtLeast(d, q - q');
      assert false;
    } else if q' > q {
      MulAtLeast(d, q' - q);
      assert false;
    }
  }

  lemma {:induction false} MulAtLeast(d: int, k: int)
    requires d > 0 && k >= 1
    ensures d * k >= d
    decreases k
  {
    if k > 1 {
      MulAtLeast(d, k - 1);
      assert d * k == d * (k - 1) + d;
    }
  }
}
