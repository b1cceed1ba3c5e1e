/** Powers of two, and quotients and remainders of products. */
module Arithmetic {

  function Pow2(n: nat): (p: nat)
    ensures p > 0
  {
    if n == 0 then 1 else 2 * Pow2(n - 1)
  }

  lemma {:induction false} Pow2Grows(m: nat, n: nat)
    requires m <= n
    ensures Pow2(m) <= Pow2(n)
    decreases n
  {
    if m < n { Pow2Grows(m, n - 1); }
  }

  lemma AtLeastOnce(k: int, width: int)
    requires k >= 1 && width >= 0
    ensures k * width >= width
  {
    assert (k - 1) * width >= 0;
  }

  lemma ZeroMultiple(k: int, width: int)
    requires 0 < width && -width < k * width < width
    ensures k == 0
  {
    if k >= 1 {
      AtLeastOnce(k, width);
      assert false;
    }
    if k <= -1 {
      AtLeastOnce(-k, width);
      assert false;
    }
  }

  lemma Quotient(n: nat, p: nat)
    requires p > 0
    ensures n == (n / p) * p + n % p
  {
  }

  /** A quotient and a small enough remainder are the quotient and the remainder. */
  lemma ModOf(n: nat, width: nat, q: int, r: nat)
    requires width > 0 && n == q * width + r && r < width
    ensures n % width == r && n / width == q
  {
    var k := q - n / width;
    assert k * width == n % width - r;
    ZeroMultiple(k, width);
  }
}
