/** Integer division, as C has it and as Dafny has it. */
module Arithmetic {

  /** C's division and remainder, which round toward zero. */
  function TruncDiv(a: int, b: int): int
    requires b > 0
  {
    if a >= 0 then a / b else -((-a) / b)
  }

  function TruncMod(a: int, b: int): int
    requires b > 0
  {
    a - b * TruncDiv(a, b)
  }

  /** Quotient and remainder are determined by the division equation. */
  lemma Division(x: int, d: int, q: int, r: int)
    requires 0 <= r < d && x == q * d + r
    ensures x / d == q && x % d == r
  {
    var q', r' := x / d, x % d;
    assert x == q' * d + r';
    assert (q - q') * d == q * d - q' * d;
    SmallMultipleIsZero(q - q', d);
  }

  lemma SmallMultipleIsZero(n: int, d: int)
    requires -d < n * d < d
    ensures n == 0
  {
    if n >= 1 {
      AtLeastOneMultiple(n, d);
    } else if n <= -1 {
      AtLeastOneMultiple(-n, d);
    }
  }

  lemma AtLeastOneMultiple(n: int, d: int)
    requires n >= 1 && d > 0
    ensures n * d >= d
  {
  }

  lemma ProductIsNat(m: nat, n: nat)
    ensures m * n >= 0
  {
  }

  lemma FactorIsSmaller(m: nat, n: nat, d: nat)
    requires m * d < n * d
    ensures m < n
  {
  }
}
