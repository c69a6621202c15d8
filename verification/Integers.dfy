/** Machine integers and the operations on them that differ from those on mathematical integers. */
module Integers {
  const I32_MIN := -0x8000_0000
  const I32_MAX := 0x7fff_ffff
  const I64_MAX := 0x7fff_ffff_ffff_ffff

  function Min(a: int, b: int): int { if a < b then a else b }

  function Max(a: int, b: int): int { if a < b then b else a }

  /** Integer division that truncates towards zero. */
  function TruncDiv(a: int, b: int): int
    requires b > 0
  {
    if a < 0 then -(-a / b) else a / b
  }

  lemma Quotient(a: int, b: int)
    requires a >= 0 && b > 0
    ensures a / b >= 0 && 0 <= a - (a / b) * b < b
  {
  }

  lemma Negate(q: int, b: int)
    ensures (-q) * b == -(q * b)
  {
  }

  lemma TruncDivNegates(a: int, b: int)
    requires a < 0 && b > 0
    ensures TruncDiv(a, b) == -TruncDiv(-a, b)
  {
  }

  lemma NotNegative(a: int, b: int)
    requires a >= 0 && b > 0
    ensures TruncDiv(a, b) >= 0 && 0 <= a - TruncDiv(a, b) * b < b
  {
    Quotient(a, b);
  }

  /** The remainder is smaller than the divisor; it and the quotient never have the sign opposite to the dividend. */
  lemma TruncDivMeans(a: int, b: int)
    requires b > 0
    ensures a >= 0 ==> TruncDiv(a, b) >= 0 && 0 <= a - TruncDiv(a, b) * b < b
    ensures a < 0 ==> TruncDiv(a, b) <= 0 && -b < a - TruncDiv(a, b) * b <= 0
  {
    hide TruncDiv;
    if a >= 0 {
      NotNegative(a, b);
    } else {
      TruncDivNegates(a, b);
      NotNegative(-a, b);
      Negate(TruncDiv(-a, b), b);
    }
  }

  /** 32-bit addition as a release build does it. */
  function AddI32(a: int, b: int): int { (a + b + 0x8000_0000) % 0x1_0000_0000 - 0x8000_0000 }
}
