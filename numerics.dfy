/** The C# numeric conversions and integer operations the server relies on. */
module Numerics {

  const Int32Min: int := -0x8000_0000
  const Int32Max: int := 0x7FFF_FFFF
  const Int64Min: int := -0x8000_0000_0000_0000
  const Int64Max: int := 0x7FFF_FFFF_FFFF_FFFF

  /** The `(long)` cast of a double: truncation toward zero. */
  function Trunc(x: real): (n: int)
    ensures x >= 0.0 ==> n as real <= x < n as real + 1.0
    ensures x < 0.0 ==> n as real - 1.0 < x <= n as real
  {
    if x >= 0.0 then x.Floor else -((-x).Floor)
  }

  /** C# `long` division by a positive divisor: the quotient is truncated toward zero. */
  function TruncDiv(a: int, b: int): (q: int)
    requires b > 0
    ensures a >= 0 ==> q * b <= a < q * b + b
    ensures a < 0 ==> q * b - b < a <= q * b
  {
    if a >= 0 then a / b else -((-a) / b)
  }

  /** Two's-complement wrap-around of a 64-bit result. */
  function Wrap64(x: int): (r: int)
    ensures Int64Min <= r <= Int64Max
    ensures Int64Min <= x <= Int64Max ==> r == x
    ensures (x - r) % 0x1_0000_0000_0000_0000 == 0
  {
    (x - Int64Min) % 0x1_0000_0000_0000_0000 + Int64Min
  }

  /** Truncation toward zero is symmetric about zero. */
  lemma TruncNeg(x: real)
    ensures Trunc(-x) == -Trunc(x)
  {
  }

  /** So is the truncated quotient by a positive divisor. */
  lemma TruncDivNeg(a: int, b: int)
    requires b > 0
    ensures TruncDiv(-a, b) == -TruncDiv(a, b)
  {
  }

  lemma FloorOfInt(n: int, x: real)
    requires n as real <= x < n as real + 1.0
    ensures x.Floor == n
  {
  }
}
