/** Rounded division, bounds, and products that compare as their factors do. */
module Arithmetic {
  function Max(a: int, b: int): int { if a < b then b else a }

  function Min(a: int, b: int): int { if a < b then a else b }

  /** Integer division rounding up, and zero for anything non-positive. */
  function CeilDiv(numerator: int, denominator: int): (q: int)
    ensures 0 <= q
    ensures numerator > 0 && denominator > 0 ==> (q - 1) * denominator < numerator <= q * denominator
    ensures numerator <= 0 || denominator <= 0 ==> q == 0
  {
    if numerator > 0 && denominator > 0 then
      numerator / denominator + (if numerator % denominator != 0 then 1 else 0)
    else
      0
  }

  lemma MulOrder(a: int, b: int, c: int)
    requires c > 0
    ensures a <= b <==> a * c <= b * c
    ensures a < b <==> a * c < b * c
  {
    if a < b {
      MulLess(a, b, c);
    } else if b < a {
      MulLess(b, a, c);
    }
  }

  lemma {:induction false} MulLess(a: int, b: int, c: int)
    requires a < b && c > 0
    ensures a * c < b * c
  {
    if c > 1 {
      MulLess(a, b, c - 1);
      assert a * c == a * (c - 1) + a && b * c == b * (c - 1) + b;
    }
  }

  lemma MulSum(a: int, b: int, c: int, n: int)
    ensures (a + b + c) * n == a * n + b * n + c * n
  {
  }
}
