// The two integer helpers every calendar formula is written with.

module Truncation {

  /** Quotient rounded toward zero, as `Math.trunc(a / b)` gives it. Every divisor in the program
      is a positive literal. */
  function Div(a: int, b: int): (q: int)
    requires b > 0
  {
    if a >= 0 then a / b else -(-a / b)
  }

  /** Remainder of `Div`, with the dividend's sign: `a - Div(a, b) * b`, as `Truncates` shows. */
  function Mod(a: int, b: int): (r: int)
    requires b > 0
  {
    if a >= 0 then a % b else -(-a % b)
  }

  /** `Mod` is the program's own `a - Math.trunc(a / b) * b`, and the pair is what truncating
      division is: a remainder shorter than the divisor, on the dividend's side of zero. */
  lemma Truncates(a: int, b: int)
    requires b > 0
    ensures Mod(a, b) == a - Div(a, b) * b
    ensures -b < Mod(a, b) < b
    ensures a >= 0 ==> Mod(a, b) >= 0
    ensures a <= 0 ==> Mod(a, b) <= 0
  {
    if a >= 0 {
      assert a == a / b * b + a % b;
    } else {
      assert -a == -a / b * b + -a % b;
    }
  }

  /** Two multiples of `b` less than `b` apart are the same multiple. */
  lemma SameMultiple(b: int, q: int, p: int)
    requires b > 0 && -b < b * q - b * p < b
    ensures q == p
  {
    var k := q - p;
    assert b * q - b * p == b * k;
    assert k >= 1 ==> b * k >= b;
    assert k <= -1 ==> b * -k >= b;
  }

  /** The only quotient and remainder. */
  lemma Quotient(a: int, b: int, q: int, r: int)
    requires b > 0 && a == b * q + r && 0 <= r < b
    ensures a / b == q && a % b == r
  {
    var p := a / b;
    assert a == b * p + a % b;
    SameMultiple(b, q, p);
  }
}
