/**
 * The page count of a paginated list: `Math.ceil(total / perPage)`.
 */
module Paging {
  /** `Math.ceil(a / b)` for a positive divisor. */
  function CeilDiv(a: int, b: int): (r: int)
    requires b > 0
    ensures (r - 1) * b < a <= r * b
  {
    var q := (-a) / b;
    assert -a == q * b + (-a) % b;
    -q
  }

  /** The ceiling is the only number whose multiples bracket `a` so. */
  lemma {:induction false} CeilDivUnique(a: int, b: int, r: int)
    requires b > 0 && (r - 1) * b < a <= r * b
    ensures r == CeilDiv(a, b)
  {
    var c := CeilDiv(a, b);
    if r < c {
      assert r * b <= (c - 1) * b by { MulMono(r, c - 1, b); }
      assert false;
    } else if r > c {
      assert c * b <= (r - 1) * b by { MulMono(c, r - 1, b); }
      assert false;
    }
  }

  lemma MulMono(x: int, y: int, b: int)
    requires x <= y && b > 0
    ensures x * b <= y * b
  {
    assert y * b - x * b == (y - x) * b;
  }
}
