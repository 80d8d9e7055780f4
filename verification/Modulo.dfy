/** Division by a variable capacity. */
module Modulo {

  /** Quotient and remainder are unique. */
  lemma ModUnique(x: int, cap: int, q: int, r: int)
    requires 0 <= r < cap && x == q * cap + r
    ensures x % cap == r && x / cap == q
  {
    var q', r' := x / cap, x % cap;
    assert x == q' * cap + r' && 0 <= r' < cap;
    assert (q - q') * cap == r' - r;
    if q > q' { MulAtLeast(q - q', cap); }
    if q < q' { MulAtLeast(q' - q, cap); }
  }

  lemma MulAtLeast(k: int, cap: int)
    requires k >= 1 && cap >= 1
    ensures k * cap >= cap
  {
    assert (k - 1) * cap >= 0;
    assert k * cap == (k - 1) * cap + cap;
  }

  lemma ModPlus(x: int, cap: int)
    requires cap > 0
    ensures (x + cap) % cap == x % cap
  {
    var q, r := x / cap, x % cap;
    assert x + cap == (q + 1) * cap + r;
    ModUnique(x + cap, cap, q + 1, r);
  }

  lemma ModSmall(x: int, cap: int)
    requires 0 <= x < cap
    ensures x % cap == x
  {
    ModUnique(x, cap, 0, x);
  }
}
