/** Facts about products that the solver does not find by itself. */
module Arithmetic {
  lemma ProductGrows(n: int, m: int, x: int)
    requires n <= m && x >= 0
    ensures n * x <= m * x
  {
    assert m * x - n * x == (m - n) * x;
  }
}
