/** The few facts about products and remainders the proofs need, by induction
    so that the solver only ever sees one product step. */
module Arithmetic {

  lemma {:induction false} MultiplesApart(n: int, a: int, b: int)
    requires n > 0 && a < b
    ensures n * a + n <= n * b
    decreases b - a
  {
    if a < b - 1 { MultiplesApart(n, a, b - 1); }
  }

  lemma Remainder(x: int, q: int, r: nat, n: nat)
    requires r < n && x == n * q + r
    ensures x % n == r
  {
    var p := x / n;
    assert x == n * p + x % n;
    if p < q { MultiplesApart(n, p, q); }
    if q < p { MultiplesApart(n, q, p); }
  }
}
