/** Facts about products and quotients, stated one at a time so proofs stay linear. */
module Arithmetic {

  lemma MulMono(a: int, b: int, c: int)
    ensures a <= b && c >= 0 ==> a * c <= b * c
  {
  }

  lemma Distribute(a: int, b: int, c: int)
    ensures (a + b) * c == a * c + b * c
  {
  }

  lemma Rotate(a: int, b: int, c: int)
    ensures (a * b) * c == (a * c) * b
    ensures (a * b) * c == a * (b * c)
  {
  }

  lemma DivisionBounds(n: int, d: int)
    requires d > 0
    ensures (n / d) * d <= n < (n / d) * d + d
  {
  }

  /** A quotient is the only integer whose multiple brackets the dividend. */
  lemma QuotientIsUnique(n: int, d: int, q: int)
    requires d > 0 && q * d <= n < q * d + d
    ensures n / d == q
  {
    DivisionBounds(n, d);
    var p := n / d;
    MulMono(p + 1, q, d);
    MulMono(q + 1, p, d);
    Distribute(p, 1, d);
    Distribute(q, 1, d);
  }
}
