/** Facts about products and quotients that the solver does not find by itself. */
module Arithmetic {

  function Quotient(a: nat, d: nat): nat
    requires d > 0
  {
    a / d
  }

  function Remainder(a: nat, d: nat): (r: nat)
    requires d > 0
    ensures r < d
  {
    a % d
  }

  lemma QuotientRemainder(a: nat, d: nat)
    requires d > 0
    ensures Quotient(a, d) * d + Remainder(a, d) == a
  {}

  lemma MulMonotone(a: nat, b: nat, c: nat)
    requires a <= b
    ensures a * c <= b * c
  {}

  lemma Doubles(a: nat, p: nat)
    ensures 2 * (a * p) == a * (2 * p)
  {}

  lemma MulCommutes(a: nat, b: nat)
    ensures a * b == b * a
  {}

  /** A quotient and a remainder in range are the only ones. */
  lemma DivisionIs(a: nat, d: nat, q: nat, r: nat)
    requires r < d && a == q * d + r
    ensures a / d == q && a % d == r
  {
    var q', r' := a / d, a % d;
    assert a == q' * d + r';
    assert (q + 1) * d == q * d + d && (q' + 1) * d == q' * d + d;
    if q < q' { MulMonotone(q + 1, q', d); }
    if q' < q { MulMonotone(q' + 1, q, d); }
  }
}
