/** Bitwise operators on natural numbers, and what they do to numbers split at a power of two. */
module Bits {
  import opened Arithmetic

  function Pow2(k: nat): (p: nat)
    ensures p >= 1
  {
    if k == 0 then 1 else 2 * Pow2(k - 1)
  }

  function Xor(a: nat, b: nat): nat
    decreases a + b
  {
    if a == 0 && b == 0 then 0 else (if a % 2 != b % 2 then 1 else 0) + 2 * Xor(a / 2, b / 2)
  }

  function And(a: nat, b: nat): nat
    decreases a
  {
    if a == 0 then 0 else (if a % 2 == 1 && b % 2 == 1 then 1 else 0) + 2 * And(a / 2, b / 2)
  }

  /** The k lowest bits, and what is above them. */
  function Low(a: nat, k: nat): nat { if k == 0 then 0 else a % 2 + 2 * Low(a / 2, k - 1) }

  function High(a: nat, k: nat): nat { if k == 0 then a else High(a / 2, k - 1) }

  /** k zero bits below a. */
  function Raise(a: nat, k: nat): nat { if k == 0 then a else 2 * Raise(a, k - 1) }

  function ShiftRight(a: nat, k: nat): nat { Quotient(a, Pow2(k)) }

  function ShiftLeft(a: nat, k: nat): nat { a * Pow2(k) }

  lemma {:induction false} XorSelf(a: nat)
    ensures Xor(a, a) == 0
  {
    if a > 0 { XorSelf(a / 2); }
  }

  lemma {:induction false} HighLow(a: nat, k: nat)
    ensures a == Raise(High(a, k), k) + Low(a, k) && Low(a, k) < Pow2(k)
    decreases k
  {
    if k > 0 { HighLow(a / 2, k - 1); }
  }

  lemma {:induction false} RaiseGrows(a: nat, k: nat)
    ensures if a == 0 then Raise(a, k) == 0 else Raise(a, k) >= Pow2(k)
  {
    if k > 0 { RaiseGrows(a, k - 1); }
  }

  lemma {:induction false} RaiseMultiplies(a: nat, k: nat)
    ensures Raise(a, k) == a * Pow2(k)
  {
    if k > 0 {
      RaiseMultiplies(a, k - 1);
      Doubles(a, Pow2(k - 1));
    }
  }

  /** The bits of a number are its remainder and its quotient by a power of two. */
  lemma BitsDivide(a: nat, k: nat)
    ensures Low(a, k) == a % Pow2(k) && High(a, k) == a / Pow2(k)
  {
    HighLow(a, k);
    RaiseMultiplies(High(a, k), k);
    DivisionIs(a, Pow2(k), High(a, k), Low(a, k));
  }

  lemma {:induction false} XorRaised(a: nat, k: nat)
    ensures Xor(a, Raise(High(a, k), k)) == Low(a, k)
    decreases k
  {
    if k == 0 {
      XorSelf(a);
    } else {
      XorRaised(a / 2, k - 1);
      RaisedHalves(a, k);
    }
  }

  lemma {:induction false} RaisedHalves(a: nat, k: nat)
    requires k > 0
    ensures Raise(High(a, k), k) == 2 * Raise(High(a / 2, k - 1), k - 1)
    ensures a == 0 ==> Low(a, k) == 0
    decreases k
  {
    if a == 0 { LowZero(k); }
  }

  lemma {:induction false} LowZero(k: nat)
    ensures Low(0, k) == 0
  {
    if k > 0 { LowZero(k - 1); }
  }

  /** Shifting a field out and back and xor-ing keeps exactly the field: `a ^ ((a >> k) << k)` is `a mod 2^k`. */
  lemma XorKeepsLow(a: nat, k: nat)
    ensures Xor(a, ShiftLeft(ShiftRight(a, k), k)) == a % Pow2(k)
  {
    BitsDivide(a, k);
    RaiseMultiplies(High(a, k), k);
    XorRaised(a, k);
  }

  lemma {:induction false} AndZero(a: nat)
    ensures And(a, 0) == 0
  {
    if a > 0 { AndZero(a / 2); }
  }

  lemma {:induction false} AndOnes(a: nat, k: nat)
    ensures And(a, Pow2(k) - 1) == Low(a, k)
    decreases k
  {
    if k == 0 {
      AndZero(a);
    } else if a == 0 {
      LowZero(k);
    } else {
      assert (Pow2(k) - 1) % 2 == 1 && (Pow2(k) - 1) / 2 == Pow2(k - 1) - 1;
      AndOnes(a / 2, k - 1);
    }
  }

  /** Masking with 2^k - 1 takes the remainder. */
  lemma AndLowMask(a: nat, k: nat)
    ensures And(a, Pow2(k) - 1) == a % Pow2(k)
  {
    AndOnes(a, k);
    BitsDivide(a, k);
  }

  lemma {:induction false} AndField(a: nat, k: nat, m: nat)
    requires k <= m
    ensures Pow2(k) <= Pow2(m) && And(a, Pow2(m) - Pow2(k)) == Low(a, m) - Low(a, k)
    decreases k
  {
    Pow2Grows(k, m);
    if k == 0 {
      AndOnes(a, m);
    } else if a == 0 {
      LowZero(k);
      LowZero(m);
    } else {
      AndField(a / 2, k - 1, m - 1);
      var half := Pow2(m - 1) - Pow2(k - 1);
      assert Pow2(m) - Pow2(k) == 2 * half;
    }
  }

  /** Masking with 2^m - 2^k keeps the bits from k up to m. */
  lemma AndFieldMask(a: nat, k: nat, m: nat)
    requires k <= m
    ensures Pow2(k) <= Pow2(m) && And(a, Pow2(m) - Pow2(k)) == a % Pow2(m) - a % Pow2(k)
  {
    AndField(a, k, m);
    BitsDivide(a, k);
    BitsDivide(a, m);
  }

  lemma {:induction false} Pow2Grows(k: nat, m: nat)
    requires k <= m
    ensures Pow2(k) <= Pow2(m)
  {
    if k < m { Pow2Grows(k, m - 1); }
  }

  lemma {:induction false} HighAdds(a: nat, k: nat, m: nat)
    ensures High(High(a, k), m) == High(a, k + m)
    decreases k
  {
    if k > 0 { HighAdds(a / 2, k - 1, m); }
  }
}
