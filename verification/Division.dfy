/** Unsigned 32-bit division by shift and subtract (__udivsi3.c, __umodsi3.c). */
module Division {
  import opened Basics

  /** x << 1 and x >> 1 on 32 bits */
  function ShiftLeft(x: nat): nat {
    2 * x % WORD
  }

  function ShiftRight(x: nat): nat {
    x / 2
  }

  lemma DoubleProduct(d: nat, q: nat)
    ensures d * (2 * q) == 2 * (d * q)
  {
  }

  lemma NextBit(quot: nat, qbit: nat, d: nat)
    ensures (quot + qbit) * d == quot * d + d * qbit
  {
  }

  lemma AtLeast(q: nat, d: nat)
    requires d >= 1
    ensures q <= q * d && q <= d * q
  {
  }

  /** Quotient and remainder are what the division theorem says. */
  lemma {:induction false} Unique(num: nat, d: nat, q: nat, r: nat)
    requires d > 0 && q * d + r == num && r < d
    ensures q == num / d && r == num % d
  {
    var q', r' := num / d, num % d;
    if q' > q { Spread(q', q, d); }
    if q > q' { Spread(q, q', d); }
  }

  /** One turn of the first loop. */
  lemma Doubled(d: nat, qbit: nat, k: nat)
    requires d > 0 && qbit == Pow2(k) && d * qbit < WORD / 2
    ensures ShiftLeft(d * qbit) == d * (2 * qbit) == 2 * (d * qbit) && ShiftLeft(qbit) == 2 * qbit == Pow2(k + 1)
    ensures qbit <= d * qbit
  {
    DoubleProduct(d, qbit);
    AtLeast(qbit, d);
  }

  /** The first loop: the denominator shifted left until its top bit is set. */
  method Justify(d: nat) returns (den: nat, qbit: nat, ghost k: nat)
    requires 0 < d < WORD
    ensures WORD / 2 <= den < WORD && qbit == Pow2(k) && den == d * qbit && qbit < WORD
  {
    den, qbit, k := d, 1, 0;
    while den < WORD / 2
      invariant 0 < den < WORD && qbit == Pow2(k) && den == d * qbit
      decreases WORD - den
    {
      Doubled(d, qbit, k);
      den, qbit, k := ShiftLeft(den), ShiftLeft(qbit), k + 1;
    }
    AtLeast(qbit, d);
  }

  /** The second loop, one quotient bit at a time. */
  method DivideModulo(num: nat, d: nat) returns (quot: nat, rem: nat)
    requires num < WORD && d < WORD
    ensures d == 0 ==> quot == 0 && rem == 0
    ensures d > 0 ==> quot == num / d && rem == num % d
  {
    if d == 0 {
      return 0, 0;
    }
    var den, qbit;
    ghost var k;
    den, qbit, k := Justify(d);
    quot, rem := 0, num;
    while qbit > 0
      invariant quot * d + rem == num && quot < WORD
      invariant qbit > 0 ==> qbit == Pow2(k) && den == d * qbit && rem < 2 * den
      invariant qbit == 0 ==> rem < d
      decreases qbit
    {
      if den <= rem {
        NextBit(quot, qbit, d);
        AtLeast(quot + qbit, d);
        rem := rem - den;
        quot := quot + qbit;
      }
      if k > 0 {
        DoubleProduct(d, Pow2(k - 1));
        k := k - 1;
      }
      den, qbit := ShiftRight(den), ShiftRight(qbit);
    }
    Unique(num, d, quot, rem);
  }
}
