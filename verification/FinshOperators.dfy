/** The long operators of finsh_ops.c on 32-bit words, and what they compute: the C
    operators, bit by bit or as numbers. */
module FinshOperators {
  import opened Basics

  type Word = x: int | 0 <= x < 0x1_0000_0000

  datatype BinOp = Add | Sub | Mul | Div | Mod | And | Or | Xor | Shl | Shr

  function Wrap(x: int): Word {
    x % 0x1_0000_0000
  }

  /** The value of a slot read as a C long. */
  function Signed(w: Word): int {
    if w < 0x8000_0000 then w else w - 0x1_0000_0000
  }

  /** C division: the quotient is truncated toward zero. */
  function TruncDiv(a: int, b: int): (q: int)
    requires b != 0
  {
    var n := (if a < 0 then -a else a) / (if b < 0 then -b else b);
    if (a < 0) == (b < 0) then n else -n
  }

  datatype BitTable = BitTable(both: nat, one: nat)

  /** Bit by bit over n bits: a position set in both operands gives t.both, one
      set in only one of them gives t.one. */
  function Bitwise(t: BitTable, a: nat, b: nat, n: nat): (r: nat)
    requires t.both <= 1 && t.one <= 1
    ensures r < Pow2(n)
  {
    if n == 0 then 0
    else
      var bit := if a % 2 == 1 && b % 2 == 1 then t.both else if a % 2 == 1 || b % 2 == 1 then t.one else 0;
      2 * Bitwise(t, a / 2, b / 2, n - 1) + bit
  }

  function Word32(x: nat): Word
    requires x < Pow2(32)
  {
    Pow2Of32();
    x
  }

  lemma Pow2Of32()
    ensures Pow2(32) == 0x1_0000_0000
  {
    assert Pow2(8) == 0x100;
    assert Pow2(16) == 0x1_0000;
    assert Pow2(24) == 0x100_0000;
  }

  /** The long operators. None stands for what C leaves undefined: a zero divisor,
      the one quotient that does not fit, and a shift count outside 0..31. */
  function Apply(op: BinOp, a: Word, b: Word): Option<Word> {
    match op
    case Add => Some(Wrap(a + b))
    case Sub => Some(Wrap(a - b))
    case Mul => Some(Wrap(a * b))
    case Div =>
      if b == 0 || (a == 0x8000_0000 && b == 0xFFFF_FFFF) then None
      else Some(Wrap(TruncDiv(Signed(a), Signed(b))))
    case Mod =>
      if b == 0 || (a == 0x8000_0000 && b == 0xFFFF_FFFF) then None
      else Some(Wrap(Signed(a) - Signed(b) * TruncDiv(Signed(a), Signed(b))))
    case And => Some(Word32(Bitwise(BitTable(1, 0), a, b, 32)))
    case Or => Some(Word32(Bitwise(BitTable(1, 1), a, b, 32)))
    case Xor => Some(Word32(Bitwise(BitTable(0, 1), a, b, 32)))
    case Shl => if b < 32 then Some(Wrap(a * Pow2(b))) else None
    case Shr => if b < 32 then Some(Wrap(Signed(a) / Pow2(b))) else None
  }

  function Complement(a: Word): Word {
    0xFFFF_FFFF - a
  }

  // ---------------------------------------------------- what they must compute

  /** Bit k of a word. */
  predicate BitAt(w: nat, k: nat) {
    w / Pow2(k) % 2 == 1
  }

  predicate Congruent(x: int, y: int) {
    (x - y) % WORD == 0
  }

  /** The remainder of a division that truncates: smaller than the divisor, and of the
      sign of the dividend. */
  predicate Remainder(a: int, b: int, m: int) {
    -Abs(b) < m < Abs(b) && (m == 0 || (m < 0 <==> a < 0))
  }

  function Abs(x: int): int {
    if x < 0 then -x else x
  }

  /** Where C defines the operator. */
  predicate Defined(op: BinOp, a: Word, b: Word) {
    match op
    case Div => b != 0 && !(a == 0x8000_0000 && b == 0xFFFF_FFFF)
    case Mod => b != 0 && !(a == 0x8000_0000 && b == 0xFFFF_FFFF)
    case Shl => b < 32
    case Shr => b < 32
    case _ => true
  }

  /** The result C asks for. */
  ghost predicate Computes(op: BinOp, a: Word, b: Word, r: Word) {
    match op
    case Add => Congruent(r, a + b)
    case Sub => Congruent(r, a - b)
    case Mul => Congruent(r, a * b)
    case Div => Remainder(Signed(a), Signed(b), Signed(a) - Signed(r) * Signed(b))
    case Mod => b != 0 && (Signed(a) - Signed(r)) % Signed(b) == 0 && Remainder(Signed(a), Signed(b), Signed(r))
    case And => forall k: nat :: k < 32 ==> (BitAt(r, k) <==> BitAt(a, k) && BitAt(b, k))
    case Or => forall k: nat :: k < 32 ==> (BitAt(r, k) <==> BitAt(a, k) || BitAt(b, k))
    case Xor => forall k: nat :: k < 32 ==> (BitAt(r, k) <==> BitAt(a, k) != BitAt(b, k))
    case Shl => Congruent(r, a * Pow2(b))
    case Shr => Signed(r) * Pow2(b) <= Signed(a) < (Signed(r) + 1) * Pow2(b)
  }

  /** A slot as a C long: the number of that residue in the range of a long. */
  lemma SignedIs(w: Word)
    ensures -0x8000_0000 <= Signed(w) < 0x8000_0000 && Congruent(Signed(w), w)
  {
  }

  lemma WrapSigned(x: int)
    requires -0x8000_0000 <= x < 0x8000_0000
    ensures Signed(Wrap(x)) == x
  {
  }

  lemma WrapIs(x: int)
    ensures Congruent(Wrap(x), x)
  {
    assert x == x / WORD * WORD + x % WORD;
    assert Wrap(x) - x == -(x / WORD) * WORD;
  }

  // -------------------------------------------------------------- bit by bit

  /** What the table makes of two bits. */
  predicate TableBit(t: BitTable, p: bool, q: bool)
    requires t.both <= 1 && t.one <= 1
  {
    if p && q then t.both == 1 else if p || q then t.one == 1 else false
  }

  lemma {:induction false} BitwiseAt(t: BitTable, a: nat, b: nat, n: nat, k: nat)
    requires t.both <= 1 && t.one <= 1 && k < n
    ensures BitAt(Bitwise(t, a, b, n), k) <==> TableBit(t, BitAt(a, k), BitAt(b, k))
  {
    hide BitAt;
    var r := Bitwise(t, a, b, n);
    BitStep(a, k);
    BitStep(b, k);
    BitStep(r, k);
    if k > 0 {
      BitwiseAt(t, a / 2, b / 2, n - 1, k - 1);
      assert r / 2 == Bitwise(t, a / 2, b / 2, n - 1);
    }
  }

  /** A bit is the lowest one, or a bit of the half. */
  lemma BitStep(w: nat, k: nat)
    ensures k == 0 ==> (BitAt(w, 0) <==> w % 2 == 1)
    ensures k > 0 ==> (BitAt(w, k) <==> BitAt(w / 2, k - 1))
  {
    if k > 0 { Halves(w, Pow2(k - 1)); }
  }

  lemma Halves(w: nat, m: nat)
    requires m > 0
    ensures w / (2 * m) == w / 2 / m
  {
    var q, r := w / 2 / m, w / 2 % m;
    assert w / 2 == q * m + r;
    assert w == q * (2 * m) + (2 * r + w % 2) by { assert w == 2 * (w / 2) + w % 2; }
    Quotient(q, 2 * m, 2 * r + w % 2);
  }

  lemma Quotient(q: nat, m: nat, r: nat)
    requires r < m
    ensures (q * m + r) / m == q
  {
    var n := q * m + r;
    var q', r' := n / m, n % m;
    if q' > q { Spread(q', q, m); }
    if q > q' { Spread(q, q', m); }
  }

  // ------------------------------------------------------------- the operators

  lemma TruncIs(a: int, b: int)
    requires b != 0
    ensures Remainder(a, b, a - TruncDiv(a, b) * b) && Abs(a - TruncDiv(a, b) * b) <= Abs(a)
    ensures Abs(TruncDiv(a, b)) == Abs(a) / Abs(b) <= Abs(a)
  {
    var p, d := Abs(a), Abs(b);
    var n, r := p / d, p % d;
    Euclid(p, d);
    Signs(n, d);
    assert TruncDiv(a, b) * b == if a < 0 then -(n * d) else n * d;
  }

  lemma Euclid(p: nat, d: nat)
    requires d > 0
    ensures p == p / d * d + p % d && p % d < d && p % d <= p && p / d <= p
  {
    Smaller(p / d, d);
  }

  lemma Smaller(n: nat, d: nat)
    requires d > 0
    ensures n <= n * d
  {
  }

  lemma Signs(n: int, d: int)
    ensures (-n) * d == -(n * d) && n * (-d) == -(n * d) && (-n) * (-d) == n * d
  {
  }

  lemma DivIs(a: Word, b: Word)
    requires Defined(Div, a, b)
    ensures Apply(Div, a, b).Some? && Computes(Div, a, b, Apply(Div, a, b).value)
  {
    hide TruncDiv, Remainder;
    var x, y := Signed(a), Signed(b);
    var q := TruncDiv(x, y);
    TruncIs(x, y);
    assert q != 0x8000_0000 by { if q == 0x8000_0000 { NoOverflow(a, b); } }
    WrapSigned(q);
  }

  /** The one quotient that is out of range is that of the least number by -1. */
  lemma NoOverflow(a: Word, b: Word)
    requires Defined(Div, a, b)
    ensures TruncDiv(Signed(a), Signed(b)) != 0x8000_0000
  {
    var p, d := Abs(Signed(a)), Abs(Signed(b));
    var n := p / d;
    Euclid(p, d);
    if n == 0x8000_0000 {
      Twice(n, d);
      assert d == 1 && p == n;
    }
  }

  lemma Twice(n: nat, d: nat)
    ensures d > 1 ==> 2 * n <= n * d
  {
  }

  lemma ModIs(a: Word, b: Word)
    requires Defined(Mod, a, b)
    ensures Apply(Mod, a, b).Some? && Computes(Mod, a, b, Apply(Mod, a, b).value)
  {
    hide TruncDiv;
    var x, y := Signed(a), Signed(b);
    var q := TruncDiv(x, y);
    TruncIs(x, y);
    assert y * q == q * y;
    var m := x - q * y;
    WrapSigned(m);
    assert x - m == q * y;
    MultipleOf(q, y);
  }

  lemma MultipleOf(q: int, y: int)
    requires y != 0
    ensures q * y % y == 0
  {
    var n, d := Abs(q), Abs(y);
    Signs(n, d);
    Quotient(n, d, 0);
    var x := n * d;
    assert x % d == 0 by { Euclid(x, d); }
    Flip(x, d);
    assert q * y == x || q * y == -x;
    assert q * y % y == q * y % d;
  }

  lemma Flip(x: int, d: int)
    requires d > 0 && x % d == 0
    ensures -x % d == 0 && x % -d == 0 && -x % -d == 0
  {
    var k := x / d;
    assert x == k * d;
    assert -x == (-k) * d;
    var k', r' := -x / d, -x % d;
    Signs(k, d);
    if k' > -k { Gap(k', -k, d); }
    if -k > k' { Gap(-k, k', d); }
  }

  lemma Gap(a: int, b: int, d: int)
    requires d > 0 && a > b
    ensures a * d >= b * d + d
  {
    assert (a - b - 1) * d >= 0;
    assert a * d == b * d + d + (a - b - 1) * d;
  }

  lemma ShrIs(a: Word, b: Word)
    requires b < 32
    ensures Apply(Shr, a, b).Some? && Computes(Shr, a, b, Apply(Shr, a, b).value)
  {
    var x, p := Signed(a), Pow2(b);
    var q := x / p;
    assert x == q * p + x % p;
    assert q * p <= x < q * p + p;
    assert -0x8000_0000 <= q < 0x8000_0000 by { Shrinks(x, p); }
    WrapSigned(q);
  }

  lemma Shrinks(x: int, p: nat)
    requires p > 0 && -0x8000_0000 <= x < 0x8000_0000
    ensures -0x8000_0000 <= x / p < 0x8000_0000
  {
  }

  lemma BitsAre(op: BinOp, a: Word, b: Word)
    requires op.And? || op.Or? || op.Xor?
    ensures Apply(op, a, b).Some? && Computes(op, a, b, Apply(op, a, b).value)
  {
    var t := if op.And? then BitTable(1, 0) else if op.Or? then BitTable(1, 1) else BitTable(0, 1);
    var r := Apply(op, a, b).value;
    assert r == Bitwise(t, a, b, 32);
    hide Bitwise, BitAt, Apply;
    forall k: nat | k < 32 ensures BitAt(r, k) <==> TableBit(t, BitAt(a, k), BitAt(b, k)) { BitwiseAt(t, a, b, 32, k); }
  }

  /** Every operator is defined where C defines it, and computes what C asks for. */
  lemma ApplyComputes(op: BinOp, a: Word, b: Word)
    ensures Apply(op, a, b).Some? <==> Defined(op, a, b)
    ensures Defined(op, a, b) ==> Computes(op, a, b, Apply(op, a, b).value)
  {
    match op
    case Add => WrapIs(a + b);
    case Sub => WrapIs(a - b);
    case Mul => WrapIs(a * b);
    case Shl => if b < 32 { WrapIs(a * Pow2(b)); }
    case Div => if Defined(Div, a, b) { DivIs(a, b); }
    case Mod => if Defined(Mod, a, b) { ModIs(a, b); }
    case Shr => if b < 32 { ShrIs(a, b); }
    case _ => BitsAre(op, a, b);
  }

  // ------------------------------------------------- and nothing else meets it

  /** Numbers of the same bits are equal. */
  lemma {:induction false} SameBits(r: nat, q: nat, n: nat)
    requires r < Pow2(n) && q < Pow2(n) && forall k: nat :: k < n ==> (BitAt(r, k) <==> BitAt(q, k))
    ensures r == q
  {
    hide BitAt;
    if n > 0 {
      forall k: nat | k < n - 1 ensures BitAt(r / 2, k) <==> BitAt(q / 2, k) {
        BitStep(r, k + 1);
        BitStep(q, k + 1);
        assert BitAt(r, k + 1) <==> BitAt(q, k + 1);
      }
      SameBits(r / 2, q / 2, n - 1);
      BitStep(r, 0);
      BitStep(q, 0);
      assert BitAt(r, 0) <==> BitAt(q, 0);
    }
  }

  /** A multiple of y less than y away from zero is zero. */
  lemma NoMultiple(k: int, y: int)
    requires y != 0 && -Abs(y) < k * y < Abs(y)
    ensures k == 0
  {
    Signs(k, y);
    if k > 0 { Gap(k, 0, Abs(y)); }
    if k < 0 { Gap(0, k, Abs(y)); }
  }

  lemma QuotientOnce(x: int, y: int, q: int, q': int)
    requires y != 0 && Remainder(x, y, x - q * y) && Remainder(x, y, x - q' * y)
    ensures q == q'
  {
    assert (x - q * y) - (x - q' * y) == (q' - q) * y;
    NoMultiple(q' - q, y);
  }

  lemma RemainderOnce(x: int, y: int, m: int, m': int)
    requires y != 0 && Remainder(x, y, m) && Remainder(x, y, m') && (x - m) % y == 0 && (x - m') % y == 0
    ensures m == m'
  {
    var k, k' := (x - m) / y, (x - m') / y;
    assert x - m == k * y && x - m' == k' * y;
    assert m' - m == (k - k') * y;
    NoMultiple(k - k', y);
  }

  lemma FloorOnce(x: int, p: int, q: int, q': int)
    requires p > 0 && q * p <= x < (q + 1) * p && q' * p <= x < (q' + 1) * p
    ensures q == q'
  {
    if q > q' { Gap(q + 1, q' + 1, p); }
    if q' > q { Gap(q' + 1, q + 1, p); }
  }

  lemma ComputesOnce(op: BinOp, a: Word, b: Word, r: Word, q: Word)
    requires Defined(op, a, b) && Computes(op, a, b, r) && Computes(op, a, b, q)
    ensures r == q
  {
    hide BitAt, Remainder, Congruent, Pow2, Signed;
    SignedOnce(r, q);
    match op
    case Add => ResidueOnce(a + b, r, q);
    case Sub => ResidueOnce(a - b, r, q);
    case Mul => ResidueOnce(a * b, r, q);
    case Shl => ResidueOnce(a * Pow2(b), r, q);
    case Div => DivisorSigned(b); QuotientOnce(Signed(a), Signed(b), Signed(r), Signed(q));
    case Mod => DivisorSigned(b); RemainderOnce(Signed(a), Signed(b), Signed(r), Signed(q));
    case Shr => FloorOnce(Signed(a), Pow2(b), Signed(r), Signed(q));
    case _ =>
      Pow2Of32();
      forall k: nat | k < 32 ensures BitAt(r, k) <==> BitAt(q, k) { }
      SameBits(r, q, 32);
  }

  lemma ResidueOnce(x: int, r: Word, q: Word)
    requires Congruent(r, x) && Congruent(q, x)
    ensures r == q
  {
  }

  lemma SignedOnce(r: Word, q: Word)
    ensures Signed(r) == Signed(q) ==> r == q
  {
  }

  lemma DivisorSigned(b: Word)
    ensures b != 0 ==> Signed(b) != 0
  {
  }

  /** Apply is the operators of C: it gives r exactly where C defines the operator and
      asks for r. */
  lemma ApplyIff(op: BinOp, a: Word, b: Word, r: Word)
    ensures Apply(op, a, b) == Some(r) <==> Defined(op, a, b) && Computes(op, a, b, r)
  {
    hide Apply, Computes, Defined;
    ApplyComputes(op, a, b);
    if Defined(op, a, b) && Computes(op, a, b, r) { ComputesOnce(op, a, b, r, Apply(op, a, b).value); }
  }

  /** The complement has every bit flipped. */
  ghost predicate Flipped(a: Word, r: Word) {
    a + r == WORD - 1 && forall k: nat :: k < 32 ==> (BitAt(r, k) <==> !BitAt(a, k))
  }

  lemma ComplementFlips(a: Word)
    ensures Flipped(a, Complement(a))
  {
    hide BitAt;
    Pow2Of32();
    forall k: nat | k < 32 ensures BitAt(Complement(a), k) <==> !BitAt(a, k) { FlipBits(a, 32, k); }
  }

  lemma {:induction false} FlipBits(a: nat, n: nat, k: nat)
    requires a < Pow2(n) && k < n
    ensures BitAt(Pow2(n) - 1 - a, k) <==> !BitAt(a, k)
  {
    hide BitAt;
    var p := Pow2(n - 1);
    var c := Pow2(n) - 1 - a;
    assert Pow2(n) == 2 * p;
    hide Pow2;
    assert c == 2 * (p - 1 - a / 2) + (1 - a % 2);
    BitStep(a, k);
    BitStep(c, k);
    if k > 0 { FlipBits(a / 2, n - 1, k - 1); }
  }
}
