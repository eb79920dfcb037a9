/** The words of the ready bitmap and the search for the lowest set bit
    (scheduler.c). A word is a natural number, taken apart bit by bit from the
    low end. */
module ReadyBits {

  function Bit(n: nat, i: nat): bool
    decreases i
  {
    if i == 0 then n % 2 == 1 else Bit(n / 2, i - 1)
  }

  /** n | (1 << i) */
  function SetBit(n: nat, i: nat): nat
    decreases i
  {
    if i == 0 then n / 2 * 2 + 1 else SetBit(n / 2, i - 1) * 2 + n % 2
  }

  /** n & ~(1 << i) */
  function ClearBit(n: nat, i: nat): nat
    decreases i
  {
    if i == 0 then n / 2 * 2 else ClearBit(n / 2, i - 1) * 2 + n % 2
  }

  /** n >> w */
  function Shift(n: nat, w: nat): nat
    decreases w
  {
    if w == 0 then n else Shift(n / 2, w - 1)
  }

  /** n & ((1 << w) - 1) */
  function Low(n: nat, w: nat): nat
    decreases w
  {
    if w == 0 then 0 else Low(n / 2, w - 1) * 2 + n % 2
  }

  /** n is a word of w bits. */
  predicate Fits(n: nat, w: nat)
    decreases w
  {
    if w == 0 then n == 0 else Fits(n / 2, w - 1)
  }

  lemma {:induction false} SetBitIs(n: nat, i: nat, j: nat)
    ensures Bit(SetBit(n, i), j) <==> Bit(n, j) || i == j
    decreases i
  {
    if i > 0 && j > 0 {
      SetBitIs(n / 2, i - 1, j - 1);
      assert SetBit(n, i) / 2 == SetBit(n / 2, i - 1);
    }
  }

  lemma {:induction false} ClearBitIs(n: nat, i: nat, j: nat)
    ensures Bit(ClearBit(n, i), j) <==> Bit(n, j) && i != j
    decreases i
  {
    if i > 0 && j > 0 {
      ClearBitIs(n / 2, i - 1, j - 1);
      assert ClearBit(n, i) / 2 == ClearBit(n / 2, i - 1);
    }
  }

  lemma {:induction false} SetBitFits(n: nat, i: nat, w: nat)
    requires Fits(n, w) && i < w
    ensures Fits(SetBit(n, i), w)
    decreases w
  {
    if i > 0 {
      SetBitFits(n / 2, i - 1, w - 1);
      assert SetBit(n, i) / 2 == SetBit(n / 2, i - 1);
    } else {
      assert SetBit(n, i) / 2 == n / 2;
    }
  }

  lemma {:induction false} ClearBitFits(n: nat, i: nat, w: nat)
    requires Fits(n, w) && i < w
    ensures Fits(ClearBit(n, i), w)
    decreases w
  {
    if i > 0 {
      ClearBitFits(n / 2, i - 1, w - 1);
      assert ClearBit(n, i) / 2 == ClearBit(n / 2, i - 1);
    } else {
      assert ClearBit(n, i) / 2 == n / 2;
    }
  }

  lemma {:induction false} ZeroBits(j: nat)
    ensures !Bit(0, j)
  {
    if j > 0 { ZeroBits(j - 1); }
  }

  /** A word that is not zero has a set bit. */
  lemma {:induction false} SomeBit(n: nat, w: nat) returns (i: nat)
    requires Fits(n, w) && n != 0
    ensures i < w && Bit(n, i)
    decreases w
  {
    if n % 2 == 1 {
      i := 0;
    } else {
      i := SomeBit(n / 2, w - 1);
      i := i + 1;
    }
  }

  lemma {:induction false} LowBits(n: nat, w: nat, j: nat)
    ensures Bit(Low(n, w), j) <==> j < w && Bit(n, j)
    decreases w
  {
    if w == 0 {
      ZeroBits(j);
    } else if j > 0 {
      assert Low(n, w) / 2 == Low(n / 2, w - 1);
      LowBits(n / 2, w - 1, j - 1);
    }
  }

  lemma {:induction false} ShiftBits(n: nat, w: nat, j: nat)
    ensures Bit(Shift(n, w), j) <==> Bit(n, w + j)
    decreases w
  {
    if w > 0 { ShiftBits(n / 2, w - 1, j); }
  }

  lemma {:induction false} ShiftFits(n: nat, w: nat, v: nat)
    requires Fits(n, w + v)
    ensures Fits(Shift(n, w), v)
    decreases w
  {
    if w > 0 { ShiftFits(n / 2, w - 1, v); }
  }

  lemma {:induction false} LowFits(n: nat, w: nat)
    ensures Fits(Low(n, w), w) && (Fits(n, w) ==> Low(n, w) == n)
    decreases w
  {
    if w > 0 {
      assert Low(n, w) / 2 == Low(n / 2, w - 1);
      LowFits(n / 2, w - 1);
    }
  }

  // -------------------------------------------------------- lowest set bit

  /** k is the lowest set bit of n. */
  ghost predicate IsLowest(n: nat, k: nat) {
    Bit(n, k) && forall j :: 0 <= j < k ==> !Bit(n, j)
  }

  /** The lowest bit of a word is that of its low part, unless that part is zero. */
  lemma LowestSplit(n: nat, w: nat, k: nat)
    requires if Low(n, w) != 0 then IsLowest(Low(n, w), k) else k >= w && IsLowest(Shift(n, w), k - w)
    ensures IsLowest(n, k)
  {
    LowBits(n, w, k);
    if Low(n, w) != 0 {
      forall j | 0 <= j < k ensures !Bit(n, j) { LowBits(n, w, j); }
    } else {
      ShiftBits(n, w, k - w);
      forall j | 0 <= j < k ensures !Bit(n, j) {
        if j < w {
          LowBits(n, w, j);
          ZeroBits(j);
        } else {
          ShiftBits(n, w, j - w);
        }
      }
    }
  }

  const NIBBLES: seq<nat> := [0, 0, 1, 0, 2, 0, 1, 0, 3, 0, 1, 0, 2, 0, 1, 0]

  /** rt_lowest_bitmap: every row of sixteen is the same but for its first entry. */
  const HEADS: seq<nat> := [0, 4, 5, 4, 6, 4, 5, 4, 7, 4, 5, 4, 6, 4, 5, 4]

  function LowestBitmap(b: nat): nat
    requires b < 256
  {
    if b % 16 == 0 then HEADS[b / 16] else NIBBLES[b % 16]
  }

  lemma NibbleLowest(b: nat)
    requires 0 < b < 16
    ensures IsLowest(b, NIBBLES[b])
  {
    var k := NIBBLES[b];
    assert k < 4;
    assert Bit(b, 0) <==> b % 2 == 1;
    assert Bit(b, 1) <==> b / 2 % 2 == 1;
    assert Bit(b, 2) <==> b / 2 / 2 % 2 == 1;
    assert Bit(b, 3) <==> b / 2 / 2 / 2 % 2 == 1;
    forall j | 0 <= j < k ensures !Bit(b, j) {
      if j == 0 {
      } else if j == 1 {
      } else {
        assert j == 2;
      }
    }
  }

  lemma Nibbles(b: nat)
    ensures Low(b, 4) == b % 16 && Shift(b, 4) == b / 16
  {
    var b1 := b / 2;
    var b2 := b1 / 2;
    var b3 := b2 / 2;
    assert Low(b3, 1) == b3 % 2 by { assert Low(b3 / 2, 0) == 0; }
    assert Low(b2, 2) == b3 % 2 * 2 + b2 % 2;
    assert Low(b1, 3) == (b3 % 2 * 2 + b2 % 2) * 2 + b1 % 2;
    assert Shift(b3, 1) == b3 / 2;
    assert Shift(b2, 2) == b3 / 2;
    assert Shift(b1, 3) == b3 / 2;
  }

  /** The table holds the lowest set bit of every byte but zero. */
  lemma TableIsLowest(b: nat)
    requires 0 < b < 256
    ensures LowestBitmap(b) < 8 && IsLowest(b, LowestBitmap(b))
  {
    hide IsLowest;
    Nibbles(b);
    if b % 16 != 0 {
      NibbleLowest(b % 16);
    } else {
      NibbleLowest(b / 16);
      assert HEADS[b / 16] == 4 + NIBBLES[b / 16];
    }
    LowestSplit(b, 4, LowestBitmap(b));
  }

  lemma ByteBound(b: nat)
    requires Fits(b, 8)
    ensures b < 256
  {
    var b4 := b / 2 / 2 / 2 / 2;
    assert Fits(b4, 4) by { assert Fits(b / 2 / 2, 6); }
    assert b4 / 2 / 2 / 2 / 2 == 0 by { assert Fits(b4 / 2 / 2, 2); assert Fits(b4 / 2 / 2 / 2 / 2, 0); }
    assert b4 < 16;
  }

  lemma LowByte(n: nat)
    ensures Low(n, 8) < 256
  {
    LowFits(n, 8);
    ByteBound(Low(n, 8));
  }

  lemma {:induction false} ShiftShift(n: nat, w: nat, v: nat)
    ensures Shift(Shift(n, w), v) == Shift(n, w + v)
    decreases w
  {
    if w > 0 { ShiftShift(n / 2, w - 1, v); }
  }

  /** The number of the lowest set bit of the priority group, byte by byte. */
  method LowestOfGroup(group: nat) returns (number: nat)
    requires Fits(group, 32) && group != 0
    ensures number < 32 && IsLowest(group, number)
  {
    hide LowestBitmap, IsLowest, Bit, Low, Shift;
    LowByte(group);
    LowByte(Shift(group, 8));
    LowByte(Shift(group, 16));
    LowByte(Shift(group, 24));
    ShiftShift(group, 8, 8);
    ShiftShift(group, 16, 8);
    if Low(group, 8) != 0 {
      number := LowestBitmap(Low(group, 8));
      TableIsLowest(Low(group, 8));
    } else if Low(Shift(group, 8), 8) != 0 {
      number := LowestBitmap(Low(Shift(group, 8), 8)) + 8;
      TableIsLowest(Low(Shift(group, 8), 8));
      LowestSplit(Shift(group, 8), 8, number - 8);
    } else if Low(Shift(group, 16), 8) != 0 {
      number := LowestBitmap(Low(Shift(group, 16), 8)) + 16;
      TableIsLowest(Low(Shift(group, 16), 8));
      LowestSplit(Shift(group, 16), 8, number - 16);
      LowestSplit(Shift(group, 8), 8, number - 8);
    } else {
      LastByte(group);
      number := LowestBitmap(Low(Shift(group, 24), 8)) + 24;
      TableIsLowest(Low(Shift(group, 24), 8));
      LowestSplit(Shift(group, 16), 8, number - 16);
      LowestSplit(Shift(group, 8), 8, number - 8);
    }
    LowestSplit(group, 8, number);
  }

  /** If the three low bytes are zero, the fourth is the whole word. */
  lemma LastByte(group: nat)
    requires Fits(group, 32) && group != 0
    requires Low(group, 8) == 0 && Low(Shift(group, 8), 8) == 0 && Low(Shift(group, 16), 8) == 0
    ensures Shift(group, 24) == Low(Shift(group, 24), 8) != 0
  {
    hide Low, Shift, Bit;
    ShiftFits(group, 24, 8);
    LowFits(Shift(group, 24), 8);
    var i := SomeBit(group, 32);
    if i < 8 {
      LowBits(group, 8, i);
      ZeroBits(i);
    } else if i < 16 {
      LowBits(Shift(group, 8), 8, i - 8);
      ShiftBits(group, 8, i - 8);
      ZeroBits(i - 8);
    } else if i < 24 {
      LowBits(Shift(group, 16), 8, i - 16);
      ShiftBits(group, 16, i - 16);
      ZeroBits(i - 16);
    } else {
      ShiftBits(group, 24, i - 24);
      ZeroBits(i - 24);
    }
  }

  // ----------------------------------------------------- the ready priorities

  /** The number of priorities; `wide` selects the two-level layout. */
  function Levels(wide: bool): nat {
    if wide then 256 else 32
  }

  /** A bit is set exactly when the queue it stands for is not empty. */
  ghost predicate BitsOk(wide: bool, busy: seq<bool>, group: nat, table: seq<nat>) {
    |busy| == Levels(wide) && Fits(group, 32) &&
    if wide then
      |table| == 32 && (forall n :: 0 <= n < 32 ==> Fits(table[n], 8))
      && (forall p :: 0 <= p < 256 ==> (Bit(table[p / 8], p % 8) <==> busy[p]))
      && (forall n :: 0 <= n < 32 ==> (Bit(group, n) <==> table[n] != 0))
    else
      forall p :: 0 <= p < 32 ==> (Bit(group, p) <==> busy[p])
  }

  /** The bits after a thread joins queue p. */
  function MarkedGroup(wide: bool, group: nat, p: nat): nat {
    SetBit(group, if wide then p / 8 else p)
  }

  function MarkedTable(wide: bool, table: seq<nat>, p: nat): seq<nat> {
    if wide && p / 8 < |table| then table[p / 8 := SetBit(table[p / 8], p % 8)] else table
  }

  /** The bits after queue p became empty. */
  function ClearedTable(wide: bool, table: seq<nat>, p: nat): seq<nat> {
    if wide && p / 8 < |table| then table[p / 8 := ClearBit(table[p / 8], p % 8)] else table
  }

  function ClearedGroup(wide: bool, group: nat, table: seq<nat>, p: nat): nat {
    if !wide then ClearBit(group, p)
    else if p / 8 < |table| && table[p / 8] == 0 then ClearBit(group, p / 8)
    else group
  }

  lemma MarkedBits(wide: bool, busy: seq<bool>, group: nat, table: seq<nat>, p: nat)
    requires BitsOk(wide, busy, group, table) && p < Levels(wide)
    ensures BitsOk(wide, busy[p := true], MarkedGroup(wide, group, p), MarkedTable(wide, table, p))
  {
    hide Bit, SetBit, Fits;
    SetBitFits(group, if wide then p / 8 else p, 32);
    forall n: nat ensures Bit(MarkedGroup(wide, group, p), n) <==> Bit(group, n) || n == if wide then p / 8 else p {
      SetBitIs(group, if wide then p / 8 else p, n);
    }
    if wide {
      var n := p / 8;
      SetBitFits(table[n], p % 8, 8);
      forall j: nat ensures Bit(SetBit(table[n], p % 8), j) <==> Bit(table[n], j) || j == p % 8 {
        SetBitIs(table[n], p % 8, j);
      }
      if SetBit(table[n], p % 8) == 0 { ZeroBits(p % 8); }
      var table' := MarkedTable(wide, table, p);
      forall q: nat | q < 256 ensures Bit(table'[q / 8], q % 8) <==> busy[p := true][q] { }
    }
  }

  lemma ClearedBits(wide: bool, busy: seq<bool>, group: nat, table: seq<nat>, p: nat)
    requires BitsOk(wide, busy, group, table) && p < Levels(wide)
    ensures var table' := ClearedTable(wide, table, p);
            BitsOk(wide, busy[p := false], ClearedGroup(wide, group, table', p), table')
  {
    hide Bit, ClearBit, Fits;
    var k := if wide then p / 8 else p;
    ClearBitFits(group, k, 32);
    forall n: nat ensures Bit(ClearBit(group, k), n) <==> Bit(group, n) && n != k {
      ClearBitIs(group, k, n);
    }
    if wide {
      var n := p / 8;
      ClearBitFits(table[n], p % 8, 8);
      forall j: nat ensures Bit(ClearBit(table[n], p % 8), j) <==> Bit(table[n], j) && j != p % 8 {
        ClearBitIs(table[n], p % 8, j);
      }
      var table' := ClearedTable(wide, table, p);
      forall q: nat | q < 256 ensures Bit(table'[q / 8], q % 8) <==> busy[p := false][q] { }
      if table'[n] != 0 {
        var j := SomeBit(table'[n], 8);
        assert Bit(table[n], j);
        if table[n] == 0 { ZeroBits(j); }
      }
    }
  }

  /** The lowest-numbered queue that is not empty. */
  function Lowest(busy: seq<bool>): (p: nat)
    ensures p <= |busy| && (p < |busy| ==> busy[p])
    ensures forall q :: 0 <= q < p ==> !busy[q]
  {
    if |busy| == 0 || busy[0] then 0
    else
      var p := Lowest(busy[1..]);
      assert forall q :: 0 <= q < p ==> busy[1..][q] == busy[q + 1];
      p + 1
  }

  /** Bitmap search and linear scan agree. */
  lemma LowestIs(busy: seq<bool>, p: nat)
    requires p < |busy| && busy[p] && forall q :: 0 <= q < p ==> !busy[q]
    ensures Lowest(busy) == p
  {
    var m := Lowest(busy);
    assert !(m < p);
    assert !(p < m);
  }

  /** A thread ready somewhere means a bit set in the group. */
  lemma SomeReady(wide: bool, busy: seq<bool>, group: nat, table: seq<nat>)
    requires BitsOk(wide, busy, group, table) && exists q :: 0 <= q < |busy| && busy[q]
    ensures group != 0
  {
    hide Bit, Fits;
    var q: nat :| 0 <= q < |busy| && busy[q];
    if wide {
      assert Bit(table[q / 8], q % 8);
      if table[q / 8] == 0 { ZeroBits(q % 8); }
      assert Bit(group, q / 8);
      ZeroBits(q / 8);
    } else {
      assert Bit(group, q);
      ZeroBits(q);
    }
  }

  /** Lowest bit of the lowest non-zero byte: the lowest non-empty queue. */
  lemma WideLowest(busy: seq<bool>, group: nat, table: seq<nat>, n: nat, k: nat)
    requires BitsOk(true, busy, group, table) && n < 32 && k < 8
    requires IsLowest(group, n) && IsLowest(table[n], k)
    ensures busy[n * 8 + k] && forall q :: 0 <= q < n * 8 + k ==> !busy[q]
  {
    hide Bit, Fits;
    assert (n * 8 + k) / 8 == n && (n * 8 + k) % 8 == k;
    forall q: nat | q < n * 8 + k ensures !busy[q] {
      if q / 8 < n {
        assert !Bit(group, q / 8);
        assert table[q / 8] == 0;
        ZeroBits(q % 8);
      } else {
        assert q / 8 == n && q % 8 < k;
      }
      assert !Bit(table[q / 8], q % 8);
    }
  }

  /** The search of rt_schedule for the highest ready priority. */
  method HighestReady(wide: bool, ghost busy: seq<bool>, group: nat, table: seq<nat>) returns (p: nat)
    requires BitsOk(wide, busy, group, table) && exists q :: 0 <= q < |busy| && busy[q]
    ensures p == Lowest(busy) && p < |busy| && busy[p]
  {
    hide Bit, Fits, Lowest;
    SomeReady(wide, busy, group, table);
    var number := LowestOfGroup(group);
    if wide {
      assert Bit(group, number);
      assert table[number] != 0;
      ByteBound(table[number]);
      TableIsLowest(table[number]);
      p := number * 8 + LowestBitmap(table[number]);
      WideLowest(busy, group, table, number, LowestBitmap(table[number]));
    } else {
      p := number;
    }
    LowestIs(busy, p);
  }
}
