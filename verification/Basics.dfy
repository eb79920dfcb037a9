/** Small notions that several parts of the model share. */
module Basics {

  datatype Option<+T> = None | Some(value: T)

  /** The number of 32-bit words. */
  const WORD: nat := 0x1_0000_0000

  function Pow2(k: nat): (p: nat)
    ensures p > 0
  {
    if k == 0 then 1 else 2 * Pow2(k - 1)
  }

  /** Rounded up to a multiple of eight. */
  function AlignUp(n: nat): (r: nat)
    ensures r % 8 == 0 && n <= r < n + 8
  {
    (n + 7) / 8 * 8
  }

  /** No element occurs twice. */
  ghost predicate Distinct(l: seq<nat>) {
    forall i, j :: 0 <= i < j < |l| ==> l[i] != l[j]
  }

  function InsertAt(l: seq<nat>, k: nat, x: nat): seq<nat>
    requires k <= |l|
  {
    l[..k] + [x] + l[k..]
  }

  lemma InsertAtMembers(l: seq<nat>, k: nat, x: nat)
    requires Distinct(l) && x !in l && k <= |l|
    ensures var q := InsertAt(l, k, x); Distinct(q) && |q| == |l| + 1 && forall y :: y in q <==> y in l || y == x
  {
    var q := InsertAt(l, k, x);
    assert forall i :: 0 <= i < |q| ==> q[i] == if i < k then l[i] else if i == k then x else l[i - 1];
    forall y | y in l || y == x ensures y in q {
      if y in l {
        var i :| 0 <= i < |l| && l[i] == y;
        assert q[if i < k then i else i + 1] == y;
      } else {
        assert q[k] == y;
      }
    }
  }

  /** The list without the first occurrence of x. */
  function Removed(l: seq<nat>, x: nat): (r: seq<nat>)
    ensures forall y :: y in r ==> y in l
  {
    if |l| == 0 then []
    else if l[0] == x then l[1..]
    else [l[0]] + Removed(l[1..], x)
  }

  lemma {:induction false} RemovedIs(q: seq<nat>, i: nat)
    requires i < |q| && Distinct(q)
    ensures Removed(q, q[i]) == q[..i] + q[i + 1..]
  {
    if i > 0 {
      var r := q[1..];
      assert Distinct(r) by { forall a, b | 0 <= a < b < |r| ensures r[a] != r[b] { assert q[a + 1] != q[b + 1]; } }
      assert q[0] != q[i] == r[i - 1];
      RemovedIs(r, i - 1);
      assert [q[0]] + (r[..i - 1] + r[i..]) == q[..i] + q[i + 1..];
    }
  }

  lemma {:induction false} RemovedMembers(l: seq<nat>, x: nat)
    requires Distinct(l)
    ensures Distinct(Removed(l, x)) && forall y :: y in Removed(l, x) <==> y in l && y != x
  {
    if |l| > 0 {
      var r := l[1..];
      assert Distinct(r) by { forall i, j | 0 <= i < j < |r| ensures r[i] != r[j] { assert l[i + 1] != l[j + 1]; } }
      assert l[0] !in r by { forall i | 0 <= i < |r| ensures r[i] != l[0] { assert l[0] != l[i + 1]; } }
      assert forall y :: y in l <==> y == l[0] || y in r;
      if l[0] != x {
        RemovedMembers(r, x);
      }
    }
  }

  /** Multiples of m are at least m apart. */
  lemma {:induction false} Spread(a: nat, b: nat, m: nat)
    requires a > b
    ensures a * m >= b * m + m
  {
    assert a * m == (a - 1) * m + m;
    if a - 1 > b { Spread(a - 1, b, m); }
  }
}
