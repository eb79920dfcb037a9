/** The heap of memheap.c: the headers of all blocks are linked in address order,
    those of the free blocks are linked into a second list as well. */
module MemHeap {
  import opened Basics
  import opened Rings

  const SIZE: nat := 24        // RT_MEMHEAP_SIZE
  const MINIALLOC: nat := 12   // RT_MEMHEAP_MINIALLOC

  /** The pool reaches from the header at `start` to the tailer at `tail`. `blocks` are the
      block headers in address order, the tailer last; `free` is the free list without
      its header `head`. */
  datatype State = State(head: Node, start: Node, tail: Node, used: map<Node, bool>,
                         links: Links, freeLinks: Links, available: int,
                         blocks: seq<Node>, free: seq<Node>)

  predicate Used(used: map<Node, bool>, b: Node) {
    b in used && used[b]
  }

  // --------------------------------------------------------------- invariant

  ghost predicate Gap(blocks: seq<Node>, k: int) {
    0 <= k < |blocks| - 1 && blocks[k] + SIZE <= blocks[k + 1]
  }

  ghost predicate Ascending(blocks: seq<Node>) {
    forall k :: 0 <= k < |blocks| - 1 ==> Gap(blocks, k)
  }

  /** Blocks k and k + 1 are not both free. */
  ghost predicate Apart(used: map<Node, bool>, blocks: seq<Node>, k: int) {
    0 <= k < |blocks| - 1 && (Used(used, blocks[k]) || Used(used, blocks[k + 1]))
  }

  ghost predicate Coalesced(used: map<Node, bool>, blocks: seq<Node>) {
    forall k :: 0 <= k < |blocks| - 1 ==> Apart(used, blocks, k)
  }

  ghost predicate FreeExact(used: map<Node, bool>, blocks: seq<Node>, free: seq<Node>) {
    forall b :: b in free <==> b in blocks && !Used(used, b)
  }

  /** The payload of the free blocks of a stretch, its last block not counted. */
  function FreeSum(used: map<Node, bool>, blocks: seq<Node>): int {
    if |blocks| < 2 then 0
    else (if Used(used, blocks[0]) then 0 else blocks[1] - blocks[0] - SIZE) + FreeSum(used, blocks[1..])
  }

  /** The blocks reach from one end of the pool to the other; the free list header is not
      inside. */
  ghost predicate Spans(s: State) {
    |s.blocks| >= 2 && s.blocks[0] == s.start && s.blocks[|s.blocks| - 1] == s.tail
    && (s.head < s.start || s.tail < s.head)
  }

  ghost predicate Inv(s: State) {
    Spans(s)
    && Ring(s.links, s.blocks) && Ring(s.freeLinks, [s.head] + s.free)
    && Ascending(s.blocks) && Coalesced(s.used, s.blocks) && FreeExact(s.used, s.blocks, s.free)
    && Used(s.used, s.blocks[|s.blocks| - 1])
    && s.available == FreeSum(s.used, s.blocks)
  }

  // -------------------------------------------------------------------- sums

  /** A sum over a stretch splits at any block. */
  lemma {:induction false} SumSplit(used: map<Node, bool>, a: seq<Node>, b: Node, c: seq<Node>)
    ensures FreeSum(used, a + [b] + c) == FreeSum(used, a + [b]) + FreeSum(used, [b] + c)
  {
    if |a| == 0 {
      assert a + [b] + c == [b] + c && a + [b] == [b];
    } else {
      SumSplit(used, a[1..], b, c);
      assert (a + [b] + c)[1..] == a[1..] + [b] + c && (a + [b])[1..] == a[1..] + [b];
    }
  }

  lemma {:induction false} SumFrame(used: map<Node, bool>, used': map<Node, bool>, blocks: seq<Node>)
    requires forall k :: 0 <= k < |blocks| - 1 ==> Used(used, blocks[k]) == Used(used', blocks[k])
    ensures FreeSum(used, blocks) == FreeSum(used', blocks)
  {
    if |blocks| >= 2 {
      assert forall k :: 0 <= k < |blocks[1..]| - 1 ==> blocks[1..][k] == blocks[k + 1];
      SumFrame(used, used', blocks[1..]);
    }
  }

  function PairSum(used: map<Node, bool>, b: Node, c: Node): int {
    if Used(used, b) then 0 else c - b - SIZE
  }

  lemma SumPair(used: map<Node, bool>, b: Node, c: Node)
    ensures FreeSum(used, [b, c]) == PairSum(used, b, c)
  {
    assert [b, c][1..] == [c];
  }

  /** The sum around two neighbours. */
  lemma SumAround(used: map<Node, bool>, a: seq<Node>, b: Node, c: Node, d: seq<Node>)
    ensures FreeSum(used, a + [b, c] + d) == FreeSum(used, a + [b]) + PairSum(used, b, c) + FreeSum(used, [c] + d)
  {
    assert a + [b, c] + d == a + [b] + ([c] + d);
    SumSplit(used, a, b, [c] + d);
    assert [b] + ([c] + d) == [b] + [c] + d;
    SumSplit(used, [b], c, d);
    assert [b] + [c] == [b, c];
    SumPair(used, b, c);
  }

  lemma SumAround3(used: map<Node, bool>, a: seq<Node>, b: Node, m: Node, c: Node, d: seq<Node>)
    ensures FreeSum(used, a + [b, m, c] + d)
            == FreeSum(used, a + [b]) + PairSum(used, b, m) + PairSum(used, m, c) + FreeSum(used, [c] + d)
  {
    assert a + [b, m, c] + d == a + [b, m] + ([c] + d);
    SumAround(used, a, b, m, [c] + d);
    assert [m] + ([c] + d) == [] + [m, c] + d;
    SumAround(used, [], m, c, d);
    assert [] + [m] == [m];
  }

  // ------------------------------------------------------------- block order

  lemma {:induction false} Before(blocks: seq<Node>, i: nat, j: nat)
    requires Ascending(blocks) && i < j < |blocks|
    ensures blocks[i] + SIZE <= blocks[j]
    decreases j
  {
    assert Gap(blocks, j - 1);
    if i < j - 1 { Before(blocks, i, j - 1); }
  }

  lemma NotBetween(blocks: seq<Node>, k: nat, x: Node)
    requires Ascending(blocks) && k + 1 < |blocks| && blocks[k] < x < blocks[k + 1]
    ensures x !in blocks
  {
    forall i | 0 <= i < |blocks| ensures blocks[i] != x {
      if i < k { Before(blocks, i, k); }
      if i > k + 1 { Before(blocks, k + 1, i); }
    }
  }

  lemma AllInside(s: State, b: Node)
    requires Spans(s) && Ascending(s.blocks) && b in s.blocks
    ensures s.start <= b <= s.tail && b != s.head
  {
    var i :| 0 <= i < |s.blocks| && s.blocks[i] == b;
    if i > 0 { Before(s.blocks, 0, i); }
    if i < |s.blocks| - 1 { Before(s.blocks, i, |s.blocks| - 1); }
  }

  /** The parts of a list around its k-th and next element. */
  lemma Parts(blocks: seq<Node>, k: nat)
    requires k + 1 < |blocks|
    ensures blocks == blocks[..k] + [blocks[k], blocks[k + 1]] + blocks[k + 2..]
  {
  }

  /** Changing `used` at one block only: sums elsewhere stay. */
  lemma SidesSame(used: map<Node, bool>, used': map<Node, bool>, blocks: seq<Node>, k: nat)
    requires Distinct(blocks) && k + 1 < |blocks|
    requires forall b :: b in blocks && b != blocks[k] ==> Used(used', b) == Used(used, b)
    ensures FreeSum(used', blocks[..k] + [blocks[k]]) == FreeSum(used, blocks[..k] + [blocks[k]])
    ensures FreeSum(used', [blocks[k + 1]] + blocks[k + 2..]) == FreeSum(used, [blocks[k + 1]] + blocks[k + 2..])
  {
    hide FreeSum;
    var a, d := blocks[..k] + [blocks[k]], [blocks[k + 1]] + blocks[k + 2..];
    forall i | 0 <= i < |a| - 1 ensures Used(used', a[i]) == Used(used, a[i]) {
      assert a[i] == blocks[i] && blocks[i] in blocks;
    }
    forall i | 0 <= i < |d| - 1 ensures Used(used', d[i]) == Used(used, d[i]) {
      assert d[i] == blocks[k + 1 + i] && blocks[k + 1 + i] in blocks;
    }
    SumFrame(used, used', a);
    SumFrame(used, used', d);
  }

  // --------------------------------------------------------------- the parts

  ghost predicate Shape(s: State) {
    Spans(s) && Ring(s.links, s.blocks) && Ascending(s.blocks)
    && Coalesced(s.used, s.blocks) && Used(s.used, s.blocks[|s.blocks| - 1])
  }

  ghost predicate FreePart(s: State) {
    Ring(s.freeLinks, [s.head] + s.free) && FreeExact(s.used, s.blocks, s.free)
  }

  lemma InvParts(s: State)
    ensures Inv(s) <==> Shape(s) && FreePart(s) && s.available == FreeSum(s.used, s.blocks)
  {
    hide Ring, Ascending, Coalesced, FreeExact, FreeSum;
  }

  // ------------------------------------------------------------------- alloc

  /** The header's links are cut out of the free list and set to null. */
  function Detach(l: Links, b: Node): Links
    requires b in l.next && b in l.prev
  {
    var l1 := Bypass(l, b);
    Links(l1.next[b := 0], l1.prev[b := 0])
  }

  lemma DetachRing(l: Links, ns: seq<Node>, k: nat)
    requires Ring(l, ns) && 0 < k < |ns|
    ensures ns[k] in l.next && ns[k] in l.prev && Ring(Detach(l, ns[k]), Without(ns, k))
  {
    BypassRing(l, ns, k);
    WithoutDistinct(ns, k);
    hide Bypass, Without;
    RingFrame(Bypass(l, ns[k]), Detach(l, ns[k]), Without(ns, k));
  }

  /** Free block blocks[k], number j on the free list, is taken whole. */
  function TakenWhole(s: State, k: nat, j: nat): State
    requires k + 1 < |s.blocks| && j < |s.free| && s.blocks[k] in s.freeLinks.next && s.blocks[k] in s.freeLinks.prev
  {
    var b := s.blocks[k];
    s.(used := s.used[b := true], freeLinks := Detach(s.freeLinks, b),
       free := Without(s.free, j), available := s.available - (s.blocks[k + 1] - b - SIZE))
  }

  /** Free block blocks[k] is cut behind `size` bytes; the rest is a new free block. */
  function TakenSplit(s: State, k: nat, j: nat, size: nat): State
    requires k + 1 < |s.blocks| && j < |s.free| && s.blocks[k] in s.links.next
    requires s.blocks[k] in s.freeLinks.next && s.blocks[k] in s.freeLinks.prev
    requires s.head in Detach(s.freeLinks, s.blocks[k]).next
  {
    var b := s.blocks[k];
    var n := b + size + SIZE;
    s.(used := s.used[n := false][b := true], links := InsertAfter(s.links, b, n),
       freeLinks := InsertAfter(Detach(s.freeLinks, b), s.head, n), blocks := With(s.blocks, k, n),
       free := [n] + Without(s.free, j), available := s.available - size - SIZE)
  }

  lemma WholeShape(s: State, k: nat, used': map<Node, bool>)
    requires Shape(s) && k + 1 < |s.blocks| && used' == s.used[s.blocks[k] := true]
    ensures Shape(s.(used := used'))
  {
    hide Ring;
    forall i | 0 <= i < |s.blocks| - 1 ensures Apart(used', s.blocks, i) { assert Apart(s.used, s.blocks, i); }
  }

  lemma FreeIndex(s: State, k: nat, j: nat)
    requires FreePart(s) && k < |s.blocks| && j < |s.free| && s.free[j] == s.blocks[k]
    ensures ([s.head] + s.free)[j + 1] == s.blocks[k]
    ensures Without([s.head] + s.free, j + 1) == [s.head] + Without(s.free, j)
    ensures s.blocks[k] in s.freeLinks.next && s.blocks[k] in s.freeLinks.prev
    ensures Ring(Detach(s.freeLinks, s.blocks[k]), [s.head] + Without(s.free, j))
    ensures forall x :: x in Without(s.free, j) <==> x in s.free && x != s.blocks[k]
    ensures s.head in Detach(s.freeLinks, s.blocks[k]).next
  {
    var ns := [s.head] + s.free;
    assert ns[j + 1] == s.blocks[k];
    DetachRing(s.freeLinks, ns, j + 1);
    WithoutDistinct(ns, j + 1);
    assert Without(ns, j + 1) == [s.head] + Without(s.free, j);
    assert Distinct(s.free) by {
      forall a, b | 0 <= a < b < |s.free| ensures s.free[a] != s.free[b] { assert ns[a + 1] != ns[b + 1]; }
    }
    WithoutDistinct(s.free, j);
    hide Without, Detach;
    assert Joined(Detach(s.freeLinks, s.blocks[k]), [s.head] + Without(s.free, j), 0);
  }

  lemma TakenWholeKeeps(s: State, k: nat, j: nat)
    requires Inv(s) && k + 1 < |s.blocks| && j < |s.free| && s.free[j] == s.blocks[k]
    ensures s.blocks[k] in s.freeLinks.next && s.blocks[k] in s.freeLinks.prev && Inv(TakenWhole(s, k, j))
  {
    InvParts(s);
    FreeIndex(s, k, j);
    var s' := TakenWhole(s, k, j);
    WholeShape(s, k, s'.used);
    WholeSum(s, k);
    InvParts(s');
    hide FreeSum, Detach, Without, Ring, Ascending, Coalesced, Inv;
    assert FreeExact(s'.used, s'.blocks, s'.free);
  }

  lemma WholeSum(s: State, k: nat)
    requires Shape(s) && k + 1 < |s.blocks| && !Used(s.used, s.blocks[k])
    ensures FreeSum(s.used[s.blocks[k] := true], s.blocks)
            == FreeSum(s.used, s.blocks) - (s.blocks[k + 1] - s.blocks[k] - SIZE)
  {
    var used' := s.used[s.blocks[k] := true];
    SidesSame(s.used, used', s.blocks, k);
    hide FreeSum;
    Parts(s.blocks, k);
    SumAround(s.used, s.blocks[..k], s.blocks[k], s.blocks[k + 1], s.blocks[k + 2..]);
    SumAround(used', s.blocks[..k], s.blocks[k], s.blocks[k + 1], s.blocks[k + 2..]);
  }

  lemma SplitAscending(blocks: seq<Node>, k: nat, n: Node)
    requires Ascending(blocks) && k + 1 < |blocks| && blocks[k] + SIZE <= n && n + SIZE <= blocks[k + 1]
    ensures Ascending(With(blocks, k, n))
  {
    WithAt(blocks, k, n);
    var q := With(blocks, k, n);
    hide With;
    forall i | 0 <= i < |q| - 1 ensures Gap(q, i) {
      if i < k { assert Gap(blocks, i); }
      if i > k + 1 { assert Gap(blocks, i - 1); }
    }
  }

  lemma SplitCoalesced(used: map<Node, bool>, blocks: seq<Node>, k: nat, n: Node)
    requires Coalesced(used, blocks) && k + 1 < |blocks| && n !in blocks && !Used(used, blocks[k])
    ensures Coalesced(used[n := false][blocks[k] := true], With(blocks, k, n))
  {
    WithAt(blocks, k, n);
    var q, used' := With(blocks, k, n), used[n := false][blocks[k] := true];
    hide With;
    assert Apart(used, blocks, k);
    forall i | 0 <= i < |q| - 1 ensures Apart(used', q, i) {
      if i < k { assert Apart(used, blocks, i); assert blocks[i] in blocks && blocks[i + 1] in blocks; }
      if i == k + 1 { assert blocks[k + 1] in blocks; }
      if i > k + 1 { assert Apart(used, blocks, i - 1); assert blocks[i - 1] in blocks && blocks[i] in blocks; }
    }
  }

  lemma SplitShape(s: State, k: nat, n: Node)
    requires Shape(s) && k + 1 < |s.blocks| && !Used(s.used, s.blocks[k])
    requires s.blocks[k] + SIZE <= n && n + SIZE <= s.blocks[k + 1]
    ensures n !in s.blocks && s.blocks[k] in s.links.next
    ensures Shape(s.(used := s.used[n := false][s.blocks[k] := true], links := InsertAfter(s.links, s.blocks[k], n),
                     blocks := With(s.blocks, k, n)))
  {
    hide FreeSum, InsertAfter;
    NotBetween(s.blocks, k, n);
    InsertAfterRing(s.links, s.blocks, k, n);
    SplitAscending(s.blocks, k, n);
    SplitCoalesced(s.used, s.blocks, k, n);
    WithAt(s.blocks, k, n);
    assert s.blocks[|s.blocks| - 1] in s.blocks;
  }

  lemma SplitSum(s: State, k: nat, n: Node)
    requires Shape(s) && k + 1 < |s.blocks| && !Used(s.used, s.blocks[k]) && n !in s.blocks
    ensures FreeSum(s.used[n := false][s.blocks[k] := true], With(s.blocks, k, n))
            == FreeSum(s.used, s.blocks) - (n - s.blocks[k])
  {
    hide FreeSum, With, Ascending, Coalesced;
    var used' := s.used[n := false][s.blocks[k] := true];
    var a, b, c, d := s.blocks[..k], s.blocks[k], s.blocks[k + 1], s.blocks[k + 2..];
    SidesSame(s.used, used', s.blocks, k);
    Parts(s.blocks, k);
    WithParts(s.blocks, k, n);
    SumAround(s.used, a, b, c, d);
    SumAround3(used', a, b, n, c, d);
    assert b in s.blocks;
  }

  lemma WithParts(blocks: seq<Node>, k: nat, n: Node)
    requires k + 1 < |blocks|
    ensures With(blocks, k, n) == blocks[..k] + [blocks[k], n, blocks[k + 1]] + blocks[k + 2..]
  {
  }

  lemma SplitFree(s: State, k: nat, j: nat, n: Node)
    requires FreePart(s) && k < |s.blocks| && j < |s.free| && s.free[j] == s.blocks[k] && n !in s.blocks && n != s.head
    requires k + 1 < |s.blocks| && s.blocks[k] in s.freeLinks.next && s.blocks[k] in s.freeLinks.prev
    requires s.head in Detach(s.freeLinks, s.blocks[k]).next && Distinct(s.blocks)
    ensures Ring(InsertAfter(Detach(s.freeLinks, s.blocks[k]), s.head, n), [s.head] + ([n] + Without(s.free, j)))
    ensures FreeExact(s.used[n := false][s.blocks[k] := true], With(s.blocks, k, n), [n] + Without(s.free, j))
  {
    FreeIndex(s, k, j);
    var w := Without(s.free, j);
    var ns := [s.head] + w;
    hide Detach, Without, InsertAfter, Ring;
    assert n !in s.free;
    assert n !in ns;
    RingNonEmpty(Detach(s.freeLinks, s.blocks[k]), ns);
    InsertAfterRing(Detach(s.freeLinks, s.blocks[k]), ns, 0, n);
    assert With(ns, 0, n) == [s.head] + ([n] + w);
    WithDistinct(s.blocks, k, n);
  }

  lemma RingNonEmpty(l: Links, ns: seq<Node>)
    requires Ring(l, ns)
    ensures |ns| > 0 && ns[0] in l.next
  {
    assert Joined(l, ns, 0);
  }

  lemma TakenSplitKeeps(s: State, k: nat, j: nat, size: nat)
    requires Inv(s) && k + 1 < |s.blocks| && j < |s.free| && s.free[j] == s.blocks[k]
    requires s.blocks[k] + size + 2 * SIZE <= s.blocks[k + 1]
    ensures s.blocks[k] in s.freeLinks.next && s.blocks[k] in s.freeLinks.prev && s.blocks[k] in s.links.next
    ensures s.head in Detach(s.freeLinks, s.blocks[k]).next && Inv(TakenSplit(s, k, j, size))
  {
    hide FreeSum, Detach, Without, Ascending, Coalesced, Inv, InsertAfter, With;
    InvParts(s);
    FreeIndex(s, k, j);
    var n := s.blocks[k] + size + SIZE;
    assert s.blocks[k] in s.free;
    SplitShape(s, k, n);
    AllInside(s, s.blocks[k]);
    AllInside(s, s.blocks[k + 1]);
    SplitFree(s, k, j, n);
    SplitSum(s, k, n);
    var s' := TakenSplit(s, k, j, size);
    hide Ring;
    InvParts(s');
  }

  // -------------------------------------------------------------------- free

  /** The heap while block k is being freed: it may still have to be put on the free
      list (unless `listed`) and be merged with its neighbours. */
  ghost predicate Loose(s: State, k: nat, listed: bool, leftOpen: bool, rightOpen: bool) {
    Spans(s) && k + 1 < |s.blocks|
    && Ring(s.links, s.blocks) && Ring(s.freeLinks, [s.head] + s.free) && Ascending(s.blocks)
    && (forall i :: 0 <= i < |s.blocks| - 1 && !(leftOpen && i + 1 == k) && !(rightOpen && i == k) ==>
                      Apart(s.used, s.blocks, i))
    && !Used(s.used, s.blocks[k]) && Used(s.used, s.blocks[|s.blocks| - 1])
    && (forall b :: b in s.free <==> b in s.blocks && !Used(s.used, b) && (listed || b != s.blocks[k]))
    && s.available == FreeSum(s.used, s.blocks)
  }

  /** The USED bit cleared and the payload counted. */
  function Marked(s: State, k: nat): State
    requires k + 1 < |s.blocks|
  {
    s.(used := s.used[s.blocks[k] := false], available := s.available + (s.blocks[k + 1] - s.blocks[k] - SIZE))
  }

  lemma MarkedLoose(s: State, k: nat)
    requires Inv(s) && k + 1 < |s.blocks| && Used(s.used, s.blocks[k])
    ensures Loose(Marked(s, k), k, false, true, true)
  {
    MarkedSum(s, k);
    hide FreeSum;
    var s' := Marked(s, k);
    forall i | 0 <= i < |s.blocks| - 1 && i + 1 != k && i != k ensures Apart(s'.used, s.blocks, i) {
      assert Apart(s.used, s.blocks, i);
    }
  }

  lemma MarkedSum(s: State, k: nat)
    requires Inv(s) && k + 1 < |s.blocks| && Used(s.used, s.blocks[k])
    ensures Marked(s, k).available == FreeSum(Marked(s, k).used, s.blocks)
  {
    var used' := s.used[s.blocks[k] := false];
    SidesSame(s.used, used', s.blocks, k);
    hide FreeSum;
    Parts(s.blocks, k);
    SumAround(s.used, s.blocks[..k], s.blocks[k], s.blocks[k + 1], s.blocks[k + 2..]);
    SumAround(used', s.blocks[..k], s.blocks[k], s.blocks[k + 1], s.blocks[k + 2..]);
  }

  /** Header k taken out of the block list, its space going to the block in front. */
  function Merged(s: State, k: nat): State
    requires k < |s.blocks| && s.blocks[k] in s.links.next && s.blocks[k] in s.links.prev
  {
    s.(links := Bypass(s.links, s.blocks[k]), blocks := Without(s.blocks, k), available := s.available + SIZE)
  }

  lemma MergedSum(used: map<Node, bool>, blocks: seq<Node>, k: nat)
    requires 0 < k && k + 1 < |blocks| && !Used(used, blocks[k - 1]) && !Used(used, blocks[k])
    ensures FreeSum(used, Without(blocks, k)) == FreeSum(used, blocks) + SIZE
  {
    hide FreeSum;
    var a, b, m, c, d := blocks[..k - 1], blocks[k - 1], blocks[k], blocks[k + 1], blocks[k + 2..];
    assert blocks == a + [b, m, c] + d;
    assert Without(blocks, k) == a + [b, c] + d;
    SumAround3(used, a, b, m, c, d);
    SumAround(used, a, b, c, d);
  }

  lemma MergedAscending(blocks: seq<Node>, k: nat)
    requires Ascending(blocks) && 0 < k && k + 1 < |blocks|
    ensures Ascending(Without(blocks, k))
  {
    WithoutAt(blocks, k);
    var q := Without(blocks, k);
    hide Without;
    forall i | 0 <= i < |q| - 1 ensures Gap(q, i) {
      if i < k - 1 { assert Gap(blocks, i); }
      if i >= k { assert Gap(blocks, i + 1); }
      if i == k - 1 { assert Gap(blocks, i) && Gap(blocks, i + 1); }
    }
  }

  lemma LeftPairs(used: map<Node, bool>, blocks: seq<Node>, k: nat)
    requires 0 < k && k + 1 < |blocks|
    requires forall i :: 0 <= i < |blocks| - 1 && i + 1 != k && i != k ==> Apart(used, blocks, i)
    ensures var q := Without(blocks, k); forall i :: 0 <= i < |q| - 1 && i != k - 1 ==> Apart(used, q, i)
  {
    WithoutAt(blocks, k);
    var q := Without(blocks, k);
    hide Without;
    forall i | 0 <= i < |q| - 1 && i != k - 1 ensures Apart(used, q, i) {
      assert Apart(used, blocks, if i < k - 1 then i else i + 1);
    }
  }

  lemma LeftMerged(s: State, k: nat)
    requires Loose(s, k, false, true, true) && k > 0 && !Used(s.used, s.blocks[k - 1])
    ensures s.blocks[k] in s.links.next && s.blocks[k] in s.links.prev && Loose(Merged(s, k), k - 1, true, false, true)
  {
    hide FreeSum, Bypass, Ring, Ascending, Without, Apart;
    RingDistinct(s.links, s.blocks);
    BypassRing(s.links, s.blocks, k);
    MergedSum(s.used, s.blocks, k);
    MergedAscending(s.blocks, k);
    WithoutAt(s.blocks, k);
    WithoutDistinct(s.blocks, k);
    LeftPairs(s.used, s.blocks, k);
  }

  lemma RingDistinct(l: Links, ns: seq<Node>)
    requires Ring(l, ns)
    ensures Distinct(ns)
  {
  }

  /** The block behind k is merged into it and leaves the free list, where it is
      number j. */
  function RightMerged(s: State, k: nat, j: nat): State
    requires k + 1 < |s.blocks| && j < |s.free|
    requires s.blocks[k + 1] in s.links.next && s.blocks[k + 1] in s.links.prev
    requires s.blocks[k + 1] in s.freeLinks.next && s.blocks[k + 1] in s.freeLinks.prev
  {
    Merged(s, k + 1).(freeLinks := Bypass(s.freeLinks, s.blocks[k + 1]), free := Without(s.free, j))
  }

  lemma FreeBypass(s: State, j: nat)
    requires Ring(s.freeLinks, [s.head] + s.free) && j < |s.free|
    ensures s.free[j] in s.freeLinks.next && s.free[j] in s.freeLinks.prev
    ensures Ring(Bypass(s.freeLinks, s.free[j]), [s.head] + Without(s.free, j))
    ensures forall x :: x in Without(s.free, j) <==> x in s.free && x != s.free[j]
  {
    var ns := [s.head] + s.free;
    assert ns[j + 1] == s.free[j];
    BypassRing(s.freeLinks, ns, j + 1);
    assert Without(ns, j + 1) == [s.head] + Without(s.free, j);
    assert Distinct(s.free) by {
      forall a, b | 0 <= a < b < |s.free| ensures s.free[a] != s.free[b] { assert ns[a + 1] != ns[b + 1]; }
    }
    WithoutDistinct(s.free, j);
  }

  lemma RightPairs(used: map<Node, bool>, blocks: seq<Node>, k: nat)
    requires k + 2 < |blocks| && !Used(used, blocks[k + 1])
    requires forall i :: 0 <= i < |blocks| - 1 && i != k ==> Apart(used, blocks, i)
    ensures var q := Without(blocks, k + 1); forall i :: 0 <= i < |q| - 1 ==> Apart(used, q, i)
  {
    WithoutAt(blocks, k + 1);
    var q := Without(blocks, k + 1);
    hide Without;
    assert Apart(used, blocks, k + 1);
    forall i | 0 <= i < |q| - 1 ensures Apart(used, q, i) {
      if i < k { assert Apart(used, blocks, i); }
      if i > k { assert Apart(used, blocks, i + 1); }
    }
  }

  lemma RightMergedLoose(s: State, k: nat, j: nat, listed: bool)
    requires Loose(s, k, listed, false, true) && !Used(s.used, s.blocks[k + 1])
    requires j < |s.free| && s.free[j] == s.blocks[k + 1]
    ensures s.blocks[k + 1] in s.links.next && s.blocks[k + 1] in s.links.prev
    ensures s.blocks[k + 1] in s.freeLinks.next && s.blocks[k + 1] in s.freeLinks.prev
    ensures Loose(RightMerged(s, k, j), k, listed, false, false)
  {
    hide FreeSum, Bypass, Ring, Ascending, Without, Apart;
    RingDistinct(s.links, s.blocks);
    BypassRing(s.links, s.blocks, k + 1);
    MergedSum(s.used, s.blocks, k + 1);
    MergedAscending(s.blocks, k + 1);
    WithoutAt(s.blocks, k + 1);
    WithoutDistinct(s.blocks, k + 1);
    FreeBypass(s, j);
    RightPairs(s.used, s.blocks, k);
  }

  /** Block k put at the front of the free list. */
  function Listed(s: State, k: nat): State
    requires k < |s.blocks| && s.head in s.freeLinks.next
  {
    s.(freeLinks := InsertAfter(s.freeLinks, s.head, s.blocks[k]), free := [s.blocks[k]] + s.free)
  }

  lemma ListedLoose(s: State, k: nat)
    requires Loose(s, k, false, false, false)
    ensures s.head in s.freeLinks.next && Loose(Listed(s, k), k, true, false, false)
  {
    hide FreeSum, InsertAfter;
    var ns, b := [s.head] + s.free, s.blocks[k];
    assert b in s.blocks;
    AllInside(s, b);
    RingNonEmpty(s.freeLinks, ns);
    InsertAfterRing(s.freeLinks, ns, 0, b);
    assert With(ns, 0, b) == [s.head] + ([b] + s.free);
    hide Ring, Ascending;
  }

  lemma Settled(s: State, k: nat)
    requires Loose(s, k, true, false, false)
    ensures Inv(s)
  {
    hide Ring, Ascending, FreeSum;
  }

  // ------------------------------------------------------------- blocks in use

  ghost predicate NextIs(l: Links, b: Node, c: Node) {
    b in l.next && l.next[b] == c
  }

  /** Block b is in use with n bytes of payload. */
  ghost predicate Live(s: State, b: Node, n: nat) {
    |s.blocks| > 0 && b in s.blocks && b != s.blocks[|s.blocks| - 1]
    && Used(s.used, b) && NextIs(s.links, b, b + SIZE + n)
  }

  ghost predicate InUse(s: State, b: Node) {
    exists n :: Live(s, b, n)
  }

  /** Apart from b, the same blocks are in use. */
  ghost predicate SameLive(s: State, s': State, b: Node) {
    forall c, n :: c != b ==> (Live(s', c, n) <==> Live(s, c, n))
  }

  lemma NextOf(s: State, k: nat)
    requires Ring(s.links, s.blocks) && k + 1 < |s.blocks|
    ensures NextIs(s.links, s.blocks[k], s.blocks[k + 1]) && s.blocks[k] != s.blocks[|s.blocks| - 1]
  {
    assert Joined(s.links, s.blocks, k);
  }

  /** Blocks in use do not overlap. */
  lemma LiveApart(s: State, a: Node, n: nat, b: Node, m: nat)
    requires Inv(s) && Live(s, a, n) && Live(s, b, m) && a < b
    ensures a + SIZE + n <= b
  {
    hide FreeSum, Coalesced, FreeExact;
    var i :| 0 <= i < |s.blocks| && s.blocks[i] == a;
    var j :| 0 <= j < |s.blocks| && s.blocks[j] == b;
    NextOf(s, i);
    if j < i { Before(s.blocks, j, i); }
    if i + 1 < j { Before(s.blocks, i + 1, j); }
  }

  /** A block in use lies between the first header and the tailer. */
  lemma LiveInside(s: State, a: Node, n: nat)
    requires Inv(s) && Live(s, a, n)
    ensures s.start <= a && a + SIZE + n <= s.tail
  {
    hide FreeSum, Coalesced, FreeExact;
    var i :| 0 <= i < |s.blocks| && s.blocks[i] == a;
    NextOf(s, i);
    AllInside(s, a);
    AllInside(s, s.blocks[i + 1]);
  }

  // ------------------------------------------------------------- conservation

  /** The payload of the blocks in use of a stretch, its last block not counted. */
  function UsedSum(used: map<Node, bool>, blocks: seq<Node>): int {
    if |blocks| < 2 then 0
    else (if Used(used, blocks[0]) then blocks[1] - blocks[0] - SIZE else 0) + UsedSum(used, blocks[1..])
  }

  lemma {:induction false} StretchSum(used: map<Node, bool>, blocks: seq<Node>)
    requires |blocks| > 0
    ensures FreeSum(used, blocks) + UsedSum(used, blocks) + (|blocks| - 1) * SIZE + blocks[0] == blocks[|blocks| - 1]
  {
    if |blocks| > 1 { StretchSum(used, blocks[1..]); }
  }

  /** No byte of the pool is lost: headers, bytes in use and bytes available add up to its
      size. */
  lemma Conserved(s: State)
    requires Inv(s)
    ensures s.available + UsedSum(s.used, s.blocks) + |s.blocks| * SIZE == s.tail + SIZE - s.start
  {
    hide Ring, Ascending, Coalesced, FreeExact;
    StretchSum(s.used, s.blocks);
  }

  lemma InsertNext(l: Links, a: Node, n: Node)
    requires a in l.next && a != n
    ensures NextIs(InsertAfter(l, a, n), a, n)
    ensures forall c, d :: c != a && c != n ==> (NextIs(InsertAfter(l, a, n), c, d) <==> NextIs(l, c, d))
  {
  }

  lemma BypassNext(l: Links, ns: seq<Node>, k: nat)
    requires Ring(l, ns) && 0 < k < |ns|
    ensures ns[k] in l.next && ns[k] in l.prev
    ensures forall c, d :: c != ns[k - 1] ==> (NextIs(Bypass(l, ns[k]), c, d) <==> NextIs(l, c, d))
  {
    assert Joined(l, ns, k);
    assert Succ(ns, k) != ns[k];
  }

  lemma WholeLive(s: State, k: nat, j: nat)
    requires Inv(s) && k + 1 < |s.blocks| && j < |s.free| && s.free[j] == s.blocks[k]
    requires s.blocks[k] in s.freeLinks.next && s.blocks[k] in s.freeLinks.prev
    ensures var s' := TakenWhole(s, k, j);
            !InUse(s, s.blocks[k]) && SameLive(s, s', s.blocks[k])
            && (forall n: nat :: Live(s', s.blocks[k], n) <==> s.blocks[k] + SIZE + n == s.blocks[k + 1])
  {
    hide FreeSum, Detach, Without, Ascending, Coalesced;
    NextOf(s, k);
    assert s.blocks[k] in s.free && s.blocks[k] in s.blocks;
  }

  lemma SplitLive(s: State, k: nat, j: nat, size: nat)
    requires Inv(s) && k + 1 < |s.blocks| && j < |s.free| && s.free[j] == s.blocks[k]
    requires s.blocks[k] + size + 2 * SIZE <= s.blocks[k + 1]
    requires s.blocks[k] in s.freeLinks.next && s.blocks[k] in s.freeLinks.prev && s.blocks[k] in s.links.next
    requires s.head in Detach(s.freeLinks, s.blocks[k]).next
    ensures var s' := TakenSplit(s, k, j, size);
            !InUse(s, s.blocks[k]) && SameLive(s, s', s.blocks[k]) && Live(s', s.blocks[k], size)
  {
    hide FreeSum, Detach, Without, Coalesced, Ascending, InsertAfter, With, Ring, NextIs;
    var b := s.blocks[k];
    var n := b + size + SIZE;
    RingDistinct(s.links, s.blocks);
    NotBetween(s.blocks, k, n);
    NextOf(s, k);
    assert b in s.free && b in s.blocks;
    WithDistinct(s.blocks, k, n);
    WithAt(s.blocks, k, n);
    InsertNext(s.links, b, n);
    var s' := TakenSplit(s, k, j, size);
    assert s'.blocks[|s'.blocks| - 1] == s.blocks[|s.blocks| - 1];
    assert !Used(s'.used, n) && forall c :: c != n && c != b ==> Used(s'.used, c) == Used(s.used, c);
  }

  lemma MarkedLive(s: State, k: nat)
    requires Ring(s.links, s.blocks) && k + 1 < |s.blocks|
    ensures SameLive(s, Marked(s, k), s.blocks[k]) && !InUse(Marked(s, k), s.blocks[k])
  {
    hide FreeSum;
  }

  /** A merge of two free blocks does not touch any block in use. */
  lemma MergedLive(s: State, k: nat, x: Node)
    requires Ring(s.links, s.blocks) && 0 < k && k + 1 < |s.blocks|
    requires !Used(s.used, s.blocks[k - 1]) && !Used(s.used, s.blocks[k])
    ensures s.blocks[k] in s.links.next && s.blocks[k] in s.links.prev && Carried(s, Merged(s, k), x)
  {
    hide FreeSum;
    BypassNext(s.links, s.blocks, k);
    WithoutDistinct(s.blocks, k);
    WithoutAt(s.blocks, k);
    hide Bypass, Without, Ring;
    var s' := Merged(s, k);
    assert s'.blocks[|s'.blocks| - 1] == s.blocks[|s.blocks| - 1];
  }

  // ------------------------------------------------------------------ the pool

  /** The bytes a request is rounded to. */
  function Rounded(size: nat): (r: nat)
    ensures r >= size && r >= MINIALLOC && (r == MINIALLOC || (r % 8 == 0 && r < size + 8))
  {
    if AlignUp(size) < MINIALLOC then MINIALLOC else AlignUp(size)
  }

  function Payload(s: State, b: Node): int {
    if b in s.links.next then s.links.next[b] - b - SIZE else 0
  }

  /** No free block has room for size bytes. */
  ghost predicate NoFit(s: State, size: nat) {
    forall b :: b in s.free ==> Payload(s, b) < size
  }

  lemma FreeBlock(s: State, j: nat) returns (k: nat)
    requires Inv(s) && j < |s.free|
    ensures k + 1 < |s.blocks| && s.blocks[k] == s.free[j] && !Used(s.used, s.blocks[k])
    ensures Payload(s, s.free[j]) == s.blocks[k + 1] - s.blocks[k] - SIZE
  {
    hide FreeSum, Ascending, Coalesced;
    assert s.free[j] in s.free;
    k :| 0 <= k < |s.blocks| && s.blocks[k] == s.free[j];
    NextOf(s, k);
  }

  class Pool {
    const head: Node
    const start: Node
    const tail: Node
    /** The USED bit of each header */
    var used: map<Node, bool>
    var links: Links
    var freeLinks: Links
    var available: int
    ghost var blocks: seq<Node>
    ghost var free: seq<Node>

    ghost function View(): State
      reads this
    {
      State(head, start, tail, used, links, freeLinks, available, blocks, free)
    }

    ghost predicate Valid()
      reads this
    {
      Inv(View())
    }

    /** rt_memheap_init on a pool of `size` bytes from start on; the object itself,
        with the free list header, lies elsewhere. */
    constructor (pool: Node, memory: Node, size: nat)
      requires size >= 2 * SIZE && (pool < memory || pool >= memory + size)
      ensures Valid() && head == pool && start == memory
      ensures var poolSize := size / 8 * 8;
              tail == memory + poolSize - SIZE && blocks == [start, tail] && available == poolSize - 2 * SIZE
      ensures forall b, n :: !Live(View(), b, n)
    {
      var poolSize := size / 8 * 8;
      var last := memory + poolSize - SIZE;
      head, start, tail := pool, memory, last;
      available := poolSize - 2 * SIZE;
      used := map[memory := false, last := true];
      links := Links(map[memory := last, last := memory], map[memory := last, last := memory]);
      var alone := Links(map[pool := pool], map[pool := pool]);
      freeLinks := InsertAfter(alone, pool, memory);
      blocks := [memory, last];
      free := [memory];
      new;
      InitialPool(head, start, tail, View());
    }

    /** rt_memheap_alloc */
    method Alloc(request: nat) returns (r: Option<nat>)
      requires Valid()
      modifies `used, `links, `freeLinks, `available, `blocks, `free
      ensures Valid()
      ensures var size := Rounded(request);
              r.None? <==> size >= old(available) || NoFit(old(View()), size)
      ensures r.None? ==> View() == old(View())
      ensures r.Some? ==> r.value >= start + SIZE && r.value + request <= tail
      ensures r.Some? ==> Obtained(old(View()), View(), r.value - SIZE, Rounded(request))
      ensures r.Some? ==> FirstFit(old(View()), View(), r.value - SIZE, Rounded(request))
    {
      hide Inv, SameLive, Live, InUse, NoFit, Obtained, Payload;
      ghost var s := View();
      var size := Rounded(request);
      if size >= available {
        return None;
      }
      var header, freeSize, i := Search(size);
      if freeSize < size {
        return None;
      }
      ghost var k := FreeBlock(s, i);
      NoFitNot(s, i, size);
      if freeSize >= size + SIZE + MINIALLOC {
        TakeSplit(header, size, k, i);
        Obtain(s, View(), header, size, size);
      } else {
        TakeWhole(header, freeSize, k, i);
        Obtain(s, View(), header, size, freeSize);
      }
      ObtainedInside(s, View(), header, size);
      assert FitAt(s, View(), header, size, i);
      r := Some(header + SIZE);
    }

    method TakeSplit(header: Node, size: nat, ghost k: nat, ghost i: nat)
      requires Valid() && k + 1 < |blocks| && i < |free| && free[i] == blocks[k] == header
      requires blocks[k] + size + 2 * SIZE <= blocks[k + 1]
      modifies `used, `links, `freeLinks, `available, `blocks, `free
      ensures Valid() && !InUse(old(View()), header) && SameLive(old(View()), View(), header)
              && Live(View(), header, size)
      ensures available == old(available) - size - SIZE
      ensures var rest := header + SIZE + size;
              free == [rest] + Without(old(free), i) && Payload(View(), rest) == old(blocks[k + 1]) - rest - SIZE
    {
      hide Inv, SameLive, Live, InUse, Detach, Without, With, InsertAfter;
      ghost var s := View();
      var rest := header + size + SIZE;
      TakenSplitKeeps(s, k, i, size);
      SplitLive(s, k, i, size);
      links := InsertAfter(links, header, rest);
      freeLinks := InsertAfter(Detach(freeLinks, header), head, rest);
      available := available - size - SIZE;
      used := used[rest := false][header := true];
      blocks, free := With(blocks, k, rest), [rest] + Without(free, i);
      assert View() == TakenSplit(s, k, i, size);
      SplitRest(s, k, i, size);
    }

    method TakeWhole(header: Node, freeSize: nat, ghost k: nat, ghost i: nat)
      requires Valid() && k + 1 < |blocks| && i < |free| && free[i] == blocks[k] == header
      requires freeSize == blocks[k + 1] - blocks[k] - SIZE
      modifies `used, `freeLinks, `available, `free
      ensures Valid() && !InUse(old(View()), header) && SameLive(old(View()), View(), header)
              && Live(View(), header, freeSize)
      ensures available == old(available) - freeSize && free == Without(old(free), i)
    {
      hide Inv, SameLive, Live, InUse, Detach, Without;
      ghost var s := View();
      TakenWholeKeeps(s, k, i);
      WholeLive(s, k, i);
      available := available - freeSize;
      freeLinks := Detach(freeLinks, header);
      used := used[header := true];
      free := Without(free, i);
      assert View() == TakenWhole(s, k, i);
    }

    /** The walk over the free list: the first block with room for size bytes. */
    method Search(size: nat) returns (header: Node, freeSize: nat, ghost i: nat)
      requires Valid() && size > 0
      ensures freeSize < size ==> NoFit(View(), size)
      ensures freeSize >= size ==> i < |free| && header == free[i] && freeSize == Payload(View(), header)
      ensures forall m :: 0 <= m < i && m < |free| ==> Payload(View(), free[m]) < size
    {
      hide Inv;
      ghost var ns := [head] + free;
      FreeRing(View());
      header, freeSize := freeLinks.next[head], 0;
      i := 0;
      while header != head && freeSize < size
        invariant i <= |free| && header == Succ(ns, i)
        invariant freeSize >= size ==> i < |free| && freeSize == Payload(View(), header)
        invariant forall m :: 0 <= m < i ==> Payload(View(), free[m]) < size
        decreases |free| - i, size - freeSize
      {
        assert i < |free|;
        FreeNode(View(), i);
        ghost var k := FreeBlock(View(), i);
        PayloadNat(View(), k);
        freeSize := links.next[header] - header - SIZE;
        if freeSize < size {
          header := freeLinks.next[header];
          i := i + 1;
        }
      }
      if freeSize < size {
        EndOfWalk(View(), i);
      }
    }

    /** rt_memheap_free */
    method Free(ptr: nat)
      requires Valid() && ptr >= SIZE && InUse(View(), ptr - SIZE)
      modifies `used, `links, `freeLinks, `available, `blocks, `free
      ensures Valid()
      ensures SameLive(old(View()), View(), ptr - SIZE) && !InUse(View(), ptr - SIZE)
      ensures GoesBack(old(View()), View(), ptr - SIZE)
    {
      hide Inv, Loose, SameLive, Live, Used, Carried, InUse, GoesBack, Removed;
      ghost var s := View();
      var header := ptr - SIZE;
      ghost var k := LiveBlock(s, header);
      MarkedLoose(s, k);
      LiveMarked(s, k);
      available := available + (links.next[header] - header) - SIZE;
      used := used[header := false];
      assert View() == Marked(s, k);
      ghost var s1 := View();
      var b, insert := MergeLeft(header, k);
      ghost var s2 := View();
      ghost var k' := if insert then k else k - 1;
      MergeRight(b, k', !insert, header);
      ghost var s3 := View();
      PutBack(b, k', insert, header);
      CarriedOn(s1, s2, s3, header);
      CarriedOn(s1, s3, View(), header);
      Released(s, s1, View(), header);
      Home(s, k, View(), insert, s3.free);
    }

    /** The block joins a free block in front of it. */
    method MergeLeft(header: Node, ghost k: nat) returns (b: Node, insert: bool)
      requires Loose(View(), k, false, true, true) && header == blocks[k]
      modifies `links, `available, `blocks
      ensures var k' := if insert then k else k - 1;
              k' >= 0 && Loose(View(), k', !insert, false, true) && b == blocks[k']
      ensures Carried(old(View()), View(), header)
      ensures (insert <==> k == 0 || Used(used, old(blocks)[k - 1])) && (insert ==> b == header)
      ensures var k' := if insert then k else k - 1; blocks[k' + 1] == old(blocks)[k + 1]
    {
      hide Loose, SameLive, Live, Ring, Carried;
      ghost var s := View();
      LeftLinks(s, k);
      CarriedSelf(s, header);
      if !(links.prev[header] in used && used[links.prev[header]]) {
        LeftMerged(s, k);
        LooseLeft(s, k);
        MergedLive(s, k, header);
        WithoutAt(s.blocks, k);
        b := links.prev[header];
        available := available + SIZE;
        links := Bypass(links, header);
        blocks := Without(blocks, k);
        insert := false;
        assert View() == Merged(s, k);
      } else {
        b, insert := header, true;
      }
    }

    /** It joins a free block behind it, which leaves the free list. */
    method MergeRight(b: Node, ghost k: nat, ghost listed: bool, ghost x: Node)
      requires Loose(View(), k, listed, false, true) && b == blocks[k]
      modifies `links, `freeLinks, `available, `blocks, `free
      ensures Loose(View(), k, listed, false, false) && b == blocks[k]
      ensures Carried(old(View()), View(), x)
      ensures var n := old(blocks)[k + 1]; free == if Used(used, n) then old(free) else Removed(old(free), n)
    {
      hide Loose, SameLive, Live, Ring, Carried;
      ghost var s := View();
      RightLinks(s, k, listed);
      CarriedSelf(s, x);
      var n := links.next[b];
      if !(n in used && used[n]) {
        ghost var j := FreeAt(s, k, listed);
        WithoutIs(s, k, listed, j);
        RightMergedLoose(s, k, j, listed);
        LooseRight(s, k, listed);
        MergedLive(s, k + 1, x);
        available := available + SIZE;
        links := Bypass(links, n);
        freeLinks := Bypass(freeLinks, n);
        blocks, free := Without(blocks, k + 1), Without(free, j);
        assert View() == RightMerged(s, k, j);
        LiveFields(Merged(s, k + 1), View(), x);
        CarriedOn(s, Merged(s, k + 1), View(), x);
      }
    }

    method PutBack(b: Node, ghost k: nat, insert: bool, ghost x: Node)
      requires Loose(View(), k, !insert, false, false) && b == blocks[k]
      modifies `freeLinks, `free
      ensures Valid() && Carried(old(View()), View(), x)
      ensures free == if insert then [b] + old(free) else old(free)
    {
      hide Loose, SameLive, Live, Inv, Carried;
      ghost var s := View();
      CarriedSelf(s, x);
      LooseIndex(s, k, !insert);
      if insert {
        ListedLoose(s, k);
        freeLinks := InsertAfter(freeLinks, head, b);
        free := [b] + free;
        assert View() == Listed(s, k);
        LiveFields(s, View(), x);
      }
      Settled(View(), k);
    }
  }

  /** What a caller gets: a block that was not in use, long enough and not so long that
      another block could be cut from it, and nothing else changed hands. */
  ghost predicate Obtained(s: State, s': State, b: Node, size: nat) {
    !InUse(s, b) && SameLive(s, s', b)
    && exists n: nat :: Live(s', b, n) && size <= n < size + SIZE + MINIALLOC
  }

  lemma Obtain(s: State, s': State, b: Node, size: nat, n: nat)
    requires !InUse(s, b) && SameLive(s, s', b) && Live(s', b, n) && size <= n < size + SIZE + MINIALLOC
    ensures Obtained(s, s', b, size)
  {
  }

  /** The block is the first of the free list with room. It is cut if what is left makes a
      block, which then heads the free list; else it is taken whole. The bytes that are
      gone are its payload, and the header of the new block if there is one. */
  ghost predicate FitAt(s: State, s': State, b: Node, size: nat, i: nat) {
    i < |s.free| && s.free[i] == b && Payload(s, b) >= size
    && (forall m :: 0 <= m < i ==> Payload(s, s.free[m]) < size)
    && var n := Payload(s, b);
       if n >= size + SIZE + MINIALLOC then
         var rest := b + SIZE + size;
         Live(s', b, size) && s'.available == s.available - size - SIZE
         && s'.free == [rest] + Without(s.free, i) && Payload(s', rest) == n - size - SIZE
       else
         Live(s', b, n) && s'.available == s.available - n && s'.free == Without(s.free, i)
  }

  ghost predicate FirstFit(s: State, s': State, b: Node, size: nat) {
    exists i :: FitAt(s, s', b, size, i)
  }

  /** The block joins its free neighbours. A free block behind it leaves the free list; the
      block itself goes to its head, unless a free block in front of it takes it in. */
  ghost predicate GoesBack(s: State, s': State, b: Node) {
    exists k :: BackAt(s, s', b, k)
  }

  ghost predicate BackAt(s: State, s': State, b: Node, k: nat) {
    k + 1 < |s.blocks| && s.blocks[k] == b
    && var n := s.blocks[k + 1];
       s'.free == (if k == 0 || Used(s.used, s.blocks[k - 1]) then [b] else [])
                  + (if Used(s.used, n) then s.free else Removed(s.free, n))
  }

  lemma WithoutIs(s: State, k: nat, listed: bool, j: nat)
    requires Loose(s, k, listed, false, true) && j < |s.free|
    ensures Without(s.free, j) == Removed(s.free, s.free[j])
  {
    RingDistinct(s.freeLinks, [s.head] + s.free);
    forall a, b | 0 <= a < b < |s.free| ensures s.free[a] != s.free[b] {
      assert ([s.head] + s.free)[a + 1] != ([s.head] + s.free)[b + 1];
    }
    RemovedIs(s.free, j);
  }

  lemma Home(s: State, k: nat, s': State, insert: bool, free: seq<Node>)
    requires Inv(s) && k + 1 < |s.blocks|
    requires var used, n := Marked(s, k).used, s.blocks[k + 1];
             (insert <==> k == 0 || Used(used, s.blocks[k - 1]))
             && free == if Used(used, n) then s.free else Removed(s.free, n)
    requires s'.free == if insert then [s.blocks[k]] + free else free
    ensures GoesBack(s, s', s.blocks[k])
  {
    hide Inv, Used, Removed;
    Neighbours(s, k);
    assert [] + free == free;
    assert BackAt(s, s', s.blocks[k], k);
  }

  /** Marking a block free changes nothing about its neighbours. */
  lemma Neighbours(s: State, k: nat)
    requires Inv(s) && k + 1 < |s.blocks|
    ensures k > 0 ==> (Used(Marked(s, k).used, s.blocks[k - 1]) <==> Used(s.used, s.blocks[k - 1]))
    ensures Used(Marked(s, k).used, s.blocks[k + 1]) <==> Used(s.used, s.blocks[k + 1])
  {
    RingDistinct(s.links, s.blocks);
  }

  /** What is left of a block that was cut. */
  lemma SplitRest(s: State, k: nat, j: nat, size: nat)
    requires Inv(s) && k + 1 < |s.blocks| && j < |s.free| && s.free[j] == s.blocks[k]
    requires s.blocks[k] + size + 2 * SIZE <= s.blocks[k + 1]
    requires s.blocks[k] in s.freeLinks.next && s.blocks[k] in s.freeLinks.prev && s.blocks[k] in s.links.next
    requires s.head in Detach(s.freeLinks, s.blocks[k]).next
    ensures var n := s.blocks[k] + size + SIZE;
            Payload(TakenSplit(s, k, j, size), n) == s.blocks[k + 1] - n - SIZE
  {
    hide FreeSum, Detach, Without, Coalesced, Ascending, Ring;
    NextOf(s, k);
  }

  lemma ObtainedInside(s: State, s': State, b: Node, size: nat)
    requires Inv(s') && Obtained(s, s', b, size)
    ensures s'.start <= b && b + SIZE + size <= s'.tail
  {
    hide Inv, SameLive, Live, InUse;
    var n: nat :| Live(s', b, n) && n >= size;
    LiveInside(s', b, n);
  }

  /** x is in use in neither state or only in the first; the others agree. */
  ghost predicate Carried(s: State, s': State, x: Node) {
    SameLive(s, s', x) && forall n :: Live(s', x, n) ==> Live(s, x, n)
  }

  lemma InitialPool(head: Node, start: Node, tail: Node, s: State)
    requires (head < start || tail < head) && start + SIZE <= tail
    requires s == State(head, start, tail, map[start := false, tail := true],
                        Links(map[start := tail, tail := start], map[start := tail, tail := start]),
                        InsertAfter(Links(map[head := head], map[head := head]), head, start),
                        tail - start - SIZE, [start, tail], [start])
    ensures Inv(s) && forall b, n :: !Live(s, b, n)
  {
    assert Joined(s.links, s.blocks, 0) && Joined(s.links, s.blocks, 1);
    var ns := [head] + s.free;
    assert ns == [head, start];
    assert Joined(s.freeLinks, ns, 0) && Joined(s.freeLinks, ns, 1);
    SumPair(s.used, start, tail);
  }

  lemma NoFitNot(s: State, i: nat, size: nat)
    requires i < |s.free| && Payload(s, s.free[i]) >= size
    ensures !NoFit(s, size)
  {
    assert s.free[i] in s.free;
  }

  lemma FreeRing(s: State)
    requires Inv(s)
    ensures s.head in s.freeLinks.next && s.freeLinks.next[s.head] == Succ([s.head] + s.free, 0)
  {
    assert Joined(s.freeLinks, [s.head] + s.free, 0);
  }

  lemma FreeNode(s: State, i: nat)
    requires Inv(s) && i < |s.free|
    ensures Succ([s.head] + s.free, i) == s.free[i] && s.free[i] in s.freeLinks.next
    ensures s.freeLinks.next[s.free[i]] == Succ([s.head] + s.free, i + 1) && s.free[i] in s.links.next
  {
    hide FreeSum, Ascending, Coalesced;
    assert Joined(s.freeLinks, [s.head] + s.free, i + 1);
    var k := FreeBlock(s, i);
    NextOf(s, k);
  }

  lemma PayloadNat(s: State, k: nat)
    requires Inv(s) && k + 1 < |s.blocks|
    ensures s.blocks[k] + SIZE <= s.blocks[k + 1]
  {
    assert Gap(s.blocks, k);
  }

  lemma EndOfWalk(s: State, i: nat)
    requires Inv(s) && i <= |s.free| && Succ([s.head] + s.free, i) == s.head
    ensures i == |s.free|
  {
    var ns := [s.head] + s.free;
    assert forall m :: 0 < m < |ns| ==> ns[0] != ns[m];
  }

  lemma LiveBlock(s: State, b: Node) returns (k: nat)
    requires Inv(s) && InUse(s, b)
    ensures k + 1 < |s.blocks| && s.blocks[k] == b && Used(s.used, b)
    ensures b in s.links.next && s.links.next[b] == s.blocks[k + 1]
  {
    hide FreeSum, Ascending, Coalesced;
    var n :| Live(s, b, n);
    k :| 0 <= k < |s.blocks| && s.blocks[k] == b;
    NextOf(s, k);
  }

  lemma LiveMarked(s: State, k: nat)
    requires Inv(s) && k + 1 < |s.blocks|
    ensures SameLive(s, Marked(s, k), s.blocks[k]) && !InUse(Marked(s, k), s.blocks[k])
  {
    MarkedLive(s, k);
  }

  lemma CarriedSelf(s: State, x: Node)
    ensures Carried(s, s, x)
  {
  }

  lemma CarriedOn(a: State, b: State, c: State, x: Node)
    requires Carried(a, b, x) && Carried(b, c, x)
    ensures Carried(a, c, x)
  {
  }

  lemma Released(s: State, m: State, s': State, x: Node)
    requires SameLive(s, m, x) && !InUse(m, x) && Carried(m, s', x)
    ensures SameLive(s, s', x) && !InUse(s', x)
  {
  }

  lemma LooseIndex(s: State, k: nat, listed: bool)
    requires Loose(s, k, listed, false, false)
    ensures k + 1 < |s.blocks| && (listed ==> Inv(s))
  {
    if listed { Settled(s, k); }
  }

  lemma LeftLinks(s: State, k: nat)
    requires Loose(s, k, false, true, true)
    ensures s.blocks[k] in s.links.prev && s.links.prev[s.blocks[k]] == Pred(s.blocks, k)
    ensures k > 0 ==> Loose(s, k, false, !Used(s.used, s.blocks[k - 1]), true)
    ensures k == 0 ==> Loose(s, k, false, false, true) && Used(s.used, Pred(s.blocks, k))
  {
    hide Ring, FreeSum, Ascending;
    assert Joined(s.links, s.blocks, k) by { LinkOf(s.links, s.blocks, k); }
    if k > 0 && Used(s.used, s.blocks[k - 1]) {
      assert Apart(s.used, s.blocks, k - 1);
    }
  }

  lemma LinkOf(l: Links, ns: seq<Node>, k: nat)
    requires Ring(l, ns) && k < |ns|
    ensures Joined(l, ns, k)
  {
  }

  lemma LooseLeft(s: State, k: nat)
    requires Loose(s, k, false, true, true)
    ensures Ring(s.links, s.blocks) && k + 1 < |s.blocks| && !Used(s.used, s.blocks[k])
  {
  }

  lemma LooseRight(s: State, k: nat, listed: bool)
    requires Loose(s, k, listed, false, true)
    ensures Ring(s.links, s.blocks) && k + 1 < |s.blocks| && !Used(s.used, s.blocks[k])
    ensures !Used(s.used, s.blocks[k + 1]) ==> k + 2 < |s.blocks|
  {
  }

  lemma RightLinks(s: State, k: nat, listed: bool)
    requires Loose(s, k, listed, false, true)
    ensures s.blocks[k] in s.links.next && s.links.next[s.blocks[k]] == s.blocks[k + 1]
    ensures Used(s.used, s.blocks[k + 1]) ==> Loose(s, k, listed, false, false)
  {
    hide Ring, FreeSum, Ascending;
    LinkOf(s.links, s.blocks, k);
    if Used(s.used, s.blocks[k + 1]) {
      assert Apart(s.used, s.blocks, k);
    }
  }

  lemma FreeAt(s: State, k: nat, listed: bool) returns (j: nat)
    requires Loose(s, k, listed, false, true) && !Used(s.used, s.blocks[k + 1])
    ensures j < |s.free| && s.free[j] == s.blocks[k + 1]
  {
    assert s.blocks[k + 1] != s.blocks[k];
    assert s.blocks[k + 1] in s.blocks;
    assert s.blocks[k + 1] in s.free;
    j :| 0 <= j < |s.free| && s.free[j] == s.blocks[k + 1];
  }

  lemma LiveFields(s: State, s': State, x: Node)
    requires s'.blocks == s.blocks && s'.used == s.used && s'.links == s.links
    ensures Carried(s, s', x)
  {
  }
}
