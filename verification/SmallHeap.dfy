/** The first-fit heap of mem.c. Headers live in the heap itself, at the offset of
    their block; `hdr` is that memory, and `blocks` lists the offsets that are
    block starts, in address order. */
module SmallHeap {
  import opened Basics

  const HDR: nat := 16           // SIZEOF_STRUCT_MEM
  const MIN_SIZE: nat := 12
  const MIN_ALIGNED: nat := 16   // MIN_SIZE_ALIGNED

  datatype Header = Header(magic: bool, used: bool, next: nat, prev: nat)

  type Memory = map<nat, Header>

  function AlignDown(n: nat): (r: nat)
    ensures r % 8 == 0 && r <= n < r + 8
  {
    n / 8 * 8
  }

  // ------------------------------------------------------------------ layout

  /** Block k is an aligned header, linked to both neighbours. */
  ghost predicate Link(h: Memory, bs: seq<nat>, k: int) {
    0 <= k < |bs| - 1 && bs[k] in h && bs[k] % 8 == 0
    && h[bs[k]].next == bs[k + 1] && bs[k] + HDR <= bs[k + 1]
    && h[bs[k]].prev == if k == 0 then 0 else bs[k - 1]
  }

  /** The headers at `bs` tile the heap from 0 to the end marker (whose own prev
      field is not kept). */
  ghost predicate Tiled(h: Memory, bs: seq<nat>, end: nat) {
    |bs| >= 2 && bs[0] == 0 && bs[|bs| - 1] == end && end % 8 == 0
    && end in h && h[end].used && h[end].next == end
    && forall k :: 0 <= k < |bs| - 1 ==> Link(h, bs, k)
  }

  /** Not both blocks k and k + 1 are free. */
  ghost predicate Merged(h: Memory, bs: seq<nat>, k: int) {
    0 <= k < |bs| - 1 && bs[k] in h && bs[k + 1] in h ==> h[bs[k]].used || h[bs[k + 1]].used
  }

  ghost predicate Coalesced(h: Memory, bs: seq<nat>) {
    forall k :: 0 <= k < |bs| - 1 ==> Merged(h, bs, k)
  }

  lemma {:induction false} Before(h: Memory, bs: seq<nat>, end: nat, i: nat, j: nat)
    requires Tiled(h, bs, end) && i < j < |bs|
    ensures bs[i] + HDR <= bs[j]
    decreases j
  {
    if i < j - 1 {
      Before(h, bs, end, i, j - 1);
    }
    assert Link(h, bs, j - 1);
  }

  lemma NothingBetween(h: Memory, bs: seq<nat>, end: nat, k: nat)
    requires Tiled(h, bs, end) && k < |bs| - 1
    ensures bs[k] < bs[k + 1] && forall b :: b in bs ==> b <= bs[k] || b >= bs[k + 1]
  {
    assert Link(h, bs, k);
    forall j | 0 <= j < |bs| ensures bs[j] <= bs[k] || bs[j] >= bs[k + 1] {
      if j < k { Before(h, bs, end, j, k); }
      if j > k + 1 { Before(h, bs, end, k + 1, j); }
    }
  }

  // -------------------------------------------------------------- statistics

  function Weight(h: Memory, b: nat): nat {
    if b in h && h[b].used && b <= h[b].next then h[b].next - b else 0
  }

  function UsedSum(h: Memory, bs: seq<nat>): nat {
    if |bs| == 0 then 0 else Weight(h, bs[0]) + UsedSum(h, bs[1..])
  }

  lemma SumOne(h: Memory, b: nat)
    ensures UsedSum(h, [b]) == Weight(h, b)
  {
    assert [b][1..] == [];
  }

  lemma SumTwo(h: Memory, b: nat, c: nat)
    ensures UsedSum(h, [b, c]) == Weight(h, b) + Weight(h, c)
  {
    assert [b, c][1..] == [c];
    SumOne(h, c);
  }

  lemma {:induction false} SumSplit(h: Memory, a: seq<nat>, b: seq<nat>)
    ensures UsedSum(h, a + b) == UsedSum(h, a) + UsedSum(h, b)
  {
    if |a| == 0 {
      assert a + b == b;
    } else {
      assert (a + b)[1..] == a[1..] + b;
      SumSplit(h, a[1..], b);
    }
  }

  lemma {:induction false} SumFrame(h: Memory, h': Memory, bs: seq<nat>)
    requires forall k :: 0 <= k < |bs| ==> Weight(h, bs[k]) == Weight(h', bs[k])
    ensures UsedSum(h, bs) == UsedSum(h', bs)
  {
    if |bs| > 0 {
      assert forall k :: 0 <= k < |bs| - 1 ==> bs[1..][k] == bs[k + 1];
      SumFrame(h, h', bs[1..]);
    }
  }

  /** Replacing the run of blocks `mid` by `mid'`, nothing else having changed. */
  lemma SumReplace(h: Memory, h': Memory, a: seq<nat>, mid: seq<nat>, mid': seq<nat>, c: seq<nat>)
    requires forall k :: 0 <= k < |a| ==> Weight(h, a[k]) == Weight(h', a[k])
    requires forall k :: 0 <= k < |c| ==> Weight(h, c[k]) == Weight(h', c[k])
    ensures UsedSum(h', a + mid' + c) - UsedSum(h', mid') == UsedSum(h, a + mid + c) - UsedSum(h, mid)
  {
    SumSplit(h, a + mid, c);
    SumSplit(h, a, mid);
    SumSplit(h', a + mid', c);
    SumSplit(h', a, mid');
    SumFrame(h, h', a);
    SumFrame(h, h', c);
  }

  // --------------------------------------------------------- split and merge

  /** The headers after block b is cut at p2 and the rest made a free block. */
  function SplitMem(h: Memory, b: nat, p2: nat, end: nat, magic: bool, used: bool): Memory
    requires b in h && h[b].next in h && b != p2 && h[b].next != p2
  {
    var n := h[b].next;
    var h1 := h[p2 := Header(magic, false, n, b)];
    var h2 := h1[b := h1[b].(next := p2, used := used)];
    if n != end then h2[n := h2[n].(prev := p2)] else h2
  }

  function Insert(bs: seq<nat>, k: nat, p: nat): seq<nat>
    requires k < |bs|
  {
    bs[..k + 1] + [p] + bs[k + 1..]
  }

  lemma SplitTiled(h: Memory, bs: seq<nat>, end: nat, k: nat, p2: nat, magic: bool, used: bool)
    requires Tiled(h, bs, end) && k < |bs| - 1
    requires bs[k] + HDR <= p2 && p2 + HDR <= bs[k + 1] && p2 % 8 == 0
    ensures bs[k] in h && h[bs[k]].next in h && bs[k] != p2 && h[bs[k]].next != p2
    ensures Tiled(SplitMem(h, bs[k], p2, end, magic, used), Insert(bs, k, p2), end)
  {
    assert Link(h, bs, k);
    assert bs[k + 1] in h by { if k + 1 < |bs| - 1 { assert Link(h, bs, k + 1); } }
    var h' := SplitMem(h, bs[k], p2, end, magic, used);
    var cs := Insert(bs, k, p2);
    if k + 1 < |bs| - 1 { Before(h, bs, end, k + 1, |bs| - 1); }
    forall i | 0 <= i < |cs| - 1 ensures Link(h', cs, i) {
      if i < k {
        assert Link(h, bs, i);
        Before(h, bs, end, i, k);
      } else if i > k + 1 {
        assert Link(h, bs, i - 1);
        if i > k + 2 { Before(h, bs, end, k + 1, i - 1); }
      }
    }
  }

  /** The headers after block b swallows its successor. */
  function MergeMem(h: Memory, b: nat): Memory
    requires b in h && h[b].next in h && h[h[b].next].next in h
  {
    var n := h[h[b].next].next;
    var h1 := h[b := h[b].(next := n)];
    h1[n := h1[n].(prev := b)]
  }

  function Remove(bs: seq<nat>, k: nat): seq<nat>
    requires k < |bs|
  {
    bs[..k] + bs[k + 1..]
  }

  lemma MergeTiled(h: Memory, bs: seq<nat>, end: nat, k: nat)
    requires Tiled(h, bs, end) && k + 2 < |bs|
    ensures bs[k] in h && h[bs[k]].next in h && h[h[bs[k]].next].next in h
    ensures Tiled(MergeMem(h, bs[k]), Remove(bs, k + 1), end)
  {
    assert Link(h, bs, k) && Link(h, bs, k + 1);
    assert bs[k + 2] in h by { if k + 2 < |bs| - 1 { assert Link(h, bs, k + 2); } }
    var h' := MergeMem(h, bs[k]);
    var cs := Remove(bs, k + 1);
    if k + 2 < |bs| - 1 { Before(h, bs, end, k + 2, |bs| - 1); }
    forall i | 0 <= i < |cs| - 1 ensures Link(h', cs, i) {
      if i < k {
        assert Link(h, bs, i);
        Before(h, bs, end, i, k);
      } else if i > k {
        assert Link(h, bs, i + 1);
        if i > k + 1 { Before(h, bs, end, k + 2, i + 1); }
      }
    }
  }

  // -------------------------------------------------- invariants over blocks

  /** A used block carries the magic number. */
  ghost predicate Stamped(h: Memory, bs: seq<nat>, k: int) {
    0 <= k < |bs| - 1 && bs[k] in h && h[bs[k]].used ==> h[bs[k]].magic
  }

  ghost predicate AllStamped(h: Memory, bs: seq<nat>) {
    forall k :: 0 <= k < |bs| - 1 ==> Stamped(h, bs, k)
  }

  ghost predicate IsFree(h: Memory, bs: seq<nat>, b: nat) {
    b in bs && b in h && !h[b].used
  }

  /** The blocks handed out: offset of the header, bytes up to the next one. */
  ghost function LiveOf(h: Memory, bs: seq<nat>, end: nat): map<nat, nat> {
    map b | b in bs && b in h && h[b].used && b != end :: Weight(h, b)
  }

  /** A free block the search can take: large enough, and starting early enough
      for the scan bound (which refuses an exact fit at the end of the heap). */
  ghost predicate Fits(h: Memory, bs: seq<nat>, memSize: nat, b: nat, size: nat) {
    IsFree(h, bs, b) && h[b].next >= b + HDR + size && b < memSize - size
  }

  ghost predicate Lowest(h: Memory, bs: seq<nat>, end: nat, lfree: nat) {
    lfree <= end && forall b :: IsFree(h, bs, b) ==> lfree <= b
  }

  /** n payload bytes are taken for a request of `size` from a free block with `room`
      bytes: just those asked for if the rest can be a block, else all of them. */
  predicate CutFrom(room: int, n: int, size: nat) {
    if room >= size + HDR + MIN_ALIGNED then n == size else size <= n == room
  }

  /** What rt_malloc rounds a request to. */
  function Request(size: nat): (r: nat)
    ensures r % 8 == 0 && r >= size && r >= MIN_ALIGNED && (r == MIN_ALIGNED || r < size + 8)
  {
    if AlignUp(size) < MIN_ALIGNED then MIN_ALIGNED else AlignUp(size)
  }

  ghost predicate Consistent(h: Memory, bs: seq<nat>, memSize: nat, lfree: nat, usedMem: int) {
    memSize % 8 == 0 && Tiled(h, bs, memSize + HDR) && Coalesced(h, bs) && AllStamped(h, bs)
    && (lfree == memSize + HDR || IsFree(h, bs, lfree))
    && usedMem == UsedSum(h, bs)
  }

  lemma BlockInMemory(h: Memory, bs: seq<nat>, end: nat, k: nat)
    requires Tiled(h, bs, end) && k < |bs|
    ensures bs[k] in h && bs[k] <= end && (k < |bs| - 1 ==> bs[k] < end)
    ensures k < |bs| - 1 ==> h[bs[k]].next == bs[k + 1]
  {
    if k < |bs| - 1 {
      assert Link(h, bs, k);
      Before(h, bs, end, k, |bs| - 1);
    }
  }

  function Occupied(h: Memory, b: nat): Memory
    requires b in h
  {
    h[b := h[b].(used := true, magic := true)]
  }

  lemma OccupyKeeps(h: Memory, bs: seq<nat>, end: nat, k: nat)
    requires Tiled(h, bs, end) && Coalesced(h, bs) && AllStamped(h, bs) && k < |bs| - 1 && bs[k] in h
    ensures var h' := Occupied(h, bs[k]);
            Tiled(h', bs, end) && Coalesced(h', bs) && AllStamped(h', bs)
  {
    var h' := Occupied(h, bs[k]);
    BlockInMemory(h, bs, end, k);
    forall i | 0 <= i < |bs| - 1 ensures Link(h', bs, i) && Merged(h', bs, i) && Stamped(h', bs, i) {
      assert Link(h, bs, i) && Merged(h, bs, i) && Stamped(h, bs, i);
      BlockInMemory(h, bs, end, i + 1);
    }
  }

  lemma OccupySum(h: Memory, bs: seq<nat>, end: nat, k: nat)
    requires Tiled(h, bs, end) && k < |bs| - 1 && bs[k] in h && !h[bs[k]].used
    ensures UsedSum(Occupied(h, bs[k]), bs) == UsedSum(h, bs) + (h[bs[k]].next - bs[k])
  {
    var b := bs[k];
    var h' := Occupied(h, b);
    var a, c := bs[..k], bs[k + 1..];
    assert bs == a + [b] + c;
    assert Link(h, bs, k);
    forall i | 0 <= i < |a| ensures a[i] != b { Before(h, bs, end, i, k); }
    forall i | 0 <= i < |c| ensures c[i] != b { Before(h, bs, end, k, k + 1 + i); }
    SumReplace(h, h', a, [b], [b], c);
    assert UsedSum(h, [b]) == 0 && UsedSum(h', [b]) == h[b].next - b;
  }

  /** Taking free block k whole. */
  lemma TakeWhole(h: Memory, bs: seq<nat>, memSize: nat, lfree: nat, usedMem: int, k: nat)
    requires Consistent(h, bs, memSize, lfree, usedMem) && k < |bs| - 1
    requires bs[k] in h && !h[bs[k]].used
    ensures var b := bs[k];
            var h' := Occupied(h, b);
            Tiled(h', bs, memSize + HDR) && Coalesced(h', bs) && AllStamped(h', bs)
            && UsedSum(h', bs) == usedMem + (h[b].next - b)
            && LiveOf(h', bs, memSize + HDR) == LiveOf(h, bs, memSize + HDR)[b := Weight(h', b)]
            && forall c :: IsFree(h', bs, c) <==> IsFree(h, bs, c) && c != b
  {
    hide UsedSum, Coalesced, AllStamped, LiveOf, Weight;
    var end := memSize + HDR;
    BlockInMemory(h, bs, end, k);
    forall i | 0 <= i < |bs| ensures bs[i] in h { BlockInMemory(h, bs, end, i); }
    OccupyKeeps(h, bs, end, k);
    OccupySum(h, bs, end, k);
    OccupyLive(h, bs, end, bs[k]);
  }

  lemma OccupyLive(h: Memory, bs: seq<nat>, end: nat, b: nat)
    requires b in bs && b in h && b != end
    requires forall c :: c in bs ==> c in h
    ensures LiveOf(Occupied(h, b), bs, end) == LiveOf(h, bs, end)[b := Weight(Occupied(h, b), b)]
  {
    LiveChange(h, bs, Occupied(h, b), bs, end, b);
  }

  lemma BlockFacts(h: Memory, bs: seq<nat>, end: nat, k: nat)
    requires Tiled(h, bs, end) && k < |bs| && (k < |bs| - 1 || bs[k] != end)
    ensures k < |bs| - 1 && bs[k] in h && bs[k] % 8 == 0 && h[bs[k]].next == bs[k + 1] && bs[k] + HDR <= bs[k + 1]
    ensures bs[k + 1] in h && bs[k + 1] % 8 == 0 && bs[k] < bs[k + 1] <= end
  {
    assert Link(h, bs, k);
    BlockInMemory(h, bs, end, k + 1);
    if k + 1 < |bs| - 1 { assert Link(h, bs, k + 1); }
  }

  lemma LiveBlock(h: Memory, bs: seq<nat>, end: nat, b: nat)
    requires b in LiveOf(h, bs, end)
    ensures b in bs && b in h && h[b].used && b != end && LiveOf(h, bs, end)[b] == Weight(h, b)
  {
  }

  function Released(h: Memory, b: nat): Memory
    requires b in h
  {
    h[b := h[b].(used := false, magic := false)]
  }

  lemma ReleaseKeeps(h: Memory, bs: seq<nat>, end: nat, k: nat)
    requires Tiled(h, bs, end) && Coalesced(h, bs) && AllStamped(h, bs) && k < |bs| - 1 && bs[k] in h
    ensures var h' := Released(h, bs[k]);
            Tiled(h', bs, end) && AllStamped(h', bs) && MergedBut(h', bs, k, k - 1)
  {
    var h' := Released(h, bs[k]);
    BlockInMemory(h, bs, end, k);
    forall i | 0 <= i < |bs| - 1
      ensures Link(h', bs, i) && (i != k && i != k - 1 ==> Merged(h', bs, i)) && Stamped(h', bs, i)
    {
      assert Link(h, bs, i) && Merged(h, bs, i) && Stamped(h, bs, i);
      if i != k && i != k - 1 {
        HeadersApart(h, bs, end, i, k);
        HeadersApart(h, bs, end, i + 1, k);
      }
    }
  }

  lemma HeadersApart(h: Memory, bs: seq<nat>, end: nat, i: nat, j: nat)
    requires Tiled(h, bs, end) && i < |bs| && j < |bs| && i != j
    ensures bs[i] != bs[j]
  {
    if i < j { Before(h, bs, end, i, j); } else { Before(h, bs, end, j, i); }
  }

  lemma ReleaseSum(h: Memory, bs: seq<nat>, end: nat, k: nat)
    requires Tiled(h, bs, end) && k < |bs| - 1 && bs[k] in h
    ensures UsedSum(Released(h, bs[k]), bs) == UsedSum(h, bs) - Weight(h, bs[k])
  {
    var b := bs[k];
    var h' := Released(h, b);
    var a, c := bs[..k], bs[k + 1..];
    assert bs == a + [b] + c;
    forall i | 0 <= i < |a| ensures a[i] != b { Before(h, bs, end, i, k); }
    forall i | 0 <= i < |c| ensures c[i] != b { Before(h, bs, end, k, k + 1 + i); }
    SumReplace(h, h', a, [b], [b], c);
    assert UsedSum(h, [b]) == Weight(h, b) && UsedSum(h', [b]) == 0;
  }

  /** Marking used block k free, before its neighbours are looked at. */
  lemma Release(h: Memory, bs: seq<nat>, memSize: nat, lfree: nat, usedMem: int, k: nat)
    requires Consistent(h, bs, memSize, lfree, usedMem) && k < |bs|
    requires bs[k] in h && h[bs[k]].used && bs[k] != memSize + HDR
    ensures var b := bs[k];
            var h' := Released(h, b);
            k < |bs| - 1 && Weight(h, b) == h[b].next - b
            && Tiled(h', bs, memSize + HDR) && AllStamped(h', bs) && MergedBut(h', bs, k, k - 1)
            && UsedSum(h', bs) == usedMem - Weight(h, b)
            && LiveOf(h', bs, memSize + HDR) == LiveOf(h, bs, memSize + HDR) - {b}
            && forall c :: IsFree(h', bs, c) <==> IsFree(h, bs, c) || c == b
  {
    hide UsedSum, Coalesced, AllStamped, MergedBut;
    assert k < |bs| - 1;
    BlockInMemory(h, bs, memSize + HDR, k);
    assert Link(h, bs, k);
    ReleaseKeeps(h, bs, memSize + HDR, k);
    ReleaseSum(h, bs, memSize + HDR, k);
  }

  /** The heap after the first bytes of free block k, up to p2, are cut off and
      taken. */
  function SplitTaken(h: Memory, b: nat, p2: nat, end: nat, magic: bool): Memory
    requires b in h && h[b].next in h && b != p2 && h[b].next != p2
  {
    var h1 := SplitMem(h, b, p2, end, magic, true);
    h1[b := h1[b].(magic := true)]
  }

  ghost predicate CanSplit(h: Memory, bs: seq<nat>, end: nat, k: nat, p2: nat) {
    Tiled(h, bs, end) && k < |bs| - 1 && bs[k] in h && h[bs[k]].next in h
    && bs[k] + HDR <= p2 && p2 + HDR <= bs[k + 1] && p2 % 8 == 0 && h[bs[k]].next == bs[k + 1]
  }

  lemma NotABlock(h: Memory, bs: seq<nat>, end: nat, k: nat, p2: nat)
    requires CanSplit(h, bs, end, k, p2)
    ensures forall i :: 0 <= i < |bs| ==> bs[i] != p2 && bs[i] in h && (i != k ==> bs[i] != bs[k])
  {
    forall i | 0 <= i < |bs| ensures bs[i] != p2 && bs[i] in h && (i != k ==> bs[i] != bs[k]) {
      BlockInMemory(h, bs, end, i);
      if i < k { Before(h, bs, end, i, k); }
      if i > k { Before(h, bs, end, k, i); }
      if i > k + 1 { Before(h, bs, end, k + 1, i); }
    }
  }

  lemma SplitKeeps(h: Memory, bs: seq<nat>, end: nat, k: nat, p2: nat, magic: bool)
    requires CanSplit(h, bs, end, k, p2) && Coalesced(h, bs) && AllStamped(h, bs) && !h[bs[k]].used
    ensures var h' := SplitTaken(h, bs[k], p2, end, magic);
            var cs := Insert(bs, k, p2);
            Tiled(h', cs, end) && Coalesced(h', cs) && AllStamped(h', cs)
  {
    var b := bs[k];
    SplitTiled(h, bs, end, k, p2, magic, true);
    NotABlock(h, bs, end, k, p2);
    var h1 := SplitMem(h, b, p2, end, magic, true);
    var h' := SplitTaken(h, b, p2, end, magic);
    var cs := Insert(bs, k, p2);
    assert Merged(h, bs, k);
    forall i | 0 <= i < |cs| - 1 ensures Link(h', cs, i) && Merged(h', cs, i) && Stamped(h', cs, i) {
      assert Link(h1, cs, i);
      if i <= k { assert Merged(h, bs, i) && Stamped(h, bs, i); }
      if i > k + 1 { assert Merged(h, bs, i - 1) && Stamped(h, bs, i - 1); }
    }
  }

  /** The same cut in a block that is in use: the rest becomes a hole. */
  lemma SplitUsed(h: Memory, bs: seq<nat>, end: nat, k: nat, p2: nat)
    requires CanSplit(h, bs, end, k, p2) && Coalesced(h, bs) && AllStamped(h, bs) && h[bs[k]].used
    ensures var h' := SplitTaken(h, bs[k], p2, end, true);
            var cs := Insert(bs, k, p2);
            Tiled(h', cs, end) && AllStamped(h', cs) && MergedBut(h', cs, k + 1, k)
  {
    var b := bs[k];
    SplitTiled(h, bs, end, k, p2, true, true);
    NotABlock(h, bs, end, k, p2);
    var h1 := SplitMem(h, b, p2, end, true, true);
    var h' := SplitTaken(h, b, p2, end, true);
    var cs := Insert(bs, k, p2);
    forall i | 0 <= i < |cs| - 1
      ensures Link(h', cs, i) && (i != k && i != k + 1 ==> Merged(h', cs, i)) && Stamped(h', cs, i)
    {
      assert Link(h1, cs, i);
      if i <= k { assert Merged(h, bs, i) && Stamped(h, bs, i); }
      if i > k + 1 { assert Merged(h, bs, i - 1) && Stamped(h, bs, i - 1); }
    }
  }

  lemma SplitSum(h: Memory, bs: seq<nat>, end: nat, k: nat, p2: nat, magic: bool)
    requires CanSplit(h, bs, end, k, p2)
    ensures UsedSum(SplitTaken(h, bs[k], p2, end, magic), Insert(bs, k, p2))
            == UsedSum(h, bs) - Weight(h, bs[k]) + (p2 - bs[k])
  {
    NotABlock(h, bs, end, k, p2);
    var b := bs[k];
    var h' := SplitTaken(h, b, p2, end, magic);
    var a, c := bs[..k], bs[k + 1..];
    assert bs == a + [b] + c;
    assert Insert(bs, k, p2) == a + [b, p2] + c;
    SumReplace(h, h', a, [b], [b, p2], c);
    SumOne(h, b);
    SumTwo(h', b, p2);
  }

  lemma InsertMembers(bs: seq<nat>, k: nat, p: nat)
    requires k < |bs|
    ensures forall x :: x in Insert(bs, k, p) <==> x in bs || x == p
  {
    assert bs == bs[..k + 1] + bs[k + 1..];
  }

  lemma SplitHeaders(h: Memory, bs: seq<nat>, end: nat, k: nat, p2: nat, magic: bool)
    requires CanSplit(h, bs, end, k, p2)
    ensures var h' := SplitTaken(h, bs[k], p2, end, magic);
            p2 !in bs && p2 != end && bs[k] != end && bs[k] in h' && h'[bs[k]].used && Weight(h', bs[k]) == p2 - bs[k]
            && p2 in h' && !h'[p2].used
            && forall c :: c in bs && c != bs[k] ==>
                 c in h' && c in h && h'[c].used == h[c].used && Weight(h', c) == Weight(h, c)
  {
    NotABlock(h, bs, end, k, p2);
    BlockInMemory(h, bs, end, k);
    BlockInMemory(h, bs, end, k + 1);
  }

  /** Two headers maps that agree on the blocks of bs but b have the same live
      blocks but b. */
  lemma LiveChange(h: Memory, bs: seq<nat>, h': Memory, cs: seq<nat>, end: nat, b: nat)
    requires b in cs && b in h' && h'[b].used && b != end
    requires forall c :: c in bs && c != b ==> c in cs
    requires forall c :: c in cs && c != b && c !in bs ==> c in h' && !h'[c].used
    requires forall c :: c in bs && c != b ==>
                           c in h' && c in h && h'[c].used == h[c].used && Weight(h', c) == Weight(h, c)
    ensures LiveOf(h', cs, end) == LiveOf(h, bs, end)[b := Weight(h', b)]
  {
    hide Weight;
    var l, l' := LiveOf(h, bs, end), LiveOf(h', cs, end);
    assert forall c :: c in l' ==> c in l || c == b;
    assert forall c :: c in l ==> c in l';
  }

  lemma SplitLive(h: Memory, bs: seq<nat>, end: nat, k: nat, p2: nat, magic: bool)
    requires CanSplit(h, bs, end, k, p2)
    ensures var h' := SplitTaken(h, bs[k], p2, end, magic);
            var cs := Insert(bs, k, p2);
            LiveOf(h', cs, end) == LiveOf(h, bs, end)[bs[k] := p2 - bs[k]]
            && forall c :: IsFree(h', cs, c) <==> (IsFree(h, bs, c) && c != bs[k]) || c == p2
  {
    hide SplitTaken, SplitMem, Insert, LiveOf, Weight, Tiled;
    SplitHeaders(h, bs, end, k, p2, magic);
    InsertMembers(bs, k, p2);
    LiveChange(h, bs, SplitTaken(h, bs[k], p2, end, magic), Insert(bs, k, p2), end, bs[k]);
  }

  // ------------------------------------------------------------------- merging

  ghost predicate CanMerge(h: Memory, bs: seq<nat>, end: nat, k: nat) {
    Tiled(h, bs, end) && k + 2 < |bs| && bs[k] in h && bs[k + 1] in h && bs[k + 2] in h
    && h[bs[k]].next == bs[k + 1] && h[bs[k + 1]].next == bs[k + 2]
    && !h[bs[k]].used && !h[bs[k + 1]].used
  }

  lemma MergeDistinct(h: Memory, bs: seq<nat>, end: nat, k: nat)
    requires CanMerge(h, bs, end, k)
    ensures forall i :: 0 <= i < |bs| ==>
                          bs[i] in h && (i != k ==> bs[i] != bs[k]) && (i != k + 1 ==> bs[i] != bs[k + 1])
  {
    forall i | 0 <= i < |bs|
      ensures bs[i] in h && (i != k ==> bs[i] != bs[k]) && (i != k + 1 ==> bs[i] != bs[k + 1])
    {
      BlockInMemory(h, bs, end, i);
      if i < k { Before(h, bs, end, i, k); }
      if i > k { Before(h, bs, end, k, i); }
      if i < k + 1 { Before(h, bs, end, i, k + 1); }
      if i > k + 1 { Before(h, bs, end, k + 1, i); }
    }
  }

  /** Every pair but possibly (k - 1, k) has a used block. */
  ghost predicate MergedBut(h: Memory, bs: seq<nat>, k: int, l: int) {
    forall i :: 0 <= i < |bs| - 1 && i != k && i != l ==> Merged(h, bs, i)
  }

  lemma MergeKeeps(h: Memory, bs: seq<nat>, end: nat, k: nat, l: int)
    requires CanMerge(h, bs, end, k) && AllStamped(h, bs) && MergedBut(h, bs, k, l) && l < k
    ensures var h' := MergeMem(h, bs[k]);
            var cs := Remove(bs, k + 1);
            Tiled(h', cs, end) && AllStamped(h', cs) && MergedBut(h', cs, l, l)
  {
    MergeTiled(h, bs, end, k);
    MergeDistinct(h, bs, end, k);
    var h' := MergeMem(h, bs[k]);
    var cs := Remove(bs, k + 1);
    forall i | 0 <= i < |cs| - 1 ensures Stamped(h', cs, i) && (i != l ==> Merged(h', cs, i)) {
      if i <= k { assert Stamped(h, bs, i); } else { assert Stamped(h, bs, i + 1); }
      if i < k && i != l { assert Merged(h, bs, i); }
      if i >= k { assert Merged(h, bs, i + 1); }
    }
  }

  lemma MergeSum(h: Memory, bs: seq<nat>, end: nat, k: nat)
    requires CanMerge(h, bs, end, k)
    ensures UsedSum(MergeMem(h, bs[k]), Remove(bs, k + 1)) == UsedSum(h, bs)
  {
    MergeDistinct(h, bs, end, k);
    var h' := MergeMem(h, bs[k]);
    var b, n := bs[k], bs[k + 1];
    var a, c := bs[..k], bs[k + 2..];
    assert bs == a + [b, n] + c;
    assert Remove(bs, k + 1) == a + [b] + c;
    SumReplace(h, h', a, [b, n], [b], c);
    SumTwo(h, b, n);
    SumOne(h', b);
  }

  lemma RemoveMembers(bs: seq<nat>, k: nat)
    requires k < |bs| && forall i :: 0 <= i < |bs| && i != k ==> bs[i] != bs[k]
    ensures forall x :: x in Remove(bs, k) <==> x in bs && x != bs[k]
  {
    assert bs == bs[..k] + [bs[k]] + bs[k + 1..];
  }

  lemma MergeLive(h: Memory, bs: seq<nat>, end: nat, k: nat)
    requires CanMerge(h, bs, end, k)
    ensures var h' := MergeMem(h, bs[k]);
            var cs := Remove(bs, k + 1);
            LiveOf(h', cs, end) == LiveOf(h, bs, end)
            && forall c :: IsFree(h', cs, c) <==> IsFree(h, bs, c) && c != bs[k + 1]
  {
    MergeDistinct(h, bs, end, k);
    RemoveMembers(bs, k + 1);
    var h' := MergeMem(h, bs[k]);
    assert forall c :: c in bs && c != bs[k] ==> c in h' && h'[c].used == h[c].used && h'[c].next == h[c].next;
  }

  /** A pair with a used block is no exception any more. */
  lemma NotMerged(h: Memory, bs: seq<nat>, k: nat)
    requires MergedBut(h, bs, k, k - 1) && (k + 1 < |bs| && bs[k + 1] in h ==> h[bs[k + 1]].used)
    ensures MergedBut(h, bs, k - 1, k - 1)
  {
    assert Merged(h, bs, k);
  }

  lemma MergedWeaken(h: Memory, bs: seq<nat>, i: int, j: int)
    requires MergedBut(h, bs, i, i)
    ensures MergedBut(h, bs, i, j)
  {
  }

  lemma AllMerged(h: Memory, bs: seq<nat>, l: int)
    requires MergedBut(h, bs, l, l) && (0 <= l < |bs| && bs[l] in h ==> h[bs[l]].used)
    ensures Coalesced(h, bs)
  {
    assert Merged(h, bs, l);
  }

  // ------------------------------------------------------------------ the heap

  class Heap {
    var hdr: Memory
    var memSize: nat
    var lfree: nat
    var usedMem: int
    var maxMem: int
    var data: map<nat, nat>     // payload bytes, by offset
    ghost var blocks: seq<nat>

    ghost function End(): nat
      reads this
    {
      memSize + HDR
    }

    ghost predicate Valid()
      reads this
    {
      Consistent(hdr, blocks, memSize, lfree, usedMem) && usedMem <= maxMem
    }

    ghost function Live(): map<nat, nat>
      reads this
    {
      LiveOf(hdr, blocks, End())
    }

    /** lfree is the lowest free block, or the end marker when there is none. */
    ghost predicate LowestFree()
      reads this
    {
      Lowest(hdr, blocks, End(), lfree)
    }

    /** The state plug_holes works on: everything in order, except that free block
        k may have a free neighbour at pair i or j. */
    ghost predicate Hole(mem: nat, k: nat, i: int, j: int)
      reads this
    {
      Tiled(hdr, blocks, End()) && AllStamped(hdr, blocks) && MergedBut(hdr, blocks, i, j)
      && memSize % 8 == 0 && k < |blocks| - 1 && blocks[k] == mem && mem in hdr && !hdr[mem].used
      && (lfree == End() || IsFree(hdr, blocks, lfree)) && usedMem == UsedSum(hdr, blocks) && usedMem <= maxMem
    }

    /** Plug hole forward. */
    method PlugForward(mem: nat, ghost k: nat)
      requires Hole(mem, k, k, k - 1)
      modifies this`hdr, this`lfree, this`blocks
      ensures Hole(mem, k, k - 1, k - 1) && Live() == old(Live())
      ensures old(LowestFree()) ==> LowestFree()
      ensures lfree == if old(lfree) == old(hdr)[mem].next && old(lfree) != End() then mem else old(lfree)
      ensures forall b: nat :: IsFree(hdr, blocks, b) ==> old(IsFree(hdr, blocks, b))
      ensures PrevUsed(hdr, mem) == old(PrevUsed(hdr, mem))
    {
      hide LiveOf, UsedSum, MergedBut, AllStamped;
      var nmem := hdr[mem].next;
      assert Link(hdr, blocks, k);
      ghost var h, bs := hdr, blocks;
      BlockInMemory(h, bs, End(), k + 1);
      if mem != nmem && !hdr[nmem].used && nmem != memSize + HDR {
        assert Link(h, bs, k + 1);
        BlockInMemory(h, bs, End(), k + 2);
        MergeKeeps(h, bs, End(), k, k - 1);
        MergeSum(h, bs, End(), k);
        MergeLive(h, bs, End(), k);
        if lfree == nmem {
          lfree := mem;
        }
        var nn := hdr[nmem].next;
        hdr := hdr[mem := hdr[mem].(next := nn)];
        hdr := hdr[nn := hdr[nn].(prev := mem)];
        blocks := Remove(blocks, k + 1);
        assert hdr == MergeMem(h, mem);
      } else {
        NotMerged(h, bs, k);
      }
    }

    /** Plug hole backward. */
    method PlugBackward(mem: nat, ghost k: nat)
      requires Hole(mem, k, k - 1, k - 1)
      modifies this`hdr, this`lfree, this`blocks
      ensures Valid() && Live() == old(Live())
      ensures old(LowestFree()) ==> LowestFree()
      ensures old(PrevUsed(hdr, mem)) ==> hdr == old(hdr) && blocks == old(blocks) && lfree == old(lfree)
    {
      hide LiveOf, UsedSum, MergedBut, AllStamped;
      ghost var h, bs := hdr, blocks;
      assert Link(h, bs, k);
      BlockInMemory(h, bs, End(), k + 1);
      if k > 0 { assert Link(h, bs, k - 1); }
      var pmem := hdr[mem].prev;
      if pmem != mem && !hdr[pmem].used {
        MergedWeaken(h, bs, k - 1, -1);
        MergeKeeps(h, bs, End(), k - 1, -1);
        MergeSum(h, bs, End(), k - 1);
        MergeLive(h, bs, End(), k - 1);
        if lfree == mem {
          lfree := pmem;
        }
        var nn := hdr[mem].next;
        hdr := hdr[pmem := hdr[pmem].(next := nn)];
        hdr := hdr[nn := hdr[nn].(prev := pmem)];
        blocks := Remove(blocks, k);
        assert hdr == MergeMem(h, pmem);
        AllMerged(hdr, blocks, -1);
      } else {
        AllMerged(h, bs, k - 1);
      }
    }

    /** plug_holes on free block k. */
    method PlugHoles(mem: nat, ghost k: nat)
      requires Hole(mem, k, k, k - 1)
      modifies this`hdr, this`lfree, this`blocks
      ensures Valid() && Live() == old(Live())
      ensures old(LowestFree()) ==> LowestFree()
      ensures old(PrevUsed(hdr, mem)) ==>
                IsFree(hdr, blocks, mem) && (forall b: nat :: IsFree(hdr, blocks, b) ==> old(IsFree(hdr, blocks, b)))
                && lfree == if old(lfree) == old(hdr)[mem].next && old(lfree) != End() then mem else old(lfree)
    {
      PlugForward(mem, k);
      PlugBackward(mem, k);
    }

    /** rt_system_heap_init on the region begin..end. */
    constructor (begin: nat, end: nat)
      ensures var b, e := AlignUp(begin), AlignDown(end);
              e > 2 * HDR && e - 2 * HDR >= b ==>
                memSize == e - b - 2 * HDR && Valid() && LowestFree() && Live() == map[] && usedMem == 0
    {
      var b, e := AlignUp(begin), AlignDown(end);
      hdr, memSize, lfree, usedMem, maxMem, data := map[], 0, 0, 0, 0, map[];
      blocks := [];
      if e > 2 * HDR && e - 2 * HDR >= b {
        memSize := e - b - 2 * HDR;
        var n := e - b - 2 * HDR + HDR;
        hdr := map[0 := Header(true, false, n, 0), n := Header(true, true, n, n)];
        blocks := [0, n];
      }
      new;
      if |blocks| == 2 {
        assert Link(hdr, blocks, 0);
        assert blocks[1..] == [End()] && blocks[1..][1..] == [];
        assert UsedSum(hdr, [End()]) == 0;
      }
    }

    /** The first-fit scan of rt_malloc: the first block from lfree on that fits. */
    method FirstFit(size: nat) returns (found: bool, ptr: nat, ghost k: nat)
      requires Valid() && size <= memSize
      ensures found ==> k < |blocks| - 1 && blocks[k] == ptr && lfree <= ptr && Fits(hdr, blocks, memSize, ptr, size)
      ensures found ==> forall b: nat :: lfree <= b < ptr ==> !Fits(hdr, blocks, memSize, b, size)
      ensures !found ==> forall b: nat :: lfree <= b ==> !Fits(hdr, blocks, memSize, b, size)
    {
      hide UsedSum;
      ptr := lfree;
      k := if lfree == End() then |blocks| - 1 else IndexOf(blocks, lfree);
      found := false;
      while ptr < memSize - size
        invariant k < |blocks| && blocks[k] == ptr && lfree <= ptr
        invariant forall b: nat :: lfree <= b < ptr ==> !Fits(hdr, blocks, memSize, b, size)
        decreases End() - ptr
      {
        assert Link(hdr, blocks, k);
        if !hdr[ptr].used && hdr[ptr].next >= ptr + HDR + size {
          found := true;
          return;
        }
        NothingBetween(hdr, blocks, End(), k);
        ptr := hdr[ptr].next;
        k := k + 1;
      }
    }

    /** What both ways of taking free block k for `size` bytes promise. */
    twostate predicate Took(ptr: nat, size: nat, k: nat)
      reads this
    {
      Tiled(hdr, blocks, End()) && Coalesced(hdr, blocks) && AllStamped(hdr, blocks)
      && usedMem == UsedSum(hdr, blocks)
      && k < |blocks| - 1 && blocks[k] == ptr && ptr in hdr && hdr[ptr].used
      && Live() == old(Live())[ptr := Taken(old(hdr), ptr, size)]
      && (forall b: nat :: b != ptr && old(IsFree(hdr, blocks, b)) ==> IsFree(hdr, blocks, b))
      && (forall b: nat :: IsFree(hdr, blocks, b) ==> b > ptr || old(IsFree(hdr, blocks, b)))
      && memSize == old(memSize) && lfree == old(lfree)
    }

    /** The header writes that cut block ptr at ptr2. */
    method WriteSplit(ptr: nat, ptr2: nat, magic: bool)
      requires ptr in hdr && hdr[ptr].next in hdr && ptr != ptr2 && hdr[ptr].next != ptr2 && hdr[ptr].next != ptr
      modifies this`hdr
      ensures hdr == SplitMem(old(hdr), ptr, ptr2, End(), magic, old(hdr)[ptr].used)
      ensures ptr in hdr
    {
      var next := hdr[ptr].next;
      hdr := hdr[ptr2 := Header(magic, false, next, ptr)];
      hdr := hdr[ptr := hdr[ptr].(next := ptr2)];
      if next != memSize + HDR {
        hdr := hdr[next := hdr[next].(prev := ptr2)];
      }
    }

    method CarveSplit(ptr: nat, size: nat, ghost k: nat)
      requires Valid() && k < |blocks| - 1 && blocks[k] == ptr && size % 8 == 0 && IsFree(hdr, blocks, ptr)
      requires hdr[ptr].next >= ptr + HDR + size + HDR + MIN_ALIGNED
      modifies this`hdr, this`blocks, this`usedMem
      ensures Took(ptr, size, k)
    {
      hide LiveOf, UsedSum, Weight, Coalesced, AllStamped, Tiled;
      ghost var h, bs := hdr, blocks;
      BlockFacts(h, bs, End(), k);
      var ptr2 := ptr + HDR + size;
      var stale := if ptr2 in hdr then hdr[ptr2].magic else false;
      SplitKeeps(h, bs, End(), k, ptr2, stale);
      SplitSum(h, bs, End(), k, ptr2, stale);
      FreeWeight(h, ptr);
      SplitLive(h, bs, End(), k, ptr2, stale);
      WriteTaken(ptr, ptr2, stale);
      blocks := Insert(blocks, k, ptr2);
      usedMem := usedMem + size + HDR;
    }

    /** The same writes, and the block marked used and stamped. */
    method WriteTaken(ptr: nat, ptr2: nat, magic: bool)
      requires ptr in hdr && hdr[ptr].next in hdr && ptr != ptr2 && hdr[ptr].next != ptr2 && hdr[ptr].next != ptr
      modifies this`hdr
      ensures hdr == SplitTaken(old(hdr), ptr, ptr2, End(), magic)
    {
      WriteSplit(ptr, ptr2, magic);
      hdr := hdr[ptr := hdr[ptr].(used := true)];
      hdr := hdr[ptr := hdr[ptr].(magic := true)];
    }

    method CarveWhole(ptr: nat, size: nat, ghost k: nat)
      requires Valid() && k < |blocks| - 1 && blocks[k] == ptr && IsFree(hdr, blocks, ptr)
      requires ptr + HDR + size <= hdr[ptr].next < ptr + HDR + size + HDR + MIN_ALIGNED
      modifies this`hdr, this`usedMem
      ensures Took(ptr, size, k)
    {
      hide LiveOf, UsedSum, Weight, Coalesced, AllStamped, Tiled;
      ghost var h, bs := hdr, blocks;
      var next := hdr[ptr].next;
      TakeWhole(h, bs, memSize, lfree, usedMem, k);
      WeightOf(h, ptr);
      hdr := hdr[ptr := hdr[ptr].(used := true)];
      usedMem := usedMem + (next - ptr);
      hdr := hdr[ptr := hdr[ptr].(magic := true)];
      assert hdr == Occupied(h, ptr);
    }

    /** The loop that moves lfree past used blocks. */
    method AdvanceLfree(ghost k: nat)
      requires Tiled(hdr, blocks, End()) && k < |blocks| && blocks[k] == lfree
      modifies this`lfree
      ensures lfree == End() || IsFree(hdr, blocks, lfree)
      ensures old(lfree) <= lfree <= End() && forall b: nat :: old(lfree) <= b < lfree ==> !IsFree(hdr, blocks, b)
    {
      ghost var j: nat := k;
      BlockInMemory(hdr, blocks, End(), k);
      while hdr[lfree].used && lfree != memSize + HDR
        invariant j < |blocks| && blocks[j] == lfree && lfree in hdr && old(lfree) <= lfree <= End()
        invariant forall b: nat :: old(lfree) <= b < lfree ==> !IsFree(hdr, blocks, b)
        decreases End() - lfree
      {
        assert Link(hdr, blocks, j);
        BlockInMemory(hdr, blocks, End(), j + 1);
        NothingBetween(hdr, blocks, End(), j);
        lfree := hdr[lfree].next;
        j := j + 1;
      }
    }

    /** No free block from lfree on can serve the request. */
    ghost predicate Refused(bytes: nat)
      reads this
    {
      bytes == 0 || AlignUp(bytes) > memSize
      || forall b: nat :: lfree <= b ==> !Fits(hdr, blocks, memSize, b, Request(bytes))
    }

    /** rt_malloc. The result is the payload of the first free block, from lfree on,
        that fits; NULL means there is none. */
    method Malloc(bytes: nat) returns (r: Option<nat>)
      requires Valid() && memSize >= MIN_ALIGNED
      modifies this`hdr, this`lfree, this`blocks, this`usedMem, this`maxMem
      ensures Valid() && memSize == old(memSize)
      ensures r.None? <==> old(Refused(bytes))
      ensures maxMem == if usedMem > old(maxMem) then usedMem else old(maxMem)
      ensures r.None? ==> hdr == old(hdr) && blocks == old(blocks) && lfree == old(lfree) && usedMem == old(usedMem)
      ensures r.Some? ==>
                var b := r.value - HDR;
                r.value >= HDR && b >= old(lfree) && r.value % 8 == 0
                && old(Fits(hdr, blocks, memSize, r.value - HDR, Request(bytes)))
                && (forall c: nat :: old(lfree) <= c < b ==> !old(Fits(hdr, blocks, memSize, c, Request(bytes))))
                && Live() == old(Live())[b := Taken(old(hdr), b, Request(bytes))]
                && CutFrom(old(hdr)[b].next - b - HDR, Live()[b] - HDR, Request(bytes))
      ensures old(LowestFree()) ==> LowestFree()
    {
      hide LiveOf, UsedSum, Coalesced, AllStamped, Tiled;
      if bytes == 0 { return None; }
      var size := AlignUp(bytes);
      if size > memSize { return None; }
      if size < MIN_ALIGNED { size := MIN_ALIGNED; }
      var found, ptr;
      ghost var k;
      found, ptr, k := FirstFit(size);
      if !found { return None; }
      assert ptr % 8 == 0 by { BlockFacts(hdr, blocks, End(), k); }
      TakeBlock(ptr, size, k);
      assert old(Fits(hdr, blocks, memSize, ptr, Request(bytes)));
      return Some(ptr + HDR);
    }

    /** What rt_malloc does with the block it found. */
    method TakeBlock(ptr: nat, size: nat, ghost k: nat)
      requires Valid() && k < |blocks| - 1 && blocks[k] == ptr && lfree <= ptr && size % 8 == 0
      requires IsFree(hdr, blocks, ptr) && hdr[ptr].next >= ptr + HDR + size
      modifies this`hdr, this`lfree, this`blocks, this`usedMem, this`maxMem
      ensures Valid() && memSize == old(memSize)
      ensures Live() == old(Live())[ptr := Taken(old(hdr), ptr, size)]
      ensures maxMem == if usedMem > old(maxMem) then usedMem else old(maxMem)
      ensures old(LowestFree()) ==> LowestFree()
    {
      hide LiveOf, UsedSum, Coalesced, AllStamped, Tiled;
      if hdr[ptr].next >= ptr + HDR + size + HDR + MIN_ALIGNED {
        CarveSplit(ptr, size, k);
      } else {
        CarveWhole(ptr, size, k);
      }
      if maxMem < usedMem {
        maxMem := usedMem;
      }
      if ptr == lfree {
        AdvanceLfree(k);
      }
    }

    /** The shrinking half of rt_realloc: the tail of block k becomes a hole, which
        is then plugged. lfree is not lowered, so it stays the lowest free block if
        and only if it was before the block or was the merged free neighbour. */
    method Shrink(mem: nat, newsize: nat)
      requires Valid() && mem in Live() && newsize % 8 == 0
      requires newsize + HDR + MIN_SIZE < Live()[mem] - HDR
      modifies this`hdr, this`lfree, this`blocks, this`usedMem
      ensures Valid() && Live() == old(Live())[mem := HDR + newsize]
      ensures old(LowestFree()) ==>
                (LowestFree() <==> old(lfree) < mem || (old(lfree) == old(hdr)[mem].next && old(lfree) != End()))
    {
      hide Hole, LiveOf, UsedSum, AllStamped, MergedBut, Coalesced, Weight, Tiled, PrevUsed;
      LiveBlock(hdr, blocks, End(), mem);
      ghost var k := IndexOf(blocks, mem);
      var ptr2 := CutTail(mem, newsize, k);
      PlugHoles(ptr2, k + 1);
    }

    /** The block cut behind newsize bytes: the rest is a free block that may have a free
        neighbour behind it. */
    method CutTail(mem: nat, newsize: nat, ghost k: nat) returns (ptr2: nat)
      requires Valid() && mem in Live() && newsize % 8 == 0 && k < |blocks| && blocks[k] == mem
      requires newsize + HDR + MIN_SIZE < Live()[mem] - HDR
      modifies this`hdr, this`blocks, this`usedMem
      ensures Hole(ptr2, k + 1, k + 1, k) && PrevUsed(hdr, ptr2) && Live() == old(Live())[mem := HDR + newsize]
      ensures mem in old(hdr) && mem < ptr2 < old(hdr)[mem].next == hdr[ptr2].next <= End()
      ensures forall b: nat :: IsFree(hdr, blocks, b) <==> old(IsFree(hdr, blocks, b)) || b == ptr2
      ensures forall b: nat :: old(IsFree(hdr, blocks, b)) ==> b < mem || b >= old(hdr)[mem].next
    {
      hide LiveOf, UsedSum, AllStamped, MergedBut, Coalesced, Weight, Tiled;
      LiveBlock(hdr, blocks, End(), mem);
      ghost var h, bs := hdr, blocks;
      BlockFacts(h, bs, End(), k);
      NothingBetween(h, bs, End(), k);
      UsedWeight(h, mem);
      var next := hdr[mem].next;
      usedMem := usedMem - (next - mem - HDR - newsize);
      ptr2 := mem + HDR + newsize;
      SplitUsed(h, bs, End(), k, ptr2);
      SplitSum(h, bs, End(), k, ptr2, true);
      SplitLive(h, bs, End(), k, ptr2, true);
      assert Stamped(h, bs, k) by { StampedAt(h, bs, k); }
      WriteSplit(mem, ptr2, true);
      blocks := Insert(blocks, k, ptr2);
      assert hdr == SplitTaken(h, mem, ptr2, End(), true);
    }

    /** rt_free. */
    method Free(p: Option<nat>)
      requires Valid() && (p.Some? ==> p.value >= HDR && p.value - HDR in Live())
      modifies this`hdr, this`lfree, this`blocks, this`usedMem
      ensures Valid()
      ensures p.None? ==> Live() == old(Live()) && usedMem == old(usedMem)
      ensures p.Some? ==> Live() == old(Live()) - {p.value - HDR} && usedMem == old(usedMem - Live()[p.value - HDR])
      ensures old(LowestFree()) ==> LowestFree()
    {
      hide LiveOf, UsedSum, AllStamped, MergedBut, Tiled;
      if p.None? { return; }
      var mem := p.value - HDR;
      LiveBlock(hdr, blocks, End(), mem);
      ghost var k := IndexOf(blocks, mem);
      ghost var h, bs := hdr, blocks;
      Release(h, bs, memSize, lfree, usedMem, k);
      hdr := hdr[mem := hdr[mem].(used := false, magic := false)];
      if mem < lfree {
        lfree := mem;
      }
      usedMem := usedMem - (hdr[mem].next - mem);
      PlugHoles(mem, k);
    }

    /** rt_memcpy between two payloads. */
    method Copy(dst: nat, src: nat, n: nat)
      requires dst + n <= src || src + n <= dst
      modifies this`data
      ensures Copied(old(data), data, src, dst, n)
    {
      var i := 0;
      while i < n
        invariant 0 <= i <= n && Copied(old(data), data, src, dst, i)
      {
        CopyStep(old(data), data, src, dst, i);
        assert ByteAt(data, src + i) == ByteAt(old(data), src + i);
        data := data[dst + i := ByteAt(data, src + i)];
        i := i + 1;
      }
    }

    /** The growing half of rt_realloc: a new block, a copy, the old block freed. */
    method Move(mem: nat, size: nat, newsize: nat) returns (r: Option<nat>)
      requires Valid() && memSize >= MIN_ALIGNED && mem in Live() && size == Live()[mem] - HDR
      modifies this
      ensures Valid() && memSize == old(memSize)
      ensures r.None? <==> old(Refused(newsize))
      ensures r.None? ==> Live() == old(Live()) && data == old(data)
      ensures r.Some? ==> Moved(old(hdr), old(Live()), Live(), old(data), data, mem, r.value, newsize)
      ensures forall a :: a in Live() && a in old(Live()) ==> KeepsBytes(data, old(data), a, Live()[a])
    {
      hide LiveOf, Consistent, Weight, Taken;
      r := Malloc(newsize);
      if r.Some? {
        ghost var got := r.value - HDR;
        FreeNotLive(old(hdr), old(blocks), End(), got);
        ghost var live := Live();
        TakenEnough(old(hdr), got, Request(newsize));
        assert got in live && live[got] >= HDR + newsize;
        Apart(hdr, blocks, memSize, lfree, usedMem, mem, got);
        Copy(r.value, mem + HDR, if size < newsize then size else newsize);
        forall a | a in live && a != got ensures KeepsBytes(data, old(data), a, live[a]) {
          Apart(hdr, blocks, memSize, lfree, usedMem, a, got);
        }
        Free(Some(mem + HDR));
      }
    }

    /** rt_realloc. */
    method Realloc(p: Option<nat>, bytes: nat) returns (r: Option<nat>)
      requires Valid() && memSize >= MIN_ALIGNED
      requires p.Some? ==> p.value >= End() || (p.value >= HDR && p.value - HDR in Live())
      modifies this
      ensures Valid() && memSize == old(memSize)
      ensures var newsize := AlignUp(bytes);
              var mem := if p.Some? && p.value >= HDR then p.value - HDR else 0;
              var size := if mem in old(Live()) then old(Live())[mem] - HDR else 0;
              if newsize > memSize then r.None? && Live() == old(Live()) && data == old(data)
              else if p.None? then
                if old(Refused(newsize)) then r.None? && Live() == old(Live())
                else r.Some? && r.value >= HDR
                     && Live() == old(Live())[r.value - HDR := Taken(old(hdr), r.value - HDR, Request(newsize))]
              else if p.value >= End() || size == newsize then r == p && Live() == old(Live()) && data == old(data)
              else if newsize + HDR + MIN_SIZE < size then
                r == p && Live() == old(Live())[mem := HDR + newsize] && data == old(data)
              else if old(Refused(newsize)) then r.None? && Live() == old(Live()) && data == old(data)
              else r.Some? && Moved(old(hdr), old(Live()), Live(), old(data), data, mem, r.value, newsize)
      ensures forall a :: a in Live() && a in old(Live()) ==> KeepsBytes(data, old(data), a, Live()[a])
    {
      hide LiveOf, Consistent, Weight, Moved;
      var newsize := AlignUp(bytes);
      if newsize > memSize { return None; }
      if p.None? {
        r := Malloc(newsize);
        return;
      }
      if p.value >= memSize + HDR { return p; }
      var mem := p.value - HDR;
      LiveBlock(hdr, blocks, End(), mem);
      LiveLength(hdr, blocks, memSize, lfree, usedMem, mem);
      var size := hdr[mem].next - mem - HDR;
      if size == newsize { return p; }
      if newsize + HDR + MIN_SIZE < size {
        Shrink(mem, newsize);
        return p;
      }
      r := Move(mem, size, newsize);
    }
  }

  /** d' is d with n bytes from src also at dst. */
  ghost predicate Copied(d: map<nat, nat>, d': map<nat, nat>, src: nat, dst: nat, n: nat) {
    forall a: nat {:trigger ByteAt(d', a)} ::
      ByteAt(d', a) == if dst <= a < dst + n then ByteAt(d, src + (a - dst)) else ByteAt(d, a)
  }

  lemma CopyStep(d: map<nat, nat>, d': map<nat, nat>, src: nat, dst: nat, i: nat)
    requires Copied(d, d', src, dst, i)
    ensures Copied(d, d'[dst + i := ByteAt(d, src + i)], src, dst, i + 1)
  {
    var d2 := d'[dst + i := ByteAt(d, src + i)];
    forall a: nat {:trigger ByteAt(d2, a)}
      ensures ByteAt(d2, a) == if dst <= a < dst + i + 1 then ByteAt(d, src + (a - dst)) else ByteAt(d, a)
    {
      assert a != dst + i ==> ByteAt(d2, a) == ByteAt(d', a);
    }
  }

  ghost predicate KeepsBytes(d': map<nat, nat>, d: map<nat, nat>, block: nat, len: nat) {
    forall a: nat :: block + HDR <= a < block + len ==> ByteAt(d', a) == ByteAt(d, a)
  }

  /** A block of payload p, moved: its old block gone, its first bytes kept. */
  ghost predicate Moved(h: Memory, l: map<nat, nat>, l': map<nat, nat>, d: map<nat, nat>, d': map<nat, nat>,
                        mem: nat, p': nat, newsize: nat) {
    p' >= HDR && p' - HDR !in l && mem in l
    && l' == l[p' - HDR := Taken(h, p' - HDR, Request(newsize))] - {mem}
    && forall a: nat :: p' <= a < p' + newsize && a - p' < l[mem] - HDR ==>
         ByteAt(d', a) == ByteAt(d, mem + HDR + (a - p'))
  }

  function ByteAt(m: map<nat, nat>, a: nat): nat {
    if a in m then m[a] else 0
  }

  lemma TakenEnough(h: Memory, b: nat, size: nat)
    ensures Taken(h, b, size) >= HDR + size
  {
  }

  lemma FreeNotLive(h: Memory, bs: seq<nat>, end: nat, b: nat)
    requires IsFree(h, bs, b)
    ensures b !in LiveOf(h, bs, end)
  {
  }

  lemma LiveLength(h: Memory, bs: seq<nat>, memSize: nat, lfree: nat, usedMem: int, b: nat)
    requires Consistent(h, bs, memSize, lfree, usedMem) && b in LiveOf(h, bs, memSize + HDR)
    ensures b in h && LiveOf(h, bs, memSize + HDR)[b] == h[b].next - b >= HDR
  {
    assert Link(h, bs, IndexOf(bs, b));
  }

  /** Live blocks do not overlap and stay inside the heap. */
  lemma Apart(h: Memory, bs: seq<nat>, memSize: nat, lfree: nat, usedMem: int, a: nat, b: nat)
    requires Consistent(h, bs, memSize, lfree, usedMem)
    requires a in LiveOf(h, bs, memSize + HDR) && b in LiveOf(h, bs, memSize + HDR) && a != b
    ensures var l := LiveOf(h, bs, memSize + HDR);
            (a + l[a] <= b || b + l[b] <= a) && a + l[a] <= memSize + HDR
  {
    var i, j := IndexOf(bs, a), IndexOf(bs, b);
    var end := memSize + HDR;
    assert Link(h, bs, i) && Link(h, bs, j);
    if i < j {
      if i + 1 < j { Before(h, bs, end, i + 1, j); }
    } else {
      if j + 1 < i { Before(h, bs, end, j + 1, i); }
    }
    if i + 1 < |bs| - 1 { Before(h, bs, end, i + 1, |bs| - 1); }
  }

  /** The layout is a function of the live blocks: a heap that comes back to the
      same live blocks has the same headers in the same places. */
  lemma {:induction false} SameStart(h: Memory, bs: seq<nat>, h': Memory, bs': seq<nat>, end: nat, k: nat)
    requires Tiled(h, bs, end) && Tiled(h', bs', end) && Coalesced(h, bs) && Coalesced(h', bs')
    requires LiveOf(h, bs, end) == LiveOf(h', bs', end) && k < |bs|
    ensures k < |bs'| && bs[k] == bs'[k]
    decreases k
  {
    if k > 0 {
      SameStart(h, bs, h', bs', end, k - 1);
      var b := bs[k - 1];
      BlockInMemory(h, bs, end, k - 1);
      assert k - 1 < |bs'| - 1;
      assert Link(h, bs, k - 1) && Link(h', bs', k - 1) && Merged(h, bs, k - 1) && Merged(h', bs', k - 1);
      var l := LiveOf(h, bs, end);
      if h[b].used {
        assert b in l;
        assert l[b] == LiveOf(h', bs', end)[b];
      } else {
        assert b !in l && !h'[b].used;
        BlockInMemory(h, bs, end, k);
        BlockInMemory(h', bs', end, k);
        NothingBetween(h, bs, end, k - 1);
        NothingBetween(h', bs', end, k - 1);
        assert bs[k] == end || bs[k] in l;
        assert bs'[k] == end || bs'[k] in l;
        LastBlock(h, bs, end);
        LastBlock(h', bs', end);
      }
    }
  }

  lemma LastBlock(h: Memory, bs: seq<nat>, end: nat)
    requires Tiled(h, bs, end)
    ensures end in bs && forall b :: b in bs ==> b <= end
  {
    assert bs[|bs| - 1] == end;
    forall i | 0 <= i < |bs| ensures bs[i] <= end {
      BlockInMemory(h, bs, end, i);
    }
  }

  lemma LayoutDetermined(h: Memory, bs: seq<nat>, h': Memory, bs': seq<nat>, end: nat)
    requires Tiled(h, bs, end) && Tiled(h', bs', end) && Coalesced(h, bs) && Coalesced(h', bs')
    requires LiveOf(h, bs, end) == LiveOf(h', bs', end)
    ensures bs == bs' && forall b: nat :: IsFree(h, bs, b) <==> IsFree(h', bs', b)
    ensures UsedSum(h, bs) == UsedSum(h', bs')
  {
    SameStart(h, bs, h', bs', end, |bs| - 1);
    SameStart(h', bs', h, bs, end, |bs'| - 1);
    forall k | 0 <= k < |bs| ensures bs[k] == bs'[k] {
      SameStart(h, bs, h', bs', end, k);
    }
    var l, l' := LiveOf(h, bs, end), LiveOf(h', bs', end);
    forall k | 0 <= k < |bs|
      ensures bs[k] in h && bs[k] in h' && h[bs[k]].used == h'[bs[k]].used && Weight(h, bs[k]) == Weight(h', bs[k])
    {
      BlockInMemory(h, bs, end, k);
      BlockInMemory(h', bs', end, k);
      if bs[k] != end {
        assert bs[k] in l <==> h[bs[k]].used;
        assert bs[k] in l' <==> h'[bs[k]].used;
      }
    }
    SumFrame(h, h', bs);
  }

  /** NULL from rt_malloc, for a request that is not too large in itself, when lfree
      is the lowest free block: every free block is too small, but for a block at
      the very end of the heap whose payload is exactly the request. */
  lemma RefusalMeansNoRoom(h: Memory, bs: seq<nat>, memSize: nat, lfree: nat, usedMem: int, size: nat)
    requires Consistent(h, bs, memSize, lfree, usedMem) && Lowest(h, bs, memSize + HDR, lfree) && size <= memSize
    ensures (forall b: nat :: lfree <= b ==> !Fits(h, bs, memSize, b, size))
            <==> forall b: nat :: IsFree(h, bs, b) ==>
                   h[b].next < b + HDR + size || (h[b].next == memSize + HDR && b + HDR + size == h[b].next)
  {
    LastBlock(h, bs, memSize + HDR);
    forall b: nat | IsFree(h, bs, b)
      ensures h[b].next <= memSize + HDR
      ensures Fits(h, bs, memSize, b, size) <==>
                !(h[b].next < b + HDR + size || (h[b].next == memSize + HDR && b + HDR + size == h[b].next))
    {
      var k := IndexOf(bs, b);
      assert bs[k] != memSize + HDR;
      assert Link(h, bs, k);
      BlockInMemory(h, bs, memSize + HDR, k + 1);
    }
  }

  /** The block before mem, by its prev field, is another block and in use. */
  ghost predicate PrevUsed(h: Memory, mem: nat) {
    mem in h && h[mem].prev in h && h[mem].prev != mem && h[h[mem].prev].used
  }

  ghost function IndexOf(bs: seq<nat>, b: nat): (k: nat)
    requires b in bs
    ensures k < |bs| && bs[k] == b
  {
    var k :| 0 <= k < |bs| && bs[k] == b;
    k
  }

  /** The length a block gets when `size` payload bytes are taken from free block
      b: the rest is split off when it can hold a header and a minimal block. */
  ghost function Taken(h: Memory, b: nat, size: nat): nat {
    if b in h && h[b].next >= b + HDR + size && h[b].next < b + HDR + size + HDR + MIN_ALIGNED
    then h[b].next - b else HDR + size
  }

  lemma UsedWeight(h: Memory, b: nat)
    requires b in h && h[b].used && b <= h[b].next
    ensures Weight(h, b) == h[b].next - b
  {
  }

  lemma StampedAt(h: Memory, bs: seq<nat>, k: nat)
    requires AllStamped(h, bs) && k < |bs| - 1
    ensures Stamped(h, bs, k)
  {
  }

  lemma FreeWeight(h: Memory, b: nat)
    requires b in h && !h[b].used
    ensures Weight(h, b) == 0
  {
  }

  lemma WeightOf(h: Memory, b: nat)
    requires b in h && b <= h[b].next
    ensures Weight(Occupied(h, b), b) == h[b].next - b
  {
  }
}
