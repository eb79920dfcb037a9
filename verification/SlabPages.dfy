/** The page allocator under the slab heap (slab.c, rt_page_alloc and rt_page_free).
    Pages are numbered by address / RT_MM_PAGE_SIZE. The list threaded through the
    headers of the free page runs is a sequence of runs. */
module SlabPages {
  import opened Basics

  datatype Run = Run(start: nat, pages: nat)

  predicate Holds(r: Run, p: int) {
    r.start <= p < r.start + r.pages
  }

  /** At least one page lies between r and the later run s. */
  predicate Before(r: Run, s: Run) {
    r.start + r.pages < s.start
  }

  /** Page p belongs to some run of the list. */
  ghost predicate In(rs: seq<Run>, p: int) {
    exists i :: 0 <= i < |rs| && Holds(rs[i], p)
  }

  ghost predicate AllBefore(a: seq<Run>, b: seq<Run>) {
    forall i, j :: 0 <= i < |a| && 0 <= j < |b| ==> Before(a[i], b[j])
  }

  /** Sorted, disjoint, without empty runs and maximally coalesced: a used page
      separates any two runs. */
  ghost predicate Canonical(rs: seq<Run>) {
    (forall i :: 0 <= i < |rs| ==> rs[i].pages > 0)
    && forall i, j :: 0 <= i < j < |rs| ==> Before(rs[i], rs[j])
  }

  /** The n pages from q on are all free. */
  ghost predicate Room(rs: seq<Run>, q: int, n: nat) {
    forall p :: q <= p < q + n ==> In(rs, p)
  }

  /** None of the n pages from q on is free. */
  ghost predicate Taken(rs: seq<Run>, q: int, n: nat) {
    forall p :: q <= p < q + n ==> !In(rs, p)
  }

  // ---------------------------------------------------------- concatenation

  lemma InSplit(a: seq<Run>, b: seq<Run>, p: int)
    ensures In(a + b, p) <==> In(a, p) || In(b, p)
  {
    var s := a + b;
    if In(s, p) {
      var i :| 0 <= i < |s| && Holds(s[i], p);
      if i < |a| { assert Holds(a[i], p); } else { assert Holds(b[i - |a|], p); }
    }
    if In(a, p) {
      var i :| 0 <= i < |a| && Holds(a[i], p);
      assert Holds(s[i], p);
    }
    if In(b, p) {
      var i :| 0 <= i < |b| && Holds(b[i], p);
      assert Holds(s[|a| + i], p);
    }
  }

  lemma CanonicalSplit(a: seq<Run>, b: seq<Run>)
    ensures Canonical(a + b) <==> Canonical(a) && Canonical(b) && AllBefore(a, b)
  {
    var s := a + b;
    assert forall i :: 0 <= i < |a| ==> s[i] == a[i];
    assert forall i :: 0 <= i < |b| ==> s[|a| + i] == b[i];
    if Canonical(s) {
      forall i, j | 0 <= i < j < |b| ensures Before(b[i], b[j]) { assert Before(s[|a| + i], s[|a| + j]); }
      forall i | 0 <= i < |b| ensures b[i].pages > 0 { assert s[|a| + i].pages > 0; }
      forall i, j | 0 <= i < |a| && 0 <= j < |b| ensures Before(a[i], b[j]) { assert Before(s[i], s[|a| + j]); }
    }
    if Canonical(a) && Canonical(b) && AllBefore(a, b) {
      forall i, j | 0 <= i < j < |s| ensures Before(s[i], s[j]) {
        if i < |a| && j >= |a| { assert Before(a[i], b[j - |a|]); }
        if i >= |a| { assert Before(b[i - |a|], b[j - |a|]); }
      }
      forall i | 0 <= i < |s| ensures s[i].pages > 0 {
        if i >= |a| { assert b[i - |a|].pages > 0; }
      }
    }
  }

  lemma InOne(r: Run, p: int)
    ensures In([r], p) <==> Holds(r, p)
  {
    if Holds(r, p) { assert Holds([r][0], p); }
  }

  /** A canonical list around one of its runs. */
  lemma Around(a: seq<Run>, r: Run, c: seq<Run>)
    requires Canonical(a + [r] + c)
    ensures Canonical(a) && Canonical(c) && r.pages > 0
    ensures AllBefore(a, [r]) && AllBefore([r], c) && AllBefore(a, c)
  {
    CanonicalSplit(a + [r], c);
    CanonicalSplit(a, [r]);
    assert [r][0].pages > 0;
    forall j | 0 <= j < |c| ensures Before(r, c[j]) {
      assert (a + [r])[|a|] == r;
    }
    forall i, j | 0 <= i < |a| && 0 <= j < |c| ensures Before(a[i], c[j]) {
      assert (a + [r])[i] == a[i];
    }
  }

  /** A run put between two canonical lists. */
  lemma Placed(a: seq<Run>, r: Run, c: seq<Run>)
    requires Canonical(a) && Canonical(c) && r.pages > 0
    requires AllBefore(a, [r]) && AllBefore([r], c) && AllBefore(a, c)
    ensures Canonical(a + [r] + c)
  {
    assert Canonical([r]);
    CanonicalSplit(a, [r]);
    assert AllBefore(a + [r], c) by {
      forall i, j | 0 <= i < |a + [r]| && 0 <= j < |c| ensures Before((a + [r])[i], c[j]) {
        if i == |a| { assert Before([r][0], c[j]); }
      }
    }
    CanonicalSplit(a + [r], c);
  }

  lemma InAround(a: seq<Run>, r: Run, c: seq<Run>, p: int)
    ensures In(a + [r] + c, p) <==> In(a, p) || Holds(r, p) || In(c, p)
  {
    InSplit(a + [r], c, p);
    InSplit(a, [r], p);
    InOne(r, p);
  }

  lemma BelowRun(a: seq<Run>, r: Run, p: int)
    requires AllBefore(a, [r]) && In(a, p)
    ensures p < r.start
  {
    var i :| 0 <= i < |a| && Holds(a[i], p);
    assert Before(a[i], [r][0]);
  }

  lemma AboveRun(r: Run, c: seq<Run>, p: int)
    requires AllBefore([r], c) && In(c, p)
    ensures p > r.start + r.pages
  {
    var i :| 0 <= i < |c| && Holds(c[i], p);
    assert Before([r][0], c[i]);
  }

  // ------------------------------------------------------------- uniqueness

  /** Free pages in a row lie in a single run of a canonical list. */
  lemma RoomInOneRun(rs: seq<Run>, q: int, n: nat) returns (i: nat)
    requires Canonical(rs) && n > 0 && Room(rs, q, n)
    ensures i < |rs| && rs[i].start <= q && q + n <= rs[i].start + rs[i].pages
  {
    assert In(rs, q);
    i :| 0 <= i < |rs| && Holds(rs[i], q);
    EndOfRun(rs, i);
  }

  /** The page after a run of a canonical list is not free. */
  lemma EndOfRun(rs: seq<Run>, i: nat)
    requires Canonical(rs) && i < |rs|
    ensures !In(rs, rs[i].start + rs[i].pages)
  {
    forall j | 0 <= j < |rs| ensures !Holds(rs[j], rs[i].start + rs[i].pages) {
      if i < j { assert Before(rs[i], rs[j]); }
      if j < i { assert Before(rs[j], rs[i]); }
    }
  }

  lemma FirstRun(a: seq<Run>, b: seq<Run>)
    requires Canonical(a) && Canonical(b) && |a| > 0 && |b| > 0
    requires forall p :: In(a, p) ==> In(b, p)
    ensures b[0].start <= a[0].start
  {
    var p := a[0].start;
    assert Holds(a[0], p);
    assert In(a, p);
    var i :| 0 <= i < |b| && Holds(b[i], p);
    if i > 0 { assert Before(b[0], b[i]); }
  }

  lemma FirstEnd(a: seq<Run>, b: seq<Run>)
    requires Canonical(a) && Canonical(b) && |a| > 0 && |b| > 0 && a[0].start == b[0].start
    requires forall p :: In(a, p) ==> In(b, p)
    ensures a[0].pages <= b[0].pages
  {
    forall p | a[0].start <= p < a[0].start + a[0].pages ensures In(b, p) {
      assert Holds(a[0], p);
      assert In(a, p);
    }
    var i := RoomInOneRun(b, a[0].start, a[0].pages);
    assert i == 0;
  }

  lemma TailPages(rs: seq<Run>, p: int)
    requires Canonical(rs) && |rs| > 0
    ensures Canonical(rs[1..])
    ensures In(rs[1..], p) <==> In(rs, p) && p > rs[0].start + rs[0].pages
  {
    assert rs == [rs[0]] + rs[1..];
    CanonicalSplit([rs[0]], rs[1..]);
    InSplit([rs[0]], rs[1..], p);
    InOne(rs[0], p);
    if In(rs[1..], p) { AboveRun(rs[0], rs[1..], p); }
  }

  /** The list is a function of the set of free pages: two canonical lists of the
      same pages are the same list. */
  lemma {:induction false} CanonicalUnique(a: seq<Run>, b: seq<Run>)
    requires Canonical(a) && Canonical(b)
    requires forall p :: In(a, p) <==> In(b, p)
    ensures a == b
    decreases |a|
  {
    hide Canonical;
    if |a| > 0 && |b| > 0 {
      FirstRun(a, b);
      FirstRun(b, a);
      FirstEnd(a, b);
      FirstEnd(b, a);
      TailPages(a, 0);
      TailPages(b, 0);
      forall p ensures In(a[1..], p) <==> In(b[1..], p) {
        TailPages(a, p);
        TailPages(b, p);
      }
      CanonicalUnique(a[1..], b[1..]);
      assert a == [a[0]] + a[1..] && b == [b[0]] + b[1..];
    } else if |a| == 0 {
      EmptyList(a, b);
    } else {
      EmptyList(b, a);
    }
  }

  lemma EmptyList(a: seq<Run>, b: seq<Run>)
    requires Canonical(b) && |a| == 0
    requires forall p :: In(a, p) <==> In(b, p)
    ensures b == []
  {
    if |b| > 0 { NonEmpty(b); }
  }

  lemma NonEmpty(b: seq<Run>)
    requires Canonical(b) && |b| > 0
    ensures In(b, b[0].start)
  {
    assert Holds(b[0], b[0].start);
  }

  // ------------------------------------------------------------ list surgery

  function Without(rs: seq<Run>, k: nat): seq<Run>
    requires k < |rs|
  {
    rs[..k] + rs[k + 1..]
  }

  lemma Parts(rs: seq<Run>, k: nat)
    requires k < |rs|
    ensures rs == rs[..k] + [rs[k]] + rs[k + 1..]
  {
  }

  /** The front n pages of run k taken, the rest left where it is. */
  lemma CutFront(rs: seq<Run>, k: nat, n: nat)
    requires Canonical(rs) && k < |rs| && 0 < n < rs[k].pages
    ensures var rs' := rs[k := Run(rs[k].start + n, rs[k].pages - n)];
            Canonical(rs') && forall p :: In(rs', p) <==> In(rs, p) && !(rs[k].start <= p < rs[k].start + n)
  {
    hide In, Canonical;
    var a, r, c := rs[..k], rs[k], rs[k + 1..];
    var r' := Run(r.start + n, r.pages - n);
    var rs' := rs[k := r'];
    Parts(rs, k);
    assert rs' == a + [r'] + c;
    Around(a, r, c);
    assert AllBefore(a, [r']) by { forall i | 0 <= i < |a| ensures Before(a[i], r') { assert Before(a[i], [r][0]); } }
    assert AllBefore([r'], c) by { forall i | 0 <= i < |c| ensures Before(r', c[i]) { assert Before([r][0], c[i]); } }
    Placed(a, r', c);
    forall p ensures In(rs', p) <==> In(rs, p) && !(r.start <= p < r.start + n) {
      InAround(a, r, c, p);
      InAround(a, r', c, p);
      if In(a, p) { BelowRun(a, r, p); }
      if In(c, p) { AboveRun(r, c, p); }
    }
  }

  lemma DropRun(rs: seq<Run>, k: nat)
    requires Canonical(rs) && k < |rs|
    ensures Canonical(Without(rs, k))
    ensures forall p :: In(Without(rs, k), p) <==> In(rs, p) && !(rs[k].start <= p < rs[k].start + rs[k].pages)
  {
    hide In, Canonical;
    var a, r, c := rs[..k], rs[k], rs[k + 1..];
    Parts(rs, k);
    Around(a, r, c);
    CanonicalSplit(a, c);
    forall p ensures In(a + c, p) <==> In(rs, p) && !(r.start <= p < r.start + r.pages) {
      InAround(a, r, c, p);
      InSplit(a, c, p);
      if In(a, p) { BelowRun(a, r, p); }
      if In(c, p) { AboveRun(r, c, p); }
    }
  }

  /** The run that covers r and the n pages from q on, q being next to r. */
  function Grown(r: Run, q: nat, n: nat): Run {
    Run(if q < r.start then q else r.start, r.pages + n)
  }

  /** Run k widened to cover q..q + n as well, without reaching its neighbours. */
  lemma Widen(rs: seq<Run>, k: nat, q: nat, n: nat)
    requires Canonical(rs) && k < |rs|
    requires q == rs[k].start + rs[k].pages || q + n == rs[k].start
    requires forall i :: 0 <= i < k ==> rs[i].start + rs[i].pages < q
    requires k + 1 < |rs| ==> q + n < rs[k + 1].start
    ensures var rs' := rs[k := Grown(rs[k], q, n)];
            Canonical(rs') && forall p :: In(rs', p) <==> In(rs, p) || q <= p < q + n
  {
    var a, r, c := rs[..k], rs[k], rs[k + 1..];
    var r' := Grown(r, q, n);
    var rs' := rs[k := r'];
    Parts(rs, k);
    assert rs' == a + [r'] + c;
    Around(a, r, c);
    FollowsAll(rs, k + 1, q + n);
    hide In, Canonical;
    assert AllBefore(a, [r']) by { forall i | 0 <= i < |a| ensures Before(a[i], r') { assert Before(a[i], [r][0]); } }
    assert AllBefore([r'], c) by { forall i | 0 <= i < |c| ensures Before(r', c[i]) { assert Before([r][0], c[i]); } }
    Placed(a, r', c);
    forall p ensures In(rs', p) <==> In(rs, p) || q <= p < q + n {
      InAround(a, r, c, p);
      InAround(a, r', c, p);
    }
  }

  lemma FollowsAll(rs: seq<Run>, k: nat, e: nat)
    requires Canonical(rs) && k <= |rs| && (k < |rs| ==> e < rs[k].start)
    ensures forall i :: 0 <= i < |rs[k..]| ==> e < rs[k..][i].start
  {
    forall i | k <= i < |rs| ensures e < rs[i].start {
      if i > k { assert Before(rs[k], rs[i]); }
    }
  }

  /** Runs k and k + 1 joined by the n pages exactly between them. */
  lemma Bridge(rs: seq<Run>, k: nat, n: nat)
    requires Canonical(rs) && k + 1 < |rs| && rs[k].start + rs[k].pages + n == rs[k + 1].start
    ensures var rs' := Without(rs, k + 1)[k := Run(rs[k].start, rs[k].pages + n + rs[k + 1].pages)];
            Canonical(rs')
            && forall p :: In(rs', p) <==> In(rs, p) || rs[k + 1].start - n <= p < rs[k + 1].start
  {
    var d, s := Without(rs, k + 1), rs[k + 1];
    var q := rs[k].start + rs[k].pages;
    DropRun(rs, k + 1);
    forall i | 0 <= i < k ensures d[i].start + d[i].pages < q { assert Before(rs[i], rs[k]); }
    if k + 1 < |d| { assert d[k + 1] == rs[k + 2]; assert Before(s, rs[k + 2]); }
    BridgePages(rs, d, k, q, n);
  }

  lemma BridgePages(rs: seq<Run>, d: seq<Run>, k: nat, q: nat, n: nat)
    requires Canonical(d) && k + 1 < |rs| && k < |d| && rs[k] == d[k]
    requires q == rs[k].start + rs[k].pages && q + n == rs[k + 1].start
    requires forall i :: 0 <= i < k ==> d[i].start + d[i].pages < q
    requires k + 1 < |d| ==> q + n + rs[k + 1].pages < d[k + 1].start
    requires forall p :: In(d, p) <==> In(rs, p) && !Holds(rs[k + 1], p)
    ensures var rs' := d[k := Run(rs[k].start, rs[k].pages + n + rs[k + 1].pages)];
            Canonical(rs') && forall p :: In(rs', p) <==> In(rs, p) || q <= p < q + n
  {
    hide In, Canonical;
    Widen(d, k, q, n + rs[k + 1].pages);
    HasRun(rs, k + 1);
  }

  lemma HasRun(rs: seq<Run>, k: nat)
    requires k < |rs|
    ensures forall p :: Holds(rs[k], p) ==> In(rs, p)
  {
  }

  lemma InsertRun(rs: seq<Run>, k: nat, q: nat, n: nat)
    requires Canonical(rs) && k <= |rs| && n > 0
    requires forall i :: 0 <= i < k ==> rs[i].start + rs[i].pages < q
    requires k < |rs| ==> q + n < rs[k].start
    ensures var rs' := rs[..k] + [Run(q, n)] + rs[k..];
            Canonical(rs') && forall p :: In(rs', p) <==> In(rs, p) || q <= p < q + n
  {
    var a, r, c := rs[..k], Run(q, n), rs[k..];
    assert rs == a + c;
    CanonicalSplit(a, c);
    FollowsAll(rs, k, q + n);
    hide In, Canonical;
    assert AllBefore(a, [r]);
    assert AllBefore([r], c);
    Placed(a, r, c);
    forall p ensures In(a + [r] + c, p) <==> In(rs, p) || q <= p < q + n {
      InAround(a, r, c, p);
      InSplit(a, c, p);
    }
  }

  // -------------------------------------------------------------- first fit

  /** The start of the first run that is long enough is the lowest page from which
      n pages in a row are free. */
  lemma FirstFitIsLowest(rs: seq<Run>, k: nat, n: nat)
    requires Canonical(rs) && k <= |rs| && n > 0
    requires forall i :: 0 <= i < k ==> rs[i].pages < n
    requires k < |rs| ==> rs[k].pages >= n
    ensures k < |rs| ==> Room(rs, rs[k].start, n)
    ensures forall q :: Room(rs, q, n) ==> k < |rs| && rs[k].start <= q
  {
    if k < |rs| {
      HasRun(rs, k);
      assert forall p :: rs[k].start <= p < rs[k].start + n ==> Holds(rs[k], p);
    }
    forall q | Room(rs, q, n) ensures k < |rs| && rs[k].start <= q {
      var i := RoomInOneRun(rs, q, n);
      assert i > k ==> Before(rs[k], rs[i]);
    }
  }

  lemma Ordered(rs: seq<Run>, k: nat)
    requires Canonical(rs) && k + 1 < |rs|
    ensures rs[k].pages > 0 && rs[k + 1].pages > 0 && rs[k].start + rs[k].pages < rs[k + 1].start
  {
    assert Before(rs[k], rs[k + 1]);
  }

  /** Where a run stands against n pages that are not free. */
  lemma Beside(rs: seq<Run>, k: nat, q: nat, n: nat)
    requires Canonical(rs) && k < |rs| && n > 0 && Taken(rs, q, n)
    ensures rs[k].start + rs[k].pages <= q || q + n <= rs[k].start
  {
    var b := rs[k];
    if b.start < q + n && q < b.start + b.pages {
      var p := if b.start < q then q else b.start;
      assert Holds(b, p);
      HasRun(rs, k);
      assert false;
    }
  }

  class PageList {
    /** rt_page_list */
    var runs: seq<Run>

    ghost predicate Valid()
      reads this
    {
      Canonical(runs)
    }

    constructor ()
      ensures Valid() && runs == []
    {
      runs := [];
    }

    /** rt_page_alloc */
    method Alloc(npages: nat) returns (b: Option<nat>)
      requires Valid()
      modifies this
      ensures Valid()
      ensures b.None? <==> npages == 0 || forall q :: !Room(old(runs), q, npages)
      ensures b.None? ==> runs == old(runs)
      ensures b.Some? ==> Room(old(runs), b.value, npages)
      ensures b.Some? ==> forall q :: Room(old(runs), q, npages) ==> b.value <= q
      ensures b.Some? ==> forall p :: In(runs, p) <==> In(old(runs), p) && !(b.value <= p < b.value + npages)
    {
      if npages == 0 {
        return None;
      }
      var k := 0;
      while k < |runs|
        invariant 0 <= k <= |runs| && runs == old(runs)
        invariant forall i :: 0 <= i < k ==> runs[i].pages < npages
      {
        if runs[k].pages > npages {
          FirstFitIsLowest(runs, k, npages);
          CutFront(runs, k, npages);
          b := Some(runs[k].start);
          runs := runs[k := Run(runs[k].start + npages, runs[k].pages - npages)];
          return;
        }
        if runs[k].pages == npages {
          FirstFitIsLowest(runs, k, npages);
          DropRun(runs, k);
          b := Some(runs[k].start);
          runs := Without(runs, k);
          return;
        }
        k := k + 1;
      }
      FirstFitIsLowest(runs, k, npages);
      b := None;
    }

    /** rt_page_free */
    method Free(n: nat, npages: nat)
      requires Valid() && npages != 0 && Taken(runs, n, npages)
      modifies this
      ensures Valid()
      ensures forall p :: In(runs, p) <==> In(old(runs), p) || n <= p < n + npages
    {
      hide Canonical, In, Taken;
      var k := 0;
      while k < |runs|
        invariant 0 <= k <= |runs| && runs == old(runs)
        invariant forall i :: 0 <= i < k ==> runs[i].start + runs[i].pages < n
      {
        var b := runs[k];
        Beside(runs, k, n, npages);
        assert b.start > n || b.start + b.pages <= n;
        if b.start + b.pages == n {
          if k + 1 < |runs| {
            Beside(runs, k + 1, n, npages);
            Ordered(runs, k);
          }
          if k + 1 < |runs| && n + npages == runs[k + 1].start {
            Bridge(runs, k, npages);
            runs := Without(runs, k + 1)[k := Run(b.start, b.pages + npages + runs[k + 1].pages)];
          } else {
            Widen(runs, k, n, npages);
            runs := runs[k := Run(b.start, b.pages + npages)];
          }
          return;
        }
        if b.start == n + npages {
          if k + 1 < |runs| { Ordered(runs, k); }
          Widen(runs, k, n, npages);
          runs := runs[k := Run(n, b.pages + npages)];
          return;
        }
        if b.start > n + npages {
          break;
        }
        k := k + 1;
      }
      InsertRun(runs, k, n, npages);
      runs := runs[..k] + [Run(n, npages)] + runs[k..];
    }
  }

  /** Pages taken and given back: the list is the identical one again, however the
      runs were split and joined in between. */
  method Restore(l: PageList, npages: nat) returns (b: Option<nat>)
    requires l.Valid() && npages != 0
    modifies l
    ensures l.Valid() && l.runs == old(l.runs)
    ensures b.Some? <==> exists q :: Room(old(l.runs), q, npages)
  {
    b := l.Alloc(npages);
    if b.Some? {
      l.Free(b.value, npages);
      assert forall p :: In(l.runs, p) <==> In(old(l.runs), p);
      CanonicalUnique(l.runs, old(l.runs));
    }
  }
}
