/** The steps from which rt_malloc and rt_free of slab.c are made, each proved to
    keep the heap's invariant. */
module SlabSteps {
  import opened Basics
  import opened SlabPages
  import opened SlabZones
  import opened SlabState

  // ------------------------------------------------------------------ chunks

  lemma ChunkInside(zone: Zone, z: nat, zp: nat, i: int)
    requires ZoneOk(zone, z, zp) && zone.magic && 0 <= i < zone.nmax
    ensures z * PAGE + HEADER <= ChunkAt(zone, i) && ChunkAt(zone, i) + zone.chunk <= (z + zp) * PAGE
  {
    hide Offset, ChunkOf, Capacity, Carved, Distinct;
    BehindHeader(zone.chunk);
    Spread(zone.nmax, i, zone.chunk);
  }

  lemma BehindHeader(chunk: nat)
    requires chunk > 0 && chunk % 8 == 0
    ensures HEADER <= Offset(chunk)
  {
    OffsetShape(chunk);
  }

  /** Every chunk handed out lies in the pages of its zone. */
  lemma CarvedInside(zone: Zone, z: nat, zp: nat, a: int)
    requires ZoneOk(zone, z, zp) && zone.magic && a in Carved(zone)
    ensures a >= 0 && z <= a / PAGE < z + zp
    ensures z * PAGE + HEADER <= a && a + zone.chunk <= (z + zp) * PAGE
  {
    var i :| 0 <= i <= zone.uindex && a == ChunkAt(zone, i);
    ChunkInside(zone, z, zp, i);
  }

  lemma ChunksApart(zone: Zone, i: nat, j: nat)
    requires i < j && zone.chunk > 0
    ensures ChunkAt(zone, i) + zone.chunk <= ChunkAt(zone, j)
  {
    Spread(j, i, zone.chunk);
  }

  /** There are as many chunk addresses as chunk numbers. */
  lemma {:induction false} CarvedCount(zone: Zone)
    requires zone.chunk > 0
    ensures |Carved(zone)| == zone.uindex + 1
    decreases zone.uindex
  {
    var last := ChunkAt(zone, zone.uindex);
    if zone.uindex == 0 {
      assert Carved(zone) == {last};
    } else {
      var less := zone.(uindex := zone.uindex - 1);
      CarvedCount(less);
      CarveOne(less);
      assert less.(uindex := zone.uindex) == zone;
    }
  }

  /** Moving z_uindex on adds one address to the chunks handed out. */
  lemma CarveOne(zone: Zone)
    requires zone.chunk > 0
    ensures var a := ChunkAt(zone, zone.uindex + 1);
            a !in Carved(zone) && Carved(zone.(uindex := zone.uindex + 1)) == Carved(zone) + {a}
  {
    var more := zone.(uindex := zone.uindex + 1);
    var a := ChunkAt(zone, zone.uindex + 1);
    forall i | 0 <= i <= zone.uindex ensures ChunkAt(zone, i) != a {
      ChunksApart(zone, i, zone.uindex + 1);
    }
    forall x ensures x in Carved(more) <==> x in Carved(zone) || x == a {
      if x in Carved(more) {
        var i :| 0 <= i <= more.uindex && x == ChunkAt(more, i);
        assert x == ChunkAt(zone, i);
      }
      if x in Carved(zone) {
        var i :| 0 <= i <= zone.uindex && x == ChunkAt(zone, i);
        assert x == ChunkAt(more, i);
      }
      if x == a { assert x == ChunkAt(more, more.uindex); }
    }
  }

  lemma {:induction false} IntsSize(s: seq<nat>)
    requires Distinct(s)
    ensures |IntsOf(s)| == |s|
  {
    if |s| == 0 {
      assert IntsOf(s) == {};
    } else {
      IntsSize(s[1..]);
      assert IntsOf(s) == IntsOf(s[1..]) + {s[0] as int};
    }
  }

  /** The free count is the number of chunks not in use: a zone whose free count is its
      capacity has no chunk in use, and no zone has more free chunks than that. */
  lemma FullyFree(zone: Zone, z: nat, zp: nat)
    requires ZoneOk(zone, z, zp) && zone.magic
    ensures zone.nfree <= zone.nmax && |LiveChunks(zone)| == zone.nmax - zone.nfree
    ensures zone.nfree == zone.nmax <==> LiveChunks(zone) == {}
  {
    var f, c := IntsOf(zone.freed), Carved(zone);
    assert forall a: int :: a in zone.freed ==> a in c;
    CarvedCount(zone);
    IntsSize(zone.freed);
    assert f <= c && c == f + (c - f) && |c| == |f| + |c - f|;
  }

  // ------------------------------------------------------- one zone changed

  /** What a zone keeps while chunks come and go. */
  predicate SameShape(zone: Zone, zone': Zone) {
    zone.magic && zone'.magic && zone'.index == zone.index && zone'.chunk == zone.chunk
    && zone'.base == zone.base && zone'.nmax == zone.nmax
  }

  /** The state with zone z's header and its class's list changed. */
  function WithZone(s: State, z: nat, zone: Zone, l: seq<nat>): State
    requires zone.index < |s.zoneArray|
  {
    s.(zones := s.zones[z := zone], zoneArray := s.zoneArray[zone.index := l])
  }

  ghost predicate Swappable(s: State, z: nat, zone': Zone, l: seq<nat>) {
    Core(s) && z in s.zones && SameShape(s.zones[z], zone') && ZoneOk(zone', z, s.zp)
    && zone'.index < NZONES && ListOk(l, s.zones[z := zone'], zone'.index)
  }

  lemma SwapPages(s: State, z: nat, zone': Zone, l: seq<nat>)
    requires Swappable(s, z, zone', l)
    ensures |s.zoneArray| == NZONES
    ensures var s' := WithZone(s, z, zone', l); PagesOk(s') && BlocksOk(s') && UsageOk(s') && ZonesOk(s')
  {
    hide Canonical, In, ZoneOk, ListOk, LiveOk, Total, Open, Idle;
    var s' := WithZone(s, z, zone', l);
    forall p | p in s'.owner ensures OwnedWhole(s'.owner, s'.zones, s'.zp, p) && Recorded(s', p) {
      assert OwnedWhole(s.owner, s.zones, s.zp, p) && Recorded(s, p);
    }
    forall w | w in s'.zones ensures ZoneWhole(s'.owner, s'.zp, w) {
      assert ZoneWhole(s.owner, s.zp, w);
    }
  }

  lemma SwapLists(s: State, z: nat, zone': Zone, l: seq<nat>)
    requires Swappable(s, z, zone', l)
    ensures |s.zoneArray| == NZONES && ListsOk(WithZone(s, z, zone', l))
  {
    hide PagesOk, BlocksOk, UsageOk, ZonesOk, LiveOk, Total, ZoneOk;
    var s' := WithZone(s, z, zone', l);
    forall j | 0 <= j < NZONES ensures ListOk(s'.zoneArray[j], s'.zones, j) {
      if j != zone'.index {
        assert ListOk(s.zoneArray[j], s.zones, j);
        forall w ensures Open(s'.zones, j, w) <==> Open(s.zones, j, w) { }
      }
    }
    forall w ensures Idle(s'.zones, w) <==> Idle(s.zones, w) { }
  }

  /** The pages and lists of a state do not depend on the blocks in use. */
  lemma CoreOf(s: State, live: map<nat, nat>, used: int)
    requires PagesOk(s) && BlocksOk(s) && UsageOk(s) && ZonesOk(s) && ListsOk(s)
    requires LiveOk(s.(live := live, used := used)) && used == Total(live)
    ensures Core(s.(live := live, used := used))
  {
    hide Canonical, In, ZoneOk, ListOk, OwnedWhole, ZoneWhole, LiveOk;
    var s' := s.(live := live, used := used);
    forall p | p in s'.owner ensures Recorded(s', p) { assert Recorded(s, p); }
  }

  /** Chunk a of zone z comes into use. */
  lemma ChunkTaken(s: State, z: nat, zone': Zone, l: seq<nat>, a: nat)
    requires Swappable(s, z, zone', l)
    requires a !in LiveChunks(s.zones[z]) && LiveChunks(zone') == LiveChunks(s.zones[z]) + {a as int}
    ensures a !in s.live && zone'.index < |s.zoneArray|
    ensures Core(WithZone(s, z, zone', l).(live := s.live[a := zone'.chunk], used := s.used + zone'.chunk))
  {
    hide PagesOk, BlocksOk, UsageOk, ZonesOk, ListsOk, LiveOk, ListOk, ZoneOk, LiveChunks;
    SwapPages(s, z, zone', l);
    SwapLists(s, z, zone', l);
    TakenLive(s, z, zone', a);
    TotalAdd(s.live, a, zone'.chunk);
    var s' := WithZone(s, z, zone', l);
    LiveParts(s, s', s.live[a := zone'.chunk], s.used + zone'.chunk);
    CoreOf(s', s.live[a := zone'.chunk], s.used + zone'.chunk);
  }

  lemma LiveParts(s: State, s': State, live: map<nat, nat>, used: int)
    requires s'.owner == s.owner
    requires LiveOk(s.(zones := s'.zones, live := live))
    ensures LiveOk(s'.(live := live, used := used))
  {
    var t, t' := s.(zones := s'.zones, live := live), s'.(live := live, used := used);
    assert t.owner == t'.owner && t.zones == t'.zones && t.live == t'.live;
  }

  lemma TakenLive(s: State, z: nat, zone': Zone, a: nat)
    requires Core(s) && z in s.zones && SameShape(s.zones[z], zone') && ZoneOk(zone', z, s.zp)
    requires a !in LiveChunks(s.zones[z]) && LiveChunks(zone') == LiveChunks(s.zones[z]) + {a as int}
    ensures a !in s.live && LiveOk(s.(zones := s.zones[z := zone'], live := s.live[a := zone'.chunk]))
  {
    hide PagesOk, UsageOk, ZonesOk, ListsOk, Total, LiveChunks, OwnedWhole;
    var zones' := s.zones[z := zone'];
    LivePage(zone', z, s.zp, a);
    assert ZoneWhole(s.owner, s.zp, z);
    assert s.owner[a / PAGE] == ZonePage(z);
    forall x: nat
      ensures IsLive(s.owner, zones', x) <==> IsLive(s.owner, s.zones, x) || x == a
      ensures IsLive(s.owner, s.zones, x) ==> SizeAt(s.owner, zones', x) == SizeAt(s.owner, s.zones, x)
    {
    }
  }

  lemma LivePage(zone: Zone, z: nat, zp: nat, a: int)
    requires ZoneOk(zone, z, zp) && zone.magic && a in LiveChunks(zone)
    ensures a >= 0 && z <= a / PAGE < z + zp
  {
    CarvedInside(zone, z, zp, a);
  }

  /** Chunk a of zone z goes out of use. */
  lemma ChunkGiven(s: State, z: nat, zone': Zone, l: seq<nat>, a: nat)
    requires Swappable(s, z, zone', l)
    requires a in LiveChunks(s.zones[z]) && LiveChunks(zone') == LiveChunks(s.zones[z]) - {a as int}
    ensures a in s.live && s.live[a] == zone'.chunk && zone'.index < |s.zoneArray|
    ensures Core(WithZone(s, z, zone', l).(live := s.live - {a}, used := s.used - zone'.chunk))
  {
    hide PagesOk, BlocksOk, UsageOk, ZonesOk, ListsOk, LiveOk, ListOk, ZoneOk, LiveChunks;
    SwapPages(s, z, zone', l);
    SwapLists(s, z, zone', l);
    GivenLive(s, z, zone', a);
    TotalPick(s.live, a);
    var s' := WithZone(s, z, zone', l);
    LiveParts(s, s', s.live - {a}, s.used - zone'.chunk);
    CoreOf(s', s.live - {a}, s.used - zone'.chunk);
  }

  lemma GivenLive(s: State, z: nat, zone': Zone, a: nat)
    requires Core(s) && z in s.zones && SameShape(s.zones[z], zone')
    requires a in LiveChunks(s.zones[z]) && LiveChunks(zone') == LiveChunks(s.zones[z]) - {a as int}
    ensures a in s.live && s.live[a] == zone'.chunk
    ensures LiveOk(s.(zones := s.zones[z := zone'], live := s.live - {a}))
  {
    hide PagesOk, UsageOk, ListsOk, Total, LiveChunks, OwnedWhole, ZoneOk;
    var zones' := s.zones[z := zone'];
    LivePage(s.zones[z], z, s.zp, a);
    assert ZoneWhole(s.owner, s.zp, z);
    assert s.owner[a / PAGE] == ZonePage(z);
    forall x: nat
      ensures IsLive(s.owner, zones', x) <==> IsLive(s.owner, s.zones, x) && x != a
      ensures IsLive(s.owner, zones', x) ==> SizeAt(s.owner, zones', x) == SizeAt(s.owner, s.zones, x)
    {
    }
  }

  // ---------------------------------------------------- pages change owner

  /** The owners after the n pages from q on pass to o. */
  function Recolored(owner: Owners, q: nat, n: nat, o: Owner): Owners {
    map p | p in owner :: if q <= p < q + n then o else owner[p]
  }

  ghost predicate Wholes(owner: Owners, zones: Zones, zp: nat) {
    (forall p :: p in owner ==> OwnedWhole(owner, zones, zp, p))
    && (forall z :: z in zones ==> ZoneWhole(owner, zp, z))
  }

  /** The range q..q + n is exactly what `from` owned (or all of it was free), and
      becomes what `to` owns. */
  ghost predicate Passes(owner: Owners, q: nat, n: nat, from: Owner, to: Owner, zp: nat) {
    n > 0 && (forall p :: q <= p < q + n ==> p in owner && owner[p] == from)
    && (from == FreePage || from == LargePage(q, n) || (from == ZonePage(q) && n == zp))
    && (to == FreePage || to == LargePage(q, n) || (to == ZonePage(q) && n == zp))
  }

  ghost predicate ZonesPass(zones: Zones, zones': Zones, from: Owner, to: Owner) {
    forall w :: w in zones' <==> (w in zones && from != ZonePage(w)) || to == ZonePage(w)
  }

  lemma RecolorOther(owner: Owners, zones: Zones, zones': Zones, zp: nat, q: nat, n: nat,
                     from: Owner, to: Owner, p: nat)
    requires p in owner && !(q <= p < q + n) && OwnedWhole(owner, zones, zp, p)
    requires Passes(owner, q, n, from, to, zp) && ZonesPass(zones, zones', from, to)
    ensures OwnedWhole(Recolored(owner, q, n, to), zones', zp, p)
  {
    var owner', b := Recolored(owner, q, n, to), owner[p];
    if b.LargePage? {
      forall r | b.q <= r < b.q + b.n ensures r in owner' && owner'[r] == b {
        assert r in owner && owner[r] == b;
        assert q <= r < q + n ==> b == from;
      }
    }
  }

  lemma RecolorRange(owner: Owners, zones': Zones, zp: nat, q: nat, n: nat, from: Owner, to: Owner, p: nat)
    requires q <= p < q + n && Passes(owner, q, n, from, to, zp) && (to == ZonePage(q) ==> q in zones')
    ensures OwnedWhole(Recolored(owner, q, n, to), zones', zp, p)
  {
    assert p in owner;
  }

  lemma RecolorZone(owner: Owners, zp: nat, q: nat, n: nat, from: Owner, to: Owner, w: nat)
    requires Passes(owner, q, n, from, to, zp) && from != ZonePage(w)
    requires to == ZonePage(w) || ZoneWhole(owner, zp, w)
    ensures ZoneWhole(Recolored(owner, q, n, to), zp, w)
  {
    var owner' := Recolored(owner, q, n, to);
    forall p | w <= p < w + zp ensures p in owner' && owner'[p] == ZonePage(w) {
      if to == ZonePage(w) {
        assert w == q && n == zp;
        assert p in owner;
      } else {
        assert p in owner && owner[p] == ZonePage(w) != from;
        assert !(q <= p < q + n);
      }
    }
  }

  lemma RecolorWholes(owner: Owners, zones: Zones, zones': Zones, zp: nat, q: nat, n: nat, from: Owner, to: Owner)
    requires Wholes(owner, zones, zp) && Passes(owner, q, n, from, to, zp) && from != to
    requires ZonesPass(zones, zones', from, to)
    ensures Wholes(Recolored(owner, q, n, to), zones', zp)
  {
    hide OwnedWhole, ZoneWhole, Passes;
    var owner' := Recolored(owner, q, n, to);
    forall p | p in owner' ensures OwnedWhole(owner', zones', zp, p) {
      if q <= p < q + n {
        RecolorRange(owner, zones', zp, q, n, from, to, p);
      } else {
        RecolorOther(owner, zones, zones', zp, q, n, from, to, p);
      }
    }
    forall w | w in zones' ensures ZoneWhole(owner', zp, w) {
      RecolorZone(owner, zp, q, n, from, to, w);
    }
  }

  /** Only the pages that change hands appear in or vanish from the free list. */
  lemma RecolorFree(s: State, runs': seq<Run>, q: nat, n: nat, from: Owner, to: Owner)
    requires PagesOk(s) && Canonical(runs')
    requires forall p :: q <= p < q + n ==> p in s.owner && s.owner[p] == from
    requires forall p :: In(runs', p) <==>
               if q <= p < q + n then to == FreePage else In(s.runs, p)
    ensures PagesOk(s.(runs := runs', owner := Recolored(s.owner, q, n, to)))
  {
    hide Canonical, In;
  }

  /** A new memusage table that records the pages that changed hands. */
  ghost predicate Remarked(usage: seq<Usage>, usage': seq<Usage>, first: nat, q: nat, n: nat, to: Owner) {
    |usage'| == |usage| && n > 0 && first <= q && q + n - first <= |usage|
    && (forall k :: 0 <= k < |usage| && !(q - first <= k < q + n - first) ==> usage'[k] == usage[k])
    && (to.LargePage? ==> usage'[q - first] == Usage(LARGE, n))
    && (to.ZonePage? ==> forall k :: q - first <= k < q + n - first ==> usage'[k] == Usage(SMALL, k - (q - first)))
  }

  lemma RecolorUsage(s: State, usage': seq<Usage>, q: nat, n: nat, from: Owner, to: Owner)
    requires UsageOk(s) && PagesOk(s) && Passes(s.owner, q, n, from, to, s.zp)
    requires Remarked(s.usage, usage', s.first, q, n, to)
    ensures UsageOk(s.(usage := usage', owner := Recolored(s.owner, q, n, to)))
  {
    hide Canonical, In;
    var s' := s.(usage := usage', owner := Recolored(s.owner, q, n, to));
    forall p | p in s'.owner ensures Recorded(s', p) {
      assert Recorded(s, p);
    }
  }

  // ------------------------------------------------------------ large blocks

  /** Pages taken from the page list for a large block. */
  function LargeTaken(s: State, q: nat, n: nat, runs': seq<Run>): State
    requires s.first <= q < s.first + |s.usage|
  {
    s.(runs := runs', usage := s.usage[q - s.first := Usage(LARGE, n)],
       owner := Recolored(s.owner, q, n, LargePage(q, n)),
       live := s.live[q * PAGE := n * PAGE], used := s.used + n * PAGE)
  }

  lemma FreeRange(s: State, q: nat, n: nat)
    requires PagesOk(s) && n > 0 && Room(s.runs, q, n)
    ensures s.first <= q && q + n <= s.first + s.npages
    ensures forall p :: q <= p < q + n ==> p in s.owner && s.owner[p] == FreePage
  {
    hide Canonical, In;
    assert In(s.runs, q) && In(s.runs, q + n - 1);
    forall p | q <= p < q + n ensures p in s.owner && s.owner[p] == FreePage {
      assert In(s.runs, p);
    }
  }

  lemma LargeTakenLive(s: State, q: nat, n: nat)
    requires LiveOk(s) && n > 0 && forall p :: q <= p < q + n ==> p in s.owner && s.owner[p] == FreePage
    requires Wholes(s.owner, s.zones, s.zp)
    ensures q * PAGE !in s.live
    ensures LiveOk(s.(owner := Recolored(s.owner, q, n, LargePage(q, n)), live := s.live[q * PAGE := n * PAGE]))
  {
    hide LiveChunks;
    var owner' := Recolored(s.owner, q, n, LargePage(q, n));
    assert (q * PAGE) / PAGE == q;
    forall x: nat
      ensures IsLive(owner', s.zones, x) <==> IsLive(s.owner, s.zones, x) || x == q * PAGE
      ensures IsLive(s.owner, s.zones, x) ==> SizeAt(owner', s.zones, x) == SizeAt(s.owner, s.zones, x)
    {
    }
  }

  /** The zones and the lists do not depend on the pages. */
  lemma ListsFrame(s: State, s': State)
    requires ZonesOk(s) && ListsOk(s)
    requires s'.zones == s.zones && s'.zp == s.zp && s'.zoneArray == s.zoneArray && s'.zoneFree == s.zoneFree
    ensures ZonesOk(s') && ListsOk(s')
  {
    hide ZoneOk, ListOk;
  }

  /** Core from its parts, each proved on a state that differs elsewhere. */
  lemma Assemble(s: State, s1: State, s2: State, s3: State)
    requires PagesOk(s1) && s1.runs == s.runs && s1.owner == s.owner && s1.first == s.first && s1.npages == s.npages
    requires UsageOk(s2) && s2.usage == s.usage && s2.owner == s.owner && s2.first == s.first && s2.npages == s.npages
    requires LiveOk(s3) && s3.owner == s.owner && s3.zones == s.zones && s3.live == s.live
    requires Wholes(s.owner, s.zones, s.zp) && ZonesOk(s) && ListsOk(s) && s.used == Total(s.live)
    ensures Core(s)
  {
    hide Canonical, In, ZoneOk, ListOk, OwnedWhole, ZoneWhole, IsLive, SizeAt, ZonesOk, ListsOk, Total;
    forall p | p in s.owner ensures Recorded(s, p) { assert Recorded(s2, p); }
  }

  lemma LargeTakenKeeps(s: State, q: nat, n: nat, runs': seq<Run>)
    requires Core(s) && n > 0 && Room(s.runs, q, n) && Canonical(runs')
    requires forall p :: In(runs', p) <==> In(s.runs, p) && !(q <= p < q + n)
    ensures s.first <= q < s.first + |s.usage| && q * PAGE !in s.live && Core(LargeTaken(s, q, n, runs'))
  {
    hide Canonical, In, ZoneOk, ListOk, OwnedWhole, ZoneWhole, IsLive, SizeAt, ZonesOk, ListsOk, LiveOk;
    FreeRange(s, q, n);
    var s' := LargeTaken(s, q, n, runs');
    var to := LargePage(q, n);
    RecolorWholes(s.owner, s.zones, s.zones, s.zp, q, n, FreePage, to);
    RecolorFree(s, runs', q, n, FreePage, to);
    RecolorUsage(s, s'.usage, q, n, FreePage, to);
    LargeTakenLive(s, q, n);
    ListsFrame(s, s');
    TotalAdd(s.live, q * PAGE, n * PAGE);
    Assemble(s', s.(runs := runs', owner := s'.owner), s.(usage := s'.usage, owner := s'.owner),
             s.(owner := s'.owner, live := s'.live));
  }

  /** A large block's pages given back. */
  function LargeGiven(s: State, q: nat, n: nat, runs': seq<Run>): State
    requires s.first <= q < s.first + |s.usage| && q * PAGE in s.live
  {
    s.(runs := runs', usage := s.usage[q - s.first := s.usage[q - s.first].(size := 0)],
       owner := Recolored(s.owner, q, n, FreePage),
       live := s.live - {q * PAGE}, used := s.used - n * PAGE)
  }

  /** A live block on a page that a large block owns is that large block. */
  lemma LargeBlock(s: State, q: nat, n: nat)
    requires Core(s) && q in s.owner && s.owner[q] == LargePage(q, n)
    ensures n > 0 && q * PAGE in s.live && s.live[q * PAGE] == n * PAGE
    ensures s.first <= q < s.first + |s.usage| && s.usage[q - s.first] == Usage(LARGE, n)
    ensures forall p :: q <= p < q + n ==> p in s.owner && s.owner[p] == LargePage(q, n)
    ensures Taken(s.runs, q, n)
  {
    hide Canonical, In, ZoneOk, ListOk, ZonesOk, ListsOk, Total, LiveChunks;
    assert OwnedWhole(s.owner, s.zones, s.zp, q) && Recorded(s, q);
    assert (q * PAGE) / PAGE == q;
    assert IsLive(s.owner, s.zones, q * PAGE);
  }

  lemma LargeGivenLive(s: State, q: nat, n: nat)
    requires LiveOk(s) && Wholes(s.owner, s.zones, s.zp) && n > 0
    requires forall p :: q <= p < q + n ==> p in s.owner && s.owner[p] == LargePage(q, n)
    ensures LiveOk(s.(owner := Recolored(s.owner, q, n, FreePage), live := s.live - {q * PAGE}))
  {
    hide LiveChunks;
    var owner' := Recolored(s.owner, q, n, FreePage);
    assert (q * PAGE) / PAGE == q;
    forall x: nat
      ensures IsLive(owner', s.zones, x) <==> IsLive(s.owner, s.zones, x) && x != q * PAGE
      ensures IsLive(owner', s.zones, x) ==> SizeAt(owner', s.zones, x) == SizeAt(s.owner, s.zones, x)
    {
      if x / PAGE in s.owner { assert OwnedWhole(s.owner, s.zones, s.zp, x / PAGE); }
    }
  }

  lemma LargeGivenKeeps(s: State, q: nat, n: nat, runs': seq<Run>)
    requires Core(s) && q in s.owner && s.owner[q] == LargePage(q, n) && Canonical(runs')
    requires forall p :: In(runs', p) <==> In(s.runs, p) || q <= p < q + n
    ensures s.first <= q < s.first + |s.usage| && q * PAGE in s.live && Core(LargeGiven(s, q, n, runs'))
  {
    hide Canonical, In, ZoneOk, ListOk, OwnedWhole, ZoneWhole, IsLive, SizeAt, ZonesOk, ListsOk, LiveOk;
    LargeBlock(s, q, n);
    var s' := LargeGiven(s, q, n, runs');
    var from := LargePage(q, n);
    assert q + n - 1 in s.owner;
    RecolorWholes(s.owner, s.zones, s.zones, s.zp, q, n, from, FreePage);
    RecolorFree(s, runs', q, n, from, FreePage);
    RecolorUsage(s, s'.usage, q, n, from, FreePage);
    LargeGivenLive(s, q, n);
    ListsFrame(s, s');
    TotalPick(s.live, q * PAGE);
    Assemble(s', s.(runs := runs', owner := s'.owner), s.(usage := s'.usage, owner := s'.owner),
             s.(owner := s'.owner, live := s'.live));
  }

  // ------------------------------------------------------- zones come and go

  function Marked(usage: seq<Usage>, k: nat, n: nat): seq<Usage> {
    seq(|usage|, i requires 0 <= i < |usage| => if k <= i < k + n then Usage(SMALL, i - k) else usage[i])
  }

  function Cleared(usage: seq<Usage>, k: nat, n: nat): seq<Usage> {
    seq(|usage|, i requires 0 <= i < |usage| => if k <= i < k + n then Usage(0, 0) else usage[i])
  }

  /** Pages taken from the page list become an idle zone. */
  function ZoneAdded(s: State, z: nat, zone: Zone, runs': seq<Run>): State
    requires s.first <= z
  {
    s.(runs := runs', usage := Marked(s.usage, z - s.first, s.zp), zones := s.zones[z := zone],
       zoneFree := [z] + s.zoneFree, owner := Recolored(s.owner, z, s.zp, ZonePage(z)))
  }

  lemma AddedLists(s: State, s': State, z: nat, zone: Zone)
    requires ListsOk(s) && ZonesOk(s) && z !in s.zones && !zone.magic
    requires s'.zones == s.zones[z := zone] && s'.zp == s.zp && s'.zoneArray == s.zoneArray
    requires s'.zoneFree == [z] + s.zoneFree
    ensures ListsOk(s') && ZonesOk(s')
  {
    forall i | 0 <= i < NZONES ensures ListOk(s'.zoneArray[i], s'.zones, i) {
      assert ListOk(s.zoneArray[i], s.zones, i);
      forall w ensures Open(s'.zones, i, w) <==> Open(s.zones, i, w) { }
    }
    forall w ensures w in s'.zoneFree <==> Idle(s'.zones, w) {
      assert Idle(s'.zones, w) <==> Idle(s.zones, w) || w == z;
    }
    assert z !in s.zoneFree by { assert !Idle(s.zones, z); }
  }

  lemma AddedLive(s: State, z: nat, zone: Zone)
    requires LiveOk(s) && z !in s.zones && !zone.magic
    requires forall p :: z <= p < z + s.zp ==> p in s.owner && s.owner[p] == FreePage
    ensures LiveOk(s.(zones := s.zones[z := zone], owner := Recolored(s.owner, z, s.zp, ZonePage(z))))
  {
    hide LiveChunks;
    var owner', zones' := Recolored(s.owner, z, s.zp, ZonePage(z)), s.zones[z := zone];
    forall x: nat
      ensures IsLive(owner', zones', x) <==> IsLive(s.owner, s.zones, x)
      ensures IsLive(s.owner, s.zones, x) ==> SizeAt(owner', zones', x) == SizeAt(s.owner, s.zones, x)
    {
    }
  }

  lemma NotYetZone(s: State, z: nat)
    requires BlocksOk(s) && s.zp > 0 && z in s.owner && s.owner[z] == FreePage
    ensures z !in s.zones
  {
    assert z in s.zones ==> ZoneWhole(s.owner, s.zp, z);
  }

  lemma ZoneAddedKeeps(s: State, z: nat, zone: Zone, runs': seq<Run>)
    requires Core(s) && s.zp > 0 && Room(s.runs, z, s.zp) && Canonical(runs') && !zone.magic
    requires forall p :: In(runs', p) <==> In(s.runs, p) && !(z <= p < z + s.zp)
    ensures s.first <= z && z !in s.zones && Core(ZoneAdded(s, z, zone, runs'))
  {
    hide Canonical, In, ZoneOk, ListOk, OwnedWhole, ZoneWhole, IsLive, SizeAt, ZonesOk, ListsOk, LiveOk;
    FreeRange(s, z, s.zp);
    var s' := ZoneAdded(s, z, zone, runs');
    var to := ZonePage(z);
    NotYetZone(s, z);
    RecolorWholes(s.owner, s.zones, s'.zones, s.zp, z, s.zp, FreePage, to);
    RecolorFree(s, runs', z, s.zp, FreePage, to);
    RecolorUsage(s, s'.usage, z, s.zp, FreePage, to);
    AddedLive(s, z, zone);
    AddedLists(s, s', z, zone);
    Assemble(s', s.(runs := runs', owner := s'.owner), s.(usage := s'.usage, owner := s'.owner),
             s.(owner := s'.owner, zones := s'.zones));
  }

  /** The first idle zone gives its pages back. */
  function ZoneReleased(s: State, runs': seq<Run>): State
    requires |s.zoneFree| > 0 && s.first <= s.zoneFree[0]
  {
    var z := s.zoneFree[0];
    s.(runs := runs', usage := Cleared(s.usage, z - s.first, s.zp), zones := s.zones - {z},
       zoneFree := s.zoneFree[1..], owner := Recolored(s.owner, z, s.zp, FreePage))
  }

  lemma ReleasedLists(s: State, s': State)
    requires ListsOk(s) && ZonesOk(s) && |s.zoneFree| > 0
    requires s'.zones == s.zones - {s.zoneFree[0]} && s'.zp == s.zp && s'.zoneArray == s.zoneArray
    requires s'.zoneFree == s.zoneFree[1..]
    ensures ListsOk(s') && ZonesOk(s')
  {
    var z := s.zoneFree[0];
    assert Idle(s.zones, z);
    forall i | 0 <= i < NZONES ensures ListOk(s'.zoneArray[i], s'.zones, i) {
      assert ListOk(s.zoneArray[i], s.zones, i);
      forall w ensures Open(s'.zones, i, w) <==> Open(s.zones, i, w) { }
    }
    PopDistinct(s.zoneFree);
    forall w ensures w in s'.zoneFree <==> Idle(s'.zones, w) {
      assert Idle(s'.zones, w) <==> Idle(s.zones, w) && w != z;
    }
  }

  lemma PopDistinct(l: seq<nat>)
    requires Distinct(l) && |l| > 0
    ensures Distinct(l[1..]) && forall w :: w in l[1..] <==> w in l && w != l[0]
  {
    forall w | w in l && w != l[0] ensures w in l[1..] {
      var i :| 0 <= i < |l| && l[i] == w;
      assert l[1..][i - 1] == w;
    }
  }

  lemma ReleasedLive(s: State, z: nat)
    requires LiveOk(s) && Wholes(s.owner, s.zones, s.zp) && z in s.zones && !s.zones[z].magic
    ensures LiveOk(s.(zones := s.zones - {z}, owner := Recolored(s.owner, z, s.zp, FreePage)))
  {
    hide LiveChunks, Wholes;
    var owner', zones' := Recolored(s.owner, z, s.zp, FreePage), s.zones - {z};
    forall x: nat
      ensures IsLive(owner', zones', x) <==> IsLive(s.owner, s.zones, x)
      ensures IsLive(s.owner, s.zones, x) ==> SizeAt(owner', zones', x) == SizeAt(s.owner, s.zones, x)
    {
      ReleasedPage(s, z, x / PAGE);
    }
  }

  lemma ReleasedPage(s: State, z: nat, p: nat)
    requires Wholes(s.owner, s.zones, s.zp) && z in s.zones
    ensures p in s.owner ==> (z <= p < z + s.zp <==> s.owner[p] == ZonePage(z))
  {
    assert ZoneWhole(s.owner, s.zp, z);
    if p in s.owner { assert OwnedWhole(s.owner, s.zones, s.zp, p); }
  }

  lemma ZonePlace(s: State, z: nat)
    requires Core(s) && z in s.zones && s.zp > 0
    ensures s.first <= z && z + s.zp <= s.first + |s.usage| && Taken(s.runs, z, s.zp)
    ensures forall p :: z <= p < z + s.zp ==> p in s.owner && s.owner[p] == ZonePage(z)
    ensures forall k :: 0 <= k < s.zp ==> s.usage[z - s.first + k] == Usage(SMALL, k)
  {
    hide Canonical, In, ZoneOk, ListOk, ZonesOk, ListsOk, LiveOk, OwnedWhole;
    assert ZoneWhole(s.owner, s.zp, z);
    assert z in s.owner && z + s.zp - 1 in s.owner;
    forall k | 0 <= k < s.zp ensures s.usage[z - s.first + k] == Usage(SMALL, k) {
      assert Recorded(s, z + k);
    }
  }

  lemma IdleHead(s: State)
    requires ListsOk(s) && |s.zoneFree| > 0
    ensures s.zoneFree[0] in s.zones && !s.zones[s.zoneFree[0]].magic
  {
    assert Idle(s.zones, s.zoneFree[0]);
  }

  lemma ZoneReleasedKeeps(s: State, runs': seq<Run>)
    requires Core(s) && s.zp > 0 && |s.zoneFree| > 0 && Canonical(runs')
    requires var z := s.zoneFree[0]; forall p :: In(runs', p) <==> In(s.runs, p) || z <= p < z + s.zp
    ensures s.first <= s.zoneFree[0] && Core(ZoneReleased(s, runs'))
  {
    hide Canonical, In, ZoneOk, ListOk, OwnedWhole, ZoneWhole, IsLive, SizeAt, ZonesOk, ListsOk, LiveOk;
    var z := s.zoneFree[0];
    IdleHead(s);
    ZonePlace(s, z);
    var s' := ZoneReleased(s, runs');
    RecolorWholes(s.owner, s.zones, s'.zones, s.zp, z, s.zp, ZonePage(z), FreePage);
    RecolorFree(s, runs', z, s.zp, ZonePage(z), FreePage);
    RecolorUsage(s, s'.usage, z, s.zp, ZonePage(z), FreePage);
    ReleasedLive(s, z);
    ReleasedLists(s, s');
    Assemble(s', s.(runs := runs', owner := s'.owner), s.(usage := s'.usage, owner := s'.owner),
             s.(owner := s'.owner, zones := s'.zones));
  }

  // ------------------------------------------------- zones open and retire

  /** The first idle zone opens for class zone.index and gives its first chunk. */
  function ZoneOpened(s: State, zone: Zone): State
    requires |s.zoneFree| > 0 && zone.index < |s.zoneArray|
  {
    var z := s.zoneFree[0];
    s.(zones := s.zones[z := zone], zoneArray := s.zoneArray[zone.index := [z] + s.zoneArray[zone.index]],
       zoneFree := s.zoneFree[1..], live := s.live[zone.base := zone.chunk], used := s.used + zone.chunk)
  }

  /** A zone just set up: only its first chunk has been handed out. */
  ghost predicate FreshZone(zone: Zone, z: nat, zp: nat) {
    zone.magic && zone.uindex == 0 && zone.freed == [] && ZoneOk(zone, z, zp)
  }

  lemma OpenedLists(s: State, zone: Zone)
    requires ListsOk(s) && |s.zoneFree| > 0 && zone.magic && zone.index < NZONES && zone.nfree > 0
    ensures ListsOk(ZoneOpened(s, zone))
  {
    var z, s' := s.zoneFree[0], ZoneOpened(s, zone);
    assert Idle(s.zones, z);
    forall i | 0 <= i < NZONES ensures ListOk(s'.zoneArray[i], s'.zones, i) {
      assert ListOk(s.zoneArray[i], s.zones, i);
      assert !Open(s.zones, i, z);
      forall w ensures Open(s'.zones, i, w) <==> Open(s.zones, i, w) || (i == zone.index && w == z) { }
    }
    PopDistinct(s.zoneFree);
    forall w ensures w in s'.zoneFree <==> Idle(s'.zones, w) {
      assert Idle(s'.zones, w) <==> Idle(s.zones, w) && w != z;
    }
  }

  lemma FreshLive(zone: Zone, z: nat, zp: nat)
    requires FreshZone(zone, z, zp)
    ensures LiveChunks(zone) == {zone.base as int}
  {
    assert ChunkAt(zone, 0) == zone.base;
    assert Carved(zone) == {zone.base as int};
  }

  lemma OpenedLive(s: State, z: nat, zone: Zone)
    requires LiveOk(s) && Wholes(s.owner, s.zones, s.zp) && z in s.zones && !s.zones[z].magic
    requires FreshZone(zone, z, s.zp)
    ensures zone.base !in s.live
    ensures LiveOk(s.(zones := s.zones[z := zone], live := s.live[zone.base := zone.chunk]))
  {
    FreshLive(zone, z, s.zp);
    LivePage(zone, z, s.zp, zone.base);
    hide LiveChunks, ZoneOk;
    var zones' := s.zones[z := zone];
    assert ZoneWhole(s.owner, s.zp, z);
    assert s.owner[zone.base / PAGE] == ZonePage(z);
    forall x: nat
      ensures IsLive(s.owner, zones', x) <==> IsLive(s.owner, s.zones, x) || x == zone.base
      ensures IsLive(s.owner, s.zones, x) ==> SizeAt(s.owner, zones', x) == SizeAt(s.owner, s.zones, x)
    {
    }
  }

  lemma ZoneOpenedKeeps(s: State, zone: Zone)
    requires Core(s) && |s.zoneFree| > 0 && FreshZone(zone, s.zoneFree[0], s.zp)
    ensures zone.index < |s.zoneArray| && zone.base !in s.live && Core(ZoneOpened(s, zone))
  {
    hide Canonical, In, ListOk, OwnedWhole, ZoneWhole, IsLive;
    hide SizeAt, LiveOk, Carved, Distinct, Offset, ChunkOf, Capacity;
    var z := s.zoneFree[0];
    IdleHead(s);
    OpenedLists(s, zone);
    OpenedLive(s, z, zone);
    var s' := ZoneOpened(s, zone);
    TotalAdd(s.live, zone.base, zone.chunk);
    SameKeys(s, z, zone);
    Assemble(s', s, s, s.(zones := s'.zones, live := s'.live));
  }

  lemma SameKeys(s: State, z: nat, zone: Zone)
    requires BlocksOk(s) && z in s.zones
    ensures Wholes(s.owner, s.zones[z := zone], s.zp)
  {
    forall p | p in s.owner ensures OwnedWhole(s.owner, s.zones[z := zone], s.zp, p) {
      assert OwnedWhole(s.owner, s.zones, s.zp, p);
    }
  }

  function Dropped(l: seq<nat>, k: nat): seq<nat>
    requires k < |l|
  {
    l[..k] + l[k + 1..]
  }

  /** A fully free zone, number k on its list, joins the idle zones. */
  function ZoneRetired(s: State, i: nat, k: nat): State
    requires i < |s.zoneArray| && k < |s.zoneArray[i]| && s.zoneArray[i][k] in s.zones
  {
    var z := s.zoneArray[i][k];
    s.(zones := s.zones[z := s.zones[z].(magic := false)],
       zoneArray := s.zoneArray[i := Dropped(s.zoneArray[i], k)], zoneFree := [z] + s.zoneFree)
  }

  lemma DropDistinct(l: seq<nat>, k: nat)
    requires Distinct(l) && k < |l|
    ensures Distinct(Dropped(l, k)) && forall w :: w in Dropped(l, k) <==> w in l && w != l[k]
  {
    var r := Dropped(l, k);
    assert forall i :: 0 <= i < |r| ==> r[i] == l[if i < k then i else i + 1];
    forall w | w in l && w != l[k] ensures w in r {
      var i :| 0 <= i < |l| && l[i] == w;
      assert r[if i < k then i else i - 1] == w;
    }
  }

  lemma RetiredLists(s: State, i: nat, k: nat)
    requires ListsOk(s) && i < NZONES && k < |s.zoneArray[i]|
    ensures s.zoneArray[i][k] in s.zones && ListsOk(ZoneRetired(s, i, k))
  {
    var l, z := s.zoneArray[i], s.zoneArray[i][k];
    assert ListOk(l, s.zones, i);
    assert Open(s.zones, i, z);
    var s' := ZoneRetired(s, i, k);
    DropDistinct(l, k);
    forall j | 0 <= j < NZONES ensures ListOk(s'.zoneArray[j], s'.zones, j) {
      assert ListOk(s.zoneArray[j], s.zones, j);
      forall w ensures Open(s'.zones, j, w) <==> Open(s.zones, j, w) && !(j == i && w == z) { }
    }
    assert z !in s.zoneFree by { assert !Idle(s.zones, z); }
    forall w ensures w in s'.zoneFree <==> Idle(s'.zones, w) {
      assert Idle(s'.zones, w) <==> Idle(s.zones, w) || w == z;
    }
  }

  lemma RetiredLive(s: State, z: nat)
    requires LiveOk(s) && z in s.zones && LiveChunks(s.zones[z]) == {}
    ensures LiveOk(s.(zones := s.zones[z := s.zones[z].(magic := false)]))
  {
    hide LiveChunks;
    var zones' := s.zones[z := s.zones[z].(magic := false)];
    forall x: nat
      ensures IsLive(s.owner, zones', x) <==> IsLive(s.owner, s.zones, x)
      ensures IsLive(s.owner, s.zones, x) ==> SizeAt(s.owner, zones', x) == SizeAt(s.owner, s.zones, x)
    {
    }
  }

  lemma ZoneRetiredKeeps(s: State, i: nat, k: nat)
    requires Core(s) && i < |s.zoneArray| && k < |s.zoneArray[i]| && s.zoneArray[i][k] in s.zones
    requires var zone := s.zones[s.zoneArray[i][k]]; zone.magic && zone.nfree == zone.nmax
    ensures Core(ZoneRetired(s, i, k))
  {
    hide Canonical, In, ListOk, OwnedWhole, ZoneWhole, IsLive;
    hide SizeAt, LiveOk, Carved, Distinct, Offset, ChunkOf, Capacity;
    var z := s.zoneArray[i][k];
    RetiredLists(s, i, k);
    FullyFree(s.zones[z], z, s.zp);
    RetiredLive(s, z);
    SameKeys(s, z, s.zones[z].(magic := false));
    var s' := ZoneRetired(s, i, k);
    Assemble(s', s, s, s.(zones := s'.zones));
  }
}
