/** rt_malloc and rt_free over zones and pages (slab.c), each call taken as one section:
    the heap semaphore is given up only around the calls of the page allocator. */
module SlabHeap {
  import opened Basics
  import opened SlabPages
  import opened SlabZones
  import opened SlabState
  import opened SlabSteps

  const ZONE_RELEASE_THRESH: nat := 2

  /** A zone header before it is set up. */
  const BLANK: Zone := Zone(false, 0, 0, 0, 0, 0, 0, [])

  // --------------------------------------------------- what the state promises

  /** The block at a, the bytes it counts for. */
  ghost predicate Covers(s: State, a: nat, x: nat) {
    a in s.live && a <= x < a + s.live[a]
  }

  /** A byte of a block in use lies on a page of the block's own zone or large
      block, past the header of the zone. */
  lemma CoveredPage(s: State, a: nat, x: nat)
    requires Core(s) && Covers(s, a, x)
    ensures x / PAGE in s.owner && a / PAGE in s.owner && s.owner[x / PAGE] == s.owner[a / PAGE]
    ensures s.owner[x / PAGE].ZonePage? || s.owner[x / PAGE].LargePage?
    ensures s.owner[x / PAGE].ZonePage? ==> x >= s.owner[x / PAGE].z * PAGE + HEADER
  {
    hide Canonical, In, ZoneOk, ListOk, ListsOk, UsageOk, Total, LiveChunks;
    assert IsLive(s.owner, s.zones, a);
    var o := s.owner[a / PAGE];
    assert OwnedWhole(s.owner, s.zones, s.zp, a / PAGE);
    if o.ZonePage? {
      var zone := s.zones[o.z];
      LiveBytes(zone, o.z, s.zp, a);
      assert ZoneWhole(s.owner, s.zp, o.z);
    } else {
    }
  }

  lemma LiveBytes(zone: Zone, z: nat, zp: nat, a: int)
    requires ZoneOk(zone, z, zp) && zone.magic && a in LiveChunks(zone)
    ensures z * PAGE + HEADER <= a && a + zone.chunk <= (z + zp) * PAGE
  {
    CarvedInside(zone, z, zp, a);
  }

  lemma CarvedApart(zone: Zone, a: int, b: int)
    requires zone.chunk > 0 && a in Carved(zone) && b in Carved(zone) && a < b
    ensures a + zone.chunk <= b
  {
    var i: nat :| 0 <= i <= zone.uindex && a == ChunkAt(zone, i);
    var j: nat :| 0 <= j <= zone.uindex && b == ChunkAt(zone, j);
    if j < i { ChunksApart(zone, j, i); }
    if i < j { ChunksApart(zone, i, j); }
  }

  /** Blocks in use never overlap. */
  lemma LiveApart(s: State, a: nat, b: nat)
    requires Core(s) && a in s.live && b in s.live && a < b
    ensures a + s.live[a] <= b
  {
    hide Canonical, In, ListOk, ListsOk, UsageOk, Total, Offset, ChunkOf, Capacity, Distinct, OwnedWhole, ZoneWhole;
    assert IsLive(s.owner, s.zones, a) && IsLive(s.owner, s.zones, b);
    if Covers(s, a, b) {
      CoveredPage(s, a, b);
      var o := s.owner[a / PAGE];
      if o.ZonePage? {
        assert ZoneOk(s.zones[o.z], o.z, s.zp);
        CarvedApart(s.zones[o.z], a, b);
      }
    }
  }

  /** Whether a power-of-two chunk is aligned to its size depends on its zone alone. */
  lemma AlignedIff(zone: Zone, z: nat, zp: nat, a: int)
    requires ZoneOk(zone, z, zp) && zone.magic && a in Carved(zone) && IsPow2(zone.chunk)
    ensures a % zone.chunk == 0 <==> z * PAGE % zone.chunk == 0
  {
    hide Offset, ChunkOf, Capacity, Distinct, IsPow2;
    var i: nat :| 0 <= i <= zone.uindex && a == ChunkAt(zone, i);
    OffsetShape(zone.chunk);
    var c := zone.chunk;
    ChunkMultiple(z * PAGE, Offset(c), i, c);
  }

  /** Chunk i of an array that starts a multiple of c behind x. */
  lemma ChunkMultiple(x: nat, off: nat, i: nat, c: nat)
    requires c > 0 && off % c == 0
    ensures (x + off + i * c) % c == x % c
  {
    var k := off / c;
    assert off == k * c;
    Regroup(k, i, c);
    AddMultiple(x, k + i, c);
  }

  lemma SameRemainder(d: nat, e: nat, q: nat, r: nat, m: nat)
    requires e < m && r < m && d * m + e == q * m + r
    ensures d == q && e == r
  {
    if d > q { Spread(d, q, m); }
    if q > d { Spread(q, d, m); }
  }

  lemma Regroup(q: nat, k: nat, m: nat)
    ensures (q + k) * m == q * m + k * m
  {
  }

  lemma AddMultiple(x: nat, k: nat, m: nat)
    requires m > 0
    ensures (x + k * m) % m == x % m
  {
    var y := x + k * m;
    var q, r, d, e := x / m, x % m, y / m, y % m;
    Regroup(q, k, m);
    SameRemainder(d, e, q + k, r, m);
  }

  lemma PageMultiple(c: nat, z: nat)
    requires IsPow2(c) && c <= PAGE
    ensures z * PAGE % c == 0
    decreases c
  {
    PowerDivides(c);
    var k := PAGE / c;
    assert z * PAGE == (z * k) * c;
    AddMultiple(0, z * k, c);
  }

  lemma PowerDivides(c: nat)
    requires IsPow2(c) && c <= PAGE
    ensures PAGE / c * c == PAGE
  {
    hide IsPow2;
    PowersUpToPage(c);
  }

  lemma PowersUpToPage(c: nat)
    requires IsPow2(c) && c <= PAGE
    ensures c in {1, 2, 4, 8, 16, 32, 64, 128, 256, 512, 1024, 2048, 4096}
  {
  }

  /** Power-of-two chunks up to the page size are always aligned to their size. */
  lemma PowerAligned(s: State, a: nat)
    requires Core(s) && a in s.live && IsPow2(s.live[a]) && s.live[a] <= PAGE
    ensures a % s.live[a] == 0
  {
    Lookup(s, a);
    hide PagesOk, BlocksOk, UsageOk, ListsOk, LiveOk, Total, ZoneOk, IsPow2;
    var o := s.owner[a / PAGE];
    if o.ZonePage? {
      ZoneOf(s, o.z);
      AlignedIff(s.zones[o.z], o.z, s.zp, a);
      PageMultiple(s.live[a], o.z);
    } else {
      PageMultiple(s.live[a], a / PAGE);
    }
  }

  /** The first page of the zone or large block that a block in use belongs to. */
  ghost function HomePage(s: State, a: nat): nat
    requires a / PAGE in s.owner
  {
    match s.owner[a / PAGE]
    case ZonePage(z) => z
    case LargePage(q, _) => q
    case _ => a / PAGE
  }

  /** Whether a power-of-two block is aligned to its size depends on the place of its
      zone or of its pages alone: every block in use, of every size. */
  lemma PowerAlignedIff(s: State, a: nat)
    requires Core(s) && a in s.live && IsPow2(s.live[a])
    ensures s.live[a] > 0 && a / PAGE in s.owner
    ensures a % s.live[a] == 0 <==> HomePage(s, a) * PAGE % s.live[a] == 0
  {
    Lookup(s, a);
    hide PagesOk, BlocksOk, UsageOk, ListsOk, LiveOk, Total, ZoneOk, IsPow2;
    var o := s.owner[a / PAGE];
    if o.ZonePage? {
      ZoneOf(s, o.z);
      AlignedIff(s.zones[o.z], o.z, s.zp, a);
    }
  }

  /** A zone is cut into as many chunks as fit: behind the last one there is no room for
      another. */
  lemma ZoneIsFilled(zone: Zone, z: nat, zp: nat)
    requires ZoneOk(zone, z, zp) && zone.magic
    ensures zone.base + (zone.nmax + 1) * zone.chunk > (z + zp) * PAGE
  {
    hide Offset, Capacity, Distinct;
    NoneLeft(zp * PAGE, zone.chunk);
  }

  /** A block of whole pages is aligned to its size exactly if its first page number is a
      multiple of its page count. */
  lemma PagesAlignedIff(q: nat, n: nat)
    requires n > 0
    ensures q * PAGE % (n * PAGE) == 0 <==> q % n == 0
  {
    var k, r := q / n, q % n;
    assert q == k * n + r;
    assert q * PAGE == k * (n * PAGE) + r * PAGE;
    assert r * PAGE < n * PAGE;
    AddMultiple(r * PAGE, k, n * PAGE);
    SmallRemainder(r * PAGE, n * PAGE);
  }

  lemma SmallRemainder(x: nat, m: nat)
    requires x < m
    ensures x % m == x
  {
  }

  /** No block in use touches a free page or the memusage table. */
  lemma LiveNotFree(s: State, a: nat, x: nat)
    requires Core(s) && Covers(s, a, x)
    ensures !In(s.runs, x / PAGE) && x / PAGE in s.owner && s.owner[x / PAGE] != TablePage
  {
    hide Canonical, In, ZoneOk, ListOk, ListsOk, UsageOk, BlocksOk, ZonesOk, Total, LiveChunks, IsLive, SizeAt, LiveOk;
    CoveredPage(s, a, x);
  }

  /** No block in use touches the header of any zone. */
  lemma LiveNotHeader(s: State, a: nat, x: nat, z: nat)
    requires Core(s) && s.zp > 0 && Covers(s, a, x) && z in s.zones
    ensures x < z * PAGE || x >= z * PAGE + HEADER
  {
    hide Canonical, In, ZoneOk, ListOk, ListsOk, UsageOk;
    hide ZonesOk, Total, LiveChunks, IsLive, SizeAt, LiveOk, OwnedWhole;
    CoveredPage(s, a, x);
    assert ZoneWhole(s.owner, s.zp, z);
    assert s.owner[z] == ZonePage(z);
    assert x / PAGE == z ==> x >= z * PAGE + HEADER;
  }

  /** The memusage entry of the page of a block in use leads to its owner: the
      zone it was cut from, or the block itself. */
  lemma Lookup(s: State, a: nat)
    requires Core(s) && a in s.live
    ensures var p := a / PAGE;
            p in s.owner && s.first <= p < s.first + |s.usage| &&
            var u := s.usage[p - s.first];
            match s.owner[p]
            case ZonePage(z) => u.kind == SMALL && u.size <= p && p - u.size == z && z in s.zones
                                && s.zones[z].magic && a in LiveChunks(s.zones[z]) && s.live[a] == s.zones[z].chunk
            case LargePage(q, n) => u == Usage(LARGE, n) && q == p && a == p * PAGE
            case _ => false
  {
    hide Canonical, In, ZoneOk, ListOk, ListsOk, Total, LiveChunks, OwnedWhole, ZoneWhole;
    assert IsLive(s.owner, s.zones, a);
    assert Recorded(s, a / PAGE);
    if s.owner[a / PAGE].LargePage? { assert (s.owner[a / PAGE].q * PAGE) / PAGE == s.owner[a / PAGE].q; }
  }

  // ------------------------------------------------------------- chunk steps

  /** The header after the next never-used chunk, or else the first free chunk, is
      taken. */
  function NextChunk(zone: Zone): (Zone, nat)
    requires zone.nfree > 0 && (zone.uindex + 1 == zone.nmax ==> |zone.freed| > 0)
  {
    if zone.uindex + 1 != zone.nmax then
      (zone.(nfree := zone.nfree - 1, uindex := zone.uindex + 1), zone.base + (zone.uindex + 1) * zone.chunk)
    else
      (zone.(nfree := zone.nfree - 1, freed := zone.freed[1..]), zone.freed[0])
  }

  lemma NextChunkKeeps(zone: Zone, z: nat, zp: nat)
    requires ZoneOk(zone, z, zp) && zone.magic && zone.nfree > 0
    ensures zone.uindex + 1 == zone.nmax ==> |zone.freed| > 0
    ensures var (zone', a) := NextChunk(zone);
            SameShape(zone, zone') && ZoneOk(zone', z, zp) && a !in LiveChunks(zone)
            && LiveChunks(zone') == LiveChunks(zone) + {a as int}
  {
    hide Offset, ChunkOf, Capacity;
    var (zone', a) := NextChunk(zone);
    if zone.uindex + 1 != zone.nmax {
      CarveOne(zone);
      CarvedSame(zone.(uindex := zone.uindex + 1), zone');
    } else {
      CarvedSame(zone, zone');
      PopDistinct(zone.freed);
      assert a in zone.freed;
    }
  }

  lemma CarvedSame(zone: Zone, zone': Zone)
    requires zone'.base == zone.base && zone'.chunk == zone.chunk && zone'.uindex == zone.uindex
    ensures Carved(zone') == Carved(zone)
  {
    assert forall i :: ChunkAt(zone, i) == ChunkAt(zone', i);
  }

  /** The header after chunk a is pushed on the free-chunk list. */
  function Pushed(zone: Zone, a: nat): Zone {
    zone.(freed := [a] + zone.freed, nfree := zone.nfree + 1)
  }

  lemma PushedKeeps(zone: Zone, z: nat, zp: nat, a: nat)
    requires ZoneOk(zone, z, zp) && zone.magic && a in LiveChunks(zone)
    ensures SameShape(zone, Pushed(zone, a)) && ZoneOk(Pushed(zone, a), z, zp)
    ensures LiveChunks(Pushed(zone, a)) == LiveChunks(zone) - {a as int}
  {
    hide Offset, ChunkOf, Capacity;
    CarvedSame(zone, Pushed(zone, a));
  }

  /** The pages of the memusage table: four bytes for each page of the heap. */
  function TableSize(npages: nat): nat {
    RoundUp(npages * 4, PAGE) / PAGE
  }

  lemma TableFits(n: nat)
    requires n > 0
    ensures 0 < TableSize(n) <= n
  {
  }

  ghost function FirstOwners(first: nat, n: nat, t: nat): (o: Owners)
    ensures forall p :: p in o <==> first <= p < first + n
    ensures forall p :: p in o ==> o[p] == if p < first + t then TablePage else FreePage
  {
    if n == 0 then map[]
    else FirstOwners(first, n - 1, t)[first + n - 1 := if n - 1 < t then TablePage else FreePage]
  }

  /** Carving the table from a list that is one run takes its front. */
  lemma FrontRoom(rs: seq<Run>, first: nat, n: nat, t: nat)
    requires 0 < t <= n && forall p :: In(rs, p) <==> first <= p < first + n
    ensures Room(rs, first, t) && forall q :: Room(rs, q, t) ==> first <= q
  {
    hide In;
    forall q | Room(rs, q, t) ensures first <= q { assert In(rs, q); }
  }

  /** The heap as rt_system_heap_init leaves it. */
  lemma Fresh(s: State, t: nat)
    requires Canonical(s.runs) && t <= s.npages && |s.usage| == s.npages && s.zp in {8, 16, 32}
    requires forall p :: In(s.runs, p) <==> s.first + t <= p < s.first + s.npages
    requires s.zones == map[] && s.zoneFree == [] && s.zoneArray == seq(NZONES, _ => [])
    requires s.live == map[] && s.used == 0
    requires forall p :: p in s.owner <==> s.first <= p < s.first + s.npages
    requires forall p :: p in s.owner ==> s.owner[p] == if p < s.first + t then TablePage else FreePage
    ensures Inv(s)
  {
    hide Canonical, In;
    assert forall i :: 0 <= i < NZONES ==> s.zoneArray[i] == [];
    assert PagesOk(s);
  }

  class Slab {
    const first: nat
    const npages: nat
    /** zone_page_cnt, and zone_limit */
    const zp: nat
    const zoneLimit: nat
    const pages: PageList
    var usage: seq<Usage>
    var zones: Zones
    var zoneArray: seq<seq<nat>>
    var zoneFree: seq<nat>
    var usedMem: int
    var maxMem: int
    ghost var owner: Owners
    ghost var live: map<nat, nat>

    ghost function View(): State
      reads this, pages
    {
      State(first, npages, zp, pages.runs, usage, zones, zoneArray, zoneFree, usedMem, owner, live)
    }

    ghost predicate Valid()
      reads this, pages
    {
      Inv(View()) && zoneLimit == LimitOf(zp * PAGE)
    }

    /** rt_system_heap_init on a heap of n whole pages; `left` is what the memory of
        the memusage table happens to hold. */
    constructor (start: nat, n: nat, left: seq<Usage>)
      requires n > 0 && |left| == n
      ensures Valid() && fresh(pages) && first == start && npages == n
      ensures live == map[] && usedMem == 0 && maxMem == 0
      ensures n * PAGE / 1024 <= 65536 ==> zoneLimit == 8192
      ensures owner == FirstOwners(start, n, TableSize(n))
    {
      var size := PickZoneSize(n * PAGE);
      first, npages := start, n;
      zp, zoneLimit := size / PAGE, LimitOf(size);
      pages := new PageList();
      usage, zones, zoneArray, zoneFree := left, map[], seq(NZONES, _ => []), [];
      usedMem, maxMem := 0, 0;
      owner := FirstOwners(start, n, TableSize(n));
      live := map[];
      new;
      hide In, Canonical, TableSize, Room, Taken, Inv, LimitOf, FirstOwners;
      pages.Free(start, n);
      assert forall p :: In(pages.runs, p) <==> start <= p < start + n;
      TableFits(n);
      FrontRoom(pages.runs, start, n, TableSize(n));
      var table := pages.Alloc(TableSize(n));
      assert table == Some(start);
      Fresh(View(), TableSize(n));
    }

    /** The bytes a request is charged for. */
    function Granted(size: nat): nat {
      if size >= zoneLimit then RoundUp(size, PAGE) else ZoneIndex(size).0
    }

    /** A power of two from 8 on is granted exactly. */
    lemma PowerGranted(size: nat)
      requires Valid()
      ensures IsPow2(size) && size >= 8 ==> Granted(size) == size
    {
      hide PagesOk, BlocksOk, UsageOk, ZonesOk, ListsOk, LiveOk, Total, IsPow2, RoundUp, ZoneIndex;
      if IsPow2(size) && size >= 8 {
        if size >= zoneLimit { PowerPages(size); } else { PowerKept(size); }
      }
    }

    /** Nothing in the heap can serve this request. */
    ghost predicate Exhausted(s: State, size: nat) {
      if size >= zoneLimit then forall q :: !Room(s.runs, q, RoundUp(size, PAGE) / PAGE)
      else
        (forall z :: !Open(s.zones, ZoneIndex(size).1, z))
        && (forall z :: !Idle(s.zones, z))
        && (forall q :: !Room(s.runs, q, zp))
    }

    /** A chunk is refused only if every zone of its class is full: as many of its chunks
        are in use as fit into it. */
    lemma RefusalMeansFull(size: nat, z: nat)
      requires Valid() && 0 < size < zoneLimit && Exhausted(View(), size)
      requires z in zones && zones[z].magic && zones[z].index == ZoneIndex(size).1
      ensures var zone := zones[z];
              |LiveChunks(zone)| == zone.nmax && zone.chunk == ZoneIndex(size).0
              && zone.base + (zone.nmax + 1) * zone.chunk > (z + zp) * PAGE
    {
      hide PagesOk, BlocksOk, UsageOk, ListsOk, LiveOk, Total, ZoneIndex, Room;
      SmallestClass(size);
      ZoneOf(View(), z);
      assert !Open(zones, ZoneIndex(size).1, z);
      hide ZoneOk, LiveChunks;
      FullyFree(zones[z], z, zp);
      ZoneIsFilled(zones[z], z, zp);
    }

    /** The address is that of the lowest page from which the pages of the request fit. */
    ghost predicate LowestPages(s: State, size: nat, a: nat) {
      var n := RoundUp(size, PAGE) / PAGE;
      a % PAGE == 0 && Room(s.runs, a / PAGE, n) && forall q: nat :: Room(s.runs, q, n) ==> a / PAGE <= q
    }

    /** The outcome of a request in the view of its caller. */
    twostate predicate Served(size: nat, new r: Option<nat>)
      reads this, pages
    {
      match r
      case None => View() == old(View())
      case Some(a) =>
        Granted(size) >= size && a !in old(live) && live == old(live)[a := Granted(size)]
    }

    /** The chunk is the first zone's on the class's list: its next never-used one, or
        else the one last given back. No other zone and no page changes. */
    static ghost predicate FromList(s: State, s': State, zi: nat, a: nat) {
      zi < |s.zoneArray| && |s.zoneArray[zi]| > 0 && s'.runs == s.runs
      && var z := s.zoneArray[zi][0];
         z in s.zones && z in s'.zones && s'.zones == s.zones[z := s'.zones[z]]
         && var zone := s.zones[z];
            if zone.uindex + 1 != zone.nmax then a == zone.base + (zone.uindex + 1) * zone.chunk
            else |zone.freed| > 0 && a == zone.freed[0]
    }

    /** The chunk is the first of zone z, which was the first idle one, or with none idle
        is cut from the lowest pages with room. */
    static ghost predicate OpensZone(s: State, s': State, z: nat, a: nat) {
      z in s'.zones && s'.zones == s.zones[z := s'.zones[z]] && a == s'.zones[z].base
      && if |s.zoneFree| > 0 then z == s.zoneFree[0] && s'.runs == s.runs else IsLowest(s, z)
    }

    static ghost predicate IsLowest(s: State, z: nat) {
      z !in s.zones && Room(s.runs, z, s.zp) && forall q: nat :: Room(s.runs, q, s.zp) ==> z <= q
    }

    /** Where the chunk of a small request comes from. */
    static ghost predicate FromZone(s: State, s': State, size: nat, a: nat) {
      var zi := ZoneIndex(size).1;
      if 0 <= zi < |s.zoneArray| && |s.zoneArray[zi]| > 0 then FromList(s, s', zi, a)
      else exists z :: OpensZone(s, s', z, a)
    }

    /** The peak of the bytes in use. */
    twostate predicate Peaked()
      reads this
    {
      maxMem == if usedMem > old(maxMem) then usedMem else old(maxMem)
    }

    /** The statistics of a successful request. */
    method Charge(n: nat)
      modifies `usedMem, `maxMem
      ensures usedMem == old(usedMem) + n && Peaked()
    {
      usedMem := usedMem + n;
      if usedMem > maxMem {
        maxMem := usedMem;
      }
    }

    method MallocLarge(size: nat) returns (r: Option<nat>)
      requires Valid() && size >= zoneLimit
      modifies this, pages
      ensures Valid() && Served(size, r) && (r.None? <==> Exhausted(old(View()), size))
      ensures r.Some? ==> LowestPages(old(View()), size, r.value) && Peaked()
      ensures r.None? ==> maxMem == old(maxMem)
    {
      hide PagesOk, BlocksOk, UsageOk, ZonesOk, ListsOk, LiveOk, Canonical, In, Total, Room, RoundUp;
      ghost var s := View();
      var bytes := RoundUp(size, PAGE);
      Rounded(size, PAGE);
      assert zoneLimit > 0;
      var n := bytes / PAGE;
      assert Canonical(pages.runs) by { PagesCanonical(s); }
      var q := pages.Alloc(n);
      if q.None? {
        return None;
      }
      LargeTakenKeeps(s, q.value, n, pages.runs);
      usage := usage[q.value - first := Usage(LARGE, n)];
      Charge(bytes);
      owner := Recolored(owner, q.value, n, LargePage(q.value, n));
      live := live[q.value * PAGE := bytes];
      assert View() == LargeTaken(s, q.value, n, pages.runs);
      r := Some(q.value * PAGE);
    }

    /** A chunk from the first zone on the class's list. */
    method TakeChunk(zi: nat, ghost size: nat) returns (chunk: nat)
      requires Valid() && 0 < size < zoneLimit && zi == ZoneIndex(size).1 < NZONES && |zoneArray[zi]| > 0
      modifies this
      ensures Valid() && Served(size, Some(chunk)) && !Exhausted(old(View()), size)
      ensures FromList(old(View()), View(), zi, chunk) && Peaked()
    {
      hide PagesOk, BlocksOk, UsageOk, LiveOk, Canonical, In, Total, ZoneOk, LiveChunks, ListOk, FromList;
      ghost var s := View();
      var z := zoneArray[zi][0];
      ListHead(s, zi);
      var zone := zones[z];
      ZoneOf(s, z);
      NextChunkKeeps(zone, z, zp);
      var (zone', a) := NextChunk(zone);
      var rest := if zone'.nfree == 0 then zoneArray[zi][1..] else zoneArray[zi];
      RestOfList(s, zi, zone');
      ChunkTaken(s, z, zone', rest, a);
      SmallestClass(size);
      chunk := a;
      zones := zones[z := zone'];
      zoneArray := zoneArray[zi := rest];
      Charge(zone.chunk);
      live := live[a := zone.chunk];
      ListGives(s, View(), zi, a);
      assert View() == WithZone(s, z, zone', rest).(live := live, used := usedMem);
    }

    /** The header of a zone newly set up for chunks of this size. */
    function NewZone(z: nat, chunk: nat, zi: nat): Zone
      requires chunk > 0 && Capacity(zp * PAGE, chunk) > 0
    {
      var nmax := Capacity(zp * PAGE, chunk);
      Zone(true, nmax - 1, nmax, z * PAGE + Offset(chunk), 0, chunk, zi, [])
    }

    lemma NewZoneFresh(z: nat, size: nat)
      requires zp in {8, 16, 32} && zoneLimit == LimitOf(zp * PAGE) && 0 < size < zoneLimit
      ensures var (m, zi) := ZoneIndex(size);
              m >= size && 0 <= zi < NZONES && m > 0 && Capacity(zp * PAGE, m) >= 3
              && FreshZone(NewZone(z, m, zi), z, zp)
    {
      ThreeChunks(zp * PAGE, size);
      SmallestClass(size);
      hide Offset, Capacity, ZoneIndex, ChunkOf;
    }

    /** A zone off every list: the first idle zone, or else one cut from the pages.
        s1 is the state in which it still counts as idle. */
    method FindZone() returns (z: Option<nat>, ghost s1: State)
      requires Valid()
      modifies `zoneFree, `usage, `zones, `owner, pages
      ensures z.None? <==> old(zoneFree) == [] && forall q :: !Room(old(pages.runs), q, zp)
      ensures z.None? ==> View() == old(View())
      ensures z.Some? ==> Core(s1) && |s1.zoneFree| in {1, 2} && s1.zoneFree[0] == z.value
      ensures z.Some? ==> View() == s1.(zoneFree := s1.zoneFree[1..])
      ensures z.Some? ==> zones == old(zones) || zones == old(zones)[z.value := BLANK]
      ensures z.Some? && |old(zoneFree)| > 0 ==> z.value == old(zoneFree)[0] && pages.runs == old(pages.runs)
      ensures z.Some? && |old(zoneFree)| == 0 ==> IsLowest(old(View()), z.value)
    {
      hide PagesOk, BlocksOk, UsageOk, LiveOk, ListsOk, ZonesOk, Canonical, In, Total, Room, Marked, Recolored;
      ghost var s := View();
      s1 := s;
      if |zoneFree| > 0 {
        z := Some(zoneFree[0]);
        zoneFree := zoneFree[1..];
      } else {
        PagesCanonical(s);
        z := pages.Alloc(zp);
        if z.Some? {
          ZoneAddedKeeps(s, z.value, BLANK, pages.runs);
          FreeRangeOf(s, z.value);
          s1 := ZoneAdded(s, z.value, BLANK, pages.runs);
          MarkZone(z.value);
          zones := zones[z.value := BLANK];
          owner := Recolored(owner, z.value, zp, ZonePage(z.value));
          assert s1.zoneFree == [z.value] && s1.zoneFree[1..] == [];
        }
      }
    }

    lemma ListGives(s: State, s': State, zi: nat, a: nat)
      requires zi < |s.zoneArray| && |s.zoneArray[zi]| > 0 && s.zoneArray[zi][0] in s.zones && s'.runs == s.runs
      requires var z := s.zoneArray[zi][0];
               var zone := s.zones[z];
               zone.nfree > 0 && (zone.uindex + 1 == zone.nmax ==> |zone.freed| > 0)
               && s'.zones == s.zones[z := NextChunk(zone).0] && a == NextChunk(zone).1
      ensures FromList(s, s', zi, a)
    {
    }

    lemma OpensNew(s: State, s1: State, s': State, zone: Zone)
      requires |s1.zoneFree| > 0
      requires var z := s1.zoneFree[0];
               (s1.zones == s.zones || s1.zones == s.zones[z := BLANK]) && s'.zones == s1.zones[z := zone]
               && if |s.zoneFree| > 0 then z == s.zoneFree[0] && s'.runs == s.runs else IsLowest(s, z)
      ensures OpensZone(s, s', s1.zoneFree[0], zone.base)
    {
    }

    /** A new zone for the class, and its first chunk. */
    method OpenZone(size: nat) returns (chunk: Option<nat>)
      requires Valid() && 0 < size < zoneLimit && 0 <= ZoneIndex(size).1 < NZONES && zoneArray[ZoneIndex(size).1] == []
      modifies this, pages
      ensures Valid() && Served(size, chunk) && (chunk.None? <==> Exhausted(old(View()), size))
      ensures chunk.Some? ==> Peaked() && exists z :: OpensZone(old(View()), View(), z, chunk.value)
      ensures chunk.None? ==> maxMem == old(maxMem)
    {
      hide PagesOk, BlocksOk, UsageOk, LiveOk, ZonesOk, Canonical, In, Total, LiveChunks, ListOk,
        Room, ZoneIndex, Capacity, Offset, FreshZone, Open, OpensZone, IsLowest;
      ghost var s := View();
      var (m, zi) := ZoneIndex(size);
      NobodyHas(s, zi);
      ghost var s1;
      var found;
      found, s1 := FindZone();
      if found.None? {
        return None;
      }
      var z := found.value;
      NewZoneFresh(z, size);
      var zone := NewZone(z, m, zi);
      ZoneOpenedKeeps(s1, zone);
      zones := zones[z := zone];
      zoneArray := zoneArray[zi := [z] + zoneArray[zi]];
      Charge(m);
      live := live[zone.base := m];
      assert View() == ZoneOpened(s1, zone);
      chunk := Some(zone.base);
      OpensNew(s, s1, View(), zone);
    }

    /** The memusage entries of a new zone's pages. */
    method MarkZone(z: nat)
      requires first <= z && z + zp - first <= |usage|
      modifies `usage
      ensures usage == Marked(old(usage), z - first, zp)
    {
      var off := 0;
      while off < zp
        invariant 0 <= off <= zp && usage == Marked(old(usage), z - first, off)
      {
        usage := usage[z - first + off := Usage(SMALL, off)];
        off := off + 1;
      }
    }

    /** rt_malloc */
    method Malloc(size: nat) returns (r: Option<nat>)
      requires Valid()
      modifies this, pages
      ensures Valid() && (size > 0 ==> Served(size, r))
      ensures size == 0 ==> View() == old(View())
      ensures r.None? <==> size == 0 || Exhausted(old(View()), size)
      ensures r.Some? && size >= zoneLimit ==> LowestPages(old(View()), size, r.value)
      ensures r.Some? && size < zoneLimit ==> FromZone(old(View()), View(), size, r.value)
      ensures if r.Some? then Peaked() else maxMem == old(maxMem)
      ensures r.Some? && IsPow2(size) && size >= 8 ==> r.value in live && live[r.value] == size
    {
      PowerGranted(size);
      hide Inv, ZoneIndex, IsPow2, RoundUp;
      if size == 0 {
        return None;
      }
      if size >= zoneLimit {
        r := MallocLarge(size);
        return;
      }
      SmallestClass(size);
      var zi := ZoneIndex(size).1;
      if |zoneArray[zi]| > 0 {
        var chunk := TakeChunk(zi, size);
        r := Some(chunk);
      } else {
        r := OpenZone(size);
      }
    }

    method FreeLarge(q: nat)
      requires Valid() && q in owner && owner[q].LargePage? && owner[q].q == q && first <= q < first + |usage|
      requires usage[q - first].kind == LARGE
      modifies this, pages
      ensures Valid() && live == old(live) - {q * PAGE} && q * PAGE in old(live)
      ensures maxMem == old(maxMem)
    {
      hide PagesOk, BlocksOk, UsageOk, LiveOk, ListsOk, ZonesOk, Canonical, In, Total, Taken, Recolored;
      ghost var s := View();
      LargeBlock(s, q, owner[q].n);
      PagesCanonical(s);
      var size := usage[q - first].size;
      usage := usage[q - first := usage[q - first].(size := 0)];
      usedMem := usedMem - size * PAGE;
      pages.Free(q, size);
      LargeGivenKeeps(s, q, size, pages.runs);
      owner := Recolored(owner, q, size, FreePage);
      live := live - {q * PAGE};
      assert View() == LargeGiven(s, q, size, pages.runs);
    }

    /** Chunk a goes on its zone's free list, and the zone back on its class's list. */
    method GiveChunk(z: nat, a: nat)
      requires Valid() && z in zones && zones[z].magic && a in LiveChunks(zones[z])
      modifies `zones, `zoneArray, `usedMem, `live
      ensures Valid() && a in old(live) && live == old(live) - {a}
      ensures zones == old(zones)[z := Pushed(old(zones[z]), a)]
    {
      hide PagesOk, BlocksOk, UsageOk, LiveOk, Canonical, In, Total, ZoneOk, LiveChunks, ListOk;
      ghost var s := View();
      ZoneOf(s, z);
      var zone := zones[z];
      PushedKeeps(zone, z, zp, a);
      var zone' := Pushed(zone, a);
      var l := if zone.nfree == 0 then [z] + zoneArray[zone.index] else zoneArray[zone.index];
      ListAfterGive(s, z, zone');
      ChunkGiven(s, z, zone', l, a);
      zones := zones[z := zone'];
      zoneArray := zoneArray[zone.index := l];
      usedMem := usedMem - zone.chunk;
      live := live - {a};
      assert View() == WithZone(s, z, zone', l).(live := live, used := usedMem);
    }

    /** A fully free zone that is not the only one of its class moves to the idle
        zones; the third idle zone gives its pages back. */
    method RetireZone(z: nat)
      requires Valid() && z in zones && zones[z].magic && zones[z].nfree == zones[z].nmax
      modifies `zones, `zoneArray, `zoneFree, `usage, `owner, pages
      ensures Valid()
      ensures z in zones <==> |old(zoneFree)| < ZONE_RELEASE_THRESH
      ensures z in zones ==> !zones[z].magic
    {
      hide PagesOk, BlocksOk, UsageOk, LiveOk, Canonical, In, Total, ZoneOk, LiveChunks, ListOk, ZonesOk, Open;
      ghost var s := View();
      ZoneOf(s, z);
      var i := zones[z].index;
      OnItsList(s, z);
      var k := 0;
      while zoneArray[i][k] != z
        invariant 0 <= k < |zoneArray[i]| && z !in zoneArray[i][..k] && z in zoneArray[i]
        decreases |zoneArray[i]| - k
      {
        k := k + 1;
      }
      ZoneRetiredKeeps(s, i, k);
      zoneArray := zoneArray[i := Dropped(zoneArray[i], k)];
      zones := zones[z := zones[z].(magic := false)];
      zoneFree := [z] + zoneFree;
      assert View() == ZoneRetired(s, i, k);
      if |zoneFree| > ZONE_RELEASE_THRESH {
        ReleaseZone();
      }
    }

    method ReleaseZone()
      requires Core(View()) && zp in {8, 16, 32} && zoneLimit == LimitOf(zp * PAGE) && |zoneFree| == 3
      modifies `zones, `zoneFree, `usage, `owner, pages
      ensures Valid() && zones == old(zones) - {old(zoneFree[0])}
    {
      hide PagesOk, BlocksOk, UsageOk, LiveOk, Canonical, In, Total, ListsOk, ZonesOk, Taken, Cleared, Recolored;
      ghost var s := View();
      var z := zoneFree[0];
      IdleHead(s);
      ZonePlace(s, z);
      PagesCanonical(s);
      zoneFree := zoneFree[1..];
      ClearZone(z);
      zones := zones - {z};
      owner := Recolored(owner, z, zp, FreePage);
      pages.Free(z, zp);
      ZoneReleasedKeeps(s, pages.runs);
      assert View() == ZoneReleased(s, pages.runs);
    }

    method ClearZone(z: nat)
      requires first <= z && z + zp - first <= |usage|
      modifies `usage
      ensures usage == Cleared(old(usage), z - first, zp)
    {
      var i := 0;
      while i < zp
        invariant 0 <= i <= zp && usage == Cleared(old(usage), z - first, i)
      {
        usage := usage[z - first + i := Usage(0, 0)];
        i := i + 1;
      }
    }

    /** rt_free */
    method Free(ptr: Option<nat>)
      requires Valid() && (ptr.Some? ==> ptr.value in live)
      modifies this, pages
      ensures Valid() && maxMem == old(maxMem)
      ensures live == if ptr.Some? then old(live) - {ptr.value} else old(live)
      ensures ptr.None? ==> View() == old(View())
      ensures ptr.Some? ==> RetiredExactly(old(View()), zones, ptr.value)
    {
      hide PagesOk, BlocksOk, UsageOk, LiveOk, Canonical, In, Total, ListsOk, ZonesOk, LiveChunks;
      if ptr.None? {
        return;
      }
      var a := ptr.value;
      ghost var s := View();
      Lookup(s, a);
      OneZone(s, a);
      var kup := usage[a / PAGE - first];
      if kup.kind == LARGE {
        FreeLarge(a / PAGE);
        return;
      }
      var z := a / PAGE - kup.size;
      GiveChunk(z, a);
      HasPlace(View(), z);
      var l := zoneArray[zones[z].index];
      Company(s, View(), z);
      if zones[z].nfree == zones[z].nmax && (l[|l| - 1] != z || l[0] != z) {
        RetireZone(z);
      }
    }
  }

  lemma PagesCanonical(s: State)
    requires PagesOk(s)
    ensures Canonical(s.runs)
  {
  }

  lemma ListHead(s: State, zi: nat)
    requires ListsOk(s) && zi < NZONES && |s.zoneArray[zi]| > 0
    ensures Open(s.zones, zi, s.zoneArray[zi][0])
  {
    assert ListOk(s.zoneArray[zi], s.zones, zi);
  }

  lemma ZoneOf(s: State, z: nat)
    requires ZonesOk(s) && z in s.zones
    ensures ZoneOk(s.zones[z], z, s.zp)
  {
  }

  /** An empty list means that no zone of the class has a chunk to give, and the
      idle list is empty exactly when no zone is idle. */
  lemma NobodyHas(s: State, zi: nat)
    requires ListsOk(s) && zi < NZONES && s.zoneArray[zi] == []
    ensures forall z :: !Open(s.zones, zi, z)
    ensures s.zoneFree == [] <==> forall z :: !Idle(s.zones, z)
  {
    assert ListOk(s.zoneArray[zi], s.zones, zi);
    if |s.zoneFree| > 0 { assert Idle(s.zones, s.zoneFree[0]); }
  }

  /** The class's list after its first zone gave a chunk. */
  lemma RestOfList(s: State, zi: nat, zone': Zone)
    requires ListsOk(s) && zi < NZONES && |s.zoneArray[zi]| > 0 && zone'.magic && zone'.index == zi
    ensures var l := s.zoneArray[zi];
            ListOk(if zone'.nfree == 0 then l[1..] else l, s.zones[l[0] := zone'], zi)
  {
    var l := s.zoneArray[zi];
    assert ListOk(l, s.zones, zi);
    assert Open(s.zones, zi, l[0]);
    PopDistinct(l);
    var zones' := s.zones[l[0] := zone'];
    forall w ensures Open(zones', zi, w) <==> (if w == l[0] then zone'.nfree > 0 else Open(s.zones, zi, w)) { }
  }

  lemma FreeRangeOf(s: State, z: nat)
    requires Core(s) && s.zp > 0 && Room(s.runs, z, s.zp)
    ensures s.first <= z && z + s.zp - s.first <= |s.usage|
  {
    hide Canonical, In, Room, BlocksOk, ListsOk, LiveOk, ZonesOk;
    FreeRange(s, z, s.zp);
  }

  lemma OnItsList(s: State, z: nat)
    requires ListsOk(s) && z in s.zones && s.zones[z].magic && s.zones[z].nfree > 0 && s.zones[z].index < NZONES
    ensures z in s.zoneArray[s.zones[z].index]
  {
    var i := s.zones[z].index;
    assert ListOk(s.zoneArray[i], s.zones, i);
    assert Open(s.zones, i, z);
  }

  lemma HasPlace(s: State, z: nat)
    requires Inv(s) && z in s.zones && s.zones[z].magic && s.zones[z].nfree > 0
    ensures s.zones[z].index < NZONES == |s.zoneArray| && z in s.zoneArray[s.zones[z].index]
  {
    hide PagesOk, BlocksOk, UsageOk, LiveOk, Total, ZoneOk;
    ZoneOf(s, z);
    OnItsList(s, z);
  }

  /** A chunk coming back leaves its zone fully free, and the class has another zone
      to allocate from. */
  ghost predicate Retires(s: State, z: nat) {
    z in s.zones && s.zones[z].nfree + 1 == s.zones[z].nmax
    && exists w :: w != z && Open(s.zones, s.zones[z].index, w)
  }

  /** The zone that held a closes if, and only if, it can be spared. */
  ghost predicate RetiredExactly(s: State, zones': Zones, a: nat) {
    forall z | z in s.zones && s.zones[z].magic && a in LiveChunks(s.zones[z]) ::
      Retires(s, z) <==> z !in zones' || !zones'[z].magic
  }

  /** The page of a block in use names its zone. */
  lemma OneZone(s: State, a: nat)
    requires Inv(s) && a / PAGE in s.owner
    ensures forall w :: w in s.zones && s.zones[w].magic && a in LiveChunks(s.zones[w]) ==>
              s.owner[a / PAGE] == ZonePage(w)
  {
    hide PagesOk, UsageOk, LiveOk, ListsOk, Total, ZoneOk, LiveChunks, OwnedWhole;
    forall w | w in s.zones && s.zones[w].magic && a in LiveChunks(s.zones[w])
      ensures s.owner[a / PAGE] == ZonePage(w)
    {
      LivePage(s.zones[w], w, s.zp, a);
      assert ZoneWhole(s.owner, s.zp, w);
    }
  }

  /** The test on z_next and the list head: is the zone alone on its list? */
  lemma Company(s: State, s': State, z: nat)
    requires Inv(s') && z in s.zones && z in s'.zones && s'.zones[z].magic && s.zones[z].index == s'.zones[z].index
    requires s'.zones[z].nfree == s.zones[z].nfree + 1 && s'.zones[z].nmax == s.zones[z].nmax
    requires s'.zones == s.zones[z := s'.zones[z]]
    requires s'.zones[z].index < NZONES == |s'.zoneArray| && z in s'.zoneArray[s'.zones[z].index]
    ensures var l := s'.zoneArray[s'.zones[z].index];
            Retires(s, z) <==> s'.zones[z].nfree == s'.zones[z].nmax && (l[|l| - 1] != z || l[0] != z)
  {
    hide PagesOk, BlocksOk, UsageOk, LiveOk, ZonesOk, Total;
    var i := s'.zones[z].index;
    var l := s'.zoneArray[i];
    assert ListOk(l, s'.zones, i);
    forall w | w != z ensures Open(s.zones, i, w) <==> Open(s'.zones, i, w) { }
    if l[0] == z && l[|l| - 1] == z {
      assert |l| == 1;
    } else {
      var w := if l[0] != z then l[0] else l[|l| - 1];
      assert Open(s.zones, i, w);
    }
  }

  /** The class's list after zone z got a chunk back. */
  lemma ListAfterGive(s: State, z: nat, zone': Zone)
    requires ListsOk(s) && z in s.zones && s.zones[z].magic && zone'.magic && zone'.nfree > 0
    requires zone'.index == s.zones[z].index < NZONES
    ensures var l := s.zoneArray[zone'.index];
            ListOk(if s.zones[z].nfree == 0 then [z] + l else l, s.zones[z := zone'], zone'.index)
  {
    var i, zones' := zone'.index, s.zones[z := zone'];
    assert ListOk(s.zoneArray[i], s.zones, i);
    assert Open(s.zones, i, z) <==> s.zones[z].nfree > 0;
    forall w ensures Open(zones', i, w) <==> w == z || Open(s.zones, i, w) { }
  }

  /** The promise that every power-of-two block is aligned to its size fails on every
      heap of 3 to 1024 pages whose first page number is 2: the first page free is page
      3, and a request of 8192 bytes gets it. */
  method MisalignedRequest(n: nat, left: seq<Usage>) returns (r: Option<nat>)
    requires 3 <= n <= 1024 && |left| == n
    ensures r == Some(3 * PAGE) && IsPow2(8192) && r.value % 8192 != 0
  {
    hide Inv, Room, In, RoundUp, FirstOwners, TableSize, IsPow2, Slab.Served;
    var heap := new Slab(2, n, left);
    ghost var s := heap.View();
    FirstFree(s, n);
    r := heap.Malloc(8192);
    assert IsPow2(8192) by { BigPower(); }
  }

  lemma BigPower()
    ensures IsPow2(8192)
  {
    assert IsPow2(4096);
  }

  lemma FirstFree(s: State, n: nat)
    requires Inv(s) && 3 <= n <= 1024 && s.owner == FirstOwners(2, n, TableSize(n))
    ensures RoundUp(8192, PAGE) / PAGE == 2 && Room(s.runs, 3, 2)
    ensures forall q: nat :: Room(s.runs, q, 2) ==> q >= 3
  {
    hide Canonical, In, BlocksOk, UsageOk, ZonesOk, ListsOk, LiveOk, Total;
    assert TableSize(n) == 1;
    forall p | 3 <= p < 5 ensures In(s.runs, p) { assert p in s.owner && s.owner[p] == FreePage; }
    forall q: nat | Room(s.runs, q, 2) ensures q >= 3 {
      assert In(s.runs, q);
      assert s.owner[q] == FreePage;
    }
  }
}
