/** What the slab heap keeps true (slab.c): who owns each page, the zones and their
    chunks, the lists of zones, and the blocks handed out. */
module SlabState {
  import opened Basics
  import opened SlabPages
  import opened SlabZones

  const SMALL: nat := 1
  const LARGE: nat := 2

  /** A memusage entry. */
  datatype Usage = Usage(kind: nat, size: nat)

  /** The header of a zone: `magic` says that z_magic is set, `freed` is the z_freechunk
      list. */
  datatype Zone = Zone(magic: bool, nfree: nat, nmax: nat, base: nat, uindex: nat,
                       chunk: nat, index: nat, freed: seq<nat>)

  datatype Owner = FreePage | TablePage | ZonePage(z: nat) | LargePage(q: nat, n: nat)

  type Owners = map<nat, Owner>

  type Zones = map<nat, Zone>

  /** first, npages and zp fix the heap: its first page, its size and the pages of a
      zone. owner and live are the abstract view: whose each page is, and the blocks
      handed out with the bytes each counts for. */
  datatype State = State(first: nat, npages: nat, zp: nat, runs: seq<Run>, usage: seq<Usage>,
                         zones: Zones, zoneArray: seq<seq<nat>>, zoneFree: seq<nat>,
                         used: int, owner: Owners, live: map<nat, nat>)

  // ------------------------------------------------------------------ chunks

  function ChunkAt(zone: Zone, i: int): int {
    zone.base + i * zone.chunk
  }

  /** The chunks of a zone that have been handed out at some time. */
  ghost function Carved(zone: Zone): set<int> {
    set i | 0 <= i <= zone.uindex :: ChunkAt(zone, i)
  }

  ghost function IntsOf(s: seq<nat>): set<int> {
    set a: int | a in s
  }

  ghost function LiveChunks(zone: Zone): set<int> {
    Carved(zone) - IntsOf(zone.freed)
  }

  ghost predicate ZoneOk(zone: Zone, z: nat, zp: nat) {
    zone.magic ==>
      zone.index < NZONES && zone.chunk == ChunkOf(zone.index)
      && zone.base == z * PAGE + Offset(zone.chunk) && zone.nmax == Capacity(zp * PAGE, zone.chunk)
      && zone.nmax >= 3 && zone.base + zone.nmax * zone.chunk <= (z + zp) * PAGE
      && zone.uindex < zone.nmax
      && Distinct(zone.freed) && (forall a :: a in zone.freed ==> a in Carved(zone))
      && zone.nfree == zone.nmax - 1 - zone.uindex + |zone.freed|
  }

  // ------------------------------------------------------------------- pages

  ghost predicate PagesOk(s: State) {
    Canonical(s.runs)
    && (forall p :: p in s.owner <==> s.first <= p < s.first + s.npages)
    && (forall p :: In(s.runs, p) <==> p in s.owner && s.owner[p] == FreePage)
  }

  /** Page p belongs to the zone or large block its owner names, and so do all the
      pages of that zone or block. */
  ghost predicate OwnedWhole(owner: Owners, zones: Zones, zp: nat, p: nat) {
    p in owner &&
    match owner[p]
    case ZonePage(z) => z in zones && z <= p < z + zp
    case LargePage(q, n) => q <= p < q + n && forall r :: q <= r < q + n ==> r in owner && owner[r] == owner[p]
    case _ => true
  }

  ghost predicate ZoneWhole(owner: Owners, zp: nat, z: nat) {
    forall p :: z <= p < z + zp ==> p in owner && owner[p] == ZonePage(z)
  }

  ghost predicate BlocksOk(s: State) {
    (forall p :: p in s.owner ==> OwnedWhole(s.owner, s.zones, s.zp, p))
    && (forall z :: z in s.zones ==> ZoneWhole(s.owner, s.zp, z))
  }

  /** The memusage entries that rt_free relies on. */
  ghost predicate Recorded(s: State, p: nat) {
    p in s.owner && s.first <= p < s.first + |s.usage| &&
    match s.owner[p]
    case ZonePage(z) => z <= p && s.usage[p - s.first] == Usage(SMALL, p - z)
    case LargePage(q, n) => p == q ==> s.usage[p - s.first] == Usage(LARGE, n)
    case _ => true
  }

  ghost predicate UsageOk(s: State) {
    |s.usage| == s.npages && forall p :: p in s.owner ==> Recorded(s, p)
  }

  // ------------------------------------------------------------------- lists

  /** The zones of class i with a chunk to give. */
  predicate Open(zones: Zones, i: int, z: nat) {
    z in zones && zones[z].magic && zones[z].index == i && zones[z].nfree > 0
  }

  predicate Idle(zones: Zones, z: nat) {
    z in zones && !zones[z].magic
  }

  ghost predicate ListOk(l: seq<nat>, zones: Zones, i: nat) {
    Distinct(l) && forall z :: z in l <==> Open(zones, i, z)
  }

  ghost predicate ListsOk(s: State) {
    |s.zoneArray| == NZONES
    && (forall i :: 0 <= i < NZONES ==> ListOk(s.zoneArray[i], s.zones, i))
    && Distinct(s.zoneFree) && (forall z :: z in s.zoneFree <==> Idle(s.zones, z))
  }

  // -------------------------------------------------------------------- live

  /** Address a is a block in use, judged by the owner of its page. */
  ghost predicate IsLive(owner: Owners, zones: Zones, a: nat) {
    a / PAGE in owner &&
    match owner[a / PAGE]
    case ZonePage(z) => z in zones && zones[z].magic && a in LiveChunks(zones[z])
    case LargePage(q, n) => a == q * PAGE
    case _ => false
  }

  ghost function SizeAt(owner: Owners, zones: Zones, a: nat): nat
    requires IsLive(owner, zones, a)
  {
    match owner[a / PAGE]
    case ZonePage(z) => zones[z].chunk
    case LargePage(q, n) => n * PAGE
  }

  ghost predicate LiveOk(s: State) {
    forall a :: (a in s.live <==> IsLive(s.owner, s.zones, a))
             && (a in s.live ==> s.live[a] == SizeAt(s.owner, s.zones, a))
  }

  ghost predicate ZonesOk(s: State) {
    forall z :: z in s.zones ==> ZoneOk(s.zones[z], z, s.zp)
  }

  ghost predicate Core(s: State) {
    PagesOk(s) && BlocksOk(s) && UsageOk(s) && ZonesOk(s) && ListsOk(s) && LiveOk(s)
    && s.used == Total(s.live)
  }

  ghost predicate Inv(s: State) {
    s.zp in {8, 16, 32} && Core(s) && |s.zoneFree| <= 2
  }

  // ------------------------------------------------------------------- total

  ghost function Total(m: map<nat, nat>): nat
    decreases m.Keys
  {
    if m.Keys == {} then 0 else
      var k :| k in m.Keys;
      m[k] + Total(m - {k})
  }

  lemma TotalSome(m: map<nat, nat>) returns (j: nat)
    requires m.Keys != {}
    ensures j in m && Total(m) == m[j] + Total(m - {j})
  {
    j :| j in m.Keys && Total(m) == m[j] + Total(m - {j});
  }

  lemma {:induction false} TotalPick(m: map<nat, nat>, k: nat)
    requires k in m
    ensures Total(m) == m[k] + Total(m - {k})
    decreases m.Keys
  {
    hide Total;
    var j := TotalSome(m);
    if j != k {
      TotalPick(m - {j}, k);
      TotalPick(m - {k}, j);
      assert m - {j} - {k} == m - {k} - {j};
    }
  }

  lemma TotalAdd(m: map<nat, nat>, k: nat, v: nat)
    requires k !in m
    ensures Total(m[k := v]) == Total(m) + v
  {
    TotalPick(m[k := v], k);
    assert m[k := v] - {k} == m;
  }
}
