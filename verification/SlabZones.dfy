/** Size classes and zone geometry of the slab heap (slab.c, zoneindex and the
    sizing done by rt_system_heap_init and by the creation of a zone). */
module SlabZones {
  import opened Basics

  const PAGE: nat := 4096            // RT_MM_PAGE_SIZE
  const NZONES: nat := 72
  const ZONE_LIMIT: nat := 16384     // ZALLOC_ZONE_LIMIT
  const MIN_ZONE: nat := 32768       // ZALLOC_MIN_ZONE_SIZE
  const MAX_ZONE: nat := 131072      // ZALLOC_MAX_ZONE_SIZE
  const HEADER: nat := 36            // sizeof(slab_zone)

  /** n rounded up to a multiple of m, as (n + m - 1) & ~(m - 1) does for powers of two. */
  function RoundUp(n: nat, m: nat): nat
    requires m > 0
  {
    (n + m - 1) / m * m
  }

  const STEPS: set<nat> := {8, 16, 32, 64, 128, 256, 512, 1024}

  lemma Rounded(n: nat, g: nat)
    requires g > 0
    ensures n <= RoundUp(n, g) < n + g && RoundUp(n, g) / g * g == RoundUp(n, g)
  {
    var x := n + g - 1;
    var q := x / g;
    assert x == q * g + x % g;
    ExactQuotient(q, g);
  }

  lemma ExactQuotient(q: nat, g: nat)
    requires g > 0
    ensures q * g / g == q
  {
    var k := q * g / g;
    SameMultiple(q, k, g, q * g % g);
  }

  lemma SameMultiple(a: nat, b: nat, g: nat, r: nat)
    requires r < g && a * g == b * g + r
    ensures a == b
  {
    if a > b { Spread(a, b, g); }
    if b > a { Spread(b, a, g); }
  }

  // ------------------------------------------------------------ size classes

  /** The chunk size of each of the 72 classes. */
  function ChunkOf(i: nat): (c: nat)
    requires i < NZONES
    ensures 8 <= c <= ZONE_LIMIT && c % 8 == 0
  {
    if i < 16 then (i + 1) * 8
    else if i < 24 then (i - 7) * 16
    else if i < 32 then (i - 15) * 32
    else if i < 40 then (i - 23) * 64
    else if i < 48 then (i - 31) * 128
    else if i < 56 then (i - 39) * 256
    else if i < 64 then (i - 47) * 512
    else (i - 55) * 1024
  }

  lemma ChunkGrows(i: nat, j: nat)
    requires i < j < NZONES
    ensures ChunkOf(i) < ChunkOf(j)
  {
  }

  /** The rounding step and the class offset of a request size. */
  function Band(n: nat): (r: (nat, int))
    ensures r.0 in STEPS
  {
    if n < 128 then (8, -1)
    else if n < 256 then (16, 7)
    else if n < 8192 then
      if n < 512 then (32, 15)
      else if n < 1024 then (64, 23)
      else if n < 2048 then (128, 31)
      else if n < 4096 then (256, 39)
      else (512, 47)
    else (1024, 55)
  }

  /** zoneindex: the rounded size and the class. */
  function ZoneIndex(n: nat): (r: (nat, int)) {
    if n < 16384 then
      var (g, k) := Band(n);
      var m := RoundUp(n, g);
      (m, m / g + k)
    else (n, 0)
  }

  lemma ClassOfBand(n: nat, q: nat)
    requires 0 < n < ZONE_LIMIT && var g := Band(n).0; n <= q * g < n + g
    ensures var (g, k) := Band(n);
            0 <= q + k < NZONES && q * g == ChunkOf(q + k) && (q + k > 0 ==> ChunkOf(q + k - 1) < n)
  {
  }

  /** A request below the largest zone limit gets the smallest class that holds it. */
  lemma SmallestClass(n: nat)
    requires 0 < n < ZONE_LIMIT
    ensures var (m, i) := ZoneIndex(n);
            0 <= i < NZONES && m == ChunkOf(i) && m >= n && forall j :: 0 <= j < i ==> ChunkOf(j) < n
  {
    hide ChunkOf, Band, RoundUp;
    var (g, k) := Band(n);
    Rounded(n, g);
    var q := RoundUp(n, g) / g;
    ClassOfBand(n, q);
    forall j | 0 <= j < q + k ensures ChunkOf(j) < n {
      if j < q + k - 1 { ChunkGrows(j, q + k - 1); }
    }
  }

  /** The class of a chunk size is the class it came from, so a rounded size stays. */
  lemma ClassRoundTrip(i: nat)
    requires i < NZONES && ChunkOf(i) < ZONE_LIMIT
    ensures ZoneIndex(ChunkOf(i)) == (ChunkOf(i), i)
  {
    hide ZoneIndex, ChunkOf;
    var c := ChunkOf(i);
    SmallestClass(c);
    var (m, j) := ZoneIndex(c);
    if j < i { ChunkGrows(j, i); }
    assert !(i < j);
  }

  /** No request wastes more than seven bytes or an eighth of its size. */
  lemma Waste(n: nat)
    requires 0 < n < ZONE_LIMIT
    ensures ZoneIndex(n).0 - n < 8 || 8 * (ZoneIndex(n).0 - n) < n
  {
    hide RoundUp;
    Rounded(n, Band(n).0);
  }

  // ---------------------------------------------------------- zone geometry

  function IsPow2(n: nat): bool {
    n == 1 || (n > 1 && n % 2 == 0 && IsPow2(n / 2))
  }

  /** A power of two from 8 on is its own class size. */
  lemma PowerKept(n: nat)
    requires IsPow2(n) && 8 <= n < ZONE_LIMIT
    ensures ZoneIndex(n).0 == n
  {
    hide ZoneIndex, ChunkOf;
    assert n in {8, 16, 32, 64, 128, 256, 512, 1024, 2048, 4096, 8192} by { PowersBelow(n); }
    hide IsPow2;
    assert ChunkOf(PowerClass(n)) == n by { PowerChunk(n); }
    ClassRoundTrip(PowerClass(n));
  }

  lemma {:induction false} PowersBelow(n: nat)
    requires IsPow2(n) && 8 <= n < ZONE_LIMIT
    ensures n in {8, 16, 32, 64, 128, 256, 512, 1024, 2048, 4096, 8192}
    decreases n
  {
    assert n == 1 || n == 2 * (n / 2);
    if n >= 16 {
      PowersBelow(n / 2);
    } else {
      assert IsPow2(n / 2) && IsPow2(n / 2 / 2);
    }
  }

  function PowerClass(n: nat): (i: nat)
    requires n in {8, 16, 32, 64, 128, 256, 512, 1024, 2048, 4096, 8192}
    ensures i < NZONES
  {
    if n <= 128 then n / 8 - 1
    else if n == 256 then 23
    else if n == 512 then 31
    else if n == 1024 then 39
    else if n == 2048 then 47
    else if n == 4096 then 55
    else 63
  }

  lemma PowerChunk(n: nat)
    requires n in {8, 16, 32, 64, 128, 256, 512, 1024, 2048, 4096, 8192}
    ensures ChunkOf(PowerClass(n)) == n
  {
  }

  /** One of at least a page is a number of whole pages. */
  lemma PowerPages(n: nat)
    requires IsPow2(n) && n >= PAGE
    ensures RoundUp(n, PAGE) == n
  {
    hide IsPow2;
    WholePages(n);
  }

  lemma {:induction false} WholePages(n: nat)
    requires IsPow2(n) && n >= PAGE
    ensures n % PAGE == 0
    decreases n
  {
    assert n == 2 * (n / 2);
    if n >= 2 * PAGE {
      WholePages(n / 2);
      assert n == 2 * (n / 2 / PAGE) * PAGE;
    } else {
      PowersBelow(n);
    }
  }

  /** Where the chunk array starts in a zone of this chunk size. */
  function Offset(chunk: nat): nat
    requires chunk > 0
  {
    if IsPow2(chunk) then RoundUp(HEADER, chunk) else RoundUp(HEADER, 8)
  }

  lemma {:induction false} PowerIs(n: nat)
    requires IsPow2(n)
    ensures n in {1, 2, 4, 8, 16, 32} || n >= 64
    decreases n
  {
    if n > 1 {
      PowerIs(n / 2);
      assert n == 2 * (n / 2);
    }
  }

  lemma PowerOffset(chunk: nat)
    requires chunk in {1, 2, 4, 8, 16, 32} || chunk >= 64
    ensures var off := RoundUp(HEADER, chunk);
            off == (if chunk >= 64 then chunk else if chunk == 32 then 64 else if chunk == 16 then 48
                    else if chunk == 8 then 40 else 36)
  {
    if chunk >= 64 {
      assert (HEADER + chunk - 1) / chunk == 1;
    }
  }

  /** The chunks start behind the zone header, on the first multiple of their size if that
      is a power of two and of 8 otherwise. */
  lemma OffsetShape(chunk: nat)
    requires chunk > 0 && chunk % 8 == 0
    ensures var off := Offset(chunk);
            HEADER <= off && (off <= 64 || off == chunk) && off % 8 == 0 && (IsPow2(chunk) ==> off % chunk == 0)
            && off < HEADER + if IsPow2(chunk) then chunk else 8
  {
    if IsPow2(chunk) {
      PowerIs(chunk);
      PowerOffset(chunk);
    }
  }

  /** How many chunks fit behind the header. */
  function Capacity(zoneSize: nat, chunk: nat): nat
    requires chunk > 0
  {
    Chunks(zoneSize - Offset(chunk), chunk)
  }

  function Chunks(room: int, chunk: nat): nat
    requires chunk > 0
  {
    if room < 0 then 0 else room / chunk
  }

  lemma Fit(room: nat, chunk: nat)
    requires chunk > 0
    ensures room / chunk * chunk <= room < (room / chunk + 1) * chunk && (room >= 3 * chunk ==> room / chunk >= 3)
  {
    var k := room / chunk;
    assert room == k * chunk + room % chunk;
    if k < 3 && room >= 3 * chunk {
      assert false;
    }
  }

  /** One more chunk would not fit. */
  lemma NoneLeft(zoneSize: nat, chunk: nat)
    requires chunk > 0
    ensures Offset(chunk) + (Capacity(zoneSize, chunk) + 1) * chunk > zoneSize
  {
    hide Offset;
    if zoneSize >= Offset(chunk) { Fit(zoneSize - Offset(chunk), chunk); }
  }

  /** The zone limit that goes with a zone size. */
  function LimitOf(zoneSize: nat): nat {
    if zoneSize / 4 > ZONE_LIMIT then ZONE_LIMIT else zoneSize / 4
  }

  /** Every zone holds at least three chunks, all of them inside the zone, and as many as
      fit. */
  lemma ThreeChunks(zoneSize: nat, n: nat)
    requires zoneSize in {32768, 65536, 131072} && 0 < n < LimitOf(zoneSize)
    ensures var c := ZoneIndex(n).0;
            c > 0 && Offset(c) <= zoneSize && Capacity(zoneSize, c) >= 3
            && Offset(c) + Capacity(zoneSize, c) * c <= zoneSize < Offset(c) + (Capacity(zoneSize, c) + 1) * c
  {
    hide Offset, ZoneIndex, ChunkOf;
    SmallestClass(n);
    var (c, i) := ZoneIndex(n);
    ClassBelow(zoneSize, n);
    OffsetShape(c);
    Fit(zoneSize - Offset(c), c);
    NoneLeft(zoneSize, c);
  }

  lemma ClassBelow(zoneSize: nat, n: nat)
    requires zoneSize in {32768, 65536, 131072} && 0 < n < LimitOf(zoneSize)
    ensures ZoneIndex(n).0 <= LimitOf(zoneSize)
  {
    hide RoundUp;
    var (g, k) := Band(n);
    Rounded(n, g);
    var q := RoundUp(n, g) / g;
    ClassOfBand(n, q);
  }

  /** The zone size chosen for a heap of this many bytes. */
  method PickZoneSize(limsize: nat) returns (zoneSize: nat)
    ensures zoneSize in {32768, 65536, 131072}
    ensures zoneSize == 32768 <==> limsize / 1024 <= 65536
    ensures zoneSize == 131072 <==> limsize / 1024 > 131072
  {
    zoneSize := MIN_ZONE;
    while zoneSize < MAX_ZONE && zoneSize * 2 < limsize / 1024
      invariant zoneSize in {32768, 65536, 131072}
      invariant zoneSize > 32768 ==> zoneSize < limsize / 1024
      decreases MAX_ZONE - zoneSize
    {
      zoneSize := zoneSize * 2;
    }
  }
}
