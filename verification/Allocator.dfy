/** IPv4 prefixes as section 3.1 of RFC 4632 writes them: an address and a length, with
    the address possibly carrying host bits. Addresses are 32-bit. */
module Prefixes {

  const LIMIT: nat := 0x1_0000_0000

  type Addr = a: nat | a < LIMIT
  type Bits = b: nat | b <= 32

  datatype Prefix = Prefix(addr: Addr, bits: Bits)

  /** Round down to a multiple of `s`. */
  function Floor(a: nat, s: nat): (r: nat)
    requires s > 0
    ensures r <= a < r + s
  {
    if a < s then 0 else s + Floor(a - s, s)
  }

  function Pow2(n: nat): (r: nat)
    ensures r > 0
  {
    if n == 0 then 1 else 2 * Pow2(n - 1)
  }

  /** How many addresses a prefix of this length covers. */
  function Size(bits: Bits): (r: nat)
    ensures r > 0
  {
    Pow2(32 - bits)
  }

  function Base(p: Prefix): Addr { Floor(p.addr, Size(p.bits)) }

  function Masked(p: Prefix): Prefix { Prefix(Base(p), p.bits) }

  /** netip.Prefix.Contains: the leading bits agree. */
  predicate Contains(p: Prefix, a: Addr) { Floor(a, Size(p.bits)) == Base(p) }

  predicate Overlap(a: Prefix, b: Prefix) { Contains(a, b.addr) || Contains(b, a.addr) }

  /** lastAddr: the host bits all set. */
  function LastAddr(p: Prefix): (r: Addr)
    ensures p.addr <= r
  {
    BlockFits(p);
    Base(p) + Size(p.bits) - 1
  }

  /** addUint32: 32-bit addition that reports its wrap-around. */
  function AddUint32(a: Addr, delta: Addr): (r: (Addr, bool))
    ensures r.1 <==> a + delta >= LIMIT
    ensures !r.1 ==> r.0 == a + delta
  {
    var sum := (a + delta) % LIMIT;
    (sum, sum < a)
  }

  // ---------------------------------------------------------------- arithmetic

  lemma {:induction false} FloorSame(a: nat, b: nat, s: nat)
    requires s > 0
    ensures Floor(a, s) == Floor(b, s) <==> Floor(b, s) <= a < Floor(b, s) + s
    decreases b
  {
    if s <= a && s <= b { FloorSame(a - s, b - s, s); }
  }

  lemma {:induction false} FloorFits(a: nat, s: nat, k: nat)
    requires s > 0 && a < s * k
    ensures Floor(a, s) + s <= s * k
    decreases k
  {
    assert k > 0;
    assert s * k == s * (k - 1) + s;
    if s <= a { FloorFits(a - s, s, k - 1); } else { assert s * (k - 1) >= 0; }
  }

  lemma {:induction false} FloorShift(a: nat, s: nat, k: nat)
    requires s > 0
    ensures Floor(a + s * k, s) == Floor(a, s) + s * k
    decreases k
  {
    if k > 0 {
      assert s * k == s * (k - 1) + s;
      FloorShift(a, s, k - 1);
    }
  }

  /** Rounding down to `s` first does not change rounding down to a multiple of `s`. */
  lemma {:induction false} FloorNest(a: nat, s: nat, k: nat, t: nat)
    requires s > 0 && k > 0 && t == s * k
    ensures t > 0 && Floor(Floor(a, s), t) == Floor(a, t)
    decreases a
  {
    assert t == s * (k - 1) + s;
    if a >= t {
      FloorShift(a - t, s, k);
      FloorNest(a - t, s, k, t);
    }
  }

  lemma {:induction false} FloorSmall(a: nat, s: nat)
    requires s == 1 || s == 2 || s == 4
    ensures Floor(a, s) == a - a % s
  {
    if a >= s { FloorSmall(a - s, s); }
  }

  lemma {:induction false} Pow2Split(m: nat, n: nat)
    requires m <= n
    ensures Pow2(n) == Pow2(m) * Pow2(n - m)
  {
    if m < n {
      Pow2Split(m, n - 1);
      assert Pow2(n) == 2 * (Pow2(m) * Pow2(n - 1 - m));
      assert Pow2(n - m) == 2 * Pow2(n - m - 1);
    }
  }

  lemma Pow2Of32()
    ensures Pow2(2) == 4 && Pow2(32) == LIMIT
  {
    assert Pow2(4) == 16;
    Pow2Split(4, 8);
    Pow2Split(8, 16);
    Pow2Split(16, 32);
  }

  lemma Sizes(narrow: Bits, wide: Bits)
    requires wide <= narrow
    ensures Size(wide) == Size(narrow) * Pow2(narrow - wide)
  {
    Pow2Split(32 - narrow, 32 - wide);
  }

  /** A block of addresses that starts below the limit ends there at the latest. */
  lemma BlockFits(p: Prefix)
    ensures Base(p) + Size(p.bits) <= LIMIT
  {
    Pow2Of32();
    Sizes(p.bits, 0);
    FloorFits(p.addr, Size(p.bits), Pow2(p.bits));
  }

  /** Containment is range membership. */
  lemma ContainsRange(p: Prefix, a: Addr)
    ensures Contains(p, a) <==> Base(p) <= a < Base(p) + Size(p.bits)
  {
    FloorSame(a, p.addr, Size(p.bits));
  }

  /** The two-sided test finds exactly the prefixes that share an address. */
  lemma OverlapExact(a: Prefix, b: Prefix)
    ensures Overlap(a, b) <==> exists x: Addr :: Contains(a, x) && Contains(b, x)
  {
    if Overlap(a, b) {
      assert Contains(a, a.addr) && Contains(b, b.addr);
    }
    if x: Addr :| Contains(a, x) && Contains(b, x) {
      if a.bits >= b.bits { NarrowInWide(a, b, x); } else { NarrowInWide(b, a, x); }
    }
  }

  lemma NarrowInWide(n: Prefix, w: Prefix, x: Addr)
    requires n.bits >= w.bits && Contains(n, x) && Contains(w, x)
    ensures Contains(w, n.addr)
  {
    Sizes(n.bits, w.bits);
    FloorNest(x, Size(n.bits), Pow2(n.bits - w.bits), Size(w.bits));
    FloorNest(n.addr, Size(n.bits), Pow2(n.bits - w.bits), Size(w.bits));
  }

  // ---------------------------------------------------------------- /30 blocks

  predicate IsLease(p: Prefix) { p.bits == 30 && p.addr % 4 == 0 }

  lemma Size30(p: Prefix)
    requires p.bits == 30
    ensures Size(p.bits) == 4 && Base(p) == p.addr - p.addr % 4 && LastAddr(p) == Base(p) + 3
  {
    Pow2Of32();
    FloorSmall(p.addr, 4);
  }

  /** An aligned /30 is exactly what Restore demands: of length 30, and masked. */
  lemma LeaseIsMasked(p: Prefix)
    ensures IsLease(p) <==> p.bits == 30 && p == Masked(p)
  {
    if p.bits == 30 { Size30(p); }
  }

  /** Different aligned /30s share no address. */
  lemma LeasesDisjoint(p: Prefix, q: Prefix, x: Addr)
    requires IsLease(p) && IsLease(q) && Contains(p, x) && Contains(q, x)
    ensures p == q
  {
    Size30(p);
    Size30(q);
  }

  lemma SumOfFours(x: nat, y: nat)
    requires x % 4 == 0 && y % 4 == 0
    ensures (x + y) % 4 == 0
  {
  }

  lemma {:induction false} FourDivides(a: nat, s: nat)
    requires s > 0 && s % 4 == 0
    ensures Floor(a, s) % 4 == 0
  {
    if a >= s {
      FourDivides(a - s, s);
      SumOfFours(s, Floor(a - s, s));
    }
  }

  /** Pools of length 30 or less are whole numbers of aligned /30s. */
  lemma WidePool(pool: Prefix)
    requires pool.bits <= 30
    ensures Base(pool) % 4 == 0 && Size(pool.bits) % 4 == 0 && Size(pool.bits) >= 4
  {
    Pow2Of32();
    Sizes(30, pool.bits);
    assert Size(pool.bits) == 4 * Pow2(30 - pool.bits);
    FourDivides(pool.addr, Size(pool.bits));
  }
}

/** Transit /30s leased to VMs: two maps kept as each other's inverse, first-fit search,
    and pools that avoid the host's routes. */
module Alloc {
  import opened Wire
  import opened Prefixes

  /** A route's destination, or a configured pool: IPv4, or another family. */
  datatype Net = V4(prefix: Prefix) | OtherFamily

  type LeaseMap = map<string, Prefix>
  type Occupancy = map<Prefix, string>

  // ---------------------------------------------------------------- candidates

  predicate Fits(pool: Prefix, a: Addr) { Contains(pool, a) && Contains(pool, LastAddr(Prefix(a, 30))) }

  /** The /30s Acquire tries in a pool, from `a` on. */
  function Slots(pool: Prefix, a: Addr): seq<Prefix>
    decreases LIMIT - a
  {
    if !Fits(pool, a) then []
    else if a + 4 >= LIMIT then [Prefix(a, 30)]
    else [Prefix(a, 30)] + Slots(pool, a + 4)
  }

  function PoolSlots(pool: Prefix): seq<Prefix> { Slots(pool, Base(pool)) }

  /** All of them, pool by pool. */
  function Candidates(pools: seq<Prefix>): seq<Prefix> {
    if pools == [] then [] else PoolSlots(pools[0]) + Candidates(pools[1..])
  }

  /** The first of them nobody holds. */
  function FirstFree(candidates: seq<Prefix>, occupied: Occupancy): (r: Option<Prefix>) {
    if candidates == [] then None
    else if candidates[0] !in occupied then Some(candidates[0])
    else FirstFree(candidates[1..], occupied)
  }

  lemma {:induction false} FirstFreeOf(a: seq<Prefix>, b: seq<Prefix>, occupied: Occupancy)
    ensures FirstFree(a + b, occupied) == if FirstFree(a, occupied).Some? then FirstFree(a, occupied) else FirstFree(b, occupied)
  {
    if a == [] {
      assert a + b == b;
    } else {
      assert (a + b)[1..] == a[1..] + b;
      FirstFreeOf(a[1..], b, occupied);
    }
  }

  /** It is the free candidate before which all are held, and there is none exactly when
      all are held. */
  lemma {:induction false} FirstFreeIs(cs: seq<Prefix>, occupied: Occupancy)
    ensures FirstFree(cs, occupied).None? <==> forall p :: p in cs ==> p in occupied
    ensures FirstFree(cs, occupied).Some? ==>
      && FirstFree(cs, occupied).value in cs && FirstFree(cs, occupied).value !in occupied
      && exists k :: 0 <= k < |cs| && cs[k] == FirstFree(cs, occupied).value && forall j :: 0 <= j < k ==> cs[j] in occupied
  {
    if cs != [] && cs[0] in occupied {
      FirstFreeIs(cs[1..], occupied);
      assert cs == [cs[0]] + cs[1..];
      if FirstFree(cs, occupied).Some? {
        var k :| 0 <= k < |cs[1..]| && cs[1..][k] == FirstFree(cs, occupied).value && forall j :: 0 <= j < k ==> cs[1..][j] in occupied;
        assert cs[k + 1] == FirstFree(cs, occupied).value;
        assert forall j :: 0 < j < k + 1 ==> cs[j] == cs[1..][j - 1];
      }
    } else if cs != [] {
      assert cs[0] == FirstFree(cs, occupied).value;
    }
  }

  /** Whether every /30 the search can hand out of this pool is a real, aligned /30. */
  predicate Sound(pool: Prefix) {
    pool.bits <= 30 || (pool.bits == 31 && Base(pool) % 4 == 0) || (pool.bits == 32 && Base(pool) % 4 != 3)
  }

  lemma LastOfAligned(a: Addr)
    requires a % 4 == 0
    ensures LastAddr(Prefix(a, 30)) == a + 3
  {
    Size30(Prefix(a, 30));
  }

  lemma FourInside(a: nat, lo: nat, n: nat)
    requires a % 4 == 0 && lo % 4 == 0 && n % 4 == 0
    ensures a < lo + n <==> a + 3 < lo + n
  {
  }

  lemma FitsWide(pool: Prefix, a: Addr)
    requires pool.bits <= 30 && a % 4 == 0
    ensures Fits(pool, a) <==> Base(pool) <= a < Base(pool) + Size(pool.bits)
  {
    LastOfAligned(a);
    WidePool(pool);
    ContainsRange(pool, a);
    ContainsRange(pool, LastAddr(Prefix(a, 30)));
    FourInside(a, Base(pool), Size(pool.bits));
  }

  /** Every fourth address from `a` up to `hi`. */
  function Fours(a: nat, hi: nat): seq<Prefix>
    requires hi <= LIMIT
    decreases hi - a
  {
    if a >= hi then [] else [Prefix(a, 30)] + Fours(a + 4, hi)
  }

  lemma {:induction false} FoursAre(a: nat, hi: nat)
    requires hi <= LIMIT && a % 4 == 0
    ensures forall p :: p in Fours(a, hi) <==> IsLease(p) && a <= p.addr < hi
    ensures forall i, j :: 0 <= i < j < |Fours(a, hi)| ==> Fours(a, hi)[i].addr < Fours(a, hi)[j].addr
    decreases hi - a
  {
    if a < hi { FoursAre(a + 4, hi); }
  }

  lemma {:induction false} SlotsAreFours(pool: Prefix, a: Addr, hi: nat)
    requires pool.bits <= 30 && a % 4 == 0 && Base(pool) <= a && hi == Base(pool) + Size(pool.bits) && hi <= LIMIT
    ensures Slots(pool, a) == Fours(a, hi)
    decreases LIMIT - a
  {
    FitsWide(pool, a);
    if Fits(pool, a) && a + 4 < LIMIT { SlotsAreFours(pool, a + 4, hi); }
  }

  /** In a pool of length 30 or less the search visits every aligned /30, in address order. */
  lemma SlotsWide(pool: Prefix, p: Prefix)
    requires pool.bits <= 30
    ensures p in PoolSlots(pool) <==> IsLease(p) && Fits(pool, p.addr)
    ensures forall i, j :: 0 <= i < j < |PoolSlots(pool)| ==> PoolSlots(pool)[i].addr < PoolSlots(pool)[j].addr
  {
    var hi := Base(pool) + Size(pool.bits);
    WidePool(pool);
    BlockFits(pool);
    SlotsAreFours(pool, Base(pool), hi);
    FoursAre(Base(pool), hi);
    if p.addr % 4 == 0 { FitsWide(pool, p.addr); }
  }

  lemma NarrowFits(pool: Prefix, a: Addr)
    requires pool.bits > 30
    ensures Fits(pool, a) ==> a % 4 != 0
    ensures Fits(pool, Base(pool)) <==> !Sound(pool)
  {
    Pow2Of32();
    assert Size(31) == 2 && Size(32) == 1;
    FloorSmall(pool.addr, Size(pool.bits));
    Size30(Prefix(a, 30));
    Size30(Prefix(Base(pool), 30));
    ContainsRange(pool, a);
    ContainsRange(pool, LastAddr(Prefix(a, 30)));
    ContainsRange(pool, Base(pool));
    ContainsRange(pool, LastAddr(Prefix(Base(pool), 30)));
    assert pool.bits == 31 || pool.bits == 32;
  }

  /** Exactly the sound pools hand out aligned /30s only. */
  lemma SlotsAlignedIff(pool: Prefix)
    ensures (forall p :: p in PoolSlots(pool) ==> IsLease(p)) <==> Sound(pool)
  {
    if pool.bits <= 30 {
      forall p
        ensures p in PoolSlots(pool) ==> IsLease(p)
      {
        SlotsWide(pool, p);
      }
    } else {
      NarrowFits(pool, Base(pool));
      if Fits(pool, Base(pool)) { assert PoolSlots(pool)[0] == Prefix(Base(pool), 30) && PoolSlots(pool)[0] in PoolSlots(pool); }
    }
  }

  /** The search of a set of sound pools tries exactly the aligned /30s inside them. */
  lemma {:induction false} CandidatesExact(pools: seq<Prefix>, p: Prefix)
    requires forall pool :: pool in pools ==> Sound(pool)
    ensures p in Candidates(pools) <==> IsLease(p) && exists pool :: pool in pools && Fits(pool, p.addr)
  {
    if pools != [] {
      CandidatesExact(pools[1..], p);
      SlotExact(pools[0], p);
      assert pools == [pools[0]] + pools[1..];
    }
  }

  lemma SlotExact(pool: Prefix, p: Prefix)
    requires Sound(pool)
    ensures p in PoolSlots(pool) <==> IsLease(p) && Fits(pool, p.addr)
  {
    if pool.bits <= 30 {
      SlotsWide(pool, p);
    } else {
      NarrowFits(pool, p.addr);
    }
  }

  // ---------------------------------------------------------------- leases

  /** Each map is the other's inverse. */
  ghost predicate Inverse(leases: LeaseMap, occupied: Occupancy) {
    && (forall v :: v in leases ==> leases[v] in occupied && occupied[leases[v]] == v)
    && (forall p :: p in occupied ==> occupied[p] in leases && leases[occupied[p]] == p)
  }

  ghost predicate Aligned(leases: LeaseMap) {
    forall v :: v in leases ==> v != "" && IsLease(leases[v])
  }

  /** Distinct owners hold disjoint address ranges. */
  lemma OwnersDisjoint(leases: LeaseMap, occupied: Occupancy, v: string, w: string, x: Addr)
    requires Inverse(leases, occupied) && Aligned(leases) && v in leases && w in leases
    requires Contains(leases[v], x) && Contains(leases[w], x)
    ensures v == w
  {
    LeasesDisjoint(leases[v], leases[w], x);
  }

  predicate Avoids(pool: Prefix, routes: seq<Net>) {
    forall i :: 0 <= i < |routes| ==> !(routes[i].V4? && routes[i].prefix.bits != 0 && Overlap(pool, routes[i].prefix))
  }

  function Usable(routes: seq<Net>, pools: seq<Prefix>): seq<Prefix> {
    if pools == [] then []
    else Usable(routes, pools[..|pools| - 1]) + if Avoids(pools[|pools| - 1], routes) then [pools[|pools| - 1]] else []
  }

  lemma {:induction false} UsableAvoid(routes: seq<Net>, pools: seq<Prefix>, p: Prefix)
    ensures p in Usable(routes, pools) <==> p in pools && Avoids(p, routes)
  {
    if pools != [] {
      UsableAvoid(routes, pools[..|pools| - 1], p);
      assert pools == pools[..|pools| - 1] + [pools[|pools| - 1]];
    }
  }

  method FindOverlap(pool: Prefix, routes: seq<Net>) returns (overlaps: bool)
    ensures overlaps <==> !Avoids(pool, routes)
  {
    for i := 0 to |routes|
      invariant forall j :: 0 <= j < i ==> !(routes[j].V4? && routes[j].prefix.bits != 0 && Overlap(pool, routes[j].prefix))
    {
      if routes[i].V4? && routes[i].prefix.bits != 0 && Overlap(pool, routes[i].prefix) { return true; }
    }
    return false;
  }

  /** NewAllocator's pools: the given ones, in order, less those that meet a route. */
  method SelectPools(routes: seq<Net>, pools: seq<Net>) returns (usable: Option<seq<Prefix>>)
    ensures usable.None? <==> exists i :: 0 <= i < |pools| && !pools[i].V4?
    ensures usable.Some? ==> forall i :: 0 <= i < |pools| ==> pools[i].V4?
    ensures usable.Some? ==> usable.value == Usable(routes, seq(|pools|, i requires 0 <= i < |pools| && pools[i].V4? => pools[i].prefix))
  {
    var v4: seq<Prefix> := [];
    for i := 0 to |pools|
      invariant |v4| == i && forall j :: 0 <= j < i ==> pools[j].V4? && v4[j] == pools[j].prefix
    {
      if !pools[i].V4? { return None; }
      v4 := v4 + [pools[i].prefix];
    }
    var chosen: seq<Prefix> := [];
    for i := 0 to |v4|
      invariant chosen == Usable(routes, v4[..i])
    {
      var overlaps := FindOverlap(v4[i], routes);
      assert v4[..i + 1][..i] == v4[..i];
      if !overlaps { chosen := chosen + [v4[i]]; }
    }
    assert v4[..|v4|] == v4;
    assert v4 == seq(|pools|, i requires 0 <= i < |pools| && pools[i].V4? => pools[i].prefix);
    return Some(chosen);
  }

  /** No address of a candidate of a usable pool belongs to a route but the default one. */
  lemma FreshAvoidsRoutes(routes: seq<Net>, pools: seq<Prefix>, p: Prefix, route: Net, x: Addr)
    requires (forall pool :: pool in pools ==> Sound(pool) && Avoids(pool, routes)) && p in Candidates(pools)
    requires route in routes && route.V4? && route.prefix.bits != 0 && Contains(p, x)
    ensures !Contains(route.prefix, x)
  {
    CandidatesExact(pools, p);
    var pool :| pool in pools && Fits(pool, p.addr);
    SlotInPool(pool, p, x);
    OverlapExact(pool, route.prefix);
  }

  lemma FreshIsClear(routes: seq<Net>, pools: seq<Prefix>, p: Prefix)
    requires (forall pool :: pool in pools ==> Sound(pool) && Avoids(pool, routes)) && p in Candidates(pools)
    ensures Clear(p, routes)
  {
    forall route, x: Addr | route in routes && route.V4? && route.prefix.bits != 0 && Contains(p, x)
      ensures !Contains(route.prefix, x)
    {
      FreshAvoidsRoutes(routes, pools, p, route, x);
    }
  }

  /** Sound pools are exhausted exactly when every aligned /30 inside one of them is held. */
  lemma ExhaustedExactly(pools: seq<Prefix>, occupied: Occupancy)
    requires forall pool :: pool in pools ==> Sound(pool)
    ensures FirstFree(Candidates(pools), occupied).None? <==>
      forall p, pool :: pool in pools && IsLease(p) && Fits(pool, p.addr) ==> p in occupied
  {
    FirstFreeIs(Candidates(pools), occupied);
    forall p
      ensures p in Candidates(pools) <==> IsLease(p) && exists pool :: pool in pools && Fits(pool, p.addr)
    {
      CandidatesExact(pools, p);
    }
  }

  /** From 10.0.0.2/31 the search hands out 10.0.0.2/30, a prefix with host bits: it covers
      the same addresses as the lease 10.0.0.0/30 and is a different key. */
  lemma NarrowPoolOverlaps()
    ensures var pool, odd, even := Prefix(0x0A00_0002, 31), Prefix(0x0A00_0002, 30), Prefix(0x0A00_0000, 30);
      && FirstFree(Candidates([pool]), map[]) == Some(odd)
      && IsLease(even) && even != odd && forall x: Addr :: Contains(odd, x) <==> Contains(even, x)
  {
    var pool, odd, even := Prefix(0x0A00_0002, 31), Prefix(0x0A00_0002, 30), Prefix(0x0A00_0000, 30);
    Pow2Of32();
    assert Size(31) == 2;
    FloorSmall(pool.addr, 2);
    NarrowFits(pool, pool.addr);
    assert PoolSlots(pool)[0] == odd;
    assert Candidates([pool])[0] == odd;
    Size30(odd);
    Size30(even);
  }

  lemma SlotInPool(pool: Prefix, p: Prefix, x: Addr)
    requires IsLease(p) && Fits(pool, p.addr) && Contains(p, x)
    ensures Contains(pool, x)
  {
    Size30(p);
    ContainsRange(pool, p.addr);
    ContainsRange(pool, LastAddr(p));
    ContainsRange(pool, x);
    ContainsRange(p, x);
  }

  /** The inner loop of the search: addresses four apart, up to the end of the pool or of
      the address space. */
  method SearchPool(pool: Prefix, occupied: Occupancy) returns (found: Option<Prefix>)
    ensures found == FirstFree(PoolSlots(pool), occupied)
  {
    var a := Base(pool);
    while true
      invariant FirstFree(PoolSlots(pool), occupied) == FirstFree(Slots(pool, a), occupied)
      decreases LIMIT - a
    {
      var p := Prefix(a, 30);
      if !Contains(pool, a) || !Contains(pool, LastAddr(p)) { return None; }
      assert Slots(pool, a)[0] == p;
      if p !in occupied { return Some(p); }
      var (next, overflow) := AddUint32(a, 4);
      if overflow { return None; }
      assert Slots(pool, a)[1..] == Slots(pool, next);
      a := next;
    }
  }

  method FindFree(pools: seq<Prefix>, occupied: Occupancy) returns (found: Option<Prefix>)
    ensures found == FirstFree(Candidates(pools), occupied)
  {
    for i := 0 to |pools|
      invariant FirstFree(Candidates(pools), occupied) == FirstFree(Candidates(pools[i..]), occupied)
    {
      found := SearchPool(pools[i], occupied);
      FirstFreeOf(PoolSlots(pools[i]), Candidates(pools[i..][1..]), occupied);
      if found.Some? { return; }
      assert pools[i..][1..] == pools[i + 1..];
    }
    return None;
  }

  datatype Acquired = Lease(prefix: Prefix) | NoOwner | Exhausted

  /** No address of `p` belongs to a route but the default one. */
  ghost predicate Clear(p: Prefix, routes: seq<Net>) {
    forall route, x: Addr :: route in routes && route.V4? && route.prefix.bits != 0 && Contains(p, x) ==> !Contains(route.prefix, x)
  }

  /** NewAllocator: one of another family is an error; without a usable pool the allocator
      can still restore and release. */
  method NewAllocator(routes: seq<Net>, pools: seq<Net>) returns (a: Allocator?, empty: bool)
    ensures a == null <==> exists i :: 0 <= i < |pools| && !pools[i].V4?
    ensures a != null ==> fresh(a) && a.Valid() && a.routes == routes && a.leases == map[]
    ensures a != null ==> forall p :: p in a.pools <==> V4(p) in pools && Avoids(p, routes)
    ensures a != null ==> (empty <==> a.pools == [])
  {
    var usable := SelectPools(routes, pools);
    if usable.None? { return null, true; }
    ghost var v4 := seq(|pools|, i requires 0 <= i < |pools| && pools[i].V4? => pools[i].prefix);
    forall p
      ensures p in usable.value <==> V4(p) in pools && Avoids(p, routes)
    {
      UsableAvoid(routes, v4, p);
      if V4(p) in pools {
        var i :| 0 <= i < |pools| && pools[i] == V4(p);
        assert v4[i] == p;
      }
    }
    a := new Allocator(usable.value, routes);
    empty := usable.value == [];
  }

  class Allocator {
    const pools: seq<Prefix>
    ghost const routes: seq<Net>    // the host routes the pools were chosen against
    var leases: LeaseMap
    var occupied: Occupancy

    ghost predicate Valid()
      reads this
    {
      Inverse(leases, occupied) && "" !in leases && forall p :: p in pools ==> Avoids(p, routes)
    }

    constructor (usable: seq<Prefix>, ghost routes: seq<Net>)
      requires forall p :: p in usable ==> Avoids(p, routes)
      ensures Valid() && pools == usable && this.routes == routes && leases == map[] && Aligned(leases)
    {
      pools, leases, occupied := usable, map[], map[];
      this.routes := routes;
    }

    /** First fit: the earliest candidate nobody holds, or exhaustion when all are held. */
    method Acquire(v: string) returns (r: Acquired)
      requires Valid()
      modifies this
      ensures Valid()
      ensures r.NoOwner? <==> v == ""
      ensures v in old(leases) ==> r == Lease(old(leases)[v])
      ensures v != "" && v !in old(leases) ==> match FirstFree(Candidates(pools), old(occupied))
        case Some(p) => r == Lease(p)
        case None => r.Exhausted?
      ensures leases == if r.Lease? then old(leases)[v := r.prefix] else old(leases)
      ensures old(Aligned(leases)) && (forall p :: p in pools ==> Sound(p)) ==> Aligned(leases)
      ensures r.Lease? && v !in old(leases) && (forall p :: p in pools ==> Sound(p)) ==> Clear(r.prefix, routes)
    {
      if v == "" { return NoOwner; }
      if v in leases {
        assert leases[v := leases[v]] == leases;
        return Lease(leases[v]);
      }
      var found := FindFree(pools, occupied);
      if found.None? { return Exhausted; }
      FirstFreeIs(Candidates(pools), occupied);
      if forall p :: p in pools ==> Sound(p) {
        CandidatesExact(pools, found.value);
        FreshIsClear(routes, pools, found.value);
      }
      leases := leases[v := found.value];
      occupied := occupied[found.value := v];
      return Lease(found.value);
    }

    /** Reserve exactly this prefix, inside today's pools or not. */
    method Restore(v: string, net: Net) returns (ok: bool)
      requires Valid()
      modifies this
      ensures Valid() && (old(Aligned(leases)) ==> Aligned(leases))
      ensures ok <==>
        && v != "" && net.V4? && IsLease(net.prefix)
        && (net.prefix in old(occupied) ==> old(occupied)[net.prefix] == v)
        && (v in old(leases) ==> old(leases)[v] == net.prefix)
      ensures leases == if ok then old(leases)[v := net.prefix] else old(leases)
    {
      if v == "" || !net.V4? || net.prefix.bits != 30 || net.prefix != Masked(net.prefix) {
        if net.V4? { LeaseIsMasked(net.prefix); }
        return false;
      }
      var p := net.prefix;
      LeaseIsMasked(p);
      if p in occupied && occupied[p] != v { return false; }
      if v in leases && leases[v] != p { return false; }
      leases := leases[v := p];
      occupied := occupied[p := v];
      return true;
    }

    method Release(v: string)
      requires Valid()
      modifies this
      ensures Valid() && leases == old(leases) - {v}
      ensures old(Aligned(leases)) ==> Aligned(leases)
    {
      if v in leases {
        var p := leases[v];
        occupied := occupied - {p};
        leases := leases - {v};
      } else {
        assert leases - {v} == leases;
      }
    }
  }
}
