/** Subnets as text, the way manifests, the ledger and the adapter's machine hold them, and as
    the prefixes the allocator works with. */
module Subnets {
  import opened Wire
  import opened Ledger
  import opened Prefixes
  import opened Alloc
  import Adapter
  import AdapterTheorems

  // ---------------------------------------------------------------- writing a prefix

  function Digit(n: nat): char
    requires n < 10
  {
    n as char + '0'
  }

  function Decimal(n: nat): (s: string)
    ensures s != "" && forall i :: 0 <= i < |s| ==> IsDigit(s[i])
  {
    if n < 10 then [Digit(n)] else Decimal(n / 10) + [Digit(n % 10)]
  }

  /** A decimal is read back as the number it was written for. */
  lemma {:induction false} DecimalRead(n: nat)
    ensures DecimalValue(Decimal(n)) == n
  {
    var s := Decimal(n);
    if n >= 10 {
      DecimalRead(n / 10);
      assert s[..|s| - 1] == Decimal(n / 10);
    } else {
      assert s[..|s| - 1] == "";
    }
  }

  /** netip.Prefix.String. */
  function Text(p: Prefix): string {
    var (b, c, d) := (p.addr / 0x100, p.addr / 0x100 / 0x100, p.addr / 0x100 / 0x100 / 0x100);
    Decimal(d) + "." + (Decimal(c % 0x100) + "." + (Decimal(b % 0x100) + "." + (Decimal(p.addr % 0x100) + "/" + Decimal(p.bits))))
  }

  lemma CutAt(a: string, b: string, a': string, b': string, c: char)
    requires c !in a && c !in a' && a + [c] + b == a' + [c] + b'
    ensures a == a' && b == b'
  {
    var (s, s') := (a + [c] + b, a' + [c] + b');
    assert s[|a|] == c && s'[|a'|] == c;
    assert s[..|a|] == a && s'[..|a'|] == a' && s[|a| + 1..] == b && s'[|a'| + 1..] == b';
  }

  lemma SameFirst(m: nat, rest: string, n: nat, rest': string, c: char)
    requires !IsDigit(c) && Decimal(m) + [c] + rest == Decimal(n) + [c] + rest'
    ensures m == n && rest == rest'
  {
    CutAt(Decimal(m), rest, Decimal(n), rest', c);
    DecimalRead(m);
    DecimalRead(n);
  }

  lemma SameByte(m: nat, n: nat)
    requires m / 0x100 == n / 0x100 && m % 0x100 == n % 0x100
    ensures m == n
  {
  }

  /** No two prefixes have one text. */
  lemma TextInjective(p: Prefix, q: Prefix)
    requires Text(p) == Text(q)
    ensures p == q
  {
    var (m, n) := (p.addr, q.addr);
    var (m1, n1) := (m / 0x100, n / 0x100);
    var (m2, n2) := (m1 / 0x100, n1 / 0x100);
    var (p4, q4) := (Decimal(m % 0x100) + "/" + Decimal(p.bits), Decimal(n % 0x100) + "/" + Decimal(q.bits));
    var (p3, q3) := (Decimal(m1 % 0x100) + "." + p4, Decimal(n1 % 0x100) + "." + q4);
    var (p2, q2) := (Decimal(m2 % 0x100) + "." + p3, Decimal(n2 % 0x100) + "." + q3);
    SameFirst(m2 / 0x100, p2, n2 / 0x100, q2, '.');
    SameFirst(m2 % 0x100, p3, n2 % 0x100, q3, '.');
    SameFirst(m1 % 0x100, p4, n1 % 0x100, q4, '.');
    SameFirst(m % 0x100, Decimal(p.bits), n % 0x100, Decimal(q.bits), '/');
    DecimalRead(p.bits);
    DecimalRead(q.bits);
    SameByte(m2, n2);
    SameByte(m1, n1);
    SameByte(m, n);
  }

  // ---------------------------------------------------------------- the allocator and the machine

  function Texts(leases: LeaseMap): Adapter.LeaseMap { map v | v in leases :: Text(leases[v]) }

  /** What Acquire returns is a subnet the machine lets a launch take. */
  method AcquireText(a: Allocator, v: VmId) returns (cidr: Option<string>)
    requires a.Valid()
    modifies a
    ensures a.Valid() && (cidr.Some? ==> Adapter.CidrFor(old(Texts(a.leases)), v, cidr.value))
    ensures cidr.Some? ==> v in a.leases && cidr.value == Text(a.leases[v])
    ensures cidr.None? ==> a.leases == old(a.leases) && (v == "" || FirstFree(Candidates(a.pools), old(a.occupied)).None?)
  {
    var r := a.Acquire(v);
    if !r.Lease? { return None; }
    ghost var held := old(a.leases);
    if v !in held {
      FirstFreeIs(Candidates(a.pools), old(a.occupied));
      forall w | w in held
        ensures Text(held[w]) != Text(r.prefix)
      {
        if Text(held[w]) == Text(r.prefix) {
          TextInjective(held[w], r.prefix);
          assert false;
        }
      }
    }
    return Some(Text(r.prefix));
  }

  /** In every tidy run two VMs whose manifests name leases have no address in common,
      whichever versions of the manifests a power loss leaves. */
  lemma LeasedAddressesDisjoint(site: Adapter.Site, worlds: seq<Adapter.World>, steps: seq<Adapter.WorldStep>, i: nat,
                                v: VmId, x: Adapter.Manifest, w: VmId, y: Adapter.Manifest, p: Prefix, q: Prefix, a: Addr)
    requires Adapter.IsWorldRun(site, worlds, steps) && AdapterTheorems.TidyUntil(worlds, steps, i) && i < |worlds| && v != w
    requires Lookup(worlds[i].m.seen, v) == Some(x) || Lookup(worlds[i].m.safe, v) == Some(x)
    requires Lookup(worlds[i].m.seen, w) == Some(y) || Lookup(worlds[i].m.safe, w) == Some(y)
    requires x.cidr == Text(p) && y.cidr == Text(q) && IsLease(p) && IsLease(q)
    ensures !(Contains(p, a) && Contains(q, a))
  {
    AdapterTheorems.LeasesDistinct(site, worlds, steps, i, v, x, w, y);
    if Contains(p, a) && Contains(q, a) { LeasesDisjoint(p, q, a); }
  }
}
