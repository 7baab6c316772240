/** Disk headroom: free space of each configured filesystem plus the credit for guest image
    blocks already written there, and the filesystem with the least of both together. */
module DiskCapacity {
  import opened Wire

  type Dev = nat
  type Inode = (Dev, nat)

  /** The bytes of so many MiB. */
  function Bytes(mib: int): int { mib * 1048576 }

  /** The whole MiB in `bytes`. */
  function MiB(bytes: nat): nat { bytes / 1048576 }

  /** What lstat finds at one image path: nothing, something refused, or a private file. */
  datatype Image = Missing | Refused | Regular(inode: Inode)

  /** A VM's promise of disk space and the two places its images would be. */
  datatype Reservation = Reservation(owner: bool, diskMiB: nat, rootfs: Image, workspace: Image)

  /** Allocated bytes of every file. */
  type Sizes = map<Inode, nat>

  // ---------------------------------------------------------------- specification

  /** Bytes the image adds on `d`, if its inode has not been counted. */
  function Adds(image: Image, seen: set<Inode>, d: Dev, sizes: Sizes): nat {
    if image.Regular? && image.inode !in seen && image.inode.0 == d && image.inode in sizes then sizes[image.inode] else 0
  }

  function Seeing(seen: set<Inode>, image: Image): set<Inode> {
    if image.Regular? then seen + {image.inode} else seen
  }

  function BytesOf(r: Reservation, seen: set<Inode>, d: Dev, sizes: Sizes): nat {
    Adds(r.rootfs, seen, d, sizes) + Adds(r.workspace, Seeing(seen, r.rootfs), d, sizes)
  }

  function AllSeen(rs: seq<Reservation>): set<Inode> {
    if rs == [] then {}
    else Seeing(Seeing(AllSeen(rs[..|rs| - 1]), rs[|rs| - 1].rootfs), rs[|rs| - 1].workspace)
  }

  function Min(a: nat, b: nat): nat { if a < b then a else b }

  /** Credit on one filesystem, reservation by reservation. */
  function Credit(rs: seq<Reservation>, d: Dev, sizes: Sizes): nat {
    if rs == [] then 0
    else
      var (before, r) := (rs[..|rs| - 1], rs[|rs| - 1]);
      Credit(before, d, sizes) + Min(MiB(BytesOf(r, AllSeen(before), d, sizes)), r.diskMiB)
  }

  function Promised(rs: seq<Reservation>): nat {
    if rs == [] then 0 else Promised(rs[..|rs| - 1]) + rs[|rs| - 1].diskMiB
  }

  /** Nothing stops the accounting: owners are plain names, and every image is missing or a
      private file on a configured filesystem. */
  predicate Acceptable(image: Image, devs: set<Dev>, sizes: Sizes) {
    image.Missing? || (image.Regular? && image.inode.0 in devs && image.inode in sizes)
  }

  predicate Sound(rs: seq<Reservation>, devs: set<Dev>, sizes: Sizes) {
    forall i :: 0 <= i < |rs| ==> rs[i].owner && Acceptable(rs[i].rootfs, devs, sizes) && Acceptable(rs[i].workspace, devs, sizes)
  }

  /** The bytes of a set of files. */
  ghost function Total(files: set<Inode>, sizes: Sizes): nat
    requires files <= sizes.Keys
  {
    if files == {} then 0
    else
      var f :| f in files;
      sizes[f] + Total(files - {f}, sizes)
  }

  lemma {:induction false} TotalMore(files: set<Inode>, x: Inode, sizes: Sizes)
    requires files + {x} <= sizes.Keys && x !in files
    ensures Total(files + {x}, sizes) == Total(files, sizes) + sizes[x]
  {
    var all := files + {x};
    var f :| f in all && Total(all, sizes) == sizes[f] + Total(all - {f}, sizes);
    if f == x {
      assert all - {f} == files;
    } else {
      TotalMore(files - {f}, x, sizes);
      assert all - {f} == files - {f} + {x};
      TotalMore(files - {f}, f, sizes);
      assert files - {f} + {f} == files;
    }
  }

  function On(files: set<Inode>, d: Dev): set<Inode> { set f | f in files && f.0 == d }

  lemma SeeingOne(seen: set<Inode>, image: Image, d: Dev, devs: set<Dev>, sizes: Sizes)
    requires Acceptable(image, devs, sizes) && seen <= sizes.Keys
    ensures Seeing(seen, image) <= sizes.Keys
    ensures Total(On(Seeing(seen, image), d), sizes) == Total(On(seen, d), sizes) + Adds(image, seen, d, sizes)
  {
    if image.Regular? && image.inode !in seen && image.inode.0 == d {
      assert On(Seeing(seen, image), d) == On(seen, d) + {image.inode};
      TotalMore(On(seen, d), image.inode, sizes);
    } else {
      assert On(Seeing(seen, image), d) == On(seen, d);
    }
  }

  // ---------------------------------------------------------------- what the credit is

  /** The image files of the reservations. */
  function FilesOf(rs: seq<Reservation>): set<Inode> {
    (set i | 0 <= i < |rs| && rs[i].rootfs.Regular? :: rs[i].rootfs.inode) + (set i | 0 <= i < |rs| && rs[i].workspace.Regular? :: rs[i].workspace.inode)
  }

  lemma {:induction false} SeenAreFiles(rs: seq<Reservation>)
    ensures AllSeen(rs) == FilesOf(rs)
  {
    if rs != [] {
      var (before, r) := (rs[..|rs| - 1], rs[|rs| - 1]);
      SeenAreFiles(before);
      assert forall i :: 0 <= i < |before| ==> before[i] == rs[i];
      forall f | f in AllSeen(rs)
        ensures f in FilesOf(rs)
      {
        if f in FilesOf(before) {
          var i :| 0 <= i < |before| && ((before[i].rootfs.Regular? && before[i].rootfs.inode == f) || (before[i].workspace.Regular? && before[i].workspace.inode == f));
          assert rs[i] == before[i];
        }
      }
    }
  }

  /** Bytes on `d` of the distinct image files. */
  ghost function HeldOn(rs: seq<Reservation>, d: Dev, sizes: Sizes): nat {
    if FilesOf(rs) <= sizes.Keys then Total(On(FilesOf(rs), d), sizes) else 0
  }

  /** For each reservation, the bytes on `d` of its files that no earlier one has. */
  ghost function NewBytes(rs: seq<Reservation>, d: Dev, sizes: Sizes): (r: seq<int>)
    ensures |r| == |rs|
  {
    if rs == [] then []
    else NewBytes(rs[..|rs| - 1], d, sizes) + [HeldOn(rs, d, sizes) - HeldOn(rs[..|rs| - 1], d, sizes)]
  }

  function Sum(s: seq<int>): int { if s == [] then 0 else Sum(s[..|s| - 1]) + s[|s| - 1] }

  lemma {:induction false} NewBytesAdd(rs: seq<Reservation>, d: Dev, sizes: Sizes)
    ensures Sum(NewBytes(rs, d, sizes)) == HeldOn(rs, d, sizes)
  {
    if rs == [] {
      assert On(FilesOf(rs), d) == {};
    } else {
      NewBytesAdd(rs[..|rs| - 1], d, sizes);
      assert NewBytes(rs, d, sizes)[..|rs| - 1] == NewBytes(rs[..|rs| - 1], d, sizes);
    }
  }

  /** The most whole MiB that are in `bytes` and within `limit`. */
  predicate IsShare(share: int, bytes: int, limit: nat) {
    0 <= share <= limit && Bytes(share) <= bytes && (share == limit || bytes < Bytes(share + 1))
  }

  lemma MinIsShare(bytes: nat, limit: nat)
    ensures IsShare(Min(MiB(bytes), limit), bytes, limit)
  {
  }

  /** Each reservation's share is the most of its promise that its new bytes fill. */
  ghost predicate Shared(rs: seq<Reservation>, added: seq<int>, shares: seq<int>) {
    && |shares| == |rs| == |added|
    && forall i :: 0 <= i < |rs| ==> IsShare(shares[i], added[i], rs[i].diskMiB)
  }

  /** The credit of the reservations on `d`: their shares together. */
  ghost predicate Credited(rs: seq<Reservation>, d: Dev, sizes: Sizes, credit: int) {
    exists shares :: Shared(rs, NewBytes(rs, d, sizes), shares) && Sum(shares) == credit
  }

  ghost predicate NoneOver(rs: seq<Reservation>, added: seq<int>) {
    |added| == |rs| && forall i :: 0 <= i < |rs| ==> added[i] <= Bytes(rs[i].diskMiB)
  }

  ghost predicate AllReached(rs: seq<Reservation>, added: seq<int>) {
    |added| == |rs| && forall i :: 0 <= i < |rs| ==> added[i] >= Bytes(rs[i].diskMiB)
  }

  /** What a credit can be: at most what is promised, and at most the bytes held, so none is
      credited twice; all of these bytes but less than a MiB a reservation, while none holds
      more than it promised; and the whole promise once every one has reached it. */
  ghost predicate Bounds(rs: seq<Reservation>, added: seq<int>, held: int, credit: int) {
    && 0 <= credit <= Promised(rs) && Bytes(credit) <= held
    && (NoneOver(rs, added) && rs != [] ==> held < Bytes(credit + |rs|))
    && (AllReached(rs, added) ==> credit == Promised(rs))
  }

  lemma {:induction false} SharesBounded(rs: seq<Reservation>, added: seq<int>, shares: seq<int>)
    requires Shared(rs, added, shares)
    ensures Bounds(rs, added, Sum(added), Sum(shares))
  {
    if rs != [] {
      var n := |rs| - 1;
      SharesBounded(rs[..n], added[..n], shares[..n]);
      assert IsShare(shares[n], added[n], rs[n].diskMiB);
    }
  }

  ghost predicate Fits(rs: seq<Reservation>, d: Dev, sizes: Sizes, credit: int) {
    Bounds(rs, NewBytes(rs, d, sizes), HeldOn(rs, d, sizes), credit)
  }

  lemma CreditFits(rs: seq<Reservation>, d: Dev, sizes: Sizes, credit: nat)
    requires Credited(rs, d, sizes, credit)
    ensures Fits(rs, d, sizes, credit)
  {
    var shares :| Shared(rs, NewBytes(rs, d, sizes), shares) && Sum(shares) == credit;
    SharesBounded(rs, NewBytes(rs, d, sizes), shares);
    NewBytesAdd(rs, d, sizes);
  }

  /** There is one such credit. */
  lemma OneCredit(rs: seq<Reservation>, d: Dev, sizes: Sizes, a: int, b: int)
    requires Credited(rs, d, sizes, a) && Credited(rs, d, sizes, b)
    ensures a == b
  {
    var added := NewBytes(rs, d, sizes);
    var x :| Shared(rs, added, x) && Sum(x) == a;
    var y :| Shared(rs, added, y) && Sum(y) == b;
    forall i | 0 <= i < |rs|
      ensures x[i] == y[i]
    {
      assert IsShare(x[i], added[i], rs[i].diskMiB) && IsShare(y[i], added[i], rs[i].diskMiB);
    }
    assert x == y;
  }

  lemma LastBytes(rs: seq<Reservation>, d: Dev, devs: set<Dev>, sizes: Sizes)
    requires Sound(rs, devs, sizes) && rs != []
    ensures HeldOn(rs, d, sizes) == HeldOn(rs[..|rs| - 1], d, sizes) + BytesOf(rs[|rs| - 1], AllSeen(rs[..|rs| - 1]), d, sizes)
  {
    var (before, r) := (rs[..|rs| - 1], rs[|rs| - 1]);
    SeenAreFiles(before);
    SeenAreFiles(rs);
    SeeingOne(AllSeen(before), r.rootfs, d, devs, sizes);
    SeeingOne(Seeing(AllSeen(before), r.rootfs), r.workspace, d, devs, sizes);
  }

  lemma {:induction false} CreditShared(rs: seq<Reservation>, d: Dev, devs: set<Dev>, sizes: Sizes) returns (shares: seq<int>)
    requires Sound(rs, devs, sizes)
    ensures Shared(rs, NewBytes(rs, d, sizes), shares) && Sum(shares) == Credit(rs, d, sizes)
  {
    if rs == [] {
      shares := [];
    } else {
      var (before, r) := (rs[..|rs| - 1], rs[|rs| - 1]);
      var rest := CreditShared(before, d, devs, sizes);
      var bytes := BytesOf(r, AllSeen(before), d, sizes);
      shares := rest + [Min(MiB(bytes), r.diskMiB)];
      assert shares[..|rs| - 1] == rest;
      LastBytes(rs, d, devs, sizes);
      MinIsShare(bytes, r.diskMiB);
    }
  }

  lemma CreditBounded(rs: seq<Reservation>, d: Dev, devs: set<Dev>, sizes: Sizes)
    requires Sound(rs, devs, sizes)
    ensures FilesOf(rs) <= sizes.Keys
    ensures Credited(rs, d, sizes, Credit(rs, d, sizes)) && Fits(rs, d, sizes, Credit(rs, d, sizes))
  {
    var shares := CreditShared(rs, d, devs, sizes);
    CreditFits(rs, d, sizes, Credit(rs, d, sizes));
  }

  // ---------------------------------------------------------------- the loops

  type Allocated = map<Dev, nat>

  function At(m: Allocated, d: Dev): nat { if d in m then m[d] else 0 }

  /** One image of a reservation. */
  method Account(image: Image, devs: set<Dev>, sizes: Sizes, seen: set<Inode>, bytes: Allocated)
    returns (ok: bool, seen': set<Inode>, bytes': Allocated)
    requires bytes.Keys <= devs
    ensures ok <==> Acceptable(image, devs, sizes)
    ensures ok ==> seen' == Seeing(seen, image) && bytes'.Keys <= devs
    ensures ok ==> forall d :: At(bytes', d) == At(bytes, d) + Adds(image, seen, d, sizes)
  {
    match image {
      case Missing => return true, seen, bytes;
      case Refused => return false, seen, bytes;
      case Regular(inode) =>
        var d := inode.0;
        if d !in devs || inode !in sizes { return false, seen, bytes; }
        if inode in seen {
          assert seen + {inode} == seen;
          return true, seen, bytes;
        }
        return true, seen + {inode}, bytes[d := At(bytes, d) + sizes[inode]];
    }
  }

  /** The inner map range: whatever its order, each filesystem gets its share once. */
  method AddCredit(bytes: Allocated, limit: nat, credit: map<Dev, nat>) returns (credit': map<Dev, nat>)
    requires bytes.Keys <= credit.Keys
    ensures credit'.Keys == credit.Keys
    ensures forall d :: d in credit ==> credit'[d] >= credit[d] && IsShare(credit'[d] - credit[d], At(bytes, d), limit)
    ensures forall d :: d in credit ==> credit'[d] == credit[d] + Min(MiB(At(bytes, d)), limit)
  {
    forall d | d in credit ensures IsShare(Min(MiB(At(bytes, d)), limit), At(bytes, d), limit) { MinIsShare(At(bytes, d), limit); }
    credit' := credit;
    var left := bytes.Keys;
    while left != {}
      invariant left <= bytes.Keys && credit'.Keys == credit.Keys
      invariant forall d :: d in credit ==> credit'[d] == credit[d] + if d in left then 0 else Min(MiB(At(bytes, d)), limit)
    {
      var d :| d in left;
      credit' := credit'[d := credit'[d] + Min(MiB(bytes[d]), limit)];
      left := left - {d};
    }
  }

  /** observeSettledDisk up to the final sample. */
  method CreditReservations(rs: seq<Reservation>, devs: set<Dev>, sizes: Sizes) returns (credit: Option<map<Dev, nat>>)
    ensures credit.Some? <==> Sound(rs, devs, sizes)
    ensures credit.Some? ==> credit.value.Keys == devs && forall d :: d in devs ==> Credited(rs, d, sizes, credit.value[d])
    ensures credit.Some? ==> forall d :: d in devs ==> credit.value[d] == Credit(rs, d, sizes)
  {
    var c: map<Dev, nat> := map d | d in devs :: 0;
    var seen: set<Inode> := {};
    for i := 0 to |rs|
      invariant Sound(rs[..i], devs, sizes) && seen == AllSeen(rs[..i])
      invariant c.Keys == devs && forall d :: d in devs ==> c[d] == Credit(rs[..i], d, sizes)
    {
      var r := rs[i];
      assert rs[..i + 1][..i] == rs[..i] && rs[..i + 1][i] == r;
      if !r.owner { return None; }
      var ok, bytes;
      ok, seen, bytes := Account(r.rootfs, devs, sizes, seen, map[]);
      if !ok { return None; }
      ok, seen, bytes := Account(r.workspace, devs, sizes, seen, bytes);
      if !ok { return None; }
      assert forall d :: At(bytes, d) == BytesOf(r, AllSeen(rs[..i]), d, sizes);
      c := AddCredit(bytes, r.diskMiB, c);
    }
    assert rs[..|rs|] == rs;
    forall d | d in devs ensures Credited(rs, d, sizes, c[d]) { CreditBounded(rs, d, devs, sizes); }
    return Some(c);
  }

  datatype Observation = Observation(freeMiB: int, materializedMiB: nat)

  /** observeDiskFilesystems: the least headroom, whatever the order of the filesystems; an
      unreadable one fails the observation. */
  method ObserveFilesystems(free: map<Dev, Option<int>>, credit: map<Dev, nat>) returns (r: Option<Observation>)
    requires free.Keys == credit.Keys
    ensures r.None? <==> exists d :: d in free && free[d].None?
    ensures r.Some? && free.Keys != {} ==>
      exists d :: d in free && free[d] == Some(r.value.freeMiB) && credit[d] == r.value.materializedMiB
    ensures r.Some? ==> forall d :: d in free ==>
      free[d].Some? && r.value.freeMiB + r.value.materializedMiB <= free[d].value + credit[d]
  {
    var result := Observation(0, 0);
    var first := true;
    var left := free.Keys;
    while left != {}
      invariant left <= free.Keys && first == (left == free.Keys)
      invariant forall d :: d in free && d !in left ==>
        free[d].Some? && result.freeMiB + result.materializedMiB <= free[d].value + credit[d]
      invariant !first ==> exists d :: d in free && free[d] == Some(result.freeMiB) && credit[d] == result.materializedMiB
    {
      var d :| d in left;
      if free[d].None? { return None; }
      if first || free[d].value + credit[d] < result.freeMiB + result.materializedMiB {
        result := Observation(free[d].value, credit[d]);
      }
      first := false;
      left := left - {d};
    }
    return Some(result);
  }

  /** No filesystem has less headroom than `r`, and one has just that: its free space and its
      credit for `rs`. */
  ghost predicate Least(r: Observation, free: map<Dev, Option<int>>, rs: seq<Reservation>, sizes: Sizes) {
    && (forall d :: d in free ==> free[d].Some? && Roomy(r, d, free[d].value, rs, sizes))
    && (free != map[] ==> exists d :: d in free && Backed(r, d, free[d], rs, sizes))
  }

  ghost predicate Roomy(r: Observation, d: Dev, free: int, rs: seq<Reservation>, sizes: Sizes) {
    exists credit :: Credited(rs, d, sizes, credit) && r.freeMiB + r.materializedMiB <= free + credit
  }

  ghost predicate Backed(r: Observation, d: Dev, free: Option<int>, rs: seq<Reservation>, sizes: Sizes) {
    && free == Some(r.freeMiB) && FilesOf(rs) <= sizes.Keys
    && Credited(rs, d, sizes, r.materializedMiB) && Fits(rs, d, sizes, r.materializedMiB)
  }

  predicate Readable(free: map<Dev, Option<int>>) { forall d :: d in free ==> free[d].Some? }

  /** ObserveDisk: credit counts only when no lifecycle work is under way and privd's
      inventory is settled; then a refused owner or image fails the observation. */
  method ObserveDisk(settled: bool, rs: seq<Reservation>, sizes: Sizes, free: map<Dev, Option<int>>) returns (r: Option<Observation>)
    ensures r.Some? <==> Readable(free) && (settled ==> Sound(rs, free.Keys, sizes))
    ensures r.Some? ==> Least(r.value, free, if settled then rs else [], sizes)
  {
    var counted: seq<Reservation> := if settled then rs else [];
    var credit := CreditReservations(counted, free.Keys, sizes);
    if credit.None? { return None; }
    r := ObserveFilesystems(free, credit.value);
    if r.Some? {
      forall d | d in free
        ensures Roomy(r.value, d, free[d].value, counted, sizes)
      {
        assert Credited(counted, d, sizes, credit.value[d]);
      }
    }
    if r.Some? && free != map[] {
      ghost var d :| d in free && free[d] == Some(r.value.freeMiB) && credit.value[d] == r.value.materializedMiB;
      CreditBounded(counted, d, free.Keys, sizes);
      assert Backed(r.value, d, free[d], counted, sizes);
    }
  }
}
