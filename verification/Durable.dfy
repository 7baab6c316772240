/** A file system with two kinds of truth: what a reader sees now, and what a crash could
    leave. A directory entry is settled by syncing its directory, a file's bytes by syncing
    the file; until then a crash may expose any binding the name has had since. */
module FileTree {
  import opened Wire

  type Name = string
  type Path = seq<Name>
  type Id = nat

  /** `maybe`: besides what `now` shows, the bindings a name may have after a crash. */
  datatype Node =
    | File(data: string, synced: bool)
    | Dir(now: map<Name, Id>, maybe: map<Name, set<Option<Id>>>)

  type Disk = map<Id, Node>

  const ROOT: Id := 0

  function Possible(d: Node, n: Name): set<Option<Id>>
    requires d.Dir?
  {
    (if n in d.maybe then d.maybe[n] else {}) + {Lookup(d.now, n)}
  }

  function Bind(d: Node, n: Name, b: Option<Id>): (r: Node)
    requires d.Dir?
    ensures r.Dir? && Lookup(r.now, n) == b
    ensures forall m :: Possible(r, m) == if m == n then Possible(d, n) + {b} else Possible(d, m)
    ensures forall m :: m != n ==> Lookup(r.now, m) == Lookup(d.now, m)
  {
    Dir(if b.Some? then d.now[n := b.value] else d.now - {n}, d.maybe[n := Possible(d, n)])
  }

  predicate IsDir(disk: Disk, x: Id) { x in disk && disk[x].Dir? }

  /** fsync of a directory: what is visible is all a crash can leave. */
  function DirSynced(disk: Disk, x: Id): (r: Disk)
    requires IsDir(disk, x)
    ensures r.Keys == disk.Keys && IsDir(r, x) && (forall y :: y in disk && y != x ==> r[y] == disk[y])
    ensures r[x].now == disk[x].now && forall n :: Possible(r[x], n) == {Lookup(disk[x].now, n)}
  {
    disk[x := Dir(disk[x].now, map[])]
  }

  function Bound(disk: Disk, x: Id, n: Name, b: Option<Id>): Disk
    requires IsDir(disk, x)
  {
    disk[x := Bind(disk[x], n, b)]
  }

  /** Where a path leads from `x` now. */
  function Walk(disk: Disk, x: Id, p: Path): (r: Option<Id>)
    ensures r.Some? ==> r.value in disk
    decreases |p|
  {
    if x !in disk then None
    else if p == [] then Some(x)
    else if disk[x].Dir? && p[0] in disk[x].now then Walk(disk, disk[x].now[p[0]], p[1..])
    else None
  }

  /** Where it may lead after a crash. */
  ghost predicate MayReach(disk: Disk, x: Id, p: Path, b: Option<Id>)
    decreases |p|
  {
    if p == [] then b == Some(x)
    else if !IsDir(disk, x) then b == None
    else exists c :: c in Possible(disk[x], p[0]) && MayGoOn(disk, c, p, b)
  }

  ghost predicate MayGoOn(disk: Disk, c: Option<Id>, p: Path, b: Option<Id>)
    requires p != []
    decreases |p|, 0
  {
    if c.None? then b.None? else MayReach(disk, c.value, p[1..], b)
  }

  /** The directory a path leads to now. */
  function DirAt(disk: Disk, p: Path): (r: Option<Id>)
    ensures r.Some? ==> IsDir(disk, r.value) && Walk(disk, ROOT, p) == r
  {
    var w := Walk(disk, ROOT, p);
    if w.Some? && IsDir(disk, w.value) then w else None
  }

  datatype Reading = Nothing | Data(bytes: string) | Directory

  /** A file whose bytes were not synced may read as anything after a crash. */
  ghost predicate ReadsAs(disk: Disk, b: Option<Id>, r: Reading) {
    if b.None? || b.value !in disk then r.Nothing?
    else
      match disk[b.value]
      case File(data, synced) => r.Data? && (synced ==> r.bytes == data)
      case Dir(_, _) => r.Directory?
  }

  /** `r` is a possible answer to reading `p` after a crash. */
  ghost predicate MayRead(disk: Disk, p: Path, r: Reading) {
    exists b :: MayReach(disk, ROOT, p, b) && ReadsAs(disk, b, r)
  }

  /** What reading `p` answers now. */
  function Reads(disk: Disk, p: Path): Reading {
    match Walk(disk, ROOT, p)
    case None => Nothing
    case Some(x) => if x !in disk then Nothing else if disk[x].File? then Data(disk[x].data) else Directory
  }

  /** Every entry on the way along `p` survives a crash as it is. */
  ghost predicate Settled(disk: Disk, x: Id, p: Path)
    decreases |p|
  {
    p == [] ||
    (IsDir(disk, x) && p[0] in disk[x].now
     && Possible(disk[x], p[0]) == {Some(disk[x].now[p[0]])}
     && Settled(disk, disk[x].now[p[0]], p[1..]))
  }

  /** No directory can lead to an inode that does not exist. */
  ghost predicate Closed(disk: Disk) {
    IsDir(disk, ROOT) && forall x, n, y :: IsDir(disk, x) && Some(y) in Possible(disk[x], n) ==> y in disk
  }

  // ---------------------------------------------------------------- reachability

  /** Along settled entries a crash changes nothing. */
  lemma {:induction false} SettledReach(disk: Disk, x: Id, p: Path, rest: Path, y: Id, b: Option<Id>)
    requires Settled(disk, x, p) && Walk(disk, x, p) == Some(y)
    ensures MayReach(disk, x, p + rest, b) <==> MayReach(disk, y, rest, b)
    decreases |p|
  {
    if p == [] {
      assert p + rest == rest;
    } else {
      var z := disk[x].now[p[0]];
      assert (p + rest)[1..] == p[1..] + rest && (p + rest)[0] == p[0];
      SettledReach(disk, z, p[1..], rest, y, b);
      assert Some(z) in Possible(disk[x], p[0]);
      assert MayGoOn(disk, Some(z), p + rest, b) <==> MayReach(disk, y, rest, b);
    }
  }

  lemma {:induction false} WalkJoined(disk: Disk, x: Id, p: Path, rest: Path)
    ensures Walk(disk, x, p + rest) ==
      if Walk(disk, x, p).Some? then Walk(disk, Walk(disk, x, p).value, rest) else None
    decreases |p|
  {
    if p == [] {
      assert p + rest == rest;
    } else if x in disk && disk[x].Dir? && p[0] in disk[x].now {
      assert (p + rest)[1..] == p[1..] + rest;
      WalkJoined(disk, disk[x].now[p[0]], p[1..], rest);
    }
  }

  /** From `d` to `d'` the directory `dir` may have gained a file `i` under `name` and
      anything under `tmp`; nothing else became possible or changed. */
  ghost predicate Gains(d: Disk, d': Disk, dir: Id, tmp: Name, name: Name, i: Id) {
    && i !in d && (i in d' ==> d'[i].File?)
    && IsDir(d, dir) && IsDir(d', dir)
    && (forall x :: x in d && x != dir ==> x in d' && d'[x] == d[x])
    && (forall n, b :: b in Possible(d'[dir], n) && n != tmp ==> b in Possible(d[dir], n) || (n == name && b == Some(i)))
    && (forall n :: n != tmp ==>
          Lookup(d'[dir].now, n) == Lookup(d[dir].now, n) || (n == name && Lookup(d'[dir].now, n) == Some(i)))
    && (Some(i) in Possible(d'[dir], name) ==> i in d' && NoDirectory(d, dir, name))
  }

  /** `name` in `dir` is absent or a file. */
  predicate NoDirectory(d: Disk, dir: Id, name: Name) {
    IsDir(d, dir) && (name in d[dir].now ==> d[dir].now[name] in d && d[d[dir].now[name]].File?)
  }

  predicate Under(p: Path, name: Name) { p != [] && p[|p| - 1] == name }

  lemma {:induction false} ReachKept(d: Disk, d': Disk, dir: Id, tmp: Name, name: Name, i: Id, x: Id, p: Path, b: Option<Id>)
    requires Closed(d) && Gains(d, d', dir, tmp, name, i) && x in d && tmp !in p && MayReach(d', x, p, b)
    ensures MayReach(d, x, p, b)
      || (b == Some(i) && Under(p, name) && MayReach(d, x, p[..|p| - 1], Some(dir)) && Some(i) in Possible(d'[dir], name))
    decreases |p|
  {
    if p != [] && IsDir(d', x) {
      var c :| c in Possible(d'[x], p[0]) && MayGoOn(d', c, p, b);
      if c in Possible(d[x], p[0]) {
        if c.Some? {
          ReachKept(d, d', dir, tmp, name, i, c.value, p[1..], b);
          if !MayReach(d, c.value, p[1..], b) {
            var q := p[..|p| - 1];
            assert q[1..] == p[1..][..|p| - 2] && MayGoOn(d, c, q, Some(dir));
          }
        }
        assert MayGoOn(d, c, p, b) ==> MayReach(d, x, p, b);
      } else {
        assert x == dir && c == Some(i) && MayReach(d', i, p[1..], b);
        if |p| > 1 { BeyondFile(d, dir, name, p, b); } else { assert p[1..] == [] && p[..0] == []; }
      }
    }
  }

  /** Nothing lies beyond a name that is no directory. */
  lemma BeyondFile(d: Disk, dir: Id, name: Name, p: Path, b: Option<Id>)
    requires NoDirectory(d, dir, name) && |p| > 1 && p[0] == name && b.None?
    ensures MayReach(d, dir, p, b)
  {
    var c := Lookup(d[dir].now, name);
    assert c in Possible(d[dir], name) && MayGoOn(d, c, p, b);
  }

  lemma ReadKept(d: Disk, d': Disk, dir: Id, tmp: Name, name: Name, i: Id, p: Path, r: Reading)
    requires Closed(d) && Gains(d, d', dir, tmp, name, i) && tmp !in p && MayRead(d', p, r)
    ensures
      || MayRead(d, p, r)
      || (Under(p, name) && MayReach(d, ROOT, p[..|p| - 1], Some(dir)) && Some(i) in Possible(d'[dir], name) && ReadsAs(d', Some(i), r))
  {
    var b :| MayReach(d', ROOT, p, b) && ReadsAs(d', b, r);
    ReachKept(d, d', dir, tmp, name, i, ROOT, p, b);
    if MayReach(d, ROOT, p, b) {
      ReachClosed(d, ROOT, p, b);
    }
  }

  lemma {:induction false} ReachClosed(d: Disk, x: Id, p: Path, b: Option<Id>)
    requires Closed(d) && x in d && MayReach(d, x, p, b)
    ensures b.Some? ==> b.value in d
    decreases |p|
  {
    if p != [] && IsDir(d, x) {
      var c :| c in Possible(d[x], p[0]) && MayGoOn(d, c, p, b);
      if c.Some? { ReachClosed(d, c.value, p[1..], b); }
    }
  }

  /** Readers see what they saw, or the new file under its name. */
  lemma {:induction false} WalkKept(d: Disk, d': Disk, dir: Id, tmp: Name, name: Name, i: Id, x: Id, p: Path)
    requires Closed(d) && Gains(d, d', dir, tmp, name, i) && x in d && tmp !in p
    ensures Walk(d', x, p) == Walk(d, x, p)
      || (Walk(d', x, p) == Some(i) && Under(p, name) && Walk(d, x, p[..|p| - 1]) == Some(dir) && Some(i) in Possible(d'[dir], name))
    decreases |p|
  {
    if p != [] && IsDir(d, x) {
      assert p[0] in p && tmp !in p[1..];
      if Lookup(d'[x].now, p[0]) == Lookup(d[x].now, p[0]) {
        if p[0] in d[x].now {
          assert Some(d[x].now[p[0]]) in Possible(d[x], p[0]);
          WalkKept(d, d', dir, tmp, name, i, d[x].now[p[0]], p[1..]);
          if |p| > 1 { assert p[..|p| - 1][1..] == p[1..][..|p| - 2] && p[..|p| - 1][0] == p[0]; }
        }
      } else {
        assert x == dir && Some(i) in Possible(d'[dir], name);
        if |p| == 1 { assert p[1..] == [] && p[..0] == []; }
      }
    }
  }

  /** Every directory is where it was, on a way as settled as it was. */
  lemma {:induction false} WayKept(d: Disk, d': Disk, dir: Id, tmp: Name, name: Name, i: Id, x: Id, p: Path, y: Id)
    requires Closed(d) && Gains(d, d', dir, tmp, name, i) && x in d && tmp !in d[dir].now
    requires Walk(d, x, p) == Some(y) && IsDir(d, y)
    ensures Walk(d', x, p) == Some(y) && IsDir(d', y)
    ensures Settled(d, x, p) ==> Settled(d', x, p)
    decreases |p|
  {
    if p != [] {
      var z := d[x].now[p[0]];
      assert Some(z) in Possible(d[x], p[0]);
      WayKept(d, d', dir, tmp, name, i, z, p[1..], y);
      OntoDirectory(d, z, p[1..], y);
      assert Lookup(d'[x].now, p[0]) == Some(z) && Some(z) in Possible(d'[x], p[0]);
      assert Possible(d'[x], p[0]) <= Possible(d[x], p[0]) + {Some(i)};
    }
  }

  lemma DirsKept(d: Disk, d': Disk, dir: Id, tmp: Name, name: Name, i: Id)
    requires Closed(d) && Gains(d, d', dir, tmp, name, i) && tmp !in d[dir].now
    ensures forall q :: DirAt(d, q).Some? ==> DirAt(d', q) == DirAt(d, q) && (Settled(d, ROOT, q) ==> Settled(d', ROOT, q))
  {
    forall q | DirAt(d, q).Some?
      ensures DirAt(d', q) == DirAt(d, q) && (Settled(d, ROOT, q) ==> Settled(d', ROOT, q))
    {
      WayKept(d, d', dir, tmp, name, i, ROOT, q, DirAt(d, q).value);
    }
  }

  lemma OntoDirectory(d: Disk, z: Id, p: Path, dir: Id)
    requires Walk(d, z, p) == Some(dir) && IsDir(d, dir)
    ensures IsDir(d, z)
  {
  }

  // ---------------------------------------------------------------- syncing and pruning

  /** Every entry of the directory survives a crash as it is. */
  ghost predicate DirSettled(disk: Disk, x: Id) {
    IsDir(disk, x) && forall n :: Possible(disk[x], n) == {Lookup(disk[x].now, n)}
  }

  lemma {:induction false} SyncKeepsWay(disk: Disk, y: Id, x: Id, p: Path)
    requires IsDir(disk, y)
    ensures Walk(DirSynced(disk, y), x, p) == Walk(disk, x, p)
    ensures Settled(disk, x, p) ==> Settled(DirSynced(disk, y), x, p)
    decreases |p|
  {
    if p != [] && IsDir(disk, x) && p[0] in disk[x].now {
      SyncKeepsWay(disk, y, disk[x].now[p[0]], p[1..]);
    }
  }

  /** Only unlinks happened between `d` and `d'`. */
  ghost predicate Pruned(d: Disk, d': Disk) {
    && d'.Keys == d.Keys
    && (forall x :: x in d && d[x].File? ==> d'[x] == d[x])
    && (forall x :: IsDir(d, x) ==> IsDir(d', x))
    && (forall x, n :: IsDir(d, x) ==>
          && (Lookup(d'[x].now, n) == Lookup(d[x].now, n) || Lookup(d'[x].now, n) == None)
          && Possible(d'[x], n) == Possible(d[x], n) + {Lookup(d'[x].now, n)})
  }

  lemma {:induction false} PrunedWay(d: Disk, d': Disk, x: Id, p: Path)
    requires Pruned(d, d') && Walk(d', x, p).Some?
    ensures Walk(d, x, p) == Walk(d', x, p)
    ensures Settled(d, x, p) ==> Settled(d', x, p)
    decreases |p|
  {
    if p != [] {
      assert Lookup(d'[x].now, p[0]) == Lookup(d[x].now, p[0]);
      PrunedWay(d, d', d'[x].now[p[0]], p[1..]);
    }
  }

  /** Unlinking makes nothing new readable, before or after a crash. */
  lemma {:induction false} PrunedReach(d: Disk, d': Disk, x: Id, p: Path, b: Option<Id>)
    requires Pruned(d, d') && MayReach(d', x, p, b)
    ensures MayReach(d, x, p, b) || b.None?
    decreases |p|
  {
    if p != [] && IsDir(d', x) {
      assert IsDir(d, x);
      var c :| c in Possible(d'[x], p[0]) && MayGoOn(d', c, p, b);
      if c.Some? {
        assert c in Possible(d[x], p[0]);
        PrunedReach(d, d', c.value, p[1..], b);
        assert b.Some? ==> MayGoOn(d, c, p, b);
      }
    }
  }

  lemma PrunedReads(d: Disk, d': Disk, p: Path, r: Reading)
    requires Pruned(d, d') && MayRead(d', p, r)
    ensures MayRead(d, p, r) || r.Nothing?
  {
    var b :| MayReach(d', ROOT, p, b) && ReadsAs(d', b, r);
    PrunedReach(d, d', ROOT, p, b);
    if b.Some? {
      assert b.value in d && d[b.value].Dir? ==> IsDir(d, b.value);
      assert ReadsAs(d, b, r);
    }
  }

  lemma LastName(d: Disk, dir: Id, name: Name, b: Option<Id>)
    requires IsDir(d, dir)
    ensures MayReach(d, dir, [name], b) <==> b in Possible(d[dir], name)
  {
    var p := [name];
    assert p[1..] == [];
    if MayReach(d, dir, p, b) {
      var c :| c in Possible(d[dir], p[0]) && MayGoOn(d, c, p, b);
      assert c == b by { if c.Some? { assert MayReach(d, c.value, p[1..], b); } }
    }
    if b in Possible(d[dir], name) {
      if b.Some? { assert MayReach(d, b.value, p[1..], b); }
      assert MayGoOn(d, b, p, b);
    }
  }

  /** Where the way is settled up to a directory that cannot hold the next name, no crash
      brings the path back. */
  lemma AbsentForGood(d: Disk, p: Path, k: nat, x: Id)
    requires k < |p| && Walk(d, ROOT, p[..k]) == Some(x) && Settled(d, ROOT, p[..k])
    requires IsDir(d, x) && Possible(d[x], p[k]) == {None}
    ensures forall r :: MayRead(d, p, r) ==> r.Nothing?
  {
    forall b | MayReach(d, ROOT, p, b)
      ensures b.None?
    {
      assert p == p[..k] + p[k..];
      SettledReach(d, ROOT, p[..k], p[k..], x, b);
      assert p[k..][0] == p[k];
    }
  }

  /** The directories along `p` from depth `k` on are settled. */
  ghost predicate SettledFrom(d: Disk, x: Id, p: Path, k: nat) {
    forall j :: k <= j < |p| ==> Walk(d, x, p[..j]).Some? && DirSettled(d, Walk(d, x, p[..j]).value)
  }

  lemma {:induction false} SettledDirsMakeWay(d: Disk, x: Id, p: Path)
    requires Walk(d, x, p).Some? && SettledFrom(d, x, p, 0)
    ensures Settled(d, x, p)
    decreases |p|
  {
    if p != [] {
      assert p[..0] == [] && DirSettled(d, Walk(d, x, p[..0]).value);
      var z := d[x].now[p[0]];
      forall j | 0 <= j < |p| - 1
        ensures Walk(d, z, p[1..][..j]).Some? && DirSettled(d, Walk(d, z, p[1..][..j]).value)
      {
        assert p[..j + 1][0] == p[0] && p[..j + 1][1..] == p[1..][..j];
        assert Walk(d, x, p[..j + 1]) == Walk(d, z, p[1..][..j]);
      }
      assert SettledFrom(d, z, p[1..], 0);
      SettledDirsMakeWay(d, z, p[1..]);
    }
  }

  // ---------------------------------------------------------------- growing

  /** Nothing that was there is gone or changed. */
  ghost predicate Grown(d: Disk, d': Disk) {
    forall x :: x in d ==>
      && x in d'
      && (d[x].File? ==> d'[x] == d[x])
      && (d[x].Dir? ==> d'[x].Dir? && forall n :: n in d[x].now ==> n in d'[x].now && d'[x].now[n] == d[x].now[n])
  }

  lemma {:induction false} GrownWay(d: Disk, d': Disk, x: Id, p: Path)
    requires Grown(d, d') && Walk(d, x, p).Some?
    ensures Walk(d', x, p) == Walk(d, x, p)
    decreases |p|
  {
    if p != [] { GrownWay(d, d', d[x].now[p[0]], p[1..]); }
  }

  /** One more name on a way. */
  lemma OneMore(d: Disk, p: Path, k: nat, x: Id)
    requires k < |p| && Walk(d, ROOT, p[..k]) == Some(x)
    ensures Walk(d, ROOT, p[..k + 1]) == if IsDir(d, x) && p[k] in d[x].now && d[x].now[p[k]] in d then Some(d[x].now[p[k]]) else None
  {
    assert p[..k + 1] == p[..k] + [p[k]];
    WalkJoined(d, ROOT, p[..k], [p[k]]);
    assert [p[k]][1..] == [];
  }

  lemma PrefixIsDir(d: Disk, p: Path, j: nat)
    requires j < |p| && Walk(d, ROOT, p).Some?
    ensures Walk(d, ROOT, p[..j]).Some? && IsDir(d, Walk(d, ROOT, p[..j]).value)
  {
    assert p == p[..j] + p[j..];
    WalkJoined(d, ROOT, p[..j], p[j..]);
  }
}

/** Crash-atomic publication and removal. Which system calls fail is a parameter; `trace`
    collects the disk after each call, the points at which a crash may strike. */
module Durable {
  import opened Wire
  import opened FileTree

  /** Where WriteFile stops. `cleaned`: removing the temporary file worked. */
  datatype WriteFault =
    | NoFault
    | CreateFails
    | WriteFails(partial: string, cleaned: bool)
    | SyncFails(cleaned: bool)      // chmod, fsync or close
    | RenameFails(cleaned: bool)
    | DirSyncFails

  /** At this point readers see, and a crash leaves, what they did before, or the complete
      new bytes under the target name, on a way that leads, or could after a crash have led,
      to the directory `dir`. */
  ghost predicate OldOrNew(before: Disk, d: Disk, dir: Option<Id>, tmp: Name, name: Name, data: string) {
    && (forall p, r :: tmp !in p && MayRead(d, p, r) ==>
          MayRead(before, p, r) || (r == Data(data) && Under(p, name) && dir.Some? && MayReach(before, ROOT, p[..|p| - 1], dir)))
    && (forall p :: tmp !in p ==>
          Reads(d, p) == Reads(before, p) || (Reads(d, p) == Data(data) && Under(p, name) && DirAt(before, p[..|p| - 1]) == dir))
  }

  /** Whatever is new under the target name is the complete, synced file. */
  ghost predicate Harmless(d: Disk, d': Disk, dir: Id, tmp: Name, name: Name, i: Id, data: string) {
    && Gains(d, d', dir, tmp, name, i)
    && (Some(i) in Possible(d'[dir], name) ==> d'[i] == File(data, true) && Lookup(d'[dir].now, name) == Some(i))
  }

  lemma HarmlessOldOrNew(d: Disk, d': Disk, dir: Id, tmp: Name, name: Name, i: Id, data: string)
    requires Closed(d) && Harmless(d, d', dir, tmp, name, i, data)
    ensures OldOrNew(d, d', Some(dir), tmp, name, data)
  {
    forall p, r | tmp !in p && MayRead(d', p, r)
      ensures MayRead(d, p, r) || (r == Data(data) && Under(p, name) && MayReach(d, ROOT, p[..|p| - 1], Some(dir)))
    {
      ReadKept(d, d', dir, tmp, name, i, p, r);
    }
    forall p | tmp !in p
      ensures Reads(d', p) == Reads(d, p) || (Reads(d', p) == Data(data) && Under(p, name) && DirAt(d, p[..|p| - 1]) == Some(dir))
    {
      WalkKept(d, d', dir, tmp, name, i, ROOT, p);
    }
  }

  // ---------------------------------------------------------------- the stages of WriteFile

  /** The new file is there under `tmp` only. */
  ghost predicate Staged(before: Disk, d: Disk, dir: Id, tmp: Name, name: Name, i: Id) {
    && Gains(before, d, dir, tmp, name, i) && Closed(d)
    && i in d && d.Keys == before.Keys + {i}
    && Some(i) !in Possible(d[dir], name)
  }

  lemma CreateStages(before: Disk, dir: Id, tmp: Name, name: Name, i: Id)
    requires Closed(before) && IsDir(before, dir) && i !in before && tmp != name
    ensures Staged(before, Bound(before[i := File("", false)], dir, tmp, Some(i)), dir, tmp, name, i)
  {
  }

  lemma FillStages(before: Disk, d: Disk, dir: Id, tmp: Name, name: Name, i: Id, f: Node)
    requires Staged(before, d, dir, tmp, name, i) && f.File?
    ensures Staged(before, d[i := f], dir, tmp, name, i)
  {
    assert d[i := f][dir] == d[dir];
  }

  lemma UnlinkStages(before: Disk, d: Disk, dir: Id, tmp: Name, name: Name, i: Id)
    requires Staged(before, d, dir, tmp, name, i) && tmp != name
    ensures Staged(before, Bound(d, dir, tmp, None), dir, tmp, name, i)
  {
  }

  function Renamed(d: Disk, dir: Id, tmp: Name, name: Name, i: Id): Disk
    requires IsDir(d, dir)
  {
    Bound(Bound(d, dir, tmp, None), dir, name, Some(i))
  }

  /** The new file, with the content `f`, is what readers see under its name. */
  ghost predicate Installed(before: Disk, d: Disk, dir: Id, tmp: Name, name: Name, i: Id, f: Node) {
    Gains(before, d, dir, tmp, name, i) && Closed(d) && i in d && d[i] == f && Lookup(d[dir].now, name) == Some(i)
  }

  lemma RenamePublishes(before: Disk, d: Disk, dir: Id, tmp: Name, name: Name, i: Id)
    requires Staged(before, d, dir, tmp, name, i) && tmp != name && NoDirectory(before, dir, name)
    ensures Installed(before, Renamed(d, dir, tmp, name, i), dir, tmp, name, i, d[i])
  {
    RenameCloses(before, d, dir, tmp, name, i);
  }

  lemma RenameCloses(before: Disk, d: Disk, dir: Id, tmp: Name, name: Name, i: Id)
    requires Staged(before, d, dir, tmp, name, i) && tmp != name
    ensures Closed(Renamed(d, dir, tmp, name, i))
  {
  }

  lemma SyncPublishes(before: Disk, d: Disk, dir: Id, tmp: Name, name: Name, i: Id)
    requires Gains(before, d, dir, tmp, name, i) && Closed(d)
    ensures Gains(before, DirSynced(d, dir), dir, tmp, name, i) && Closed(DirSynced(d, dir))
  {
    assert forall n :: Possible(DirSynced(d, dir)[dir], n) <= Possible(d[dir], n);
  }

  lemma InstalledSynced(before: Disk, d: Disk, dir: Id, tmp: Name, name: Name, i: Id, f: Node)
    requires Installed(before, d, dir, tmp, name, i, f) && i != dir
    ensures Installed(before, DirSynced(d, dir), dir, tmp, name, i, f) && DirSettled(DirSynced(d, dir), dir)
  {
    SyncPublishes(before, d, dir, tmp, name, i);
  }

  /** The published record, and what a crash can make of it, once its directory is synced. */
  lemma PublishedReads(d: Disk, at: Path, dir: Id, name: Name, i: Id, data: string)
    requires Walk(d, ROOT, at) == Some(dir) && IsDir(d, dir) && Possible(d[dir], name) == {Some(i)}
    requires Lookup(d[dir].now, name) == Some(i) && i in d && d[i] == File(data, true)
    ensures Reads(d, at + [name]) == Data(data)
    ensures Settled(d, ROOT, at) ==> forall r :: MayRead(d, at + [name], r) <==> r == Data(data)
  {
    WalkJoined(d, ROOT, at, [name]);
    assert [name][1..] == [];
    assert Walk(d, dir, [name]) == Some(i);
    if Settled(d, ROOT, at) {
      forall b
        ensures MayReach(d, ROOT, at + [name], b) <==> b == Some(i)
      {
        SettledReach(d, ROOT, at, [name], dir, b);
        assert MayGoOn(d, Some(i), [name], b) <==> b == Some(i);
      }
      assert MayReach(d, ROOT, at + [name], Some(i));
      assert forall r :: ReadsAs(d, Some(i), r) <==> r == Data(data);
    }
  }

  class FileSystem {
    var disk: Disk
    var next: Id            // inode numbers from here on are unused
    ghost var trace: seq<Disk>

    ghost predicate Valid()
      reads this
    {
      Closed(disk) && forall x :: x in disk ==> x < next
    }

    method Publish(d: Disk)
      modifies this`disk, this`trace
      ensures disk == d && trace == old(trace) + [d]
    {
      disk := d;
      trace := trace + [d];
    }

    /** Create, write and sync the temporary file. */
    method Stage(dir: Id, name: Name, tmp: Name, i: Id, data: string, fault: WriteFault) returns (ok: bool)
      requires Closed(disk) && IsDir(disk, dir) && tmp != name && i !in disk
      modifies this`disk, this`trace
      ensures Staged(old(disk), disk, dir, tmp, name, i)
      ensures ok <==> !fault.WriteFails? && !fault.SyncFails?
      ensures ok ==> disk[i] == File(data, true)
      ensures old(trace) <= trace
      ensures forall k :: |old(trace)| <= k < |trace| ==> Staged(old(disk), trace[k], dir, tmp, name, i)
    {
      ghost var before := disk;
      CreateStages(before, dir, tmp, name, i);
      Publish(Bound(disk[i := File("", false)], dir, tmp, Some(i)));
      var written := File(if fault.WriteFails? then fault.partial else data, false);
      FillStages(before, disk, dir, tmp, name, i, written);
      Publish(disk[i := written]);
      if fault.WriteFails? || fault.SyncFails? { return false; }
      FillStages(before, disk, dir, tmp, name, i, File(data, true));
      Publish(disk[i := File(data, true)]);
      return true;
    }

    /** Give the temporary file up. */
    method Abandon(ghost before: Disk, dir: Id, name: Name, tmp: Name, i: Id, cleaned: bool)
      requires Staged(before, disk, dir, tmp, name, i) && tmp != name
      modifies this`disk, this`trace
      ensures Staged(before, disk, dir, tmp, name, i)
      ensures trace == old(trace) || trace == old(trace) + [disk]
    {
      if cleaned {
        UnlinkStages(before, disk, dir, tmp, name, i);
        Publish(Bound(disk, dir, tmp, None));
      }
    }

    /** Rename over the target, then sync the directory. */
    method Install(ghost before: Disk, dir: Id, name: Name, tmp: Name, i: Id, synced: bool)
      requires Staged(before, disk, dir, tmp, name, i) && tmp != name && NoDirectory(before, dir, name)
      modifies this`disk, this`trace
      ensures Installed(before, disk, dir, tmp, name, i, old(disk[i])) && disk.Keys == old(disk.Keys) && (synced ==> DirSettled(disk, dir))
      ensures old(trace) <= trace && |trace| <= |old(trace)| + 2
      ensures forall k :: |old(trace)| <= k < |trace| ==> Installed(before, trace[k], dir, tmp, name, i, old(disk[i]))
    {
      RenamePublishes(before, disk, dir, tmp, name, i);
      Publish(Renamed(disk, dir, tmp, name, i));
      if synced {
        InstalledSynced(before, disk, dir, tmp, name, i, old(disk[i]));
        Publish(DirSynced(disk, dir));
      }
    }

    /** Everything WriteFile does once it has found the directory. */
    method Replace(dir: Id, name: Name, tmp: Name, i: Id, data: string, fault: WriteFault) returns (ok: bool)
      requires Closed(disk) && IsDir(disk, dir) && tmp != name && i !in disk
      modifies this`disk, this`trace
      ensures Closed(disk) && disk.Keys <= old(disk.Keys) + {i}
      ensures Harmless(old(disk), disk, dir, tmp, name, i, data)
      ensures old(trace) <= trace
      ensures forall k :: |old(trace)| <= k < |trace| ==> Harmless(old(disk), trace[k], dir, tmp, name, i, data)
      ensures ok <==> (fault.NoFault? || fault.CreateFails?) && NoDirectory(old(disk), dir, name)
      ensures ok ==> Possible(disk[dir], name) == {Some(i)} && Lookup(disk[dir].now, name) == Some(i) && disk[i] == File(data, true)
      ensures ok ==> DirSettled(disk, dir)
    {
      ghost var before := disk;
      ok := Stage(dir, name, tmp, i, data, fault);
      if ok && !fault.RenameFails? && NoDirectory(disk, dir, name) {
        Install(before, dir, name, tmp, i, !fault.DirSyncFails?);
        ok := !fault.DirSyncFails?;
      } else {
        Abandon(before, dir, name, tmp, i, fault.NoFault? || fault.CreateFails? || fault.DirSyncFails? || fault.cleaned);
        ok := false;
      }
    }

    ghost predicate TraceSince(n: nat, before: Disk, dir: Option<Id>, tmp: Name, name: Name, data: string)
      reads this
    {
      n <= |trace| && forall k :: n <= k < |trace| ==> OldOrNew(before, trace[k], dir, tmp, name, data)
    }

    /** Atomic at every point, whatever fails; and once it returns true, durable. */
    method WriteFile(at: Path, name: Name, tmp: Name, data: string, fault: WriteFault) returns (ok: bool)
      requires Valid() && tmp != name
      modifies this
      ensures Valid()
      ensures old(trace) <= trace && TraceSince(|old(trace)|, old(disk), DirAt(old(disk), at), tmp, name, data)
      ensures OldOrNew(old(disk), disk, DirAt(old(disk), at), tmp, name, data)
      ensures ok <==> var dir := DirAt(old(disk), at);
        fault.NoFault? && dir.Some? && tmp !in old(disk)[dir.value].now && NoDirectory(old(disk), dir.value, name)
      ensures ok ==> Reads(disk, at + [name]) == Data(data)
      ensures ok && Settled(old(disk), ROOT, at) ==> forall r :: MayRead(disk, at + [name], r) <==> r == Data(data)
      ensures forall x :: x in old(disk) && Some(x) != DirAt(old(disk), at) ==> x in disk && disk[x] == old(disk)[x]
      ensures forall q :: DirAt(old(disk), q).Some? ==>
        DirAt(disk, q) == DirAt(old(disk), q) && (Settled(old(disk), ROOT, q) ==> Settled(disk, ROOT, q))
      ensures var dir := DirAt(old(disk), at); dir.Some? ==>
        (exists i :: Harmless(old(disk), disk, dir.value, tmp, name, i, data)) && (ok ==> DirSettled(disk, dir.value))
    {
      ghost var before := disk;
      var parent := DirAt(disk, at);
      if parent.None? || fault.CreateFails? || tmp in disk[parent.value].now {
        if parent.Some? { assert Harmless(disk, disk, parent.value, tmp, name, next, data); }
        return false;
      }
      var dir, i := parent.value, next;
      next := next + 1;
      ok := Replace(dir, name, tmp, i, data, fault);
      forall k | |old(trace)| <= k < |trace|
        ensures OldOrNew(before, trace[k], parent, tmp, name, data)
      {
        HarmlessOldOrNew(before, trace[k], dir, tmp, name, i, data);
      }
      HarmlessOldOrNew(before, disk, dir, tmp, name, i, data);
      DirsKept(before, disk, dir, tmp, name, i);
      if ok { PublishedReads(disk, at, dir, name, i, data); }
    }

    /** SyncDir: fails on a path that is not there, and when the barrier does. */
    method SyncDir(p: Path, synced: bool) returns (ok: bool)
      requires Valid()
      modifies this`disk, this`trace
      ensures Valid() && ok == (synced && DirAt(old(disk), p).Some?)
      ensures if ok then disk == DirSynced(old(disk), DirAt(old(disk), p).value) else disk == old(disk)
    {
      var dir := DirAt(disk, p);
      if dir.None? || !synced { return false; }
      assert forall n :: Possible(DirSynced(disk, dir.value)[dir.value], n) <= Possible(disk[dir.value], n);
      Publish(DirSynced(disk, dir.value));
      return true;
    }

    /** os.MkdirAll; `fails(k)`: creating the name at depth `k` fails. What it has to make is
        empty, and where nothing is missing nothing changes. */
    method MakeDirs(p: Path, fails: nat -> bool) returns (ok: bool)
      requires Valid()
      modifies this
      ensures Valid() && Grown(old(disk), disk)
      ensures ok <==> CanMake(old(disk), p, |p|, fails)
      ensures ok ==> DirAt(disk, p).Some? && if DirAt(old(disk), p).Some? then disk == old(disk) else disk[DirAt(disk, p).value].now == map[]
    {
      var x := ROOT;
      assert p[..0] == [];
      for k := 0 to |p|
        invariant Valid() && Grown(old(disk), disk) && CanMake(old(disk), p, k, fails)
        invariant Walk(disk, ROOT, p[..k]) == Some(x) && IsDir(disk, x)
        invariant if Walk(old(disk), ROOT, p[..k]).Some? then disk == old(disk) else disk[x].now == map[]
      {
        ghost var before := disk;
        OneMore(disk, p, k, x);
        if Walk(old(disk), ROOT, p[..k]).None? { StillMissing(old(disk), p, k); }
        if p[k] in disk[x].now {
          var y := disk[x].now[p[k]];
          assert Some(y) in Possible(disk[x], p[k]);
          assert CanMakeAt(old(disk), p, k, fails) <==> disk[y].Dir?;
          if disk[y].File? { return false; }
          x := y;
        } else {
          assert CanMakeAt(old(disk), p, k, fails) <==> !fails(k);
          if fails(k) { return false; }
          var y := next;
          MakeDirStays(disk, x, p[k], y);
          next := next + 1;
          Publish(Bound(disk[y := Dir(map[], map[])], x, p[k], Some(y)));
          GrownWay(before, disk, ROOT, p[..k]);
          OneMore(disk, p, k, x);
          x := y;
        }
      }
      assert p[..|p|] == p;
      return true;
    }

    /** SyncDir on every ancestor, from the nearest up to the root. */
    method SyncAncestors(p: Path, synced: nat -> bool) returns (ok: bool)
      requires Valid() && DirAt(disk, p).Some?
      modifies this`disk, this`trace
      ensures Valid() && SameTree(old(disk), disk) && Firmer(old(disk), disk) && DirAt(disk, p) == DirAt(old(disk), p)
      ensures ok <==> AllSynced(synced, 0, |p|)
      ensures ok ==> SettledFrom(disk, ROOT, p, 0)
    {
      ghost var made := disk;
      var k: nat := |p|;
      ok := true;
      while k > 0 && ok
        invariant k <= |p| && Valid() && Firmer(made, disk) && Walk(disk, ROOT, p).Some?
        invariant ok ==> SettledFrom(disk, ROOT, p, k)
        invariant ok <==> AllSynced(synced, k, |p|)
      {
        k := k - 1;
        SyncSettles(made, disk, p, k);
        ok := SyncDir(p[..k], synced(k));
      }
      SameWay(made, disk, ROOT, p);
    }

    /** MkdirAll: create what is missing, then sync every ancestor up to the root. */
    method MkdirAll(p: Path, fails: nat -> bool, synced: nat -> bool) returns (ok: bool)
      requires Valid()
      modifies this
      ensures Valid()
      ensures forall q :: !old(Reads(disk, q)).Nothing? ==> Reads(disk, q) == old(Reads(disk, q))
      ensures ok <==> CanMake(old(disk), p, |p|, fails) && AllSynced(synced, 0, if p == [] then 1 else |p|)
      ensures ok ==> DirAt(disk, p).Some? && Settled(disk, ROOT, p) && SettledFrom(disk, ROOT, p, 0)
      ensures ok ==> if DirAt(old(disk), p).Some? then SameTree(old(disk), disk) else disk[DirAt(disk, p).value].now == map[]
      ensures DirAt(old(disk), p).Some? ==> Firmer(old(disk), disk)
    {
      ghost var before := disk;
      if DirAt(disk, p).Some? { AllDirs(disk, p, fails); }
      ok := MakeDirs(p, fails);
      ghost var made := disk;
      GrownReads(before, made);
      if !ok { return; }
      if p == [] {
        ok := SyncDir(p, synced(0));
        SameReads(made, disk);
        return;
      }
      ok := SyncAncestors(p, synced);
      SameReads(made, disk);
      if ok { SettledDirsMakeWay(disk, ROOT, p); }
    }

    /** saveOperation: the receipt's directory, then the receipt. Once the directory is made
        durable so is every entry of the directory above it, privd's ledger. */
    method SaveOperation(ledger: Path, ops: Name, name: Name, tmp: Name, data: string,
                         fails: nat -> bool, synced: nat -> bool, fault: WriteFault) returns (settled: bool, ok: bool)
      requires Valid() && tmp != name
      modifies this
      ensures Valid() && (settled <==> CanMake(old(disk), ledger + [ops], |ledger| + 1, fails) && AllSynced(synced, 0, |ledger| + 1))
      ensures ok <==> settled && fault.NoFault? && Replaceable(old(disk), ledger + [ops], tmp, name)
      ensures ok ==> Reads(disk, ledger + [ops, name]) == Data(data)
      ensures ok ==> forall r :: MayRead(disk, ledger + [ops, name], r) <==> r == Data(data)
      ensures settled ==> var x := Walk(disk, ROOT, ledger);
        x.Some? && (x != Walk(disk, ROOT, ledger + [ops]) ==> DirSettled(disk, x.value))
      ensures var x := DirAt(old(disk), ledger + [ops]); x.Some? ==>
        && (exists i :: Rewritten(old(disk), disk, x.value, tmp, name, i, data)) && (ok ==> DirSettled(disk, x.value))
        && (!settled ==> Firmer(old(disk), disk)) && WaysKept(old(disk), disk)
    {
      var dir := ledger + [ops];
      ghost var before, here := disk, DirAt(disk, ledger + [ops]);
      settled := MkdirAll(dir, fails, synced);
      if here.Some? { FirmWays(before, disk); }
      if !settled {
        if here.Some? { StillRewritten(before, disk, here.value, tmp, name, next, data); }
        return false, false;
      }
      ghost var mid := disk;
      MadeReplaceable(before, disk, dir, tmp, name);
      assert dir[..|ledger|] == ledger;
      assert DirAt(disk, ledger).Some?;
      ok := WriteFile(dir, name, tmp, data, fault);
      assert dir + [name] == ledger + [ops, name];
      if here.Some? {
        ghost var i :| Harmless(mid, disk, here.value, tmp, name, i, data);
        FirmThenRewritten(before, mid, disk, here.value, tmp, name, i, data);
      }
    }

    /** Remove: an absent path is no error, and takes no barrier. */
    method Remove(at: Path, name: Name, unlinked: bool, synced: bool) returns (ok: bool)
      requires Valid()
      modifies this`disk, this`trace
      ensures Valid()
      ensures ok ==> Reads(disk, at + [name]).Nothing?
      ensures var dir := DirAt(old(disk), at);
        if dir.None? || name !in old(disk)[dir.value].now then ok && disk == old(disk)
        else if !unlinked then !ok && disk == old(disk)
        else if !synced then !ok && disk == Bound(old(disk), dir.value, name, None)
        else NoDirectory(old(disk), dir.value, name) ==> ok
      ensures var dir := DirAt(old(disk), at);
        ok && dir.Some? && Settled(old(disk), ROOT, at) ==>
          ((forall r :: MayRead(disk, at + [name], r) ==> r.Nothing?)
            <==> name in old(disk)[dir.value].now || Possible(old(disk)[dir.value], name) == {None})
    {
      WalkJoined(disk, ROOT, at, [name]);
      var dir := DirAt(disk, at);
      if dir.None? || name !in disk[dir.value].now {
        if dir.Some? { StillAbsent(disk, at, name, dir.value); }
        return true;
      }
      if !unlinked { return false; }
      ghost var before := disk;
      UnlinkPrunes(disk, dir.value, name);
      Publish(Bound(disk, dir.value, name, None));
      UnlinkedWay(before, disk, at, name, dir.value);
      if NoDirectory(before, dir.value, name) { FileOffTheWay(before, dir.value, name, ROOT, at); }
      ok := SyncDir(at, synced);
      if ok { RemovedForGood(before, disk, at, name, dir.value); }
    }

    /** RemoveAll: `after` is what os.RemoveAll leaves, `removed` its result. When it returns
        true, `k` says which ancestor of the path took the barrier: the nearest one there. */
    method RemoveAll(p: Path, after: Disk, removed: bool, synced: bool) returns (ok: bool, ghost k: nat)
      requires Valid() && Pruned(disk, after)
      requires removed ==> Walk(after, ROOT, p).None?
      requires removed ==> forall j :: 0 <= j < |p| && Walk(after, ROOT, p[..j]).Some? ==> IsDir(after, Walk(after, ROOT, p[..j]).value)
      modifies this`disk, this`trace
      ensures Valid()
      ensures forall q, r :: MayRead(disk, q, r) ==> MayRead(old(disk), q, r) || r.Nothing?
      ensures ok <==> removed && synced
      ensures ok ==> k < |p| && Walk(after, ROOT, p[..k]).Some? && forall j :: k < j <= |p| ==> Walk(after, ROOT, p[..j]).None?
      ensures ok ==> Reads(disk, p).Nothing?
      ensures ok && Settled(old(disk), ROOT, p[..k]) ==> forall r :: MayRead(disk, p, r) ==> r.Nothing?
    {
      ghost var before := disk;
      Publish(after);
      PrunedStaysClosed(before, after);
      forall q, r | MayRead(disk, q, r)
        ensures MayRead(before, q, r) || r.Nothing?
      {
        PrunedReads(before, after, q, r);
      }
      if !removed { return false, 0; }
      var n := |p|;
      assert p[..n] == p && p[..0] == [] && Walk(after, ROOT, p[..0]) == Some(ROOT);
      while n > 0
        invariant n <= |p| && disk == after && Valid()
        invariant forall j :: n <= j <= |p| ==> Walk(after, ROOT, p[..j]).None?
      {
        n := n - 1;
        var parent := DirAt(disk, p[..n]);
        if parent.Some? {
          ok := SyncDir(p[..n], synced);
          k := n;
          if ok {
            SyncedReads(before, after, parent.value);
            RemovedUpTo(before, after, p, n, parent.value);
          }
          return;
        }
      }
      assert false;
    }
  }

  /** The first `n` names of `p` are directories, or missing and can be made. */
  predicate CanMake(d: Disk, p: Path, n: nat, fails: nat -> bool)
    requires n <= |p|
  {
    forall k :: 0 <= k < n ==> CanMakeAt(d, p, k, fails)
  }

  predicate CanMakeAt(d: Disk, p: Path, k: nat, fails: nat -> bool)
    requires k < |p|
  {
    var w := Walk(d, ROOT, p[..k + 1]);
    if w.Some? then IsDir(d, w.value) else !fails(k)
  }

  predicate AllSynced(synced: nat -> bool, from: nat, to: nat) { forall k :: from <= k < to ==> synced(k) }

  /** A missing directory has nothing in it. */
  lemma StillMissing(d: Disk, p: Path, k: nat)
    requires k < |p| && Walk(d, ROOT, p[..k]).None?
    ensures Walk(d, ROOT, p[..k + 1]).None?
  {
    assert p[..k + 1] == p[..k] + [p[k]];
    WalkJoined(d, ROOT, p[..k], [p[k]]);
  }

  /** In the directory at `p`, if there is one, `tmp` is free and `name` is no directory. */
  predicate Replaceable(d: Disk, p: Path, tmp: Name, name: Name) {
    var dir := DirAt(d, p);
    dir.Some? ==> tmp !in d[dir.value].now && NoDirectory(d, dir.value, name)
  }

  lemma MadeReplaceable(before: Disk, d: Disk, p: Path, tmp: Name, name: Name)
    requires DirAt(d, p).Some?
    requires if DirAt(before, p).Some? then SameTree(before, d) else d[DirAt(d, p).value].now == map[]
    ensures Replaceable(d, p, tmp, name) <==> Replaceable(before, p, tmp, name)
  {
    if DirAt(before, p).Some? { SameWay(before, d, ROOT, p); }
  }

  lemma MakeDirStays(d: Disk, x: Id, n: Name, y: Id)
    requires Closed(d) && IsDir(d, x) && n !in d[x].now && y !in d
    ensures var d' := Bound(d[y := Dir(map[], map[])], x, n, Some(y)); Closed(d') && Grown(d, d')
  {
  }

  lemma GrownReads(d: Disk, d': Disk)
    requires Grown(d, d')
    ensures forall q :: !Reads(d, q).Nothing? ==> Reads(d', q) == Reads(d, q)
  {
    forall q | !Reads(d, q).Nothing?
      ensures Reads(d', q) == Reads(d, q)
    {
      GrownWay(d, d', ROOT, q);
    }
  }

  /** The same tree to a reader; only what a crash may do differs. */
  ghost predicate SameTree(d: Disk, d': Disk) {
    && d'.Keys == d.Keys
    && forall x :: x in d ==> if d[x].File? then d'[x] == d[x] else d'[x].Dir? && d'[x].now == d[x].now
  }

  /** The same tree, of which a crash can leave no more than before. */
  ghost predicate Firmer(d: Disk, d': Disk) {
    SameTree(d, d') && forall x, n :: IsDir(d, x) ==> Possible(d'[x], n) <= Possible(d[x], n)
  }

  /** Directories stay where they are, on ways as settled as before. */
  ghost predicate WaysKept(d: Disk, d': Disk) {
    forall q :: DirAt(d, q).Some? ==> DirAt(d', q) == DirAt(d, q) && (Settled(d, ROOT, q) ==> Settled(d', ROOT, q))
  }

  lemma {:induction false} FirmWay(d: Disk, d': Disk, x: Id, p: Path)
    requires Firmer(d, d')
    ensures Walk(d', x, p) == Walk(d, x, p) && (Settled(d, x, p) ==> Settled(d', x, p))
    decreases |p|
  {
    if p != [] && IsDir(d, x) && p[0] in d[x].now { FirmWay(d, d', d[x].now[p[0]], p[1..]); }
  }

  lemma FirmWays(d: Disk, d': Disk)
    requires Firmer(d, d')
    ensures WaysKept(d, d')
  {
    forall q | DirAt(d, q).Some?
      ensures DirAt(d', q) == DirAt(d, q) && (Settled(d, ROOT, q) ==> Settled(d', ROOT, q))
    {
      FirmWay(d, d', ROOT, q);
    }
  }

  /** From `d` to `d'` some directories became firmer, and `dir` may have gained the complete
      file `i` under `name` and anything under `tmp`. */
  ghost predicate Rewritten(d: Disk, d': Disk, dir: Id, tmp: Name, name: Name, i: Id, data: string) {
    && i !in d && IsDir(d, dir)
    && (forall x :: x in d ==> x in d' && if d[x].File? then d'[x] == d[x] else d'[x].Dir?)
    && (forall x, n, b :: IsDir(d, x) && b in Possible(d'[x], n) && !(x == dir && n == tmp) ==>
          b in Possible(d[x], n) || (x == dir && n == name && b == Some(i)))
    && (forall x, n :: IsDir(d, x) && !(x == dir && n == tmp) ==>
          Lookup(d'[x].now, n) == Lookup(d[x].now, n) || (x == dir && n == name && Lookup(d'[x].now, n) == Some(i)))
    && (Some(i) in Possible(d'[dir], name) ==> i in d' && d'[i] == File(data, true) && Lookup(d'[dir].now, name) == Some(i))
  }

  lemma StillRewritten(d: Disk, d': Disk, dir: Id, tmp: Name, name: Name, i: Id, data: string)
    requires Closed(d) && Firmer(d, d') && IsDir(d, dir) && i !in d
    ensures Rewritten(d, d', dir, tmp, name, i, data)
  {
  }

  lemma FirmThenRewritten(d: Disk, mid: Disk, d': Disk, dir: Id, tmp: Name, name: Name, i: Id, data: string)
    requires Firmer(d, mid) && IsDir(d, dir) && Harmless(mid, d', dir, tmp, name, i, data)
    ensures Rewritten(d, d', dir, tmp, name, i, data)
  {
  }

  /** Where a directory leads to is made of directories. */
  lemma AllDirs(d: Disk, p: Path, fails: nat -> bool)
    requires DirAt(d, p).Some?
    ensures CanMake(d, p, |p|, fails)
  {
    forall k | 0 <= k < |p|
      ensures CanMakeAt(d, p, k, fails)
    {
      if k + 1 < |p| { PrefixIsDir(d, p, k + 1); } else { assert p[..k + 1] == p; }
    }
  }

  lemma {:induction false} SameWay(d: Disk, d': Disk, x: Id, p: Path)
    requires SameTree(d, d')
    ensures Walk(d', x, p) == Walk(d, x, p)
    decreases |p|
  {
    if p != [] && IsDir(d, x) && p[0] in d[x].now { SameWay(d, d', d[x].now[p[0]], p[1..]); }
  }

  lemma SameReads(d: Disk, d': Disk)
    requires SameTree(d, d')
    ensures forall q :: Reads(d', q) == Reads(d, q)
  {
    forall q
      ensures Reads(d', q) == Reads(d, q)
    {
      SameWay(d, d', ROOT, q);
    }
  }

  lemma FirmSynced(made: Disk, d: Disk, x: Id)
    requires Firmer(made, d) && IsDir(d, x)
    ensures Firmer(made, DirSynced(d, x))
  {
    assert forall n :: Lookup(d[x].now, n) in Possible(d[x], n);
  }

  /** Syncing one more ancestor leaves those already synced settled. */
  lemma SyncSettles(made: Disk, d: Disk, p: Path, k: nat)
    requires Firmer(made, d) && k < |p| && Walk(d, ROOT, p).Some? && SettledFrom(d, ROOT, p, k + 1)
    ensures Walk(d, ROOT, p[..k]).Some? && IsDir(d, Walk(d, ROOT, p[..k]).value)
    ensures var d' := DirSynced(d, Walk(d, ROOT, p[..k]).value);
      Firmer(made, d') && SettledFrom(d', ROOT, p, k) && Walk(d', ROOT, p) == Walk(d, ROOT, p)
  {
    PrefixIsDir(d, p, k);
    var x := Walk(d, ROOT, p[..k]).value;
    var d' := DirSynced(d, x);
    FirmSynced(made, d, x);
    SyncKeepsWay(d, x, ROOT, p);
    forall j | k <= j < |p|
      ensures Walk(d', ROOT, p[..j]).Some? && DirSettled(d', Walk(d', ROOT, p[..j]).value)
    {
      PrefixIsDir(d, p, j);
      SyncKeepsWay(d, x, ROOT, p[..j]);
    }
  }

  lemma UnlinkPrunes(d: Disk, dir: Id, name: Name)
    requires Closed(d) && IsDir(d, dir)
    ensures Pruned(d, Bound(d, dir, name, None)) && Closed(Bound(d, dir, name, None))
  {
  }

  lemma PrunedStaysClosed(d: Disk, d': Disk)
    requires Closed(d) && Pruned(d, d')
    ensures Closed(d')
  {
    forall x, n, y | IsDir(d', x) && Some(y) in Possible(d'[x], n)
      ensures y in d'
    {
      assert IsDir(d, x) && Some(y) in Possible(d[x], n);
    }
  }

  lemma SyncedReads(before: Disk, d: Disk, x: Id)
    requires Pruned(before, d) && IsDir(d, x)
    ensures forall q, r :: MayRead(DirSynced(d, x), q, r) ==> MayRead(before, q, r) || r.Nothing?
  {
    var e := DirSynced(d, x);
    forall q, r | MayRead(e, q, r)
      ensures MayRead(before, q, r) || r.Nothing?
    {
      var b :| MayReach(e, ROOT, q, b) && ReadsAs(e, b, r);
      SyncedReach(d, x, ROOT, q, b);
      assert ReadsAs(d, b, r);
      PrunedReads(before, d, q, r);
    }
  }

  lemma {:induction false} SyncedReach(d: Disk, x: Id, y: Id, p: Path, b: Option<Id>)
    requires IsDir(d, x) && MayReach(DirSynced(d, x), y, p, b)
    ensures MayReach(d, y, p, b)
    decreases |p|
  {
    var e := DirSynced(d, x);
    if p != [] && IsDir(e, y) {
      var c :| c in Possible(e[y], p[0]) && MayGoOn(e, c, p, b);
      if c.Some? { SyncedReach(d, x, c.value, p[1..], b); }
      assert c in Possible(d[y], p[0]) && MayGoOn(d, c, p, b);
    }
  }

  lemma RemovedUpTo(before: Disk, after: Disk, p: Path, n: nat, x: Id)
    requires Pruned(before, after) && n < |p| && Walk(after, ROOT, p[..n]) == Some(x) && IsDir(after, x)
    requires Walk(after, ROOT, p[..n + 1]).None? && Closed(after)
    ensures Reads(DirSynced(after, x), p).Nothing?
    ensures Settled(before, ROOT, p[..n]) ==> forall r :: MayRead(DirSynced(after, x), p, r) ==> r.Nothing?
  {
    var e := DirSynced(after, x);
    assert p[..n + 1] == p[..n] + [p[n]];
    WalkJoined(after, ROOT, p[..n], [p[n]]);
    assert [p[n]][1..] == [];
    assert p[n] in after[x].now ==> Some(after[x].now[p[n]]) in Possible(after[x], p[n]);
    SyncKeepsWay(after, x, ROOT, p[..n]);
    assert p == p[..n] + p[n..] && p[n..][0] == p[n];
    WalkJoined(e, ROOT, p[..n], p[n..]);
    if Settled(before, ROOT, p[..n]) {
      PrunedWay(before, after, ROOT, p[..n]);
      AbsentForGood(e, p, n, x);
    }
  }

  lemma StillAbsent(d: Disk, at: Path, name: Name, dir: Id)
    requires Closed(d) && Walk(d, ROOT, at) == Some(dir) && IsDir(d, dir) && name !in d[dir].now
    ensures Settled(d, ROOT, at) ==>
      ((forall r :: MayRead(d, at + [name], r) ==> r.Nothing?) <==> Possible(d[dir], name) == {None})
  {
    if Settled(d, ROOT, at) {
      forall b
        ensures MayReach(d, ROOT, at + [name], b) <==> b in Possible(d[dir], name)
      {
        SettledReach(d, ROOT, at, [name], dir, b);
        LastName(d, dir, name, b);
      }
      if b :| b in Possible(d[dir], name) && b.Some? {
        var r := if d[b.value].File? then Data(d[b.value].data) else Reading.Directory;
        assert ReadsAs(d, b, r);
        assert MayRead(d, at + [name], r);
      } else {
        assert Possible(d[dir], name) == {None};
      }
    }
  }

  /** No way to a directory leads through a file. */
  lemma {:induction false} FileOffTheWay(d: Disk, dir: Id, name: Name, x: Id, p: Path)
    requires Walk(d, x, p) == Some(dir) && NoDirectory(d, dir, name)
    ensures Walk(Bound(d, dir, name, None), x, p) == Some(dir)
    decreases |p|
  {
    if p != [] { FileOffTheWay(d, dir, name, d[x].now[p[0]], p[1..]); }
  }

  /** Remove of any file whose unlink works and whose sync fails, and then Remove again: the
      second returns nil without a barrier, readers find nothing, and a crash may still bring
      the file back with its bytes. */
  method AbsentButNotGone(fs: FileSystem, at: Path, name: Name, data: string) returns (first: bool, second: bool)
    requires fs.Valid() && Settled(fs.disk, ROOT, at) && Reads(fs.disk, at + [name]) == Data(data) && DirAt(fs.disk, at).Some?
    modifies fs
    ensures fs.Valid() && !first && second
    ensures Reads(fs.disk, at + [name]).Nothing? && MayRead(fs.disk, at + [name], Data(data))
  {
    ghost var before, dir := fs.disk, DirAt(fs.disk, at).value;
    FoundIn(before, at, name, dir, data);
    first := fs.Remove(at, name, true, false);
    FileOffTheWay(before, dir, name, ROOT, at);
    UnlinkedMayReturn(before, at, name, dir, data);
    second := fs.Remove(at, name, true, true);
  }

  lemma FoundIn(d: Disk, at: Path, name: Name, dir: Id, data: string)
    requires Closed(d) && DirAt(d, at) == Some(dir) && Reads(d, at + [name]) == Data(data)
    ensures name in d[dir].now && d[dir].now[name] in d && d[d[dir].now[name]].File? && d[d[dir].now[name]].data == data
  {
    WalkJoined(d, ROOT, at, [name]);
    assert [name][1..] == [];
  }

  lemma UnlinkedMayReturn(d: Disk, at: Path, name: Name, dir: Id, data: string)
    requires Closed(d) && DirAt(d, at) == Some(dir) && Settled(d, ROOT, at)
    requires name in d[dir].now && d[dir].now[name] in d && d[d[dir].now[name]].File? && d[d[dir].now[name]].data == data
    requires Walk(Bound(d, dir, name, None), ROOT, at) == Some(dir)
    ensures MayRead(Bound(d, dir, name, None), at + [name], Data(data))
  {
    var (u, i) := (Bound(d, dir, name, None), d[dir].now[name]);
    UnlinkPrunes(d, dir, name);
    PrunedWay(d, u, ROOT, at);
    LastName(u, dir, name, Some(i));
    SettledReach(u, ROOT, at, [name], dir, Some(i));
    assert ReadsAs(u, Some(i), Data(data));
  }

  lemma {:induction false} UnlinkedWay(d: Disk, d': Disk, at: Path, name: Name, dir: Id)
    requires Closed(d) && Walk(d, ROOT, at) == Some(dir) && IsDir(d, dir) && d' == Bound(d, dir, name, None)
    ensures Walk(d', ROOT, at).None? || Walk(d', ROOT, at) == Some(dir)
  {
    UnlinkPrunes(d, dir, name);
    if Walk(d', ROOT, at).Some? { PrunedWay(d, d', ROOT, at); }
  }

  lemma RemovedForGood(before: Disk, d: Disk, at: Path, name: Name, dir: Id)
    requires Closed(before) && Walk(before, ROOT, at) == Some(dir) && IsDir(before, dir)
    requires var u := Bound(before, dir, name, None); Walk(u, ROOT, at) == Some(dir) && d == DirSynced(u, dir)
    ensures Reads(d, at + [name]).Nothing?
    ensures Settled(before, ROOT, at) ==> forall r :: MayRead(d, at + [name], r) ==> r.Nothing?
  {
    var u := Bound(before, dir, name, None);
    UnlinkPrunes(before, dir, name);
    assert (at + [name])[..|at|] == at && (at + [name])[..|at| + 1] == at + [name];
    WalkJoined(u, ROOT, at, [name]);
    RemovedUpTo(before, u, at + [name], |at|, dir);
  }
}
