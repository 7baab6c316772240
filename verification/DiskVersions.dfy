/** The two versions of privd's disk, justified by the file tree: saving a receipt and writing
    an entry do to the files what the machine does to its store, and every crash image is one
    the machine may pick. */
module DiskVersions {
  import opened Wire
  import opened FileTree
  import opened Durable
  import Ledger
  import Privd

  /** Where receipts and entries are, and how they are written. */
  datatype Layout = Layout(
    ledger: Path, ops: Name,
    receipt: OpId -> Name, entry: VmId -> Name,
    receiptText: Receipt -> string, entryText: VMEntry -> string)

  /** Different operations and VMs have different files, and a file says what was written. */
  ghost predicate Proper(f: Layout) {
    && (forall a, b :: f.receipt(a) == f.receipt(b) ==> a == b)
    && (forall v, w :: f.entry(v) == f.entry(w) ==> v == w)
    && (forall a, b :: f.receiptText(a) == f.receiptText(b) ==> a == b)
    && (forall a, b :: f.entryText(a) == f.entryText(b) ==> a == b)
  }

  function Read<K, V>(m: map<K, V>, k: K, text: V -> string): Reading {
    if k in m then Data(text(m[k])) else Nothing
  }

  // ---------------------------------------------------------------- one name in a directory

  function ReadsNow(d: Disk, b: Option<Id>): Reading {
    if b.None? || b.value !in d then Nothing else if d[b.value].File? then Data(d[b.value].data) else Directory
  }

  /** The name reads as `seen`, and after a crash as `seen` or `safe`. */
  ghost predicate Shows(d: Disk, x: Id, n: Name, seen: Reading, safe: Reading) {
    && IsDir(d, x) && ReadsNow(d, Lookup(d[x].now, n)) == seen
    && forall b, r :: b in Possible(d[x], n) && ReadsAs(d, b, r) ==> r == seen || r == safe
  }

  /** Nothing new under the name. */
  lemma ShowsKept(d: Disk, d': Disk, x: Id, n: Name, seen: Reading, safe: Reading)
    requires Closed(d) && Shows(d, x, n, seen, safe) && IsDir(d', x)
    requires forall y :: y in d ==> y in d' && if d[y].File? then d'[y] == d[y] else d'[y].Dir?
    requires Possible(d'[x], n) <= Possible(d[x], n) && Lookup(d'[x].now, n) == Lookup(d[x].now, n)
    ensures Shows(d', x, n, seen, safe)
  {
    forall b, r | b in Possible(d'[x], n) && ReadsAs(d', b, r)
      ensures r == seen || r == safe
    {
      if b.Some? { assert b.value in d; }
      assert ReadsAs(d, b, r);
    }
    var now := Lookup(d[x].now, n);
    if now.Some? { assert now in Possible(d[x], n) && now.value in d; }
  }

  /** A synced directory shows only what is seen. */
  lemma SyncedShows(d: Disk, x: Id, n: Name, seen: Reading, safe: Reading)
    requires DirSettled(d, x) && Shows(d, x, n, seen, safe)
    ensures Shows(d, x, n, seen, seen)
  {
    forall b, r | b in Possible(d[x], n) && ReadsAs(d, b, r)
      ensures r == seen
    {
      assert b == Lookup(d[x].now, n);
      if b.Some? && b.value in d && d[b.value].File? && !d[b.value].synced {
        var other := Data(seen.bytes + (if safe.Data? then safe.bytes else "") + "x");
        assert ReadsAs(d, b, other);
        assert false;
      }
    }
  }

  /** The complete new file under its name, if the old versions agreed or the directory is synced. */
  lemma NewShows(d: Disk, d': Disk, x: Id, tmp: Name, n: Name, i: Id, data: string, seen: Reading, safe: Reading)
    requires Closed(d) && Rewritten(d, d', x, tmp, n, i, data) && tmp != n && Shows(d, x, n, seen, safe)
    requires Lookup(d'[x].now, n) == Some(i) && (DirSettled(d', x) || seen == safe)
    ensures Shows(d', x, n, Data(data), if DirSettled(d', x) then Data(data) else safe)
  {
    assert Some(i) in Possible(d'[x], n);
    forall b, r | b in Possible(d'[x], n) && ReadsAs(d', b, r)
      ensures r == Data(data) || (!DirSettled(d', x) && r == safe)
    {
      if b != Some(i) {
        assert b in Possible(d[x], n);
        if b.Some? { assert b.value in d; }
        assert ReadsAs(d, b, r);
      }
    }
  }

  // ---------------------------------------------------------------- the whole store

  /** The files are the store's two versions: `x` is the ledger's directory, `o` the journal's. */
  ghost predicate Represents(f: Layout, d: Disk, x: Id, o: Id, s: Privd.Store) {
    && DirAt(d, f.ledger) == Some(x) && DirAt(d, f.ledger + [f.ops]) == Some(o) && x != o
    && Settled(d, ROOT, f.ledger) && Settled(d, ROOT, f.ledger + [f.ops])
    && (forall op :: Shows(d, o, f.receipt(op), Read(s.seen.receipts, op, f.receiptText), Read(s.safe.receipts, op, f.receiptText)))
    && (forall v :: Shows(d, x, f.entry(v), Read(s.seen.ledger, v, f.entryText), Read(s.safe.ledger, v, f.entryText)))
  }

  /** What a crash leaves, read as receipts and entries. */
  ghost predicate Image(f: Layout, d: Disk, after: Privd.Disk) {
    && (forall op :: MayRead(d, f.ledger + [f.ops] + [f.receipt(op)], Read(after.receipts, op, f.receiptText)))
    && (forall v :: MayRead(d, f.ledger + [f.entry(v)], Read(after.ledger, v, f.entryText)))
  }

  lemma ReadsOneOf(d: Disk, at: Path, x: Id, n: Name, seen: Reading, safe: Reading, r: Reading)
    requires Settled(d, ROOT, at) && Walk(d, ROOT, at) == Some(x) && Shows(d, x, n, seen, safe) && MayRead(d, at + [n], r)
    ensures r == seen || r == safe
  {
    var b :| MayReach(d, ROOT, at + [n], b) && ReadsAs(d, b, r);
    SettledReach(d, ROOT, at, [n], x, b);
    LastName(d, x, n, b);
  }

  /** Each key of `after` reads as in `a` or as in `b`, for texts that say what was written. */
  lemma ReadsPick<K, V>(a: map<K, V>, b: map<K, V>, after: map<K, V>, text: V -> string)
    requires forall x, y :: text(x) == text(y) ==> x == y
    requires forall k :: Read(after, k, text) == Read(a, k, text) || Read(after, k, text) == Read(b, k, text)
    ensures Privd.Picks(a, b, after)
  {
    forall k | k in after
      ensures (k in a && after[k] == a[k]) || (k in b && after[k] == b[k])
    {
      assert Read(after, k, text) == Data(text(after[k]));
    }
    forall k | k in a && k in b
      ensures k in after
    {
      assert Read(after, k, text) != Nothing;
    }
  }

  /** Every crash image is one the machine may pick. */
  lemma ImagesArePicked(f: Layout, d: Disk, x: Id, o: Id, s: Privd.Store, after: Privd.Disk)
    requires Proper(f) && Represents(f, d, x, o, s) && Image(f, d, after)
    ensures Privd.Picks(s.seen.ledger, s.safe.ledger, after.ledger) && Privd.Picks(s.seen.receipts, s.safe.receipts, after.receipts)
  {
    var (t, e) := (f.receiptText, f.entryText);
    forall op
      ensures Read(after.receipts, op, t) == Read(s.seen.receipts, op, t) || Read(after.receipts, op, t) == Read(s.safe.receipts, op, t)
    {
      ReadsOneOf(d, f.ledger + [f.ops], o, f.receipt(op), Read(s.seen.receipts, op, t), Read(s.safe.receipts, op, t), Read(after.receipts, op, t));
    }
    ReadsPick(s.seen.receipts, s.safe.receipts, after.receipts, t);
    forall v
      ensures Read(after.ledger, v, e) == Read(s.seen.ledger, v, e) || Read(after.ledger, v, e) == Read(s.safe.ledger, v, e)
    {
      ReadsOneOf(d, f.ledger, x, f.entry(v), Read(s.seen.ledger, v, e), Read(s.safe.ledger, v, e), Read(after.ledger, v, e));
    }
    ReadsPick(s.seen.ledger, s.safe.ledger, after.ledger, e);
  }

  // ---------------------------------------------------------------- saving a receipt

  /** What a write under the journal's directory leaves alone. */
  lemma OthersKept(f: Layout, d: Disk, d': Disk, x: Id, o: Id, s: Privd.Store, tmp: Name, op: OpId, i: Id, data: string)
    requires Proper(f) && Closed(d) && Represents(f, d, x, o, s) && Rewritten(d, d', o, tmp, f.receipt(op), i, data)
    requires forall q :: f.receipt(q) != tmp
    ensures forall q :: q != op ==>
      Shows(d', o, f.receipt(q), Read(s.seen.receipts, q, f.receiptText), Read(s.safe.receipts, q, f.receiptText))
    ensures forall v :: Shows(d', x, f.entry(v), Read(s.seen.ledger, v, f.entryText), Read(s.safe.ledger, v, f.entryText))
  {
    forall q | q != op
      ensures Shows(d', o, f.receipt(q), Read(s.seen.receipts, q, f.receiptText), Read(s.safe.receipts, q, f.receiptText))
    {
      ShowsKept(d, d', o, f.receipt(q), Read(s.seen.receipts, q, f.receiptText), Read(s.safe.receipts, q, f.receiptText));
    }
    forall v
      ensures Shows(d', x, f.entry(v), Read(s.seen.ledger, v, f.entryText), Read(s.safe.ledger, v, f.entryText))
    {
      ShowsKept(d, d', x, f.entry(v), Read(s.seen.ledger, v, f.entryText), Read(s.safe.ledger, v, f.entryText));
    }
  }

  /** The ledger's directory was synced: its entries have one version. */
  lemma LedgerSynced(f: Layout, d: Disk, x: Id, s: Privd.Store)
    requires DirSettled(d, x)
    requires forall v :: Shows(d, x, f.entry(v), Read(s.seen.ledger, v, f.entryText), Read(s.safe.ledger, v, f.entryText))
    ensures forall v :: Shows(d, x, f.entry(v), Read(s.seen.ledger, v, f.entryText), Read(s.seen.ledger, v, f.entryText))
  {
    forall v
      ensures Shows(d, x, f.entry(v), Read(s.seen.ledger, v, f.entryText), Read(s.seen.ledger, v, f.entryText))
    {
      SyncedShows(d, x, f.entry(v), Read(s.seen.ledger, v, f.entryText), Read(s.safe.ledger, v, f.entryText));
    }
  }

  lemma ReceiptShown(f: Layout, d: Disk, d': Disk, x: Id, o: Id, s: Privd.Store, tmp: Name, rec: Receipt, i: Id, io: Privd.SaveIo)
    requires Proper(f) && Closed(d) && Represents(f, d, x, o, s) && !io.MkdirFailed?
    requires var op := rec.request.opId; Rewritten(d, d', o, tmp, f.receipt(op), i, f.receiptText(rec)) && (forall q :: f.receipt(q) != tmp)
    requires var op := rec.request.opId;
      match io
      case Saved => DirSettled(d', o) && ReadsNow(d', Lookup(d'[o].now, f.receipt(op))) == Data(f.receiptText(rec))
      case WriteFailed(visible) =>
        && (visible <==> Lookup(d'[o].now, f.receipt(op)) == Some(i))
        && (visible ==> Lookup(s.seen.receipts, op) == Lookup(s.safe.receipts, op))
      case MkdirFailed => false
    ensures var s' := Privd.Save(s, io, rec);
      forall q :: Shows(d', o, f.receipt(q), Read(s'.seen.receipts, q, f.receiptText), Read(s'.safe.receipts, q, f.receiptText))
  {
    var (op, s', t) := (rec.request.opId, Privd.Save(s, io, rec), f.receiptText);
    OthersKept(f, d, d', x, o, s, tmp, op, i, t(rec));
    forall q
      ensures Shows(d', o, f.receipt(q), Read(s'.seen.receipts, q, t), Read(s'.safe.receipts, q, t))
    {
      var (seen, safe) := (Read(s.seen.receipts, q, t), Read(s.safe.receipts, q, t));
      if q != op {
        if io.Saved? { SyncedShows(d', o, f.receipt(q), seen, safe); }
      } else if Lookup(d'[o].now, f.receipt(op)) == Some(i) {
        NewShows(d, d', o, tmp, f.receipt(q), i, t(rec), seen, safe);
      } else {
        ShowsKept(d, d', o, f.receipt(q), seen, safe);
        if io.Saved? { SyncedShows(d', o, f.receipt(q), seen, safe); }
      }
    }
  }

  lemma NowRead(d: Disk, at: Path, x: Id, n: Name)
    requires Walk(d, ROOT, at) == Some(x) && IsDir(d, x) && Closed(d)
    ensures Reads(d, at + [n]) == ReadsNow(d, Lookup(d[x].now, n))
  {
    WalkJoined(d, ROOT, at, [n]);
    var p := [n];
    assert p[1..] == [];
    if n in d[x].now { assert Some(d[x].now[n]) in Possible(d[x], n); }
  }

  lemma MkdirFailedKept(f: Layout, d: Disk, d': Disk, x: Id, o: Id, s: Privd.Store)
    requires Closed(d) && Represents(f, d, x, o, s) && Firmer(d, d') && WaysKept(d, d')
    ensures Represents(f, d', x, o, s)
  {
    forall q
      ensures Shows(d', o, f.receipt(q), Read(s.seen.receipts, q, f.receiptText), Read(s.safe.receipts, q, f.receiptText))
    {
      ShowsKept(d, d', o, f.receipt(q), Read(s.seen.receipts, q, f.receiptText), Read(s.safe.receipts, q, f.receiptText));
    }
    forall v
      ensures Shows(d', x, f.entry(v), Read(s.seen.ledger, v, f.entryText), Read(s.safe.ledger, v, f.entryText))
    {
      ShowsKept(d, d', x, f.entry(v), Read(s.seen.ledger, v, f.entryText), Read(s.safe.ledger, v, f.entryText));
    }
  }

  lemma SaveShown(f: Layout, d: Disk, d': Disk, x: Id, o: Id, s: Privd.Store, tmp: Name, rec: Receipt, i: Id, io: Privd.SaveIo)
    requires Proper(f) && Closed(d) && Represents(f, d, x, o, s) && !io.MkdirFailed? && WaysKept(d, d') && DirSettled(d', x)
    requires var op := rec.request.opId; Rewritten(d, d', o, tmp, f.receipt(op), i, f.receiptText(rec)) && (forall q :: f.receipt(q) != tmp)
    requires var op := rec.request.opId;
      match io
      case Saved => DirSettled(d', o) && ReadsNow(d', Lookup(d'[o].now, f.receipt(op))) == Data(f.receiptText(rec))
      case WriteFailed(visible) =>
        && (visible <==> Lookup(d'[o].now, f.receipt(op)) == Some(i))
        && (visible ==> Lookup(s.seen.receipts, op) == Lookup(s.safe.receipts, op))
      case MkdirFailed => false
    ensures Represents(f, d', x, o, Privd.Save(s, io, rec))
  {
    ReceiptShown(f, d, d', x, o, s, tmp, rec, i, io);
    OthersKept(f, d, d', x, o, s, tmp, rec.request.opId, i, f.receiptText(rec));
    LedgerSynced(f, d', x, s);
  }

  /** saveOperation does to the files what Save does to the store, for the outcome it has. A
      write that is visible and failed is one version too many for a receipt whose versions
      already differ. */
  method SaveReceipt(fs: FileSystem, f: Layout, tmp: Name, rec: Receipt, fails: nat -> bool, synced: nat -> bool, fault: WriteFault,
                     ghost x: Id, ghost o: Id, ghost s: Privd.Store)
    returns (io: Privd.SaveIo)
    requires fs.Valid() && Proper(f) && (forall q :: f.receipt(q) != tmp) && Represents(f, fs.disk, x, o, s)
    modifies fs
    ensures fs.Valid() && (io.MkdirFailed? <==> !AllSynced(synced, 0, |f.ledger| + 1))
    ensures io.Saved? <==>
      AllSynced(synced, 0, |f.ledger| + 1) && fault.NoFault? && Replaceable(old(fs.disk), f.ledger + [f.ops], tmp, f.receipt(rec.request.opId))
    ensures (io == Privd.WriteFailed(true) ==> Lookup(s.seen.receipts, rec.request.opId) == Lookup(s.safe.receipts, rec.request.opId))
      ==> Represents(f, fs.disk, x, o, Privd.Save(s, io, rec))
  {
    var (name, data, at) := (f.receipt(rec.request.opId), f.receiptText(rec), f.ledger + [f.ops]);
    var before := fs.disk;
    AllDirs(before, at, fails);
    var settled, ok := fs.SaveOperation(f.ledger, f.ops, name, tmp, data, fails, synced, fault);
    if !settled {
      MkdirFailedKept(f, before, fs.disk, x, o, s);
      return Privd.MkdirFailed;
    }
    ghost var i :| Rewritten(before, fs.disk, o, tmp, name, i, data);
    var dir := DirAt(fs.disk, at).value;
    var visible := Lookup(fs.disk[dir].now, name) != Lookup(before[dir].now, name);
    io := if ok then Privd.Saved else Privd.WriteFailed(visible);
    if ok {
      assert at + [name] == f.ledger + [f.ops, name];
      NowRead(fs.disk, at, o, name);
    }
    if io != Privd.WriteFailed(true) || Lookup(s.seen.receipts, rec.request.opId) == Lookup(s.safe.receipts, rec.request.opId) {
      SaveShown(f, before, fs.disk, x, o, s, tmp, rec, i, io);
    }
  }
}
