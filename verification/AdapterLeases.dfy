/** Slots, subnets and the identities that follow from them, over runs. */
module AdapterLeases {
  import opened Wire
  import opened Ledger
  import opened Handlers
  import opened Privd
  import opened PrivdInvariant
  import opened Adapter
  import opened AdapterInvariant
  import opened AdapterPrivdSteps
  import opened AdapterLink

  // ---------------------------------------------------------------- distinct leases

  ghost predicate Sound(m: Manifests, limit: nat) {
    Distinct(m) && InRange(m.seen, limit) && InRange(m.safe, limit)
  }

  /** `x` collides with no manifest but v's own, and agrees with those of v that stay. */
  ghost predicate FitsIn(m: Manifests, v: VmId, x: Manifest, put: PutIo, limit: nat) {
    && x.slot < limit && x.cidr != ""
    && (forall y :: y in m.seen ==> Apart(v, x, y, m.seen[y]))
    && (forall y :: y in m.safe && (y != v || !put.Put?) ==> Apart(v, x, y, m.safe[y]))
  }

  lemma ApartLeft(a: map<VmId, Manifest>, b: map<VmId, Manifest>, v: VmId, x: Manifest)
    requires AllApart(a, b) && forall y :: y in b ==> Apart(v, x, y, b[y])
    ensures AllApart(a[v := x], b)
  {
  }

  lemma ApartRight(a: map<VmId, Manifest>, b: map<VmId, Manifest>, v: VmId, x: Manifest)
    requires AllApart(a, b) && forall y :: y in a ==> Apart(v, x, y, a[y])
    ensures AllApart(a, b[v := x])
  {
  }

  /** The pairs that change when both sides get `x` for `v`. */
  lemma ApartBoth(a: map<VmId, Manifest>, b: map<VmId, Manifest>, v: VmId, x: Manifest)
    requires AllApart(a, b)
    requires forall y :: y in a && y != v ==> Apart(v, x, y, a[y])
    requires forall y :: y in b && y != v ==> Apart(v, x, y, b[y])
    ensures AllApart(a[v := x], b[v := x])
  {
  }

  lemma WriteKeepsSound(m: Manifests, v: VmId, x: Manifest, put: PutIo, limit: nat)
    requires Sound(m, limit) && FitsIn(m, v, x, put, limit)
    ensures Sound(WriteManifest(m, v, x, put), limit)
  {
    ApartBoth(m.seen, m.seen, v, x);
    if put.Put? {
      ApartBoth(m.seen, m.safe, v, x);
      ApartBoth(m.safe, m.safe, v, x);
    } else {
      ApartLeft(m.seen, m.safe, v, x);
    }
  }

  lemma RemoveKeepsSound(m: Manifests, v: VmId, how: Removal, limit: nat)
    requires Sound(m, limit)
    ensures Sound(RemoveManifest(m, v, how), limit)
  {
  }

  lemma SyncKeepsSound(m: Manifests, limit: nat)
    requires Sound(m, limit)
    ensures Sound(Synced(m), limit)
  {
  }

  /** A manifest rewritten with its own slot and subnet. */
  lemma OwnFits(m: Manifests, v: VmId, x: Manifest, put: PutIo, limit: nat)
    requires Sound(m, limit) && v in m.seen && x.slot == m.seen[v].slot && x.cidr == m.seen[v].cidr
    ensures FitsIn(m, v, x, put, limit)
  {
  }

  lemma FreshFits(site: Site, w: World, slot: nat, cidr: string, put: PutIo, undo: Removal)
    requires LeaseInv(site, w) && w.task.Reserving? && w.task.vm !in w.m.seen
    requires SlotFor(w.m.seen, w.task.vm, site.maxSlots, slot) && CidrFor(w.leases, w.task.vm, cidr)
    requires Tidy(w, Launch(Reserve(slot, cidr, put, undo)))
    ensures FitsIn(w.m, w.task.vm, Manifest(slot, cidr, "", 0), put, site.maxSlots)
  {
    var (v, x) := (w.task.vm, Manifest(slot, cidr, "", 0));
    forall y | y in w.m.seen
      ensures Apart(v, x, y, w.m.seen[y])
    {
    }
    forall y | y in w.m.safe && (y != v || !put.Put?)
      ensures Apart(v, x, y, w.m.safe[y])
    {
      if y in w.m.seen { assert Apart(y, w.m.seen[y], y, w.m.safe[y]); }
    }
  }

  lemma ReserveFits(site: Site, w: World, slot: nat, cidr: string, put: PutIo, undo: Removal, w': World)
    requires LeaseInv(site, w) && LaunchStep(site, w, Reserve(slot, cidr, put, undo), w')
    requires Tidy(w, Launch(Reserve(slot, cidr, put, undo)))
    ensures FitsIn(w.m, w.task.vm, Manifest(slot, cidr, "", 0), put, site.maxSlots)
  {
    if w.task.vm in w.m.seen {
      OwnFits(w.m, w.task.vm, Manifest(slot, cidr, "", 0), put, site.maxSlots);
    } else {
      FreshFits(site, w, slot, cidr, put, undo);
    }
  }

  // ---------------------------------------------------------------- steps

  lemma BeginsKeepsLeases(site: Site, w: World, v: VmId, w': World)
    requires LeaseInv(site, w) && LaunchStep(site, w, Begins(v), w')
    ensures LeaseInv(site, w')
  {
    SyncKeepsSound(w.m, site.maxSlots);
  }

  lemma ReserveKeepsLeases(site: Site, w: World, slot: nat, cidr: string, put: PutIo, undo: Removal, w': World)
    requires LeaseInv(site, w) && LaunchStep(site, w, Reserve(slot, cidr, put, undo), w')
    requires Tidy(w, Launch(Reserve(slot, cidr, put, undo)))
    ensures LeaseInv(site, w')
  {
    var (v, x) := (w.task.vm, Manifest(slot, cidr, "", 0));
    ReserveFits(site, w, slot, cidr, put, undo, w');
    WriteKeepsSound(w.m, v, x, put, site.maxSlots);
    RemoveKeepsSound(WriteManifest(w.m, v, x, put), v, undo, site.maxSlots);
  }

  lemma RewriteKeepsLeases(site: Site, w: World, v: VmId, x: Manifest, put: PutIo, w': World)
    requires LeaseInv(site, w) && v in w.m.seen && x.slot == w.m.seen[v].slot && x.cidr == w.m.seen[v].cidr
    requires w'.m == WriteManifest(w.m, v, x, put) && w'.leases == w.leases && !w'.task.Reserving?
    ensures LeaseInv(site, w')
  {
    OwnFits(w.m, v, x, put, site.maxSlots);
    WriteKeepsSound(w.m, v, x, put, site.maxSlots);
  }

  lemma LaunchKeepsLeases(site: Site, w: World, move: LaunchMove, w': World)
    requires LeaseInv(site, w) && LaunchStep(site, w, move, w') && Tidy(w, Launch(move))
    ensures LeaseInv(site, w')
  {
    match move
    case Begins(v) => BeginsKeepsLeases(site, w, v, w');
    case Reserve(slot, cidr, put, undo) => ReserveKeepsLeases(site, w, slot, cidr, put, undo, w');
    case Arm(op, put) =>
      RewriteKeepsLeases(site, w, w.task.vm, w.m.seen[w.task.vm].(startOpId := op, vmmPid := 0), put, w');
    case Disarm(put) =>
      RewriteKeepsLeases(site, w, w.task.vm, w.m.seen[w.task.vm].(startOpId := "", vmmPid := 0), put, w');
    case Record(put) =>
      RewriteKeepsLeases(site, w, w.task.vm, w.m.seen[w.task.vm].(startOpId := w.task.op, vmmPid := w.task.pid), put, w');
    case _ => assert w'.m == w.m && w'.leases == w.leases && !w'.task.Reserving?;
  }

  lemma ResolveKeepsLeases(site: Site, w: World, v: VmId, put: PutIo, next: Task, w': World)
    requires LeaseInv(site, w) && w' == AfterResolve(w, v, put, next) && !next.Reserving?
    ensures LeaseInv(site, w')
  {
    if v in w.m.seen && ResolveStart(w.m.seen[v], w.p.daemon).RecordPid? {
      RewriteKeepsLeases(site, w, v, w.m.seen[v].(vmmPid := ResolveStart(w.m.seen[v], w.p.daemon).pid), put, w');
    }
  }

  lemma ReleaseKeepsLeases(site: Site, w: World, act: ReleaseMove, w': World)
    requires LeaseInv(site, w) && ReleaseStep(w, act, w')
    ensures LeaseInv(site, w')
  {
    match act
    case Resolve(put, again) =>
      ResolveKeepsLeases(site, w, w.task.vm, put, if again then w.task else ReleasingVm(w.task.vm, None), w');
    case SettleStart(v, put) => ResolveKeepsLeases(site, w, v, put, Idle, w');
    case Remove(how) => RemoveKeepsSound(w.m, w.task.vm, how, site.maxSlots);
    case _ => assert w'.m == w.m && w'.leases == w.leases && !w'.task.Reserving?;
  }

  lemma CutKeepsLeases(site: Site, w: World, boot: string, disk: Disk, manifests: map<VmId, Manifest>)
    requires LeaseInv(site, w) && Picks(w.m.seen, w.m.safe, manifests)
    ensures LeaseInv(site, AfterCut(w, boot, disk, manifests))
  {
  }

  lemma RestoreKeepsLeases(site: Site, w: World, claims: LeaseMap, after: LeaseMap)
    requires LeaseInv(site, w) && w.task.Idle? && PartlyMerged(w.leases, Cidrs(w.m.seen), claims, after)
    requires forall v :: v in claims ==> claims[v] != ""
    ensures LeaseInv(site, w.(leases := after))
  {
  }

  lemma RestoreFailsKeepsLeases(site: Site, w: World, after: LeaseMap, w': World)
    requires LeaseInv(site, w) && WorldNext(site, w, RestoreFails(after), w')
    ensures LeaseInv(site, w')
  {
    var claims :| PartlyMerged(w.leases, Cidrs(w.m.seen), claims, after)
      && (claims == map[] || (w.p.daemon.Up? && NetworkLeases(w.p.daemon, w.p.disk.seen.ledger) == Leases(claims)));
    RestoreKeepsLeases(site, w, claims, after);
  }

  lemma StepKeepsLeases(site: Site, w: World, step: WorldStep, w': World)
    requires LeaseInv(site, w) && WorldNext(site, w, step, w') && Tidy(w, step)
    ensures LeaseInv(site, w')
  {
    match step
    case Launch(move) => LaunchKeepsLeases(site, w, move, w');
    case Release(act) => ReleaseKeepsLeases(site, w, act, w');
    case PowerCut(boot, disk, manifests) => CutKeepsLeases(site, w, boot, disk, manifests);
    case SyncVms => SyncKeepsSound(w.m, site.maxSlots);
    case RestoreFails(after) => RestoreFailsKeepsLeases(site, w, after, w');
    case _ =>
  }

  /** Where no directory lacks its manifest, nothing can come back. */
  ghost predicate Sweeping(w: World) { w.task.Reserving? ==> w.m.bare == {} }

  lemma SweptIsTidy(site: Site, w: World, step: WorldStep, w': World)
    requires Counted(w) && Sweeping(w) && WorldNext(site, w, step, w') && Swept(w, step)
    ensures Tidy(w, step) && Sweeping(w')
  {
    match step
    case Launch(move) =>
    case Release(act) =>
    case _ =>
  }

  // ---------------------------------------------------------------- identities

  lemma StartsPresent(w: World)
    requires StartsOwned(w) && Bare(w)
    ensures Manifested(w, StartVm)
  {
  }

  lemma NetsPresent(w: World)
    requires NetsOwned(w)
    ensures Manifested(w, AllocateNetwork)
  {
  }

  /** The entry a claim writes is what its request asked for, and the others keep that half. */
  lemma WriteMatches(site: Site, p: State, put: PutIo, p': State, m: map<VmId, Manifest>, verb: Verb)
    requires RunningInv(p) && Next(site.privd, p, WriteLedger(put), p') && Claims(verb)
    requires BooksMatch(site, p.disk.seen.ledger, m, verb) && BooksMatch(site, p.disk.safe.ledger, m, verb)
    requires var req := p.daemon.exec.value.req;
      req.verb == verb && Target(req) in m ==> ClaimOf(site, req, m[Target(req)])
    ensures BooksMatch(site, p'.disk.seen.ledger, m, verb) && BooksMatch(site, p'.disk.safe.ledger, m, verb)
  {
  }

  lemma PeerKeepsBooks(site: Site, w: World, ps: Step, w': World, m: map<VmId, Manifest>, verb: Verb)
    requires RunningInv(w.p) && PeerStep(site, w, ps, w') && Claims(verb)
    requires BooksMatch(site, w.p.disk.seen.ledger, m, verb) && BooksMatch(site, w.p.disk.safe.ledger, m, verb)
    requires forall req :: Live(w, req) && req.verb == verb && Target(req) in m ==> ClaimOf(site, req, m[Target(req)])
    ensures BooksMatch(site, w'.p.disk.seen.ledger, m, verb) && BooksMatch(site, w'.p.disk.safe.ledger, m, verb)
  {
    if ps.WriteLedger? {
      var req := w.p.daemon.exec.value.req;
      assert LiveInPrivd(w.p, req);
      WriteMatches(site, w.p, ps.put, w'.p, m, verb);
    } else {
      LedgerSettles(site.privd, w.p, ps, w'.p);
    }
  }

  lemma PeerKeepsIds(site: Site, w: World, ps: Step, w': World, verb: Verb)
    requires Inv(w.p) && Distinct(w.m) && Manifested(w, verb) && IdsInv(site, w, verb) && Claims(verb) && PeerStep(site, w, ps, w')
    ensures IdsInv(site, w', verb)
  {
    LiveKept(site, w, ps, w');
    forall req | Live(w, req) && req.verb == verb && Target(req) in w.m.safe
      ensures ClaimOf(site, req, w.m.safe[Target(req)])
    {
      var v := Target(req);
      assert Apart(v, w.m.seen[v], v, w.m.safe[v]);
    }
    PeerKeepsBooks(site, w, ps, w', w.m.seen, verb);
    PeerKeepsBooks(site, w, ps, w', w.m.safe, verb);
  }

  predicate SameLease(x: Manifest, y: Manifest) { x.slot == y.slot && x.cidr == y.cidr }

  /** Every lease in `m` is one there was, or of a VM that holds nothing in the ledger. */
  ghost predicate Inherits(w: World, m: map<VmId, Manifest>, verb: Verb) {
    forall v :: v in m ==>
      || (v in w.m.seen && SameLease(m[v], w.m.seen[v])) || (v in w.m.safe && SameLease(m[v], w.m.safe[v]))
      || (HalfClear(w.p.disk.seen.ledger, v, verb) && HalfClear(w.p.disk.safe.ledger, v, verb))
  }

  lemma InheritedMatch(site: Site, w: World, m: map<VmId, Manifest>, verb: Verb)
    requires IdsInv(site, w, verb) && Claims(verb) && Inherits(w, m, verb)
    ensures BooksMatch(site, w.p.disk.seen.ledger, m, verb) && BooksMatch(site, w.p.disk.safe.ledger, m, verb)
  {
  }

  /** A VM's visible lease changes only when nothing of it is on its way. */
  ghost predicate ClaimsKept(w: World, w': World, verb: Verb) {
    && (forall req :: Live(w', req) && req.verb == verb ==> Live(w, req))
    && (forall v :: v in w'.m.seen ==> (v in w.m.seen && SameLease(w'.m.seen[v], w.m.seen[v])) || NoLive(w, v, verb))
  }

  lemma AdapterKeepsIds(site: Site, w: World, w': World, verb: Verb)
    requires IdsInv(site, w, verb) && Claims(verb) && SamePrivd(w, w')
    requires Inherits(w, w'.m.seen, verb) && Inherits(w, w'.m.safe, verb) && ClaimsKept(w, w', verb)
    ensures IdsInv(site, w', verb)
  {
    InheritedMatch(site, w, w'.m.seen, verb);
    InheritedMatch(site, w, w'.m.safe, verb);
  }

  lemma ReserveInherits(w: World, v: VmId, x: Manifest, put: PutIo, undo: Removal, verb: Verb)
    requires Manifested(w, verb) && (v in w.m.seen ==> SameLease(x, w.m.seen[v]))
    ensures var m := WriteManifest(w.m, v, x, put); Inherits(w, m.seen, verb) && Inherits(w, m.safe, verb)
    ensures var m := RemoveManifest(WriteManifest(w.m, v, x, put), v, undo); Inherits(w, m.seen, verb) && Inherits(w, m.safe, verb)
  {
    assert v !in w.m.seen ==> Missing(w.m, v);
  }

  lemma ReserveKeepsIds(site: Site, w: World, slot: nat, cidr: string, put: PutIo, undo: Removal, w': World, verb: Verb)
    requires Manifested(w, verb) && IdsInv(site, w, verb) && Claims(verb)
    requires w.task.Reserving? && w' == AfterReserve(w, slot, cidr, put, undo)
    requires w.task.vm in w.m.seen ==> SameLease(Manifest(slot, cidr, "", 0), w.m.seen[w.task.vm])
    ensures IdsInv(site, w', verb)
  {
    var v := w.task.vm;
    ReserveInherits(w, v, Manifest(slot, cidr, "", 0), put, undo, verb);
    assert forall req :: Live(w', req) <==> Live(w, req);
    assert v !in w.m.seen ==> NoLive(w, v, verb);
    AdapterKeepsIds(site, w, w', verb);
  }

  /** No VM's lease changes. */
  ghost predicate KeepsLeases(m: Manifests, m': Manifests) {
    && (forall v :: v in m'.seen ==> v in m.seen && SameLease(m'.seen[v], m.seen[v]))
    && (forall v :: v in m'.safe ==>
          (v in m.seen && SameLease(m'.safe[v], m.seen[v])) || (v in m.safe && SameLease(m'.safe[v], m.safe[v])))
  }

  lemma LaunchLeases(site: Site, w: World, move: LaunchMove, w': World)
    requires LaunchStep(site, w, move, w') && !move.Reserve?
    ensures KeepsLeases(w.m, w'.m)
  {
  }

  lemma ReleaseLeases(w: World, act: ReleaseMove, w': World)
    requires ReleaseStep(w, act, w')
    ensures KeepsLeases(w.m, w'.m)
  {
  }

  lemma KeptLeasesKeepIds(site: Site, w: World, w': World, verb: Verb)
    requires IdsInv(site, w, verb) && Claims(verb) && SamePrivd(w, w') && KeepsLeases(w.m, w'.m)
    requires forall req :: Live(w', req) ==> Live(w, req)
    ensures IdsInv(site, w', verb)
  {
    AdapterKeepsIds(site, w, w', verb);
  }

  /** The request a launch sends asks for what its manifest leases. */
  lemma PostKeepsIds(site: Site, w: World, w': World, req: Request, verb: Verb)
    requires IdsInv(site, w, verb) && SamePrivd(w, w') && w'.m == w.m
    requires forall r :: Live(w', r) <==> Live(w, r) || r == req
    requires Target(req) in w.m.seen && ClaimOf(site, req, w.m.seen[Target(req)])
    ensures IdsInv(site, w', verb)
  {
  }

  lemma AskNetKeepsIds(site: Site, w: World, op: OpId, w': World, verb: Verb)
    requires TrafficInv(w) && IdsInv(site, w, verb) && LaunchStep(site, w, AskNet(op), w')
    ensures IdsInv(site, w', verb)
  {
    AskNetKeepsLink(site, w, op, w');
    PostKeepsIds(site, w, w', w'.task.net, verb);
  }

  lemma SendKeepsIds(site: Site, w: World, w': World, verb: Verb)
    requires TrafficInv(w) && IdsInv(site, w, verb) && LaunchStep(site, w, Send, w')
    ensures IdsInv(site, w', verb)
  {
    SendKeepsLink(site, w, w');
    PostKeepsIds(site, w, w', w'.task.req, verb);
  }

  lemma WorkKeepsIds(site: Site, w: World, move: LaunchMove, w': World, verb: Verb)
    requires TrafficInv(w) && IdsInv(site, w, verb) && Claims(verb)
    requires LaunchStep(site, w, move, w') && !move.Reserve? && !move.AskNet? && !move.Send?
    ensures IdsInv(site, w', verb)
  {
    if move.Arm? {
      ArmKeepsLink(site, w, move.op, move.put, w');
    } else {
      LaunchSamePeers(site, w, move, w');
      SamePeersKeeps(w, w');
    }
    LaunchLeases(site, w, move, w');
    KeptLeasesKeepIds(site, w, w', verb);
  }

  lemma LaunchKeepsIds(site: Site, w: World, move: LaunchMove, w': World, verb: Verb)
    requires TrafficInv(w) && Counted(w) && Manifested(w, verb) && IdsInv(site, w, verb) && Claims(verb)
    requires LaunchStep(site, w, move, w')
    ensures IdsInv(site, w', verb)
  {
    match move
    case Reserve(slot, cidr, put, undo) => ReserveKeepsIds(site, w, slot, cidr, put, undo, w', verb);
    case AskNet(op) => AskNetKeepsIds(site, w, op, w', verb);
    case Send => SendKeepsIds(site, w, w', verb);
    case _ => WorkKeepsIds(site, w, move, w', verb);
  }

  lemma ReleaseKeepsIds(site: Site, w: World, act: ReleaseMove, w': World, verb: Verb)
    requires TrafficInv(w) && IdsInv(site, w, verb) && Claims(verb) && ReleaseStep(w, act, w')
    ensures IdsInv(site, w', verb)
  {
    ReleaseSamePeers(w, act, w');
    SamePeersKeeps(w, w');
    ReleaseLeases(w, act, w');
    KeptLeasesKeepIds(site, w, w', verb);
  }

  lemma CutKeepsIds(site: Site, w: World, boot: string, disk: Disk, manifests: map<VmId, Manifest>, verb: Verb)
    requires IdsInv(site, w, verb) && PickedDisk(w.p.disk, disk) && Picks(w.m.seen, w.m.safe, manifests)
    requires forall req :: !Live(AfterCut(w, boot, disk, manifests), req)
    ensures IdsInv(site, AfterCut(w, boot, disk, manifests), verb)
  {
  }

  lemma RestKeepsIds(site: Site, w: World, w': World, verb: Verb)
    requires IdsInv(site, w, verb) && Claims(verb) && SamePrivd(w, w') && w'.unread <= w.unread
    requires w'.m == w.m || w'.m == Synced(w.m)
    ensures IdsInv(site, w', verb)
  {
    assert forall req :: Live(w', req) ==> Live(w, req);
    KeptLeasesKeepIds(site, w, w', verb);
  }

  lemma StepKeepsIds(site: Site, w: World, step: WorldStep, w': World, verb: Verb)
    requires LinkInv(w) && LeaseInv(site, w) && Manifested(w, verb) && IdsInv(site, w, verb) && Claims(verb)
    requires WorldNext(site, w, step, w')
    ensures IdsInv(site, w', verb)
  {
    match step
    case PrivdStep(ps) => PeerKeepsIds(site, w, ps, w', verb);
    case Launch(move) => LaunchKeepsIds(site, w, move, w', verb);
    case Release(act) => ReleaseKeepsIds(site, w, act, w', verb);
    case PowerCut(boot, disk, manifests) =>
      CutKeepsTraffic(w, boot, disk, manifests);
      CutKeepsIds(site, w, boot, disk, manifests, verb);
    case _ => RestKeepsIds(site, w, w', verb);
  }
}
