/** What the runs of the adapter over privd keep, layer by layer: who owns a start, who owns
    an allocation, and who holds which slot and subnet. */
module AdapterInvariant {
  import opened Wire
  import opened Ledger
  import opened Handlers
  import opened Privd
  import opened PrivdInvariant
  import opened Adapter

  // ---------------------------------------------------------------- claims on their way

  /** privd may still execute this request, or an execution of it may still land effects. */
  predicate LiveInPrivd(p: State, req: Request) {
    || (p.daemon.Up? && req.opId in p.daemon.waiting && req.opId in p.daemon.records
        && p.daemon.records[req.opId].request == req)
    || (p.daemon.Up? && p.daemon.exec.Some? && p.daemon.exec.value.req == req)
    || (req.opId in p.orphans && req.opId in p.disk.seen.receipts && p.disk.seen.receipts[req.opId].request == req)
  }

  /** A claim that can still take effect. */
  predicate Live(w: World, req: Request) {
    Claims(req.verb) && (req in w.unread || LiveInPrivd(w.p, req))
  }

  ghost predicate NoLive(w: World, v: VmId, verb: Verb) {
    forall req :: Target(req) == v && req.verb == verb ==> !Live(w, req)
  }

  ghost predicate NoneInPrivd(p: State, v: VmId, verb: Verb) {
    forall req :: Target(req) == v && req.verb == verb ==> !LiveInPrivd(p, req)
  }

  /** Requests and replies against what has been sent and read: an op_id chosen for a
      claim belongs to one request for good. */
  ghost predicate Traffic(w: World) {
    && (forall req :: req in w.unread ==>
          && Claims(req.verb) && ValidId(req.opId) && req.opId in w.armed
          && req.opId !in w.p.disk.seen.receipts
          && (forall other :: other in w.arrived ==> other.opId != req.opId)
          && (forall other :: other in w.unread && other.opId == req.opId ==> other == req))
    && (forall op :: op in w.p.disk.seen.receipts ==>
          w.p.disk.seen.receipts[op].request in w.arrived && w.p.disk.seen.receipts[op].request.opId == op)
    && (forall reply :: reply in w.p.past.replies ==> reply.0 in w.arrived)
    && (forall req :: req in w.arrived && Claims(req.verb) ==> req.opId != "" && req.opId in w.armed)
    && (forall a, b :: a in w.arrived && b in w.arrived && a.opId == b.opId && a.opId in w.armed ==> a == b)
  }

  /** A reply the client takes as definite was given to a claim that cannot run later. */
  ghost predicate DefiniteReplies(w: World) {
    forall reply :: reply in w.p.past.replies && Claims(reply.0.verb) && !ClientView(reply.1).Unknown_? ==>
      !LiveInPrivd(w.p, reply.0)
  }

  /** privd answered this release: done, or nothing to do. */
  ghost predicate ReleasedReply(p: State, req: Request) {
    exists reply :: reply in p.past.replies && reply.0 == req && (reply.1.Ok? || reply.1 == Err(NotFound))
  }

  /** An armed start whose request is not yet written has been seen by nobody. */
  ghost predicate Unsent(w: World) {
    w.task.Sending? ==>
      && ValidId(w.task.op) && w.task.op in w.armed && w.task.op !in w.p.disk.seen.receipts
      && forall req :: req in w.unread || req in w.arrived ==> req.opId != w.task.op
  }

  /** A ledger whose versions differ has an unresolved operation to show for it. */
  ghost predicate LagExplained(d: Store) {
    d.safe.ledger != d.seen.ledger ==> exists op :: op in d.seen.receipts && Uncertain(d.seen.receipts[op])
  }

  ghost predicate TrafficInv(w: World) {
    Traffic(w) && DefiniteReplies(w) && Unsent(w)
  }

  ghost predicate LinkInv(w: World) {
    Inv(w.p) && LagExplained(w.p.disk) && TrafficInv(w)
  }

  // ---------------------------------------------------------------- starts

  /** Both versions of the manifest say: start `op` is out and its outcome is not known. */
  predicate Owns(m: Manifests, v: VmId, op: OpId) {
    && v in m.seen && m.seen[v].startOpId == op && m.seen[v].vmmPid == 0
    && v in m.safe && m.safe[v].startOpId == op && m.safe[v].vmmPid == 0
  }

  /** Every start that can still take effect is the one its VM's manifest is waiting for. */
  ghost predicate StartsOwned(w: World) {
    forall req :: Live(w, req) && req.verb == StartVm ==> Owns(w.m, Target(req), req.opId)
  }

  predicate HalvesClear(p: State, v: VmId) {
    VmHalfClear(p.disk.seen.ledger, v) && VmHalfClear(p.disk.safe.ledger, v)
  }

  /** The VM has no jail tree, no process, and no uid or CID in the ledger. */
  predicate Quiet(p: State, v: VmId) {
    !At(p.host, v).tree && At(p.host, v).procs == {} && HalvesClear(p, v)
  }

  predicate Missing(m: Manifests, v: VmId) { v !in m.seen || v !in m.safe }

  /** A VM one of whose manifest versions is gone holds nothing of its VM half. */
  ghost predicate Bare(w: World) {
    forall v :: Missing(w.m, v) ==> Quiet(w.p, v)
  }

  /** What the running task relies on, as far as starts go. */
  ghost predicate TaskInv(w: World) {
    match w.task
    case Idle => true
    case Reserving(v) => NoLive(w, v, StartVm)
    case Staging(v) => NoLive(w, v, StartVm)
    case AwaitingNet(v, _) => NoLive(w, v, StartVm)
    case Networked(v) => NoLive(w, v, StartVm)
    case Sending(v, op) => NoLive(w, v, StartVm) && Owns(w.m, v, op)
    case Awaiting(v, req) => Target(req) == v && req.verb == StartVm && req.opId in w.armed && Owns(w.m, v, req.opId)
    case Disarming(v) => NoLive(w, v, StartVm)
    case Recording(v, op, _) => NoLive(w, v, StartVm)
    case Attaching(v) => true
    case Resolving(v) => true
    case ReleasingVm(v, asked) =>
      && NoLive(w, v, StartVm)
      && (asked.Some? ==>
            && ReleaseRequest(asked.value, v, ReleaseVm)
            && (ReleasedReply(w.p, asked.value) ==> HalvesClear(w.p, v)))
    case ReleasingNet(v, vmOk, _) => NoLive(w, v, StartVm) && (vmOk ==> HalvesClear(w.p, v))
    case Judging(v, vmOk, _) => NoLive(w, v, StartVm) && (vmOk ==> HalvesClear(w.p, v))
    case Removing(v) => NoLive(w, v, StartVm) && Quiet(w.p, v)
  }

  ghost predicate WorldInv(w: World) {
    LinkInv(w) && StartsOwned(w) && Bare(w) && TaskInv(w)
  }

  /** No start_vm for the VM is still unread in the socket when a launch begins. */
  ghost predicate Careful(w: World, step: WorldStep) {
    step.Launch? && step.move.Begins? ==> forall req :: req in w.unread && req.verb == StartVm ==> Target(req) != step.move.v
  }

  /** What a caller can check instead: resolveStartOutcome, which doStop and doRelease call
      and launch does not, would let go of the manifest's start. */
  predicate Checked(w: World, step: WorldStep) {
    step.Launch? && step.move.Begins? ==>
      var v := step.move.v;
      w.p.daemon.Up? && (v in w.m.seen ==> !ResolveStart(w.m.seen[v], w.p.daemon).Retain?)
  }

  // ---------------------------------------------------------------- allocations

  /** The VM has no network, on the host or in the ledger. */
  predicate NetClear(p: State, v: VmId) {
    !At(p.host, v).net && NetHalfClear(p.disk.seen.ledger, v) && NetHalfClear(p.disk.safe.ledger, v)
  }

  /** An allocation that can still take effect is of a VM that has its manifest, and so is a
      network that is there. */
  ghost predicate NetsOwned(w: World) {
    && (forall req :: Live(w, req) && req.verb == AllocateNetwork ==> !Missing(w.m, Target(req)))
    && (forall v :: Missing(w.m, v) ==> NetClear(w.p, v))
  }

  /** What the running task relies on, as far as allocations go. */
  ghost predicate NetTask(w: World) {
    match w.task
    case Staging(v) => !Missing(w.m, v)
    case ReleasingNet(v, _, Some(req)) =>
      && NoLive(w, v, AllocateNetwork) && ReleaseRequest(req, v, ReleaseNetwork)
      && (ReleasedReply(w.p, req) ==> NetClear(w.p, v))
    case Judging(v, _, netOk) => netOk ==> NoLive(w, v, AllocateNetwork) && NetClear(w.p, v)
    case Removing(v) => NoLive(w, v, AllocateNetwork) && NetClear(w.p, v)
    case _ => true
  }

  ghost predicate NetInv(w: World) {
    LinkInv(w) && NetsOwned(w) && NetTask(w)
  }

  /** No allocate_network of the VM can still take effect when its release_network is asked for. */
  ghost predicate NetCareful(w: World, step: WorldStep) {
    step.Release? && step.act.Ask? && w.task.ReleasingNet? ==> NoLive(w, w.task.vm, AllocateNetwork)
  }

  /** What a caller sees: allocate_network was answered, with success or with a refusal. */
  predicate NetAnswered(w: World, step: WorldStep) {
    && (w.task.AwaitingNet? ==> !step.AdapterCrash?)
    && (step.Launch? ==> !step.move.NetLost? && (step.move.NetReply? ==> !ClientView(step.move.r).Unknown_?))
  }

  // ---------------------------------------------------------------- slots and subnets

  /** Two manifests are of one VM, or share neither slot nor subnet. */
  predicate Apart(v: VmId, x: Manifest, w: VmId, y: Manifest) {
    if v == w then x.slot == y.slot && x.cidr == y.cidr else x.slot != y.slot && x.cidr != y.cidr
  }

  ghost predicate AllApart(a: map<VmId, Manifest>, b: map<VmId, Manifest>) {
    forall v, w :: v in a && w in b ==> Apart(v, a[v], w, b[w])
  }

  /** No two VMs hold one slot or one subnet, whichever version of each manifest a power loss
      leaves, and one VM's versions agree on both. */
  ghost predicate Distinct(m: Manifests) {
    AllApart(m.seen, m.seen) && AllApart(m.seen, m.safe) && AllApart(m.safe, m.safe)
  }

  /** Every manifest's slot is one the site has, and every subnet is a subnet. */
  ghost predicate InRange(m: map<VmId, Manifest>, limit: nat) {
    forall v :: v in m ==> m[v].slot < limit && m[v].cidr != ""
  }

  /** A reservation under way has read every manifest that is there. */
  ghost predicate Counted(w: World) {
    w.task.Reserving? ==>
      && Injective(w.leases)
      && (forall v :: v in w.m.seen ==> v in w.leases && w.leases[v] == w.m.seen[v].cidr)
      && w.m.safe.Keys <= w.m.seen.Keys + w.m.bare
  }

  ghost predicate LeaseInv(site: Site, w: World) {
    && Distinct(w.m) && InRange(w.m.seen, site.maxSlots) && InRange(w.m.safe, site.maxSlots)
    && (forall v :: v in w.leases ==> w.leases[v] != "")
    && Counted(w)
  }

  /** Another VM's directory is there without its manifest, which a power loss could bring
      back with this slot or subnet in it. */
  predicate MayComeBack(m: Manifests, v: VmId, slot: nat, cidr: string) {
    exists x :: x in m.bare && x != v && x !in m.seen && x in m.safe && (m.safe[x].slot == slot || m.safe[x].cidr == cidr)
  }

  /** A VM that was not there gets a slot and a subnet that cannot come back under another. */
  predicate Tidy(w: World, step: WorldStep) {
    step.Launch? && step.move.Reserve? && w.task.Reserving? && w.task.vm !in w.m.seen ==>
      !MayComeBack(w.m, w.task.vm, step.move.slot, step.move.cidr) && (step.move.put.Put? || w.task.vm !in w.m.safe)
  }

  /** What a caller can check instead: no directory under vms lacks its manifest. */
  predicate Swept(w: World, step: WorldStep) {
    step.Launch? && step.move.Begins? ==> w.m.bare == {}
  }

  // ---------------------------------------------------------------- identities

  /** The half of a VM that a claim is about: uid and CID, or the subnet. */
  predicate HalfClear(ledger: LedgerMap, v: VmId, verb: Verb) {
    if verb == StartVm then VmHalfClear(ledger, v) else NetHalfClear(ledger, v)
  }

  /** That half of a ledger entry is what the manifest leases. */
  predicate EntryOf(site: Site, e: VMEntry, x: Manifest, verb: Verb) {
    if verb == StartVm then e.pid > 0 ==> e.uid == site.uidBase + x.slot && e.cid == site.cidBase + x.slot && e.gid == site.gid
    else e.netCidr != "" ==> e.netCidr == x.cidr
  }

  ghost predicate BooksMatch(site: Site, ledger: LedgerMap, m: map<VmId, Manifest>, verb: Verb) {
    forall v :: v in ledger && v in m ==> EntryOf(site, ledger[v], m[v], verb)
  }

  /** The request asks for what the manifest leases. */
  predicate ClaimOf(site: Site, req: Request, x: Manifest) {
    if req.verb == StartVm then StartRequested(site, req, Target(req), x.slot) else NetRequested(req, Target(req), x.cidr)
  }

  ghost predicate ClaimsMatch(site: Site, w: World, verb: Verb) {
    forall req :: Live(w, req) && req.verb == verb && Target(req) in w.m.seen ==> ClaimOf(site, req, w.m.seen[Target(req)])
  }

  /** Claims, and what the ledger holds, are of VMs that have their manifest. */
  ghost predicate Manifested(w: World, verb: Verb) {
    && (forall req :: Live(w, req) && req.verb == verb ==> !Missing(w.m, Target(req)))
    && (forall v :: Missing(w.m, v) ==>
          HalfClear(w.p.disk.seen.ledger, v, verb) && HalfClear(w.p.disk.safe.ledger, v, verb))
  }

  /** Whatever is claimed, or asked for, is what the manifest leases, in all versions. */
  ghost predicate IdsInv(site: Site, w: World, verb: Verb) {
    && BooksMatch(site, w.p.disk.seen.ledger, w.m.seen, verb) && BooksMatch(site, w.p.disk.seen.ledger, w.m.safe, verb)
    && BooksMatch(site, w.p.disk.safe.ledger, w.m.seen, verb) && BooksMatch(site, w.p.disk.safe.ledger, w.m.safe, verb)
    && ClaimsMatch(site, w, verb)
  }
}
