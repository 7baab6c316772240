/** The lifecycle adapter above privd: the launch and release transactions, their
    manifests, the allocator's leases, and a socket that may lose or delay what it carries.
    One task runs at a time, because every lifecycle call holds the launch lock until its
    work ends.

    Only this adapter issues allocate_network and start_vm. Every other request may reach
    privd at any time, from anyone. */
module Adapter {
  import opened Wire
  import opened Ledger
  import opened Handlers
  import opened Privd

  /** The parts of the two configurations that identities come from. */
  datatype Site = Site(privd: Config, uidBase: int, gid: int, cidBase: nat, maxSlots: nat)

  function NetRequest(op: OpId, v: VmId, cidr: string): Request {
    Request(op, AllocateNetwork, Payload(v, cidr, 0, 0, 0, "", [], "", {}))
  }

  /** The jail uid and the guest CID follow from the slot. */
  function StartRequest(site: Site, op: OpId, v: VmId, slot: nat): Request {
    Request(op, StartVm, Payload(v, "", site.uidBase + slot, site.gid, site.cidBase + slot, "", STAGED_NAMES, v, {}))
  }

  /** allocate_network of this subnet for `v`. */
  predicate NetRequested(req: Request, v: VmId, cidr: string) {
    && req.verb == AllocateNetwork && req.payload.Payload? && Target(req) == v
    && var p := req.payload;
       && p.cidr == cidr && p.uid == p.gid == p.cid == 0 && p.kind == p.stageBase == "" && p.files == [] && p.refusedBy == {}
  }

  /** start_vm of `v` with what its slot gives it, from its own staging directory and with
      every file that is staged. */
  predicate StartRequested(site: Site, req: Request, v: VmId, slot: nat) {
    && req.verb == StartVm && req.payload.Payload? && Target(req) == v
    && var p := req.payload;
       && p.uid == site.uidBase + slot && p.cid == site.cidBase + slot && p.gid == site.gid
       && p.stageBase == v && p.files == STAGED_NAMES && p.cidr == p.kind == "" && p.refusedBy == {}
  }

  predicate ReleaseRequest(req: Request, v: VmId, verb: Verb) {
    req.verb == verb && req.payload.Payload? && Target(req) == v
  }

  // ---------------------------------------------------------------- client

  /** What `call` makes of a reply to a mutation. */
  datatype View = Succeeded_(start: StartResult) | Refused_(cause: Cause) | Unknown_

  function ClientView(r: Response): View {
    match r
    case Ok(Some(start)) => Succeeded_(start)
    case Ok(None) => Succeeded_(StartResult(0, ""))
    case Err(cause) => if cause == OutcomePending || cause == OutcomeUnknown then Unknown_ else Refused_(cause)
  }

  // ---------------------------------------------------------------- manifests

  /** A manifest is the lease on a slot and a subnet. It also says who owns a start: its
      op_id, and the VMM pid once the start is known to have succeeded. */
  datatype Manifest = Manifest(slot: nat, cidr: string, startOpId: OpId, vmmPid: int)

  /** Manifests as readers see them, and as a power loss could leave them. `bare`: VMs whose
      directory is there with its manifest unlinked and not synced. */
  datatype Manifests = Manifests(seen: map<VmId, Manifest>, safe: map<VmId, Manifest>, bare: set<VmId>)

  const NO_MANIFESTS := Manifests(map[], map[], {})

  function WriteManifest(m: Manifests, v: VmId, x: Manifest, put: PutIo): Manifests {
    match put
    case Put => Manifests(m.seen[v := x], m.safe[v := x], m.bare - {v})
    case PutFailed(visible) => if visible then m.(seen := m.seen[v := x], bare := m.bare - {v}) else m
  }

  /** How a removal of vms/<id> ends: done and synced, done but not synced, stopped after
      the manifest was unlinked, or stopped before it. */
  datatype Removal = Gone | Unsynced | Stranded | Untouched

  function RemoveManifest(m: Manifests, v: VmId, how: Removal): Manifests {
    match how
    case Gone => Manifests(m.seen - {v}, m.safe - {v}, m.bare - {v})
    case Unsynced => Manifests(m.seen - {v}, m.safe, m.bare - {v})
    case Stranded => Manifests(m.seen - {v}, m.safe, m.bare + {v})
    case Untouched => m
  }

  /** Syncing the vms directory settles the absence of a whole directory, but says nothing
      about a manifest missing from a directory that is still there. */
  function Synced(m: Manifests): Manifests {
    m.(safe := map v | v in m.safe && (v in m.seen || v in m.bare) :: m.safe[v])
  }

  // ---------------------------------------------------------------- slots and subnets

  predicate Used(seen: map<VmId, Manifest>, slot: nat) { exists w :: w in seen && seen[w].slot == slot }

  /** allocateSlot on the visible manifests: the VM's own slot, or the least free one. */
  ghost predicate SlotFor(seen: map<VmId, Manifest>, v: VmId, limit: nat, slot: nat) {
    if v in seen then slot == seen[v].slot
    else slot < limit && !Used(seen, slot) && forall t: nat :: t < slot ==> Used(seen, t)
  }

  type LeaseMap = map<VmId, string>

  function Cidrs(seen: map<VmId, Manifest>): LeaseMap { map v | v in seen :: seen[v].cidr }

  predicate Agree(a: LeaseMap, b: LeaseMap) { forall v :: v in a && v in b ==> a[v] == b[v] }

  predicate Injective(m: LeaseMap) { forall v, w :: v in m && w in m && v != w ==> m[v] != m[w] }

  /** restoreNetworkLeases succeeds: what the allocator holds, what the manifests say and what
      privd says are one assignment of subnets to owners. */
  predicate Mergeable(leases: LeaseMap, manifests: LeaseMap, claims: LeaseMap) {
    && Agree(manifests, claims) && Agree(leases, manifests) && Agree(leases, claims)
    && Injective(leases + manifests + claims)
  }

  /** Where it fails, it may have restored some of the claims first. */
  predicate PartlyMerged(leases: LeaseMap, manifests: LeaseMap, claims: LeaseMap, after: LeaseMap) {
    && Injective(after) && leases.Keys <= after.Keys && Agree(leases, after)
    && forall v :: v in after && v !in leases ==>
         (v in manifests && after[v] == manifests[v]) || (v in claims && after[v] == claims[v])
  }

  /** Acquire: the owner's lease, or one that nobody holds. */
  predicate CidrFor(leases: LeaseMap, v: VmId, cidr: string) {
    if v in leases then cidr == leases[v] else cidr != "" && forall w :: w in leases ==> leases[w] != cidr
  }

  // ---------------------------------------------------------------- tasks

  datatype Task =
    | Idle
    // launch
    | Reserving(vm: VmId)                   // leases restored, reserved manifest next
    | Staging(vm: VmId)                     // manifest reserved, images being staged
    | AwaitingNet(vm: VmId, net: Request)   // allocate_network sent
    | Networked(vm: VmId)                   // it succeeded, start op_id next
    | Sending(vm: VmId, op: OpId)           // start op_id durable, request not yet written
    | Awaiting(vm: VmId, req: Request)      // start_vm sent
    | Disarming(vm: VmId)                   // start definitely failed, op_id to be cleared
    | Recording(vm: VmId, op: OpId, pid: int)
    | Attaching(vm: VmId)                   // VMM recorded: runner spawn and attach
    // release, and the rollback of a failed launch
    | Resolving(vm: VmId)
    | ReleasingVm(vm: VmId, asked: Option<Request>)
    | ReleasingNet(vm: VmId, vmOk: bool, asked: Option<Request>)
    | Judging(vm: VmId, vmOk: bool, netOk: bool)
    | Removing(vm: VmId)                    // chroot seen absent, manifest removal next

  datatype World = World(
    p: State,
    m: Manifests,
    leases: LeaseMap,       // the allocator's, gone with the adapter's process
    unread: set<Request>,   // claims in the socket, not yet read by privd
    task: Task,
    armed: set<OpId>,       // op_ids ever chosen for a claim
    arrived: set<Request>)  // requests privd has read; none is delivered twice

  /** The steps of Launch, in the order of its stages. */
  datatype LaunchMove =
    | Begins(v: VmId)
    | Reserve(slot: nat, cidr: string, put: PutIo, undo: Removal)
    | ReserveFails
    | LaunchFails
    | AskNet(op: OpId)
    | NetDialFails
    | NetLost
    | NetReply(r: Response)
    | Arm(op: OpId, put: PutIo)
    | Send
    | DialFails
    | ReplyLost
    | StartReply(r: Response)
    | Disarm(put: PutIo)
    | Record(put: PutIo)
    | Attached

  /** The steps of Release, of a rollback, and of the resolution of a lost start. */
  datatype ReleaseMove =
    | ReleaseBegin(v: VmId)
    | Resolve(put: PutIo, again: bool)
    | ResolveFails
    | SettleStart(v: VmId, put: PutIo)
    | Ask(req: Request)
    | ReleaseReply(r: Response, again: bool)
    | ReleaseLost
    | Judge(stageGone: bool)
    | Remove(how: Removal)

  datatype WorldStep =
    | PrivdStep(step: Step)
    | PowerCut(boot: string, disk: Disk, manifests: map<VmId, Manifest>)
    | SocketDrop(req: Request)
    | AdapterCrash
    | SyncVms
    | RestoreFails(after: LeaseMap)
    | Launch(move: LaunchMove)
    | Release(act: ReleaseMove)

  /** resolveStartOutcome on a manifest: done, retained, or a pid to record. */
  datatype Resolution = Settled | Retain | RecordPid(pid: int)

  function ResolveStart(m: Manifest, d: Daemon): Resolution {
    if m.startOpId == "" || m.vmmPid > 0 then Settled
    else if !d.Up? then Retain
    else
      match QueryReply(d, m.startOpId)
      case Answered(Failed, _) => Settled
      case Answered(Succeeded, Some(Ok(Some(start)))) =>
        if start.pid > 0 && start.startTime != "" then RecordPid(start.pid) else Retain
      case _ => Retain
  }

  function AfterResolve(w: World, v: VmId, put: PutIo, next: Task): World {
    if v !in w.m.seen then w.(task := next)
    else
      match ResolveStart(w.m.seen[v], w.p.daemon)
      case Settled => w.(task := next)
      case Retain => w.(task := Idle)
      case RecordPid(pid) =>
        w.(m := WriteManifest(w.m, v, w.m.seen[v].(vmmPid := pid), put),
           task := if put.Put? then next else Idle)
  }

  /** The reserved manifest; a fresh VM whose manifest cannot be published is given up and its
      directory removed, a restart keeps what it had. */
  function AfterReserve(w: World, slot: nat, cidr: string, put: PutIo, undo: Removal): World
    requires w.task.Reserving?
  {
    var v := w.task.vm;
    var m := WriteManifest(w.m, v, Manifest(slot, cidr, "", 0), put);
    var leases := w.leases[v := cidr];
    if put.Put? then w.(m := m, leases := leases, task := Staging(v))
    else if v in w.m.seen then w.(m := m, leases := leases, task := Idle)
    else w.(m := RemoveManifest(m, v, undo), leases := if undo.Gone? then leases - {v} else leases, task := Idle)
  }

  /** An op_id no request has carried. */
  predicate NewOp(w: World, op: OpId) {
    && ValidId(op) && op !in w.armed && op !in w.p.disk.seen.receipts && op !in w.p.disk.safe.receipts
    && forall r :: r in w.arrived ==> r.opId != op
  }

  /** The manifest of the VM at work is there to be rewritten. */
  predicate HasManifest(w: World) { !w.task.Idle? && w.task.vm in w.m.seen }

  function Rewrite(w: World, x: Manifest, put: PutIo): Manifests
    requires !w.task.Idle?
  {
    WriteManifest(w.m, w.task.vm, x, put)
  }

  ghost predicate LaunchStep(site: Site, w: World, move: LaunchMove, w': World) {
    match move
    case Begins(v) =>
      && w.task.Idle? && w.p.daemon.Up? && (forall x :: x in w.m.seen ==> ValidId(x))
      && var inv := NetworkLeases(w.p.daemon, w.p.disk.seen.ledger);
         && inv.Leases? && Mergeable(w.leases, Cidrs(w.m.seen), inv.leases)
         && w' == w.(task := Reserving(v), m := Synced(w.m), leases := w.leases + Cidrs(w.m.seen) + inv.leases)
    case Reserve(slot, cidr, put, undo) =>
      && w.task.Reserving? && SlotFor(w.m.seen, w.task.vm, site.maxSlots, slot) && CidrFor(w.leases, w.task.vm, cidr)
      && w' == AfterReserve(w, slot, cidr, put, undo)
    case ReserveFails => w.task.Reserving? && w' == w.(task := Idle)
    case LaunchFails =>
      (w.task.Staging? || w.task.Networked? || w.task.Attaching?) && w' == w.(task := Resolving(w.task.vm))
    case AskNet(op) =>
      && w.task.Staging? && HasManifest(w) && NewOp(w, op)
      && var req := NetRequest(op, w.task.vm, w.m.seen[w.task.vm].cidr);
         w' == w.(unread := w.unread + {req}, armed := w.armed + {op}, task := AwaitingNet(w.task.vm, req))
    case NetDialFails => w.task.Staging? && w' == w.(task := Resolving(w.task.vm))
    case NetLost => w.task.AwaitingNet? && w' == w.(task := Resolving(w.task.vm))
    case NetReply(r) =>
      && w.task.AwaitingNet? && (w.task.net, r) in w.p.past.replies
      && w' == w.(task := if r.Ok? then Networked(w.task.vm) else Resolving(w.task.vm))
    case Arm(op, put) =>
      && w.task.Networked? && HasManifest(w) && NewOp(w, op)
      && w' == w.(m := Rewrite(w, w.m.seen[w.task.vm].(startOpId := op, vmmPid := 0), put), armed := w.armed + {op},
                  task := if put.Put? then Sending(w.task.vm, op) else Resolving(w.task.vm))
    case Send =>
      && w.task.Sending? && HasManifest(w)
      && var req := StartRequest(site, w.task.op, w.task.vm, w.m.seen[w.task.vm].slot);
         w' == w.(unread := w.unread + {req}, task := Awaiting(w.task.vm, req))
    case DialFails => w.task.Sending? && w' == w.(task := Disarming(w.task.vm))
    case ReplyLost => w.task.Awaiting? && w' == w.(task := Idle)
    case StartReply(r) =>
      && w.task.Awaiting? && (w.task.req, r) in w.p.past.replies
      && w' == w.(task := match ClientView(r)
                          case Succeeded_(start) => Recording(w.task.vm, w.task.req.opId, start.pid)
                          case Refused_(_) => Disarming(w.task.vm)
                          case Unknown_ => Idle)
    case Disarm(put) =>
      && w.task.Disarming? && HasManifest(w)
      && w' == w.(m := Rewrite(w, w.m.seen[w.task.vm].(startOpId := "", vmmPid := 0), put),
                  task := if put.Put? then Resolving(w.task.vm) else Idle)
    case Record(put) =>
      && w.task.Recording? && HasManifest(w)
      && w' == w.(m := Rewrite(w, w.m.seen[w.task.vm].(startOpId := w.task.op, vmmPid := w.task.pid), put),
                  task := if put.Put? then Attaching(w.task.vm) else Resolving(w.task.vm))
    case Attached => w.task.Attaching? && w' == w.(task := Idle)
  }

  ghost predicate ReleaseStep(w: World, act: ReleaseMove, w': World) {
    match act
    case ReleaseBegin(v) => w.task.Idle? && w' == w.(task := Resolving(v))
    case Resolve(put, again) =>
      w.task.Resolving? && w' == AfterResolve(w, w.task.vm, put, if again then w.task else ReleasingVm(w.task.vm, None))
    case ResolveFails => w.task.Resolving? && w' == w.(task := Idle)
    case SettleStart(v, put) => w.task.Idle? && w' == AfterResolve(w, v, put, Idle)
    case Ask(req) =>
      && (w.task.ReleasingVm? || w.task.ReleasingNet?) && w.task.asked.None?
      && ReleaseRequest(req, w.task.vm, if w.task.ReleasingVm? then ReleaseVm else ReleaseNetwork)
      && req !in w.arrived && (forall reply :: reply in w.p.past.replies ==> reply.0 != req)
      && w' == w.(task := w.task.(asked := Some(req)))
    case ReleaseReply(r, again) =>
      && (w.task.ReleasingVm? || w.task.ReleasingNet?) && w.task.asked.Some?
      && (w.task.asked.value, r) in w.p.past.replies
      && (again ==> w.task.ReleasingVm? && r == Err(InvalidState))
      && var ok := r.Ok? || r == Err(NotFound);
         w' == w.(task := if again then ReleasingVm(w.task.vm, None)
                          else if w.task.ReleasingVm? then ReleasingNet(w.task.vm, ok, None)
                          else Judging(w.task.vm, w.task.vmOk, ok))
    case ReleaseLost =>
      && (w.task.ReleasingVm? || w.task.ReleasingNet?)
      && w' == w.(task := if w.task.ReleasingVm? then ReleasingNet(w.task.vm, false, None)
                          else Judging(w.task.vm, w.task.vmOk, false))
    case Judge(stageGone) =>
      && w.task.Judging?
      && w' == w.(task := if stageGone && w.task.vmOk && w.task.netOk && !At(w.p.host, w.task.vm).tree
                          then Removing(w.task.vm) else Idle)
    case Remove(how) =>
      && w.task.Removing?
      && w' == w.(m := RemoveManifest(w.m, w.task.vm, how),
                  leases := if how.Gone? then w.leases - {w.task.vm} else w.leases, task := Idle)
  }

  /** What a request must be for privd to read it: sent by this adapter, or no claim. */
  predicate MayArrive(w: World, req: Request) {
    req !in w.arrived && if Claims(req.verb) then req in w.unread else req.opId !in w.armed
  }

  /** privd moves on its own. */
  ghost predicate PeerStep(site: Site, w: World, ps: Step, w': World) {
    && !ps.PowerLoss? && Next(site.privd, w.p, ps, w'.p)
    && (ps.Arrive? ==> MayArrive(w, ps.req))
    && w' == w.(p := w'.p,
                unread := if ps.Arrive? then w.unread - {ps.req} else w.unread,
                arrived := if ps.Arrive? then w.arrived + {ps.req} else w.arrived)
  }

  predicate PickedDisk(d: Store, after: Disk) {
    Picks(d.seen.ledger, d.safe.ledger, after.ledger) && Picks(d.seen.receipts, d.safe.receipts, after.receipts)
  }

  /** The machine loses power: privd, the adapter and the socket with it. */
  function AfterCut(w: World, boot: string, disk: Disk, manifests: map<VmId, Manifest>): World {
    w.(p := w.p.(host := AfterPowerLoss(w.p.host, boot), disk := Store(disk, disk), daemon := Down, orphans := {}),
       m := Manifests(manifests, manifests, {}), leases := map[], unread := {}, task := Idle)
  }

  ghost predicate WorldNext(site: Site, w: World, step: WorldStep, w': World) {
    match step
    case PrivdStep(ps) => PeerStep(site, w, ps, w')
    case PowerCut(boot, disk, manifests) =>
      && boot != w.p.host.boot && PickedDisk(w.p.disk, disk) && Picks(w.m.seen, w.m.safe, manifests)
      && w' == AfterCut(w, boot, disk, manifests)
    case SocketDrop(req) => w' == w.(unread := w.unread - {req})
    case AdapterCrash => w' == w.(task := Idle, leases := map[])
    case SyncVms => w' == w.(m := Synced(w.m))
    case RestoreFails(after) =>
      && w.task.Idle?
      && (exists claims :: PartlyMerged(w.leases, Cidrs(w.m.seen), claims, after)
            && (claims == map[] || (w.p.daemon.Up? && NetworkLeases(w.p.daemon, w.p.disk.seen.ledger) == Leases(claims))))
      && w' == w.(leases := after)
    case Launch(move) => LaunchStep(site, w, move, w')
    case Release(act) => ReleaseStep(w, act, w')
  }

  predicate WorldInitial(w: World) {
    && Initial(w.p) && w.m == NO_MANIFESTS && w.leases == map[]
    && w.unread == {} && w.task.Idle? && w.armed == {} && w.arrived == {}
  }

  /** A path of the machine: `worlds[i]` takes `steps[i]` to `worlds[i + 1]`. */
  ghost predicate IsPath(site: Site, worlds: seq<World>, steps: seq<WorldStep>) {
    && |worlds| == |steps| + 1
    && forall i :: 0 <= i < |steps| ==> WorldNext(site, worlds[i], steps[i], worlds[i + 1])
  }

  ghost predicate IsWorldRun(site: Site, worlds: seq<World>, steps: seq<WorldStep>) {
    IsPath(site, worlds, steps) && WorldInitial(worlds[0])
  }
}
