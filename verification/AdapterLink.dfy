/** What every run keeps, whatever the adapter does: privd's own invariant, and the traffic
    between adapter and privd. */
module AdapterLink {
  import opened Wire
  import opened Ledger
  import opened Handlers
  import opened Privd
  import opened PrivdInvariant
  import opened PrivdTheorems
  import opened Adapter
  import opened AdapterInvariant
  import opened AdapterPrivdSteps

  lemma PeerKeepsUnsent(site: Site, w: World, ps: Step, w': World)
    requires JournalInv(w.p) && Traffic(w) && Unsent(w) && PeerStep(site, w, ps, w')
    ensures Unsent(w')
  {
    if w.task.Sending? && w.task.op in w'.p.disk.seen.receipts {
      NewReceipts(site.privd, w.p, ps, w'.p, w.task.op);
      assert false;
    }
  }

  lemma PeerKeepsLink(site: Site, w: World, ps: Step, w': World)
    requires LinkInv(w) && PeerStep(site, w, ps, w')
    ensures LinkInv(w')
  {
    StepKeepsInv(site.privd, w.p, ps, w'.p);
    StepKeepsLag(site.privd, w.p, ps, w'.p);
    StepKeepsTraffic(site, w, ps, w');
    StepKeepsDefinite(site, w, ps, w');
    PeerKeepsUnsent(site, w, ps, w');
  }

  lemma CutIsPowerLoss(cfg: Config, w: World, boot: string, disk: Disk, manifests: map<VmId, Manifest>)
    requires boot != w.p.host.boot && PickedDisk(w.p.disk, disk)
    ensures Next(cfg, w.p, PowerLoss(boot, disk), AfterCut(w, boot, disk, manifests).p)
  {
  }

  lemma CutKeepsTraffic(w: World, boot: string, disk: Disk, manifests: map<VmId, Manifest>)
    requires Lags(w.p.disk.safe.receipts, w.p.disk.seen.receipts) && Traffic(w) && PickedDisk(w.p.disk, disk)
    ensures var w' := AfterCut(w, boot, disk, manifests); TrafficInv(w') && (forall req :: !Live(w', req))
  {
    forall op | op in disk.receipts
      ensures op in w.p.disk.seen.receipts && disk.receipts[op].request == w.p.disk.seen.receipts[op].request
    {
    }
  }

  /** privd and what it has read are as they were. */
  predicate SamePrivd(w: World, w': World) {
    w'.p == w.p && w'.arrived == w.arrived
  }

  /** Nothing on its way has changed either. */
  predicate SamePeers(w: World, w': World) {
    SamePrivd(w, w') && w'.unread == w.unread && w'.armed == w.armed
  }

  lemma SamePeersKeeps(w: World, w': World)
    requires TrafficInv(w) && SamePeers(w, w') && (w'.task.Sending? ==> w'.task == w.task)
    ensures TrafficInv(w')
    ensures forall req :: Live(w', req) <==> Live(w, req)
  {
  }

  /** Moves that put something into the socket or choose an op_id. */
  predicate Posts(move: LaunchMove) { move.AskNet? || move.Arm? || move.Send? }

  lemma LaunchSamePeers(site: Site, w: World, move: LaunchMove, w': World)
    requires LaunchStep(site, w, move, w') && !Posts(move)
    ensures SamePeers(w, w') && !w'.task.Sending?
  {
  }

  lemma ReleaseSamePeers(w: World, act: ReleaseMove, w': World)
    requires ReleaseStep(w, act, w')
    ensures SamePeers(w, w') && !w'.task.Sending?
  {
  }

  lemma AskNetKeepsLink(site: Site, w: World, op: OpId, w': World)
    requires TrafficInv(w) && LaunchStep(site, w, AskNet(op), w')
    ensures SamePrivd(w, w') && TrafficInv(w') && w'.task.AwaitingNet?
    ensures forall req :: Live(w', req) <==> Live(w, req) || req == w'.task.net
  {
  }

  lemma ArmKeepsLink(site: Site, w: World, op: OpId, put: PutIo, w': World)
    requires TrafficInv(w) && LaunchStep(site, w, Arm(op, put), w')
    ensures SamePrivd(w, w') && TrafficInv(w')
    ensures forall req :: Live(w', req) <==> Live(w, req)
  {
  }

  lemma SendKeepsLink(site: Site, w: World, w': World)
    requires TrafficInv(w) && LaunchStep(site, w, Send, w')
    ensures SamePrivd(w, w') && TrafficInv(w') && w'.task.Awaiting?
    ensures forall req :: Live(w', req) <==> Live(w, req) || req == w'.task.req
  {
  }

  lemma SocketDropKeepsLink(w: World, req: Request, w': World)
    requires TrafficInv(w) && w' == w.(unread := w.unread - {req})
    ensures TrafficInv(w')
    ensures forall r :: Live(w', r) ==> Live(w, r)
  {
  }

  lemma LaunchKeepsLink(site: Site, w: World, move: LaunchMove, w': World)
    requires TrafficInv(w) && LaunchStep(site, w, move, w')
    ensures SamePrivd(w, w') && TrafficInv(w')
  {
    match move
    case AskNet(op) => AskNetKeepsLink(site, w, op, w');
    case Arm(op, put) => ArmKeepsLink(site, w, op, put, w');
    case Send => SendKeepsLink(site, w, w');
    case _ =>
      LaunchSamePeers(site, w, move, w');
      SamePeersKeeps(w, w');
  }

  lemma StepKeepsLink(site: Site, w: World, step: WorldStep, w': World)
    requires LinkInv(w) && WorldNext(site, w, step, w')
    ensures LinkInv(w')
  {
    match step
    case PrivdStep(ps) => PeerKeepsLink(site, w, ps, w');
    case PowerCut(boot, disk, manifests) =>
      CutIsPowerLoss(site.privd, w, boot, disk, manifests);
      StepKeepsInv(site.privd, w.p, PowerLoss(boot, disk), w'.p);
      CutKeepsTraffic(w, boot, disk, manifests);
    case SocketDrop(req) => SocketDropKeepsLink(w, req, w');
    case Launch(move) => LaunchKeepsLink(site, w, move, w');
    case Release(act) =>
      ReleaseSamePeers(w, act, w');
      SamePeersKeeps(w, w');
    case _ => SamePeersKeeps(w, w');
  }

  lemma {:induction false} RunKeepsLink(site: Site, worlds: seq<World>, steps: seq<WorldStep>, i: nat)
    requires IsWorldRun(site, worlds, steps) && i < |worlds|
    ensures LinkInv(worlds[i])
  {
    if i == 0 {
      InitialInv(worlds[0].p);
    } else {
      RunKeepsLink(site, worlds, steps, i - 1);
      StepKeepsLink(site, worlds[i - 1], steps[i - 1], worlds[i]);
    }
  }

  // ---------------------------------------------------------------- live claims

  lemma LiveKept(site: Site, w: World, ps: Step, w': World)
    requires Inv(w.p) && PeerStep(site, w, ps, w')
    ensures forall req :: Live(w', req) ==> Live(w, req)
  {
    forall req | Live(w', req)
      ensures Live(w, req)
    {
      LiveOnlyShrinks(site, w, ps, w', req);
    }
  }

  /** A settled inventory means no claim is live inside privd. */
  lemma InventoryMeansNoLive(p: State, req: Request)
    requires Inv(p) && p.daemon.Up? && NetworkLeases(p.daemon, p.disk.seen.ledger).Leases?
    ensures !LiveInPrivd(p, req)
  {
  }

  /** And that the ledger is what a power loss would leave. */
  lemma InventoryMeansSettled(p: State)
    requires Inv(p) && LagExplained(p.disk) && p.daemon.Up? && NetworkLeases(p.daemon, p.disk.seen.ledger).Leases?
    ensures p.disk.safe.ledger == p.disk.seen.ledger
  {
  }

  lemma LiveSharesRequest(w: World, other: Request, req: Request)
    requires Inv(w.p) && Traffic(w) && Live(w, other) && other.opId == req.opId && req in w.arrived && req.opId in w.armed
    ensures other == req && req !in w.unread
  {
  }
}
