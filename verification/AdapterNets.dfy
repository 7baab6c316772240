/** The same for allocations: in runs that ask for a network's release only when no
    allocation of it is out, every network is of a VM that has its manifest. */
module AdapterNets {
  import opened Wire
  import opened Ledger
  import opened Handlers
  import opened Privd
  import opened PrivdInvariant
  import opened PrivdTheorems
  import opened Adapter
  import opened AdapterInvariant
  import opened AdapterPrivdSteps
  import opened AdapterLink
  import opened AdapterStarts

  // ---------------------------------------------------------------- privd moves

  lemma PeerKeepsNetsOwned(site: Site, w: World, ps: Step, w': World)
    requires Inv(w.p) && NetsOwned(w) && PeerStep(site, w, ps, w')
    ensures NetsOwned(w')
  {
    LiveKept(site, w, ps, w');
    forall v | Missing(w'.m, v)
      ensures NetClear(w'.p, v)
    {
      assert NoneInPrivd(w.p, v, AllocateNetwork) by {
        assert forall req :: Target(req) == v && req.verb == AllocateNetwork ==> !Live(w, req);
      }
      StepKeepsNetClear(site.privd, w.p, ps, w'.p, v);
    }
  }

  lemma NetClearKept(site: Site, w: World, ps: Step, w': World, v: VmId)
    requires Inv(w.p) && PeerStep(site, w, ps, w') && NoLive(w, v, AllocateNetwork) && NetClear(w.p, v)
    ensures NetClear(w'.p, v)
  {
    NoLiveMeansNone(w, v, AllocateNetwork);
    StepKeepsNetClear(site.privd, w.p, ps, w'.p, v);
  }

  lemma AskedKept(site: Site, w: World, ps: Step, w': World, v: VmId, req: Request)
    requires Inv(w.p) && Traffic(w) && PeerStep(site, w, ps, w') && NoLive(w, v, AllocateNetwork)
    requires ReleaseRequest(req, v, ReleaseNetwork) && (ReleasedReply(w.p, req) ==> NetClear(w.p, v))
    requires ReleasedReply(w'.p, req)
    ensures NetClear(w'.p, v)
  {
    if ReleasedReply(w.p, req) {
      NetClearKept(site, w, ps, w', v);
    } else {
      var reply :| reply in w'.p.past.replies && reply.0 == req && (reply.1.Ok? || reply.1 == Err(NotFound));
      ReleaseReplyClears(site, w, ps, w', reply);
    }
  }

  lemma PeerKeepsNetTask(site: Site, w: World, ps: Step, w': World)
    requires Inv(w.p) && Traffic(w) && NetTask(w) && PeerStep(site, w, ps, w')
    ensures NetTask(w')
  {
    LiveKept(site, w, ps, w');
    match w.task
    case ReleasingNet(v, _, Some(req)) =>
      if ReleasedReply(w'.p, req) { AskedKept(site, w, ps, w', v, req); }
    case Judging(v, _, netOk) => if netOk { NetClearKept(site, w, ps, w', v); }
    case Removing(v) => NetClearKept(site, w, ps, w', v);
    case _ =>
  }

  ghost predicate NetPart(w: World) { NetsOwned(w) && NetTask(w) }

  lemma PeerKeepsNets(site: Site, w: World, ps: Step, w': World)
    requires Inv(w.p) && Traffic(w) && NetPart(w) && PeerStep(site, w, ps, w')
    ensures NetPart(w')
  {
    PeerKeepsNetsOwned(site, w, ps, w');
    PeerKeepsNetTask(site, w, ps, w');
  }

  // ---------------------------------------------------------------- the adapter's own steps

  lemma WriteKeepsNets(w: World, w': World, v: VmId, x: Manifest, put: PutIo)
    requires NetsOwned(w) && SamePrivd(w, w') && w'.m == WriteManifest(w.m, v, x, put)
    requires forall req :: Live(w', req) <==> Live(w, req)
    ensures NetsOwned(w')
  {
  }

  lemma RemoveKeepsNets(w: World, w': World, v: VmId, how: Removal)
    requires NetsOwned(w) && NoLive(w, v, AllocateNetwork) && NetClear(w.p, v)
    requires SamePrivd(w, w') && w'.m == RemoveManifest(w.m, v, how)
    requires forall req :: Live(w', req) <==> Live(w, req)
    ensures NetsOwned(w')
  {
  }

  lemma SyncKeepsNets(w: World, w': World)
    requires NetsOwned(w) && SamePrivd(w, w') && w'.m == Synced(w.m)
    requires forall req :: Live(w', req) <==> Live(w, req)
    ensures NetsOwned(w')
  {
    forall v | Missing(w'.m, v)
      ensures NetClear(w'.p, v)
    {
      assert Missing(w.m, v);
    }
  }

  lemma ReserveKeepsNets(site: Site, w: World, slot: nat, cidr: string, put: PutIo, undo: Removal, w': World)
    requires NetPart(w) && LaunchStep(site, w, Reserve(slot, cidr, put, undo), w')
    ensures NetPart(w')
  {
    var (v, x) := (w.task.vm, Manifest(slot, cidr, "", 0));
    var w1 := w.(m := WriteManifest(w.m, v, x, put));
    assert Missing(w.m, v) ==> NoLive(w, v, AllocateNetwork) && NetClear(w.p, v);
    WriteKeepsNets(w, w1, v, x, put);
    if !put.Put? && v !in w.m.seen {
      RemoveKeepsNets(w1, w', v, undo);
    }
  }

  lemma AskNetKeepsNets(site: Site, w: World, op: OpId, w': World)
    requires TrafficInv(w) && NetPart(w) && LaunchStep(site, w, AskNet(op), w')
    ensures NetPart(w')
  {
    AskNetKeepsLink(site, w, op, w');
  }

  lemma LaunchRewriteKeepsNets(site: Site, w: World, move: LaunchMove, w': World)
    requires TrafficInv(w) && NetPart(w) && LaunchStep(site, w, move, w') && (move.Arm? || move.Disarm? || move.Record?)
    ensures NetPart(w')
  {
    var old_ := w.m.seen[w.task.vm];
    if move.Arm? {
      ArmKeepsLink(site, w, move.op, move.put, w');
      WriteKeepsNets(w, w', w.task.vm, old_.(startOpId := move.op, vmmPid := 0), move.put);
    } else if move.Disarm? {
      WriteKeepsNets(w, w', w.task.vm, old_.(startOpId := "", vmmPid := 0), move.put);
    } else {
      WriteKeepsNets(w, w', w.task.vm, old_.(startOpId := w.task.op, vmmPid := w.task.pid), move.put);
    }
  }

  lemma LaunchKeepsNets(site: Site, w: World, move: LaunchMove, w': World)
    requires TrafficInv(w) && NetPart(w) && LaunchStep(site, w, move, w')
    ensures NetPart(w')
  {
    match move
    case Begins(v) => SyncKeepsNets(w, w');
    case Reserve(slot, cidr, put, undo) => ReserveKeepsNets(site, w, slot, cidr, put, undo, w');
    case AskNet(op) => AskNetKeepsNets(site, w, op, w');
    case Send => SendKeepsLink(site, w, w');
    case Arm(_, _) => LaunchRewriteKeepsNets(site, w, move, w');
    case Disarm(_) => LaunchRewriteKeepsNets(site, w, move, w');
    case Record(_) => LaunchRewriteKeepsNets(site, w, move, w');
    case _ =>
      assert w' == w.(task := w'.task);
      assert forall req :: Live(w', req) <==> Live(w, req);
  }

  lemma ResolveKeepsNets(w: World, v: VmId, put: PutIo, next: Task, w': World)
    requires NetPart(w) && w' == AfterResolve(w, v, put, next)
    requires next == Idle || next == Resolving(v) || next == ReleasingVm(v, None)
    ensures NetPart(w')
  {
    assert forall req :: Live(w', req) <==> Live(w, req);
    if v in w.m.seen && ResolveStart(w.m.seen[v], w.p.daemon).RecordPid? {
      WriteKeepsNets(w, w', v, w.m.seen[v].(vmmPid := ResolveStart(w.m.seen[v], w.p.daemon).pid), put);
    }
  }

  lemma AskKeepsNets(w: World, req: Request, w': World)
    requires NetPart(w) && ReleaseStep(w, Ask(req), w') && NetCareful(w, Release(Ask(req)))
    ensures NetPart(w')
  {
    assert forall r :: Live(w', r) <==> Live(w, r);
  }

  lemma ReplyKeepsNets(w: World, act: ReleaseMove, w': World)
    requires NetPart(w) && ReleaseStep(w, act, w')
    requires act.ReleaseBegin? || act.ResolveFails? || act.ReleaseReply? || act.ReleaseLost? || act.Judge?
    ensures NetPart(w')
  {
    assert w' == w.(task := w'.task);
    assert forall r :: Live(w', r) <==> Live(w, r);
  }

  lemma ReleaseKeepsNets(w: World, act: ReleaseMove, w': World)
    requires NetPart(w) && ReleaseStep(w, act, w') && NetCareful(w, Release(act))
    ensures NetPart(w')
  {
    match act
    case Resolve(put, again) =>
      ResolveKeepsNets(w, w.task.vm, put, if again then w.task else ReleasingVm(w.task.vm, None), w');
    case SettleStart(v, put) => ResolveKeepsNets(w, v, put, Idle, w');
    case Remove(how) => RemoveKeepsNets(w, w', w.task.vm, how);
    case Ask(req) => AskKeepsNets(w, req, w');
    case _ => ReplyKeepsNets(w, act, w');
  }

  // ---------------------------------------------------------------- steps

  lemma CutKeepsNets(w: World, boot: string, disk: Disk, manifests: map<VmId, Manifest>)
    requires Lags(w.p.disk.safe.receipts, w.p.disk.seen.receipts) && Traffic(w) && NetPart(w)
    requires PickedDisk(w.p.disk, disk) && Picks(w.m.seen, w.m.safe, manifests)
    ensures NetPart(AfterCut(w, boot, disk, manifests))
  {
    CutKeepsTraffic(w, boot, disk, manifests);
    var w' := AfterCut(w, boot, disk, manifests);
    forall v | Missing(w'.m, v)
      ensures NetClear(w'.p, v)
    {
      assert Missing(w.m, v);
    }
  }

  lemma IdleKeepsNets(w: World, w': World)
    requires NetPart(w) && w' == w.(task := Idle, leases := w'.leases)
    ensures NetPart(w')
  {
    assert forall req :: Live(w', req) <==> Live(w, req);
  }

  lemma DropKeepsNets(w: World, req: Request, w': World)
    requires TrafficInv(w) && NetPart(w) && w' == w.(unread := w.unread - {req})
    ensures NetPart(w')
  {
    SocketDropKeepsLink(w, req, w');
  }

  lemma SyncVmsKeepsNets(w: World, w': World)
    requires NetPart(w) && w' == w.(m := Synced(w.m))
    ensures NetPart(w')
  {
    assert forall req :: Live(w', req) <==> Live(w, req);
    SyncKeepsNets(w, w');
  }

  lemma StepKeepsNets(site: Site, w: World, step: WorldStep, w': World)
    requires LinkInv(w) && NetPart(w) && WorldNext(site, w, step, w') && NetCareful(w, step)
    ensures NetPart(w')
  {
    match step
    case PrivdStep(ps) => PeerKeepsNets(site, w, ps, w');
    case Launch(move) => LaunchKeepsNets(site, w, move, w');
    case Release(act) => ReleaseKeepsNets(w, act, w');
    case PowerCut(boot, disk, manifests) => CutKeepsNets(w, boot, disk, manifests);
    case SocketDrop(req) => DropKeepsNets(w, req, w');
    case SyncVms => SyncVmsKeepsNets(w, w');
    case _ => IdleKeepsNets(w, w');
  }

  lemma NetStepKeepsInv(site: Site, w: World, step: WorldStep, w': World)
    requires NetInv(w) && WorldNext(site, w, step, w') && NetCareful(w, step)
    ensures NetInv(w')
  {
    StepKeepsLink(site, w, step, w');
    StepKeepsNets(site, w, step, w');
  }

  // ---------------------------------------------------------------- answered allocations

  /** The only allocation out is the one the running launch waits for. */
  ghost predicate Solo(w: World) {
    forall req :: Live(w, req) && req.verb == AllocateNetwork ==> w.task.AwaitingNet? && w.task.net == req
  }

  lemma NetReplyEndsIt(w: World, r: Response)
    requires TrafficInv(w) && w.task.AwaitingNet? && (w.task.net, r) in w.p.past.replies && !ClientView(r).Unknown_?
    ensures !Live(w, w.task.net)
  {
  }

  lemma LaunchKeepsSolo(site: Site, w: World, move: LaunchMove, w': World)
    requires TrafficInv(w) && Solo(w) && LaunchStep(site, w, move, w') && NetAnswered(w, Launch(move))
    ensures Solo(w')
  {
    match move
    case AskNet(op) => AskNetKeepsLink(site, w, op, w');
    case Send => SendKeepsLink(site, w, w');
    case Arm(op, put) => ArmKeepsLink(site, w, op, put, w');
    case NetReply(r) =>
      NetReplyEndsIt(w, r);
      assert forall req :: Live(w', req) <==> Live(w, req);
    case NetLost =>
    case _ => assert forall req :: Live(w', req) <==> Live(w, req);
  }

  lemma ReleaseKeepsSolo(w: World, act: ReleaseMove, w': World)
    requires Solo(w) && ReleaseStep(w, act, w')
    ensures Solo(w')
  {
    assert !w.task.AwaitingNet? && SamePeers(w, w');
    assert forall req :: Live(w', req) <==> Live(w, req);
  }

  lemma StepKeepsSolo(site: Site, w: World, step: WorldStep, w': World)
    requires LinkInv(w) && Solo(w) && WorldNext(site, w, step, w') && NetAnswered(w, step)
    ensures Solo(w') && NetCareful(w, step)
  {
    match step
    case PrivdStep(ps) => LiveKept(site, w, ps, w');
    case Launch(move) => LaunchKeepsSolo(site, w, move, w');
    case Release(act) => ReleaseKeepsSolo(w, act, w');
    case PowerCut(boot, disk, manifests) => CutKeepsTraffic(w, boot, disk, manifests);
    case SocketDrop(req) => SocketDropKeepsLink(w, req, w');
    case _ => SamePeersKeeps(w, w');
  }
}
