/** Every careful run keeps each start that may still take effect owned by its manifest. */
module AdapterStarts {
  import opened Wire
  import opened Ledger
  import opened Handlers
  import opened Privd
  import opened PrivdInvariant
  import opened PrivdTheorems
  import opened Adapter
  import opened AdapterInvariant
  import opened AdapterPrivdSteps
  import opened AdapterLink

  // ---------------------------------------------------------------- privd moves

  lemma PeerKeepsBare(site: Site, w: World, ps: Step, w': World)
    requires Inv(w.p) && StartsOwned(w) && Bare(w) && PeerStep(site, w, ps, w')
    ensures Bare(w')
  {
    forall v | Missing(w'.m, v)
      ensures Quiet(w'.p, v)
    {
      assert NoneInPrivd(w.p, v, StartVm) by {
        assert forall req :: Target(req) == v && req.verb == StartVm ==> !Live(w, req);
      }
      StepKeepsQuiet(site.privd, w.p, ps, w'.p, v);
    }
  }

  lemma NoLiveMeansNone(w: World, v: VmId, verb: Verb)
    requires NoLive(w, v, verb) && Claims(verb)
    ensures NoneInPrivd(w.p, v, verb)
  {
    assert forall req :: Target(req) == v && req.verb == verb ==> !Live(w, req);
  }

  lemma ReleasingKept(site: Site, w: World, ps: Step, w': World)
    requires Inv(w.p) && Traffic(w) && TaskInv(w) && w.task.ReleasingVm?
    requires PeerStep(site, w, ps, w') && NoLive(w', w.task.vm, StartVm)
    ensures TaskInv(w')
  {
    var (v, asked) := (w.task.vm, w.task.asked);
    NoLiveMeansNone(w, v, StartVm);
    if asked.Some? && ReleasedReply(w'.p, asked.value) {
      if ReleasedReply(w.p, asked.value) {
        StepKeepsHalvesClear(site.privd, w.p, ps, w'.p, v);
      } else {
        var reply :| reply in w'.p.past.replies && reply.0 == asked.value && (reply.1.Ok? || reply.1 == Err(NotFound));
        ReleaseReplyClears(site, w, ps, w', reply);
      }
    }
  }

  lemma ClearedKept(site: Site, w: World, ps: Step, w': World)
    requires Inv(w.p) && TaskInv(w) && (w.task.ReleasingNet? || w.task.Judging? || w.task.Removing?)
    requires PeerStep(site, w, ps, w') && NoLive(w', w.task.vm, StartVm)
    ensures TaskInv(w')
  {
    NoLiveMeansNone(w, w.task.vm, StartVm);
    if w.task.Removing? {
      StepKeepsQuiet(site.privd, w.p, ps, w'.p, w.task.vm);
    } else if w.task.vmOk {
      StepKeepsHalvesClear(site.privd, w.p, ps, w'.p, w.task.vm);
    }
  }

  lemma PeerKeepsTask(site: Site, w: World, ps: Step, w': World)
    requires Inv(w.p) && Traffic(w) && TaskInv(w) && PeerStep(site, w, ps, w')
    ensures TaskInv(w')
  {
    LiveKept(site, w, ps, w');
    if w.task.ReleasingVm? {
      ReleasingKept(site, w, ps, w');
    } else if w.task.ReleasingNet? || w.task.Judging? || w.task.Removing? {
      ClearedKept(site, w, ps, w');
    }
  }

  lemma PeerKeepsStarts(site: Site, w: World, ps: Step, w': World)
    requires WorldInv(w) && PeerStep(site, w, ps, w')
    ensures WorldInv(w')
  {
    PeerKeepsLink(site, w, ps, w');
    LiveKept(site, w, ps, w');
    PeerKeepsBare(site, w, ps, w');
    PeerKeepsTask(site, w, ps, w');
  }

  lemma CutKeepsBare(w: World, boot: string, disk: Disk, manifests: map<VmId, Manifest>)
    requires Bare(w) && PickedDisk(w.p.disk, disk) && Picks(w.m.seen, w.m.safe, manifests)
    ensures Bare(AfterCut(w, boot, disk, manifests))
  {
    var w' := AfterCut(w, boot, disk, manifests);
    forall v | Missing(w'.m, v)
      ensures Quiet(w'.p, v)
    {
      assert Missing(w.m, v);
    }
  }

  // ---------------------------------------------------------------- the adapter's own steps

  /** A manifest may be rewritten when no start of its VM is live. */
  lemma WriteKeepsOwned(w: World, w': World, v: VmId, x: Manifest, put: PutIo)
    requires StartsOwned(w) && Bare(w) && NoLive(w, v, StartVm)
    requires SamePrivd(w, w') && w'.m == WriteManifest(w.m, v, x, put)
    requires forall req :: Live(w', req) <==> Live(w, req)
    ensures StartsOwned(w') && Bare(w')
  {
  }

  /** A manifest may be removed when, besides, its VM holds nothing. */
  lemma RemoveKeepsOwned(w: World, w': World, v: VmId, how: Removal)
    requires StartsOwned(w) && Bare(w) && NoLive(w, v, StartVm) && Quiet(w.p, v)
    requires SamePrivd(w, w') && w'.m == RemoveManifest(w.m, v, how)
    requires forall req :: Live(w', req) <==> Live(w, req)
    ensures StartsOwned(w') && Bare(w')
  {
  }

  lemma SyncKeepsOwned(w: World, w': World)
    requires StartsOwned(w) && Bare(w) && SamePrivd(w, w') && w'.m == Synced(w.m)
    requires forall req :: Live(w', req) <==> Live(w, req)
    ensures StartsOwned(w') && Bare(w')
  {
    forall v | Missing(w'.m, v)
      ensures Quiet(w'.p, v)
    {
      assert Missing(w.m, v);
    }
  }

  /** Ownership and what the work at hand needs are kept by a step that leaves peers and manifests. */
  ghost predicate StartInv(w: World) { StartsOwned(w) && Bare(w) && TaskInv(w) }

  lemma BeginsKeepsStarts(site: Site, w: World, v: VmId, w': World)
    requires WorldInv(w) && LaunchStep(site, w, Begins(v), w') && Careful(w, Launch(Begins(v)))
    ensures StartInv(w')
  {
    SyncKeepsOwned(w, w');
    forall req | Target(req) == v && req.verb == StartVm
      ensures !Live(w', req)
    {
      InventoryMeansNoLive(w.p, req);
    }
  }

  lemma ReserveKeepsStarts(site: Site, w: World, slot: nat, cidr: string, put: PutIo, undo: Removal, w': World)
    requires StartInv(w) && LaunchStep(site, w, Reserve(slot, cidr, put, undo), w')
    ensures StartInv(w')
  {
    var (v, x) := (w.task.vm, Manifest(slot, cidr, "", 0));
    var w1 := w.(m := WriteManifest(w.m, v, x, put));
    WriteKeepsOwned(w, w1, v, x, put);
    if !put.Put? && v !in w.m.seen {
      RemoveKeepsOwned(w1, w', v, undo);
    }
  }

  /** The manifest's rewrite by a launch none of whose starts is live. */
  lemma RewriteKeepsStarts(site: Site, w: World, move: LaunchMove, w': World)
    requires TrafficInv(w) && StartInv(w) && LaunchStep(site, w, move, w') && (move.Arm? || move.Disarm? || move.Record?)
    ensures StartInv(w')
  {
    var old_ := w.m.seen[w.task.vm];
    if move.Arm? {
      ArmKeepsLink(site, w, move.op, move.put, w');
      WriteKeepsOwned(w, w', w.task.vm, old_.(startOpId := move.op, vmmPid := 0), move.put);
    } else if move.Disarm? {
      WriteKeepsOwned(w, w', w.task.vm, old_.(startOpId := "", vmmPid := 0), move.put);
    } else {
      WriteKeepsOwned(w, w', w.task.vm, old_.(startOpId := w.task.op, vmmPid := w.task.pid), move.put);
    }
  }

  lemma SendKeepsStarts(site: Site, w: World, w': World)
    requires TrafficInv(w) && StartInv(w) && LaunchStep(site, w, Send, w')
    ensures StartInv(w')
  {
    SendKeepsLink(site, w, w');
  }

  lemma AskNetKeepsStarts(site: Site, w: World, op: OpId, w': World)
    requires TrafficInv(w) && StartInv(w) && LaunchStep(site, w, AskNet(op), w')
    ensures StartInv(w')
  {
    AskNetKeepsLink(site, w, op, w');
  }

  /** A definite reply leaves no live start of the VM. */
  lemma StartReplyKeepsStarts(site: Site, w: World, r: Response, w': World)
    requires WorldInv(w) && LaunchStep(site, w, StartReply(r), w')
    ensures StartInv(w')
  {
    if !ClientView(r).Unknown_? { DefiniteMeansNoLive(w, r); }
    assert w' == w.(task := w'.task);
    assert forall req :: Live(w', req) <==> Live(w, req);
  }

  lemma DefiniteMeansNoLive(w: World, r: Response)
    requires Inv(w.p) && TrafficInv(w) && StartsOwned(w) && TaskInv(w)
    requires w.task.Awaiting? && (w.task.req, r) in w.p.past.replies && !ClientView(r).Unknown_?
    ensures NoLive(w, w.task.vm, StartVm)
  {
    forall other | Target(other) == w.task.vm && other.verb == StartVm
      ensures !Live(w, other)
    {
      if Live(w, other) { LiveSharesRequest(w, other, w.task.req); assert false; }
    }
  }

  /** Moves of a launch that only go on to a stage that relies on no more. */
  predicate MovesOn(move: LaunchMove) {
    || move.ReserveFails? || move.LaunchFails? || move.NetDialFails? || move.NetLost? || move.NetReply?
    || move.DialFails? || move.ReplyLost? || move.Attached?
  }

  lemma LaunchMovesOn(site: Site, w: World, move: LaunchMove, w': World)
    requires StartInv(w) && LaunchStep(site, w, move, w') && MovesOn(move)
    ensures StartInv(w')
  {
    assert w' == w.(task := w'.task);
    assert forall req :: Live(w', req) <==> Live(w, req);
  }

  lemma LaunchKeepsStarts(site: Site, w: World, move: LaunchMove, w': World)
    requires WorldInv(w) && LaunchStep(site, w, move, w') && Careful(w, Launch(move))
    ensures StartInv(w')
  {
    match move
    case Begins(v) => BeginsKeepsStarts(site, w, v, w');
    case Reserve(slot, cidr, put, undo) => ReserveKeepsStarts(site, w, slot, cidr, put, undo, w');
    case AskNet(op) => AskNetKeepsStarts(site, w, op, w');
    case Send => SendKeepsStarts(site, w, w');
    case StartReply(r) => StartReplyKeepsStarts(site, w, r, w');
    case Arm(_, _) => RewriteKeepsStarts(site, w, move, w');
    case Disarm(_) => RewriteKeepsStarts(site, w, move, w');
    case Record(_) => RewriteKeepsStarts(site, w, move, w');
    case _ => LaunchMovesOn(site, w, move, w');
  }

  // ---------------------------------------------------------------- release

  /** A start whose outcome is settled, or that was never armed, is not live. */
  lemma SettledIsNotLive(w: World, v: VmId)
    requires Inv(w.p) && Traffic(w) && StartsOwned(w)
    requires v in w.m.seen ==> !ResolveStart(w.m.seen[v], w.p.daemon).Retain?
    ensures NoLive(w, v, StartVm)
  {
    forall req | Target(req) == v && req.verb == StartVm
      ensures !Live(w, req)
    {
      if Live(w, req) { LiveIsRetained(w, req); assert false; }
    }
  }

  lemma LiveIsRetained(w: World, req: Request)
    requires Inv(w.p) && Traffic(w) && Live(w, req)
    ensures req.opId != ""
    ensures w.p.daemon.Up? ==>
      QueryReply(w.p.daemon, req.opId).NotFoundAnswer? || QueryReply(w.p.daemon, req.opId).state in {Pending, Unknown}
  {
  }

  /** A launch that first asked about the manifest's start finds none of its VM unread. */
  lemma CheckedIsCareful(w: World, step: WorldStep)
    requires Inv(w.p) && Traffic(w) && StartsOwned(w) && Checked(w, step)
    ensures Careful(w, step)
  {
    if step.Launch? && step.move.Begins? {
      SettledIsNotLive(w, step.move.v);
      assert forall req :: req in w.unread && req.verb == StartVm ==> Live(w, req);
    }
  }

  lemma ResolveKeepsStarts(w: World, v: VmId, put: PutIo, next: Task, w': World)
    requires WorldInv(w) && w' == AfterResolve(w, v, put, next)
    requires next == Idle || next == Resolving(v) || next == ReleasingVm(v, None)
    ensures StartInv(w')
  {
    assert forall req :: Live(w', req) <==> Live(w, req);
    if v in w.m.seen && ResolveStart(w.m.seen[v], w.p.daemon).Retain? {
    } else {
      SettledIsNotLive(w, v);
      if v in w.m.seen && ResolveStart(w.m.seen[v], w.p.daemon).RecordPid? {
        var pid := ResolveStart(w.m.seen[v], w.p.daemon).pid;
        WriteKeepsOwned(w, w', v, w.m.seen[v].(vmmPid := pid), put);
      }
    }
  }

  lemma RemovedKeepsStarts(w: World, how: Removal, w': World)
    requires StartInv(w) && ReleaseStep(w, Remove(how), w')
    ensures StartInv(w')
  {
    RemoveKeepsOwned(w, w', w.task.vm, how);
  }

  lemma ReleaseMovesOn(w: World, act: ReleaseMove, w': World)
    requires StartInv(w) && ProcsInTrees(w.p.host) && ReleaseStep(w, act, w')
    requires act.ReleaseBegin? || act.ResolveFails? || act.Ask? || act.ReleaseReply? || act.ReleaseLost? || act.Judge?
    ensures StartInv(w')
  {
    assert w' == w.(task := w'.task);
    assert forall req :: Live(w', req) <==> Live(w, req);
  }

  lemma ReleaseKeepsStarts(w: World, act: ReleaseMove, w': World)
    requires WorldInv(w) && ReleaseStep(w, act, w')
    ensures StartInv(w')
  {
    match act
    case Resolve(put, again) =>
      ResolveKeepsStarts(w, w.task.vm, put, if again then w.task else ReleasingVm(w.task.vm, None), w');
    case SettleStart(v, put) => ResolveKeepsStarts(w, v, put, Idle, w');
    case Remove(how) => RemovedKeepsStarts(w, how, w');
    case _ => ReleaseMovesOn(w, act, w');
  }

  // ---------------------------------------------------------------- runs

  lemma IdleKeepsStarts(w: World, w': World)
    requires StartInv(w) && w' == w.(task := Idle, leases := w'.leases)
    ensures StartInv(w')
  {
    assert forall req :: Live(w', req) <==> Live(w, req);
  }

  lemma DropKeepsStarts(w: World, req: Request, w': World)
    requires TrafficInv(w) && StartInv(w) && w' == w.(unread := w.unread - {req})
    ensures StartInv(w')
  {
    SocketDropKeepsLink(w, req, w');
  }

  lemma SyncKeepsStarts(w: World, w': World)
    requires StartInv(w) && w' == w.(m := Synced(w.m))
    ensures StartInv(w')
  {
    assert forall req :: Live(w', req) <==> Live(w, req);
    SyncKeepsOwned(w, w');
  }

  lemma CutKeepsStarts(w: World, boot: string, disk: Disk, manifests: map<VmId, Manifest>)
    requires Lags(w.p.disk.safe.receipts, w.p.disk.seen.receipts) && Traffic(w) && StartInv(w)
    requires PickedDisk(w.p.disk, disk) && Picks(w.m.seen, w.m.safe, manifests)
    ensures StartInv(AfterCut(w, boot, disk, manifests))
  {
    CutKeepsBare(w, boot, disk, manifests);
    CutKeepsTraffic(w, boot, disk, manifests);
  }

  lemma WorldStepKeepsInv(site: Site, w: World, step: WorldStep, w': World)
    requires WorldInv(w) && WorldNext(site, w, step, w') && Careful(w, step)
    ensures WorldInv(w')
  {
    StepKeepsLink(site, w, step, w');
    match step
    case PrivdStep(ps) => PeerKeepsStarts(site, w, ps, w');
    case Launch(move) => LaunchKeepsStarts(site, w, move, w');
    case Release(act) => ReleaseKeepsStarts(w, act, w');
    case PowerCut(boot, disk, manifests) => CutKeepsStarts(w, boot, disk, manifests);
    case SocketDrop(req) => DropKeepsStarts(w, req, w');
    case SyncVms => SyncKeepsStarts(w, w');
    case _ => IdleKeepsStarts(w, w');
  }
}
