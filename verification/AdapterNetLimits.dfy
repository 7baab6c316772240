/** The release that overtakes its own allocation: launch rolls back an allocate_network whose
    outcome it does not know as if it had failed. */
module AdapterNetLimits {
  import opened Wire
  import opened Ledger
  import opened Handlers
  import opened Privd
  import opened PrivdInvariant
  import opened PrivdTheorems
  import opened Adapter
  import opened AdapterInvariant
  import opened AdapterLink
  import opened AdapterNets
  import opened AdapterLeases
  import opened AdapterTheorems
  import opened AdapterPaths
  import opened AdapterLimits

  // ---------------------------------------------------------------- networks and manifests

  predicate NetAppears(h: Host, h': Host, v: VmId) { At(h', v).net && !At(h, v).net }

  lemma EffectHasLiveNet(cfg: Config, p: State, ps: Step, p': State, v: VmId)
    requires JournalInv(p) && Next(cfg, p, ps, p') && NetAppears(p.host, p'.host, v)
    ensures exists req :: Target(req) == v && req.verb == AllocateNetwork && LiveInPrivd(p, req)
  {
    if ps.Work? {
      assert LiveInPrivd(p, p.daemon.exec.value.req);
    } else if ps.LateEffect? {
      assert LiveInPrivd(p, p.disk.seen.receipts[ps.op].request);
    }
  }

  lemma NetIsNamed(site: Site, w: World, step: WorldStep, w': World, v: VmId)
    requires NetInv(w) && WorldNext(site, w, step, w') && NetAppears(w.p.host, w'.p.host, v)
    ensures !Missing(w.m, v)
  {
    if !step.PrivdStep? { OnlyPrivdChangesHost(site, w, step, w', v); }
    EffectHasLiveNet(site.privd, w.p, step.step, w'.p, v);
    var req :| Target(req) == v && req.verb == AllocateNetwork && LiveInPrivd(w.p, req);
    assert Live(w, req);
  }

  /** Whenever a network of `v` appears on the host, both versions of its manifest are there. */
  lemma NoLateNetwork(site: Site, worlds: seq<World>, steps: seq<WorldStep>, i: nat, v: VmId)
    requires IsWorldRun(site, worlds, steps) && NetCarefulUntil(worlds, steps, i) && i < |steps|
    requires NetAppears(worlds[i].p.host, worlds[i + 1].p.host, v)
    ensures v in worlds[i].m.seen && v in worlds[i].m.safe
  {
    RunKeepsNets(site, worlds, steps, i);
    NetIsNamed(site, worlds[i], steps[i], worlds[i + 1], v);
  }

  ghost predicate NetsNamed(worlds: seq<World>, steps: seq<WorldStep>, v: VmId)
    requires |worlds| == |steps| + 1
  {
    forall i :: 0 <= i < |steps| && Missing(worlds[i].m, v) ==> !NetAppears(worlds[i].p.host, worlds[i + 1].p.host, v)
  }

  ghost predicate NetCarefulFrom(worlds: seq<World>, steps: seq<WorldStep>, n: nat)
    requires |worlds| == |steps| + 1
  {
    forall i :: n <= i < |steps| ==> NetCareful(worlds[i], steps[i])
  }

  /** Whatever happens after the release_network of `v` is asked for in `w`, later releases
      being careful. */
  ghost predicate ReleaseIsSafe(site: Site, w: World, v: VmId) {
    forall worlds: seq<World>, steps: seq<WorldStep> ::
      IsPath(site, worlds, steps) && |steps| > 0 && worlds[0] == w && steps[0].Release? && steps[0].act.Ask?
      && NetCarefulFrom(worlds, steps, 1)
      ==> NetsNamed(worlds, steps, v)
  }

  // ---------------------------------------------------------------- the failing direction

  /** A release_network of `v` is next, nothing else of it is left, and privd answers its
      inventory. */
  ghost predicate LastHalf(site: Site, w: World, v: VmId) {
    && NetInv(w) && LeaseInv(site, w) && IdsInv(site, w, AllocateNetwork)
    && w.task == ReleasingNet(v, true, None) && ValidId(v)
    && w.p.daemon.Up? && NetworkLeases(w.p.daemon, w.p.disk.seen.ledger).Leases?
    && VmHalfClear(w.p.disk.seen.ledger, v)
  }

  lemma LastHalfReady(site: Site, w: World, v: VmId)
    requires LastHalf(site, w, v)
    ensures Ready(w, v) && (v !in w.p.disk.seen.ledger ==> !At(w.p.host, v).net)
  {
    InventoryMeansRest(w.p);
    RestingVm(w.p, v);
    InventoryNamesNetworks(w.p, v);
  }

  lemma UnreadIsGrantable(site: Site, w: World, v: VmId, req: Request)
    requires LastHalf(site, w, v) && req in w.unread && req.verb == AllocateNetwork && Target(req) == v
    ensures v in w.m.seen && req == NetRequest(req.opId, v, w.m.seen[v].cidr) && w.m.seen[v].cidr != ""
    ensures ValidId(req.opId) && req.opId !in w.p.disk.seen.receipts && req !in w.arrived && req.opId in w.armed
    ensures forall x :: x in w.p.disk.seen.ledger && x != v ==> w.p.disk.seen.ledger[x].netCidr != w.m.seen[v].cidr
  {
    assert Live(w, req);
    var ledger := w.p.disk.seen.ledger;
    forall x | x in ledger && x != v
      ensures ledger[x].netCidr != w.m.seen[v].cidr
    {
      if ledger[x].netCidr != "" {
        assert !Missing(w.m, x);
        assert Apart(v, w.m.seen[v], x, w.m.seen[x]);
      }
    }
  }

  lemma AsksNet(site: Site, w: World, v: VmId, n: OpId) returns (asked: World)
    requires Ready(w, v) && w.task == ReleasingNet(v, true, None) && Unused(w, n)
    ensures WorldNext(site, w, Release(Ask(ReleaseOf(n, ReleaseNetwork, v))), asked)
    ensures asked == w.(task := ReleasingNet(v, true, Some(ReleaseOf(n, ReleaseNetwork, v))))
  {
    asked := w.(task := ReleasingNet(v, true, Some(ReleaseOf(n, ReleaseNetwork, v))));
  }

  /** The release is answered, the manifest removed, and then the allocation is read. */
  lemma LateNetFollows(site: Site, w: World, v: VmId, req: Request, n: OpId)
    returns (asked: World, late: World, step: WorldStep, after: World)
    requires LastHalf(site, w, v) && req in w.unread && req.verb == AllocateNetwork && Target(req) == v && Unused(w, n)
    ensures WorldNext(site, w, Release(Ask(ReleaseOf(n, ReleaseNetwork, v))), asked) && Leads(site, asked, late, NoAsk)
    ensures WorldNext(site, late, step, after) && step.PrivdStep?
    ensures v !in late.m.seen && v !in late.m.safe && NetAppears(late.p.host, after.p.host, v)
  {
    LastHalfReady(site, w, v);
    UnreadIsGrantable(site, w, v, req);
    asked := AsksNet(site, w, v, n);
    var w1 := Withdraws(site, asked, v, n, Gone, NoAsk);
    assert req !in w1.arrived && req.opId !in w1.p.disk.seen.receipts;
    late, step, after := NetLands(site, w1, v, req.opId, w.m.seen[v].cidr, NoAsk);
    Joined(site, asked, w1, late, NoAsk);
  }

  lemma LatePathIsNot(site: Site, w: World, v: VmId, ask: WorldStep, w1: World, late: World, step: WorldStep, after: World)
    requires WorldNext(site, w, ask, w1) && ask.Release? && ask.act.Ask? && Leads(site, w1, late, NoAsk)
    requires WorldNext(site, late, step, after) && step.PrivdStep? && Missing(late.m, v) && NetAppears(late.p.host, after.p.host, v)
    ensures !ReleaseIsSafe(site, w, v)
  {
    var us, ts :| PathTo(site, us, ts, w1, late, NoAsk);
    assert IsPath(site, [w, w1], [ask]);
    JoinedPath(site, [w, w1], [ask], us, ts);
    var worlds, steps := [w, w1] + us[1..], [ask] + ts;
    Extends(site, worlds, steps, step, after);
    var all, did := worlds + [after], steps + [step];
    assert NetCarefulFrom(all, did, 1);
    var k := |steps|;
    assert all[k] == late && all[k + 1] == after && did[k] == step;
    assert !NetsNamed(all, did, v);
  }

  // ---------------------------------------------------------------- exactly when a release is safe

  lemma CarefulPathNames(site: Site, worlds: seq<World>, steps: seq<WorldStep>, v: VmId)
    requires IsPath(site, worlds, steps) && NetInv(worlds[0]) && NetCarefulFrom(worlds, steps, 0)
    ensures NetsNamed(worlds, steps, v)
  {
    forall i | 0 <= i < |steps| && Missing(worlds[i].m, v)
      ensures !NetAppears(worlds[i].p.host, worlds[i + 1].p.host, v)
    {
      PathKeepsNets(site, worlds, steps, i);
      if NetAppears(worlds[i].p.host, worlds[i + 1].p.host, v) {
        NetIsNamed(site, worlds[i], steps[i], worlds[i + 1], v);
        assert false;
      }
    }
  }

  lemma SafeWhenNothingUnread(site: Site, w: World, v: VmId)
    requires LastHalf(site, w, v) && forall req :: req in w.unread && req.verb == AllocateNetwork ==> Target(req) != v
    ensures ReleaseIsSafe(site, w, v)
  {
    assert NoLive(w, v, AllocateNetwork) by {
      forall req | Target(req) == v && req.verb == AllocateNetwork
        ensures !Live(w, req)
      {
        InventoryMeansNoLive(w.p, req);
      }
    }
    forall us: seq<World>, ts: seq<WorldStep> | IsPath(site, us, ts) && |ts| > 0 && us[0] == w && ts[0].Release? && ts[0].act.Ask? && NetCarefulFrom(us, ts, 1)
      ensures NetsNamed(us, ts, v)
    {
      CarefulPathNames(site, us, ts, v);
    }
  }

  /** Asking privd at rest to release the network of a VM whose VM half is released is safe,
      whatever comes after, if and only if no allocate_network of that VM is unread. */
  lemma ReleaseSafeIff(site: Site, worlds: seq<World>, steps: seq<WorldStep>, i: nat, v: VmId, n: OpId)
    requires IsWorldRun(site, worlds, steps) && i < |worlds| && NetCarefulUntil(worlds, steps, i) && TidyUntil(worlds, steps, i)
    requires worlds[i].task == ReleasingNet(v, true, None) && ValidId(v) && VmHalfClear(worlds[i].p.disk.seen.ledger, v)
    requires worlds[i].p.daemon.Up? && NetworkLeases(worlds[i].p.daemon, worlds[i].p.disk.seen.ledger).Leases?
    requires Unused(worlds[i], n)
    ensures ReleaseIsSafe(site, worlds[i], v) <==>
      forall req :: req in worlds[i].unread && req.verb == AllocateNetwork ==> Target(req) != v
  {
    var w := worlds[i];
    RunKeepsNets(site, worlds, steps, i);
    RunKeepsLeases(site, worlds, steps, i);
    RunKeepsNetIds(site, worlds, steps, i);
    if req :| req in w.unread && req.verb == AllocateNetwork && Target(req) == v {
      var asked, late, step, after := LateNetFollows(site, w, v, req, n);
      LatePathIsNot(site, w, v, Release(Ask(ReleaseOf(n, ReleaseNetwork, v))), asked, late, step, after);
    } else {
      SafeWhenNothingUnread(site, w, v);
    }
  }
}
