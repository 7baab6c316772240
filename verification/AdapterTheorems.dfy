/** No late start, and no identity given twice, over whole runs. */
module AdapterTheorems {
  import opened Wire
  import opened Ledger
  import opened Handlers
  import opened Privd
  import opened PrivdInvariant
  import opened PrivdTheorems
  import opened Adapter
  import opened AdapterInvariant
  import opened AdapterPrivdSteps
  import opened AdapterLink
  import opened AdapterStarts
  import opened AdapterNets
  import opened AdapterLeases

  // ---------------------------------------------------------------- conditions on runs

  /** No launch among the first `n` steps finds a start of its VM unread. */
  ghost predicate CarefulUntil(worlds: seq<World>, steps: seq<WorldStep>, n: nat)
    requires |worlds| == |steps| + 1
  {
    forall i :: 0 <= i < n && i < |steps| ==> Careful(worlds[i], steps[i])
  }

  ghost predicate CheckedUntil(worlds: seq<World>, steps: seq<WorldStep>, n: nat)
    requires |worlds| == |steps| + 1
  {
    forall i :: 0 <= i < n && i < |steps| ==> Checked(worlds[i], steps[i])
  }

  ghost predicate NetCarefulUntil(worlds: seq<World>, steps: seq<WorldStep>, n: nat)
    requires |worlds| == |steps| + 1
  {
    forall i :: 0 <= i < n && i < |steps| ==> NetCareful(worlds[i], steps[i])
  }

  ghost predicate AnsweredUntil(worlds: seq<World>, steps: seq<WorldStep>, n: nat)
    requires |worlds| == |steps| + 1
  {
    forall i :: 0 <= i < n && i < |steps| ==> NetAnswered(worlds[i], steps[i])
  }

  ghost predicate TidyUntil(worlds: seq<World>, steps: seq<WorldStep>, n: nat)
    requires |worlds| == |steps| + 1
  {
    forall i :: 0 <= i < n && i < |steps| ==> Tidy(worlds[i], steps[i])
  }

  ghost predicate SweptUntil(worlds: seq<World>, steps: seq<WorldStep>, n: nat)
    requires |worlds| == |steps| + 1
  {
    forall i :: 0 <= i < n && i < |steps| ==> Swept(worlds[i], steps[i])
  }

  // ---------------------------------------------------------------- paths keep the invariants

  lemma {:induction false} PathKeepsStarts(site: Site, worlds: seq<World>, steps: seq<WorldStep>, i: nat)
    requires IsPath(site, worlds, steps) && WorldInv(worlds[0]) && CarefulUntil(worlds, steps, i) && i < |worlds|
    ensures WorldInv(worlds[i])
  {
    if i > 0 {
      PathKeepsStarts(site, worlds, steps, i - 1);
      WorldStepKeepsInv(site, worlds[i - 1], steps[i - 1], worlds[i]);
    }
  }

  lemma {:induction false} PathKeepsNets(site: Site, worlds: seq<World>, steps: seq<WorldStep>, i: nat)
    requires IsPath(site, worlds, steps) && NetInv(worlds[0]) && NetCarefulUntil(worlds, steps, i) && i < |worlds|
    ensures NetInv(worlds[i])
  {
    if i > 0 {
      PathKeepsNets(site, worlds, steps, i - 1);
      NetStepKeepsInv(site, worlds[i - 1], steps[i - 1], worlds[i]);
    }
  }

  lemma {:induction false} PathKeepsLeases(site: Site, worlds: seq<World>, steps: seq<WorldStep>, i: nat)
    requires IsPath(site, worlds, steps) && LeaseInv(site, worlds[0]) && TidyUntil(worlds, steps, i) && i < |worlds|
    ensures LeaseInv(site, worlds[i])
  {
    if i > 0 {
      PathKeepsLeases(site, worlds, steps, i - 1);
      StepKeepsLeases(site, worlds[i - 1], steps[i - 1], worlds[i]);
    }
  }

  lemma InitialStarts(w: World)
    requires WorldInitial(w)
    ensures WorldInv(w)
  {
    InitialInv(w.p);
  }

  lemma InitialRest(site: Site, w: World)
    requires WorldInitial(w)
    ensures NetInv(w) && LeaseInv(site, w) && IdsInv(site, w, StartVm) && IdsInv(site, w, AllocateNetwork) && Solo(w) && Sweeping(w)
  {
    InitialStarts(w);
  }

  lemma RunKeepsStarts(site: Site, worlds: seq<World>, steps: seq<WorldStep>, i: nat)
    requires IsWorldRun(site, worlds, steps) && CarefulUntil(worlds, steps, i) && i < |worlds|
    ensures WorldInv(worlds[i])
  {
    InitialStarts(worlds[0]);
    PathKeepsStarts(site, worlds, steps, i);
  }

  lemma RunKeepsNets(site: Site, worlds: seq<World>, steps: seq<WorldStep>, i: nat)
    requires IsWorldRun(site, worlds, steps) && NetCarefulUntil(worlds, steps, i) && i < |worlds|
    ensures NetInv(worlds[i])
  {
    InitialRest(site, worlds[0]);
    PathKeepsNets(site, worlds, steps, i);
  }

  lemma RunKeepsLeases(site: Site, worlds: seq<World>, steps: seq<WorldStep>, i: nat)
    requires IsWorldRun(site, worlds, steps) && TidyUntil(worlds, steps, i) && i < |worlds|
    ensures LeaseInv(site, worlds[i])
  {
    InitialRest(site, worlds[0]);
    PathKeepsLeases(site, worlds, steps, i);
  }

  lemma {:induction false} RunKeepsVmIds(site: Site, worlds: seq<World>, steps: seq<WorldStep>, i: nat)
    requires IsWorldRun(site, worlds, steps) && i < |worlds| && TidyUntil(worlds, steps, i) && CarefulUntil(worlds, steps, i)
    ensures IdsInv(site, worlds[i], StartVm)
  {
    if i == 0 {
      InitialRest(site, worlds[0]);
    } else {
      RunKeepsVmIds(site, worlds, steps, i - 1);
      RunKeepsStarts(site, worlds, steps, i - 1);
      RunKeepsLeases(site, worlds, steps, i - 1);
      StartsPresent(worlds[i - 1]);
      StepKeepsIds(site, worlds[i - 1], steps[i - 1], worlds[i], StartVm);
    }
  }

  lemma {:induction false} RunKeepsNetIds(site: Site, worlds: seq<World>, steps: seq<WorldStep>, i: nat)
    requires IsWorldRun(site, worlds, steps) && i < |worlds| && TidyUntil(worlds, steps, i) && NetCarefulUntil(worlds, steps, i)
    ensures IdsInv(site, worlds[i], AllocateNetwork)
  {
    if i == 0 {
      InitialRest(site, worlds[0]);
    } else {
      RunKeepsNetIds(site, worlds, steps, i - 1);
      RunKeepsNets(site, worlds, steps, i - 1);
      RunKeepsLeases(site, worlds, steps, i - 1);
      NetsPresent(worlds[i - 1]);
      StepKeepsIds(site, worlds[i - 1], steps[i - 1], worlds[i], AllocateNetwork);
    }
  }

  // ---------------------------------------------------------------- what a caller can check

  /** A launch that first asks about its manifest's start is careful. */
  lemma {:induction false} CheckedRunIsCareful(site: Site, worlds: seq<World>, steps: seq<WorldStep>, n: nat)
    requires IsWorldRun(site, worlds, steps) && CheckedUntil(worlds, steps, n) && n <= |steps|
    ensures CarefulUntil(worlds, steps, n)
  {
    if n > 0 {
      CheckedRunIsCareful(site, worlds, steps, n - 1);
      RunKeepsStarts(site, worlds, steps, n - 1);
      CheckedIsCareful(worlds[n - 1], steps[n - 1]);
    }
  }

  /** A run whose allocate_network calls are all answered asks for no release too early. */
  lemma {:induction false} AnsweredRunIsCareful(site: Site, worlds: seq<World>, steps: seq<WorldStep>, n: nat)
    requires IsWorldRun(site, worlds, steps) && AnsweredUntil(worlds, steps, n) && n <= |steps|
    ensures NetCarefulUntil(worlds, steps, n) && Solo(worlds[n])
  {
    if n == 0 {
      InitialRest(site, worlds[0]);
    } else {
      AnsweredRunIsCareful(site, worlds, steps, n - 1);
      RunKeepsLink(site, worlds, steps, n - 1);
      StepKeepsSolo(site, worlds[n - 1], steps[n - 1], worlds[n]);
    }
  }

  /** A run whose launches find a manifest in every directory gives nothing away too early. */
  lemma {:induction false} SweptRunIsTidy(site: Site, worlds: seq<World>, steps: seq<WorldStep>, n: nat)
    requires IsWorldRun(site, worlds, steps) && SweptUntil(worlds, steps, n) && n <= |steps|
    ensures TidyUntil(worlds, steps, n) && Sweeping(worlds[n])
  {
    if n == 0 {
      InitialRest(site, worlds[0]);
    } else {
      SweptRunIsTidy(site, worlds, steps, n - 1);
      RunKeepsLeases(site, worlds, steps, n - 1);
      SweptIsTidy(site, worlds[n - 1], steps[n - 1], worlds[n]);
    }
  }

  // ---------------------------------------------------------------- no late start

  /** A jail tree or a process of `v` appears. */
  predicate Starts(h: Host, h': Host, v: VmId) {
    (At(h', v).tree && !At(h, v).tree) || !(At(h', v).procs <= At(h, v).procs)
  }

  /** Which start put a tree or a process on the host. */
  lemma EffectHasLiveStart(cfg: Config, p: State, ps: Step, p': State, v: VmId)
    requires JournalInv(p) && Next(cfg, p, ps, p') && Starts(p.host, p'.host, v)
    ensures exists req :: Target(req) == v && req.verb == StartVm && LiveInPrivd(p, req)
  {
    if ps.Work? {
      assert LiveInPrivd(p, p.daemon.exec.value.req);
    } else if ps.LateEffect? {
      assert LiveInPrivd(p, p.disk.seen.receipts[ps.op].request);
    }
  }

  lemma OnlyPrivdChangesHost(site: Site, w: World, step: WorldStep, w': World, v: VmId)
    requires WorldNext(site, w, step, w') && !step.PrivdStep?
    ensures !Starts(w.p.host, w'.p.host, v) && !(At(w'.p.host, v).net && !At(w.p.host, v).net)
  {
    match step
    case Launch(move) => assert w'.p == w.p;
    case Release(act) => assert w'.p == w.p;
    case _ =>
  }

  lemma StartIsOwned(site: Site, w: World, step: WorldStep, w': World, v: VmId)
    requires WorldInv(w) && WorldNext(site, w, step, w') && Starts(w.p.host, w'.p.host, v)
    ensures exists req :: Live(w, req) && req.verb == StartVm && Target(req) == v && Owns(w.m, v, req.opId)
  {
    if !step.PrivdStep? { OnlyPrivdChangesHost(site, w, step, w', v); }
    EffectHasLiveStart(site.privd, w.p, step.step, w'.p, v);
    var req :| Target(req) == v && req.verb == StartVm && LiveInPrivd(w.p, req);
    assert Live(w, req);
  }

  /** No late start: whenever a jail tree or a VMM of `v` appears on the host, both versions
      of v's manifest are present, name a start that is still out, and record no pid. */
  lemma NoLateStart(site: Site, worlds: seq<World>, steps: seq<WorldStep>, i: nat, v: VmId)
    requires IsWorldRun(site, worlds, steps) && CarefulUntil(worlds, steps, i) && i < |steps|
    requires Starts(worlds[i].p.host, worlds[i + 1].p.host, v)
    ensures exists req :: Live(worlds[i], req) && req.verb == StartVm && Target(req) == v && Owns(worlds[i].m, v, req.opId)
  {
    RunKeepsStarts(site, worlds, steps, i);
    StartIsOwned(site, worlds[i], steps[i], worlds[i + 1], v);
  }

  /** The same for runs whose launches first ask about the start their manifest names. */
  lemma NoLateStartWhenChecked(site: Site, worlds: seq<World>, steps: seq<WorldStep>, i: nat, v: VmId)
    requires IsWorldRun(site, worlds, steps) && CheckedUntil(worlds, steps, i) && i < |steps|
    requires Starts(worlds[i].p.host, worlds[i + 1].p.host, v)
    ensures exists req :: Live(worlds[i], req) && req.verb == StartVm && Target(req) == v && Owns(worlds[i].m, v, req.opId)
  {
    CheckedRunIsCareful(site, worlds, steps, i);
    NoLateStart(site, worlds, steps, i, v);
  }

  /** A VM with a chroot, a process, or a uid and CID in privd's ledger has its manifest, in
      both versions. */
  lemma HoldingsHaveManifest(site: Site, worlds: seq<World>, steps: seq<WorldStep>, i: nat, v: VmId)
    requires IsWorldRun(site, worlds, steps) && CarefulUntil(worlds, steps, i) && i < |worlds|
    requires !Quiet(worlds[i].p, v)
    ensures v in worlds[i].m.seen && v in worlds[i].m.safe
  {
    RunKeepsStarts(site, worlds, steps, i);
  }

  /** A VM with a network, on the host or in privd's ledger, has its manifest in both
      versions; with tidy launches, a manifest that names that very subnet. */
  lemma NetworksHaveManifest(site: Site, worlds: seq<World>, steps: seq<WorldStep>, i: nat, v: VmId)
    requires IsWorldRun(site, worlds, steps) && NetCarefulUntil(worlds, steps, i) && i < |worlds|
    requires !NetClear(worlds[i].p, v)
    ensures v in worlds[i].m.seen && v in worlds[i].m.safe
    ensures TidyUntil(worlds, steps, i) ==>
      var (w, p) := (worlds[i], worlds[i].p);
      forall e :: (Lookup(p.disk.seen.ledger, v) == Some(e) || Lookup(p.disk.safe.ledger, v) == Some(e)) && e.netCidr != "" ==>
        e.netCidr == w.m.seen[v].cidr == w.m.safe[v].cidr
  {
    RunKeepsNets(site, worlds, steps, i);
    if TidyUntil(worlds, steps, i) { RunKeepsNetIds(site, worlds, steps, i); }
  }

  // ---------------------------------------------------------------- identities

  /** No two VMs ever hold one slot or one subnet, whichever version of each manifest a power
      loss leaves, and a VM's versions agree. */
  lemma LeasesDistinct(site: Site, worlds: seq<World>, steps: seq<WorldStep>, i: nat, v: VmId, x: Manifest, w: VmId, y: Manifest)
    requires IsWorldRun(site, worlds, steps) && TidyUntil(worlds, steps, i) && i < |worlds|
    requires Lookup(worlds[i].m.seen, v) == Some(x) || Lookup(worlds[i].m.safe, v) == Some(x)
    requires Lookup(worlds[i].m.seen, w) == Some(y) || Lookup(worlds[i].m.safe, w) == Some(y)
    ensures v == w ==> x.slot == y.slot && x.cidr == y.cidr
    ensures v != w ==> x.slot != y.slot && x.cidr != y.cidr
  {
    RunKeepsLeases(site, worlds, steps, i);
    assert Distinct(worlds[i].m);
  }

  lemma ReserveKeepsLease(site: Site, w: World, move: LaunchMove, w': World, v: VmId)
    requires Counted(w) && LaunchStep(site, w, move, w') && move.Reserve? && v in w.m.seen && v in w'.m.seen
    ensures SameLease(w'.m.seen[v], w.m.seen[v])
  {
  }

  lemma StepKeepsLease(site: Site, w: World, step: WorldStep, w': World, v: VmId)
    requires Distinct(w.m) && Counted(w) && WorldNext(site, w, step, w') && v in w.m.seen && v in w'.m.seen
    ensures SameLease(w'.m.seen[v], w.m.seen[v])
  {
    match step
    case Launch(move) =>
      if move.Reserve? { ReserveKeepsLease(site, w, move, w', v); } else { LaunchLeases(site, w, move, w'); }
    case Release(act) => ReleaseLeases(w, act, w');
    case PowerCut(_, _, _) => assert v in w.m.safe ==> Apart(v, w.m.seen[v], v, w.m.safe[v]);
    case _ =>
  }

  lemma RunStepKeepsLease(site: Site, worlds: seq<World>, steps: seq<WorldStep>, i: nat, v: VmId)
    requires IsWorldRun(site, worlds, steps) && i < |steps| && TidyUntil(worlds, steps, i)
    requires v in worlds[i].m.seen && v in worlds[i + 1].m.seen
    ensures SameLease(worlds[i + 1].m.seen[v], worlds[i].m.seen[v])
  {
    RunKeepsLeases(site, worlds, steps, i);
    StepKeepsLease(site, worlds[i], steps[i], worlds[i + 1], v);
  }

  lemma {:induction false} LeaseChain(worlds: seq<World>, i: nat, j: nat, v: VmId)
    requires i <= j < |worlds| && forall k :: i <= k <= j ==> v in worlds[k].m.seen
    requires forall k :: i <= k < j ==> SameLease(worlds[k + 1].m.seen[v], worlds[k].m.seen[v])
    ensures SameLease(worlds[j].m.seen[v], worlds[i].m.seen[v])
  {
    if i < j {
      LeaseChain(worlds, i, j - 1, v);
      assert SameLease(worlds[j - 1 + 1].m.seen[v], worlds[j - 1].m.seen[v]);
    }
  }

  /** A restart keeps its slot and its subnet: a lease is the same for as long as the manifest
      is there. */
  lemma RestartKeepsLease(site: Site, worlds: seq<World>, steps: seq<WorldStep>, i: nat, j: nat, v: VmId)
    requires IsWorldRun(site, worlds, steps) && i <= j < |worlds| && TidyUntil(worlds, steps, j)
    requires forall k :: i <= k <= j ==> v in worlds[k].m.seen
    ensures SameLease(worlds[j].m.seen[v], worlds[i].m.seen[v])
  {
    forall k | i <= k < j
      ensures SameLease(worlds[k + 1].m.seen[v], worlds[k].m.seen[v])
    {
      RunStepKeepsLease(site, worlds, steps, k, v);
    }
    LeaseChain(worlds, i, j, v);
  }

  /** The slot a VM that was not there is given, at the moment it is given. */
  predicate GivesFresh(w: World, step: WorldStep) {
    step.Launch? && step.move.Reserve? && w.task.Reserving? && w.task.vm !in w.m.seen
  }

  /** `v` does not have the slot, and neither a uid nor a CID that goes with it, anywhere. */
  ghost predicate FreeOfSlot(site: Site, w: World, v: VmId, slot: nat) {
    && (v in w.m.seen ==> w.m.seen[v].slot != slot) && (v in w.m.safe ==> w.m.safe[v].slot != slot)
    && (forall e :: Lookup(w.p.disk.seen.ledger, v) == Some(e) || Lookup(w.p.disk.safe.ledger, v) == Some(e) ==>
          e.pid > 0 ==> e.uid != site.uidBase + slot && e.cid != site.cidBase + slot)
    && (forall req :: Live(w, req) && req.verb == StartVm && Target(req) == v ==>
          req.payload.Payload? && req.payload.uid != site.uidBase + slot && req.payload.cid != site.cidBase + slot)
  }

  lemma FreeOfSlotFrom(site: Site, w: World, x: VmId, slot: nat)
    requires StartsOwned(w) && Bare(w) && Distinct(w.m) && IdsInv(site, w, StartVm)
    requires (x in w.m.seen ==> w.m.seen[x].slot != slot) && (x in w.m.safe ==> w.m.safe[x].slot != slot)
    ensures FreeOfSlot(site, w, x, slot)
  {
    assert Missing(w.m, x) ==> Quiet(w.p, x);
  }

  lemma FreshApart(site: Site, w: World, step: WorldStep, w': World, x: VmId)
    requires LeaseInv(site, w) && Tidy(w, step) && GivesFresh(w, step) && WorldNext(site, w, step, w') && x != w.task.vm
    ensures step.move.cidr != ""
    ensures x in w.m.seen ==> w.m.seen[x].slot != step.move.slot && w.m.seen[x].cidr != step.move.cidr
    ensures x in w.m.safe ==> w.m.safe[x].slot != step.move.slot && w.m.safe[x].cidr != step.move.cidr
  {
    ReserveFits(site, w, step.move.slot, step.move.cidr, step.move.put, step.move.undo, w');
  }

  /** Identity reuse safety, uid and CID: when a slot is given to a VM that was not there, that
      VM has no chroot, no process, no uid and no CID; and every other VM that has any of
      them, or may still get them, has its manifest in both versions, with another slot. */
  lemma SlotGivenOnlyWhenFree(site: Site, worlds: seq<World>, steps: seq<WorldStep>, i: nat, x: VmId)
    requires IsWorldRun(site, worlds, steps) && i < |steps| && GivesFresh(worlds[i], steps[i])
    requires CarefulUntil(worlds, steps, i) && TidyUntil(worlds, steps, i + 1)
    ensures var (w, slot) := (worlds[i], steps[i].move.slot);
      && Quiet(w.p, w.task.vm) && NoLive(w, w.task.vm, StartVm)
      && (x != w.task.vm ==> FreeOfSlot(site, w, x, slot) && (!Quiet(w.p, x) ==> !Missing(w.m, x)))
  {
    RunKeepsStarts(site, worlds, steps, i);
    RunKeepsLeases(site, worlds, steps, i);
    RunKeepsVmIds(site, worlds, steps, i);
    assert Missing(worlds[i].m, worlds[i].task.vm);
    if x != worlds[i].task.vm {
      FreshApart(site, worlds[i], steps[i], worlds[i + 1], x);
      FreeOfSlotFrom(site, worlds[i], x, steps[i].move.slot);
    }
  }

  ghost predicate FreeOfSubnet(w: World, v: VmId, cidr: string) {
    && (v in w.m.seen ==> w.m.seen[v].cidr != cidr) && (v in w.m.safe ==> w.m.safe[v].cidr != cidr)
    && (forall e :: Lookup(w.p.disk.seen.ledger, v) == Some(e) || Lookup(w.p.disk.safe.ledger, v) == Some(e) ==> e.netCidr != cidr)
    && (forall req :: Live(w, req) && req.verb == AllocateNetwork && Target(req) == v ==>
          req.payload.Payload? && req.payload.cidr != cidr)
  }

  lemma FreeOfSubnetFrom(site: Site, w: World, x: VmId, cidr: string)
    requires NetsOwned(w) && IdsInv(site, w, AllocateNetwork) && cidr != ""
    requires (x in w.m.seen ==> w.m.seen[x].cidr != cidr) && (x in w.m.safe ==> w.m.safe[x].cidr != cidr)
    ensures FreeOfSubnet(w, x, cidr)
  {
    assert Missing(w.m, x) ==> NetClear(w.p, x);
  }

  /** Identity reuse safety, subnet: the same for the subnet that goes with the slot. */
  lemma SubnetGivenOnlyWhenFree(site: Site, worlds: seq<World>, steps: seq<WorldStep>, i: nat, x: VmId)
    requires IsWorldRun(site, worlds, steps) && i < |steps| && GivesFresh(worlds[i], steps[i])
    requires NetCarefulUntil(worlds, steps, i) && TidyUntil(worlds, steps, i + 1)
    ensures var (w, cidr) := (worlds[i], steps[i].move.cidr);
      && NetClear(w.p, w.task.vm) && NoLive(w, w.task.vm, AllocateNetwork)
      && (x != w.task.vm ==> FreeOfSubnet(w, x, cidr) && (!NetClear(w.p, x) ==> !Missing(w.m, x)))
  {
    RunKeepsNets(site, worlds, steps, i);
    RunKeepsLeases(site, worlds, steps, i);
    RunKeepsNetIds(site, worlds, steps, i);
    assert Missing(worlds[i].m, worlds[i].task.vm);
    if x != worlds[i].task.vm {
      FreshApart(site, worlds[i], steps[i], worlds[i + 1], x);
      FreeOfSubnetFrom(site, worlds[i], x, steps[i].move.cidr);
    }
  }

  /** Both, under conditions an adapter can check: it asks about the start its manifest names
      before a launch, launches only when every directory has its manifest, and every
      allocate_network of it was answered. */
  lemma IdentityReuseSafe(site: Site, worlds: seq<World>, steps: seq<WorldStep>, i: nat, x: VmId)
    requires IsWorldRun(site, worlds, steps) && i < |steps| && GivesFresh(worlds[i], steps[i])
    requires CheckedUntil(worlds, steps, i) && AnsweredUntil(worlds, steps, i) && SweptUntil(worlds, steps, i + 1)
    ensures var (w, move) := (worlds[i], steps[i].move);
      && Quiet(w.p, w.task.vm) && NetClear(w.p, w.task.vm)
      && (x != w.task.vm ==>
            && FreeOfSlot(site, w, x, move.slot) && FreeOfSubnet(w, x, move.cidr)
            && (!Quiet(w.p, x) || !NetClear(w.p, x) ==> !Missing(w.m, x)))
  {
    CheckedRunIsCareful(site, worlds, steps, i);
    AnsweredRunIsCareful(site, worlds, steps, i);
    SweptRunIsTidy(site, worlds, steps, i + 1);
    SlotGivenOnlyWhenFree(site, worlds, steps, i, x);
    SubnetGivenOnlyWhenFree(site, worlds, steps, i, x);
  }

  // ---------------------------------------------------------------- in every run

  lemma {:induction false} LeasesStay(site: Site, worlds: seq<World>, steps: seq<WorldStep>, i: nat, j: nat)
    requires IsPath(site, worlds, steps) && i <= j < |worlds| && forall k :: i <= k < j ==> steps[k].PrivdStep?
    ensures worlds[j].leases == worlds[i].leases && worlds[j].m == worlds[i].m && worlds[j].task == worlds[i].task
  {
    if i < j {
      LeasesStay(site, worlds, steps, i, j - 1);
      assert WorldNext(site, worlds[j - 1], steps[j - 1], worlds[j - 1 + 1]);
    }
  }

  lemma ReservesFromInventory(site: Site, worlds: seq<World>, steps: seq<WorldStep>, i: nat, j: nat, v: VmId)
    requires IsPath(site, worlds, steps) && i < j < |steps| && steps[i] == Launch(Begins(v))
    requires (forall k :: i < k < j ==> steps[k].PrivdStep?) && steps[j].Launch? && steps[j].move.Reserve?
    ensures LaunchStep(site, worlds[i], Begins(v), worlds[i + 1]) && CidrFor(worlds[i + 1].leases, v, steps[j].move.cidr)
  {
    LeasesStay(site, worlds, steps, i + 1, j);
    assert WorldNext(site, worlds[i], steps[i], worlds[i + 1]) && WorldNext(site, worlds[j], steps[j], worlds[j + 1]);
  }

  /** In every run, careful or not: the subnet a launch chooses is none that a manifest named,
      that privd had in its ledger, or that was on the host for another VM, when the launch
      read the inventory. */
  lemma SubnetFreeInInventory(site: Site, worlds: seq<World>, steps: seq<WorldStep>, i: nat, j: nat, v: VmId, x: VmId)
    requires IsWorldRun(site, worlds, steps) && i < j < |steps| && steps[i] == Launch(Begins(v))
    requires (forall k :: i < k < j ==> steps[k].PrivdStep?) && steps[j].Launch? && steps[j].move.Reserve? && x != v
    ensures var (w, cidr) := (worlds[i], steps[j].move.cidr);
      && (x in w.m.seen ==> w.m.seen[x].cidr != cidr)
      && (x in w.p.disk.seen.ledger && w.p.disk.seen.ledger[x].netCidr != "" ==> w.p.disk.seen.ledger[x].netCidr != cidr)
      && w.p.disk.safe.ledger == w.p.disk.seen.ledger
      && (At(w.p.host, x).net ==> x in w.p.disk.seen.ledger && w.p.disk.seen.ledger[x].netCidr != "")
  {
    ReservesFromInventory(site, worlds, steps, i, j, v);
    RunKeepsLink(site, worlds, steps, i);
    InventoryRead(site, worlds[i], v, worlds[i + 1], steps[j].move.cidr, x);
    InventoryMeansSettled(worlds[i].p);
    InventoryNamesNetworks(worlds[i].p, x);
  }

  lemma InventoryRead(site: Site, w: World, v: VmId, w': World, cidr: string, x: VmId)
    requires LaunchStep(site, w, Begins(v), w') && CidrFor(w'.leases, v, cidr) && x != v
    ensures x in w.m.seen ==> w.m.seen[x].cidr != cidr
    ensures x in w.p.disk.seen.ledger && w.p.disk.seen.ledger[x].netCidr != "" ==> w.p.disk.seen.ledger[x].netCidr != cidr
    ensures w.p.daemon.Up? && NetworkLeases(w.p.daemon, w.p.disk.seen.ledger).Leases?
  {
    assert x in w.m.seen ==> x in Cidrs(w.m.seen) && Cidrs(w.m.seen)[x] == w.m.seen[x].cidr;
    var claims := NetworkLeases(w.p.daemon, w.p.disk.seen.ledger).leases;
    assert x in w.p.disk.seen.ledger && w.p.disk.seen.ledger[x].netCidr != "" ==> x in claims && w'.leases[x] == claims[x];
  }

  lemma InventoryNamesNetworks(p: State, x: VmId)
    requires Inv(p) && p.daemon.Up? && NetworkLeases(p.daemon, p.disk.seen.ledger).Leases?
    ensures At(p.host, x).net ==> x in p.disk.seen.ledger && p.disk.seen.ledger[x].netCidr != ""
  {
    assert !Open(p.disk.seen.ledger, p.disk.seen.receipts, p.past.begun, x);
  }
}
