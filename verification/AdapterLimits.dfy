/** The launch that overtakes its own start: launch overwrites the op_id its manifest names
    without asking about it. When that is safe, and what follows when it is not. */
module AdapterLimits {
  import opened Wire
  import opened Ledger
  import opened Handlers
  import opened Privd
  import opened PrivdInvariant
  import opened PrivdTheorems
  import opened Adapter
  import opened AdapterInvariant
  import opened AdapterLink
  import opened AdapterStarts
  import opened AdapterNets
  import opened AdapterLeases
  import opened AdapterTheorems
  import opened AdapterPaths

  // ---------------------------------------------------------------- a VM to be released

  /** An op_id nothing has used. */
  predicate Unused(w: World, op: OpId) { NewOp(w, op) && forall r :: r in w.unread ==> r.opId != op }

  /** privd is at rest and holds no process of `v`. */
  ghost predicate Ready(w: World, v: VmId) {
    && Rest(w.p) && EntriesInv(w.p.disk.seen.ledger) && ValidId(v)
    && !At(w.p.host, v).tree && At(w.p.host, v).procs == {} && VmHalfClear(w.p.disk.seen.ledger, v)
    && (forall reply :: reply in w.p.past.replies ==> reply.0 in w.arrived)
  }

  /** privd has served a request of `v` with `op`, and the adapter has moved on to `task`. */
  ghost predicate Onward(w: World, w': World, v: VmId, op: OpId, task: Task, ledger: LedgerMap) {
    && Ready(w', v) && w'.task == task && w'.p.disk.seen.ledger == ledger
    && w'.m == w.m && w'.leases == w.leases && w'.armed == w.armed
    && (forall r :: r in w'.arrived ==> r in w.arrived || r.opId == op)
    && (forall o :: o in w'.p.disk.seen.receipts || o in w'.p.disk.safe.receipts ==> o in w.p.disk.seen.receipts || o == op)
    && (forall x :: x != v ==> At(w'.p.host, x) == At(w.p.host, x))
  }

  function ReleaseOf(op: OpId, verb: Verb, v: VmId): Request {
    Request(op, verb, Payload(v, "", 0, 0, 0, "", [], "", {}))
  }

  lemma ServedReady(w: World, w': World, v: VmId, req: Request, r: Response, f: Footprint, ledger: LedgerMap)
    requires Ready(w, v) && Served(w, w', req, r, f, ledger) && Target(req) == v
    requires !f.tree && f.procs == {} && EntriesInv(ledger) && VmHalfClear(ledger, v)
    ensures Onward(w, w', v, req.opId, w.task, ledger) && At(w'.p.host, v) == f
  {
  }

  /** privd's part of a release_vm: nothing was running, so nothing changes. */
  lemma VmReleaseServed(site: Site, w: World, v: VmId, op: OpId, kind: Kind) returns (w': World, r: Response)
    requires Ready(w, v) && Unused(w, op)
    ensures Leads(site, w, w', kind) && Onward(w, w', v, op, w.task, w.p.disk.seen.ledger) && w'.unread == w.unread
    ensures (r.Ok? || r == Err(NotFound)) && (ReleaseOf(op, ReleaseVm, v), r) in w'.p.past.replies
    ensures At(w'.p.host, v) == At(w.p.host, v)
  {
    var (req, ledger) := (ReleaseOf(op, ReleaseVm, v), w.p.disk.seen.ledger);
    var f := At(w.p.host, v);
    if v in ledger {
      var e := ledger[v];
      r := Ok(None);
      assert AfterReleaseVm(e) == Some(e) && ledger[v := e] == ledger;
      w' := ServesCall(site, w, req, Dead, e, f, Some(e), kind);
    } else {
      r := Err(NotFound);
      w' := ServesAnswer(site, w, req, r, kind);
    }
    ServedReady(w, w', v, req, r, f, ledger);
    assert w.unread - {req} == w.unread;
  }

  /** And of a release_network: the entry goes with it. */
  lemma NetReleaseServed(site: Site, w: World, v: VmId, op: OpId, kind: Kind) returns (w': World, r: Response)
    requires Ready(w, v) && Unused(w, op)
    ensures Leads(site, w, w', kind) && Onward(w, w', v, op, w.task, w.p.disk.seen.ledger - {v}) && w'.unread == w.unread
    ensures (r.Ok? || r == Err(NotFound)) && (ReleaseOf(op, ReleaseNetwork, v), r) in w'.p.past.replies
    ensures v in w.p.disk.seen.ledger ==> !At(w'.p.host, v).net
    ensures v !in w.p.disk.seen.ledger ==> At(w'.p.host, v) == At(w.p.host, v)
  {
    var (req, ledger) := (ReleaseOf(op, ReleaseNetwork, v), w.p.disk.seen.ledger);
    var f := At(w.p.host, v);
    if v in ledger {
      var e := ledger[v];
      r, f := Ok(None), f.(net := false);
      w' := ServesCall(site, w, req, Alive, e, f, None, kind);
    } else {
      r := Err(NotFound);
      assert ledger - {v} == ledger;
      w' := ServesAnswer(site, w, req, r, kind);
    }
    ServedReady(w, w', v, req, r, f, ledger - {v});
    assert w.unread - {req} == w.unread;
  }

  // ---------------------------------------------------------------- the adapter's part

  lemma ReleasesVm(site: Site, w: World, v: VmId, op: OpId, kind: Kind) returns (w': World)
    requires Ready(w, v) && Unused(w, op) && w.task == ReleasingVm(v, None) && (kind.NoBegin? || kind.Calm?)
    ensures Leads(site, w, w', kind) && Onward(w, w', v, op, ReleasingNet(v, true, None), w.p.disk.seen.ledger)
    ensures w'.unread == w.unread && At(w'.p.host, v) == At(w.p.host, v)
  {
    var req := ReleaseOf(op, ReleaseVm, v);
    var w1 := w.(task := ReleasingVm(v, Some(req)));
    Stays(site, w, kind);
    Then(site, w, w, Release(Ask(req)), w1, kind);
    var w2, r := VmReleaseServed(site, w1, v, op, kind);
    Joined(site, w, w1, w2, kind);
    w' := w2.(task := ReleasingNet(v, true, None));
    Then(site, w, w2, Release(ReleaseReply(r, false)), w', kind);
  }

  /** From a release_network just asked for to the manifest's removal. */
  lemma Withdraws(site: Site, w: World, v: VmId, op: OpId, how: Removal, kind: Kind) returns (w': World)
    requires Ready(w, v) && Unused(w, op) && w.task == ReleasingNet(v, true, Some(ReleaseOf(op, ReleaseNetwork, v))) && !kind.Around?
    ensures Leads(site, w, w', kind) && w'.unread == w.unread
    ensures w'.m == RemoveManifest(w.m, v, how) && w'.leases == if how.Gone? then w.leases - {v} else w.leases
    ensures Onward(w, w'.(m := w.m, leases := w.leases), v, op, Idle, w.p.disk.seen.ledger - {v})
    ensures v in w.p.disk.seen.ledger ==> !At(w'.p.host, v).net
    ensures v !in w.p.disk.seen.ledger ==> At(w'.p.host, v) == At(w.p.host, v)
  {
    var w1, r := NetReleaseServed(site, w, v, op, kind);
    var w2 := w1.(task := Judging(v, true, true));
    Then(site, w, w1, Release(ReleaseReply(r, false)), w2, kind);
    var w3 := w2.(task := Removing(v));
    Then(site, w, w2, Release(Judge(true)), w3, kind);
    w' := w3.(m := RemoveManifest(w.m, v, how), leases := if how.Gone? then w.leases - {v} else w.leases, task := Idle);
    Then(site, w, w3, Release(Remove(how)), w', kind);
  }

  // ---------------------------------------------------------------- a late allocation

  function EntryFor(op: OpId, v: VmId, cidr: string): VMEntry {
    VMEntry(op, "", v, 0, 0, 0, 0, "", "", "", cidr)
  }

  /** The request is unread, and privd would grant it. */
  ghost predicate Grantable(w: World, v: VmId, op: OpId, cidr: string) {
    && Ready(w, v) && NetRequest(op, v, cidr) in w.unread && NetRequest(op, v, cidr) !in w.arrived
    && ValidId(op) && op !in w.p.disk.seen.receipts && cidr != "" && v !in w.p.disk.seen.ledger
    && forall x :: x in w.p.disk.seen.ledger ==> w.p.disk.seen.ledger[x].netCidr != cidr
  }

  lemma AllocationPlan(site: Site, ledger: LedgerMap, op: OpId, v: VmId, cidr: string)
    requires AllReadable(ledger) && ValidId(v) && cidr != "" && v !in ledger
    requires forall x :: x in ledger ==> ledger[x].netCidr != cidr
    ensures MakePlan(site.privd, ledger, NetRequest(op, v, cidr), Alive) == Call(EntryFor(op, v, cidr))
    ensures AllReadable(ledger[v := EntryFor(op, v, cidr)])
  {
    assert SubnetScan(ledger, cidr) == Free;
  }

  /** privd reads an allocation it would grant, and a network appears. */
  lemma NetLands(site: Site, w: World, v: VmId, op: OpId, cidr: string, kind: Kind)
    returns (late: World, step: WorldStep, after: World)
    requires Grantable(w, v, op, cidr) && !At(w.p.host, v).net
    ensures Leads(site, w, late, kind) && WorldNext(site, late, step, after) && step.PrivdStep?
    ensures late.m == w.m && after.m == w.m && !At(late.p.host, v).net && At(after.p.host, v).net
  {
    var (req, ledger, e) := (NetRequest(op, v, cidr), w.p.disk.seen.ledger, EntryFor(op, v, cidr));
    AllocationPlan(site, ledger, op, v, cidr);
    var f := At(w.p.host, v);
    var w1 := Enters(site, w, req, kind);
    var q := BeginsServing(site.privd, w.p, req, Alive, Calling(e, false));
    Moves(site, w, w1, Begin(op, Alive, false), q, kind);
    late := w1.(p := q);
    var q' := Works(site.privd, w.p, q, req, e, f, f.(net := true), ledger);
    step, after := PrivdStep(Work(f.(net := true), false)), late.(p := q');
    assert PeerStep(site, late, Work(f.(net := true), false), after);
  }

  /** privd reads an allocation it would grant, and grants it. */
  lemma NetGranted(site: Site, w: World, v: VmId, op: OpId, cidr: string, kind: Kind) returns (w': World)
    requires Grantable(w, v, op, cidr)
    ensures Leads(site, w, w', kind) && w'.unread == w.unread - {NetRequest(op, v, cidr)}
    ensures Onward(w, w', v, op, w.task, w.p.disk.seen.ledger[v := EntryFor(op, v, cidr)])
    ensures (NetRequest(op, v, cidr), Ok(None)) in w'.p.past.replies && w'.arrived == w.arrived + {NetRequest(op, v, cidr)}
  {
    var (req, ledger, e) := (NetRequest(op, v, cidr), w.p.disk.seen.ledger, EntryFor(op, v, cidr));
    AllocationPlan(site, ledger, op, v, cidr);
    var g := At(w.p.host, v).(net := true);
    w' := ServesCall(site, w, req, Alive, e, g, Some(e), kind);
    ServedReady(w, w', v, req, Ok(None), g, ledger[v := e]);
  }

  // ---------------------------------------------------------------- a late start

  /** The adapter's uids and CIDs are ones privd accepts. */
  predicate Fits(site: Site) {
    && 0 < site.privd.uidMin <= site.uidBase && site.uidBase + site.maxSlots <= site.privd.uidMax
    && site.cidBase >= MIN_GUEST_CID
  }

  lemma StartPlan(site: Site, ledger: LedgerMap, op: OpId, v: VmId, slot: nat)
    requires Fits(site) && slot < site.maxSlots && AllReadable(ledger) && ValidId(v) && v in ledger && ledger[v].pid == 0
    requires forall x :: x in ledger ==> ledger[x].uid != site.uidBase + slot && ledger[x].cid != site.cidBase + slot
    ensures MakePlan(site.privd, ledger, StartRequest(site, op, v, slot), Alive).Call?
  {
    assert IdentityScan(ledger, site.uidBase + slot, site.cidBase + slot) == Free;
  }

  /** privd reads a start it would grant, and a jail tree appears. */
  lemma StartLands(site: Site, w: World, v: VmId, op: OpId, slot: nat, kind: Kind)
    returns (late: World, step: WorldStep, after: World)
    requires Ready(w, v) && StartRequest(site, op, v, slot) in w.unread && StartRequest(site, op, v, slot) !in w.arrived
    requires ValidId(op) && op !in w.p.disk.seen.receipts && Fits(site) && slot < site.maxSlots && v in w.p.disk.seen.ledger
    requires var ledger := w.p.disk.seen.ledger;
      forall x :: x in ledger ==> ledger[x].uid != site.uidBase + slot && ledger[x].cid != site.cidBase + slot
    ensures Leads(site, w, late, kind) && WorldNext(site, late, step, after) && step.PrivdStep?
    ensures late.m == w.m && after.m == w.m && Starts(late.p.host, after.p.host, v)
  {
    var (req, ledger) := (StartRequest(site, op, v, slot), w.p.disk.seen.ledger);
    StartPlan(site, ledger, op, v, slot);
    var e := MakePlan(site.privd, ledger, req, Alive).entry;
    var f := At(w.p.host, v);
    var w1 := Enters(site, w, req, kind);
    var q := BeginsServing(site.privd, w.p, req, Alive, Calling(e, false));
    Moves(site, w, w1, Begin(op, Alive, false), q, kind);
    late := w1.(p := q);
    var q' := Works(site.privd, w.p, q, req, e, f, f.(tree := true), ledger);
    step, after := PrivdStep(Work(f.(tree := true), false)), late.(p := q');
    assert PeerStep(site, late, Work(f.(tree := true), false), after);
  }

  /** The second launch: its manifest overwrites the op_id of the start that is out, and its
      own allocation stays unread. */
  lemma Overtakes(site: Site, w: World, v: VmId, a: OpId) returns (w': World)
    requires w.task == Reserving(v) && v in w.m.seen && v in w.leases && w.leases[v] == w.m.seen[v].cidr && Unused(w, a)
    ensures Leads(site, w, w', NoBegin) && w'.task.AwaitingNet? && w'.task.vm == v && v in w'.m.seen && w'.m.seen[v].startOpId == ""
    ensures w'.p == w.p && w'.arrived == w.arrived && w'.armed == w.armed + {a}
    ensures w'.unread == w.unread + {NetRequest(a, v, w.m.seen[v].cidr)}
  {
    var (slot, cidr) := (w.m.seen[v].slot, w.m.seen[v].cidr);
    var w1 := AfterReserve(w, slot, cidr, Put, Gone);
    Stays(site, w, NoBegin);
    Then(site, w, w, Launch(Reserve(slot, cidr, Put, Gone)), w1, NoBegin);
    var req := NetRequest(a, v, cidr);
    w' := w1.(unread := w1.unread + {req}, armed := w1.armed + {a}, task := AwaitingNet(v, req));
    Then(site, w, w1, Launch(AskNet(a)), w', NoBegin);
  }

  /** The reply is given up, and the rollback begins. */
  lemma GivesUp(site: Site, w: World) returns (w': World)
    requires w.task.AwaitingNet? && w.task.vm in w.m.seen && w.m.seen[w.task.vm].startOpId == ""
    ensures Leads(site, w, w', NoBegin) && w' == w.(task := ReleasingVm(w.task.vm, None))
  {
    var w1 := w.(task := Resolving(w.task.vm));
    Stays(site, w, NoBegin);
    Then(site, w, w, Launch(NetLost), w1, NoBegin);
    Then(site, w, w1, Release(Resolve(Put, true)), w1, NoBegin);
    w' := w1.(task := ReleasingVm(w.task.vm, None));
    Then(site, w, w1, Release(Resolve(Put, false)), w', NoBegin);
  }

  /** The rollback releases both halves and removes the manifest. */
  lemma RollsBack(site: Site, w: World, v: VmId, r: OpId, n: OpId) returns (w': World)
    requires Ready(w, v) && w.task == ReleasingVm(v, None) && Unused(w, r) && Unused(w, n) && r != n
    ensures Leads(site, w, w', NoBegin) && w'.unread == w.unread && v !in w'.m.seen && v !in w'.m.safe && Ready(w', v)
    ensures w'.p.disk.seen.ledger == w.p.disk.seen.ledger - {v}
    ensures forall q :: q in w'.arrived ==> q in w.arrived || q.opId == r || q.opId == n
    ensures forall o :: o in w'.p.disk.seen.receipts ==> o in w.p.disk.seen.receipts || o == r || o == n
  {
    var w1 := ReleasesVm(site, w, v, r, NoBegin);
    var req := ReleaseOf(n, ReleaseNetwork, v);
    var w2 := w1.(task := ReleasingNet(v, true, Some(req)));
    Then(site, w, w1, Release(Ask(req)), w2, NoBegin);
    w' := Withdraws(site, w2, v, n, Gone, NoBegin);
    Joined(site, w, w2, w', NoBegin);
  }

  /** A launch of `v` begins while a start of it is unread; privd holds no process of it. */
  ghost predicate Overtaking(site: Site, w: World, v: VmId, w1: World, start: Request) {
    && WorldInv(w) && LeaseInv(site, w) && IdsInv(site, w, StartVm) && LaunchStep(site, w, Begins(v), w1)
    && start in w.unread && start.verb == StartVm && Target(start) == v && VmHalfClear(w.p.disk.seen.ledger, v)
  }

  lemma RestingVm(p: State, v: VmId)
    requires Inv(p) && Rest(p) && VmHalfClear(p.disk.seen.ledger, v)
    ensures !At(p.host, v).tree && At(p.host, v).procs == {}
  {
    assert !Open(p.disk.seen.ledger, p.disk.seen.receipts, p.past.begun, v);
  }

  lemma OvertakingReady(site: Site, w: World, v: VmId, w1: World, start: Request)
    requires Overtaking(site, w, v, w1, start)
    ensures Ready(w1, v) && w1 == w.(task := Reserving(v), m := w1.m, leases := w1.leases)
    ensures v in w1.m.seen && w1.m.seen == w.m.seen && v in w1.leases && w1.leases[v] == w1.m.seen[v].cidr
  {
    InventoryMeansRest(w.p);
    RestingVm(w.p, v);
    assert Live(w, start);
    assert v in Cidrs(w.m.seen) && Cidrs(w.m.seen)[v] == w.m.seen[v].cidr;
  }

  /** What the launch overtakes is what its manifest leases, and nobody else has that. */
  lemma OvertakenClaim(site: Site, w: World, v: VmId, w1: World, start: Request)
    requires Overtaking(site, w, v, w1, start) && Fits(site)
    ensures v in w.m.seen
    ensures var (x, ledger) := (w.m.seen[v], w.p.disk.seen.ledger);
      && start == StartRequest(site, start.opId, v, x.slot) && x.slot < site.maxSlots && x.cidr != ""
      && (forall y :: y in ledger && y != v ==>
            ledger[y].uid != site.uidBase + x.slot && ledger[y].cid != site.cidBase + x.slot)
  {
    assert Live(w, start);
    var ledger := w.p.disk.seen.ledger;
    forall y | y in ledger && y != v
      ensures ledger[y].uid != site.uidBase + w.m.seen[v].slot && ledger[y].cid != site.cidBase + w.m.seen[v].slot
    {
      if ledger[y].pid > 0 {
        assert !Missing(w.m, y);
        assert Apart(v, w.m.seen[v], y, w.m.seen[y]);
      } else {
        assert EntryInv(y, ledger[y]);
      }
    }
  }

  lemma SubnetIsOwn(site: Site, w: World, v: VmId, w1: World)
    requires LaunchStep(site, w, Begins(v), w1) && v in w.m.seen && w.m.seen[v].cidr != ""
    ensures forall y :: y in w.p.disk.seen.ledger && y != v ==> w.p.disk.seen.ledger[y].netCidr != w.m.seen[v].cidr
  {
    forall y | y in w.p.disk.seen.ledger && y != v
      ensures w.p.disk.seen.ledger[y].netCidr != w.m.seen[v].cidr
    {
      assert v in Cidrs(w.m.seen) && Cidrs(w.m.seen)[v] == w.m.seen[v].cidr && w1.leases[v] == w.m.seen[v].cidr;
      InventoryRead(site, w, v, w1, w.m.seen[v].cidr, y);
    }
  }

  /** Nothing is left of the launch but its unread allocation and the start it overtook. */
  ghost predicate RolledBack(w: World, v: VmId, w1: World, a: OpId, start: Request, w': World)
    requires v in w.m.seen
  {
    && v !in w'.m.seen && v !in w'.m.safe && start in w'.unread && start !in w'.arrived && start.opId !in w'.p.disk.seen.receipts
    && Grantable(w', v, a, w.m.seen[v].cidr) && w'.p.disk.seen.ledger == w.p.disk.seen.ledger - {v}
    && a != start.opId
  }

  /** A launch whose allocation stays unread is rolled back. */
  lemma LaunchUndone(site: Site, w: World, v: VmId, cidr: string, a: OpId, r: OpId, n: OpId) returns (w': World)
    requires w.task == Reserving(v) && Ready(w, v) && Lookup(Cidrs(w.m.seen), v) == Some(cidr) && Lookup(w.leases, v) == Some(cidr)
    requires Unused(w, a) && Unused(w, r) && Unused(w, n) && a != r && a != n && r != n
    ensures Leads(site, w, w', NoBegin) && Ready(w', v) && v !in w'.m.seen && v !in w'.m.safe
    ensures w'.unread == w.unread + {NetRequest(a, v, cidr)} && w'.p.disk.seen.ledger == w.p.disk.seen.ledger - {v}
    ensures forall q :: q in w'.arrived ==> q in w.arrived || q.opId == r || q.opId == n
    ensures forall o :: o in w'.p.disk.seen.receipts ==> o in w.p.disk.seen.receipts || o == r || o == n
  {
    var w2 := Overtakes(site, w, v, a);
    var w3 := GivesUp(site, w2);
    Joined(site, w, w2, w3, NoBegin);
    w' := RollsBack(site, w3, v, r, n);
    Joined(site, w, w3, w', NoBegin);
  }

  lemma OvertakenIsUndone(site: Site, w: World, v: VmId, w1: World, start: Request, a: OpId, r: OpId, n: OpId) returns (w': World)
    requires Overtaking(site, w, v, w1, start) && Fits(site)
    requires Unused(w, a) && Unused(w, r) && Unused(w, n) && a != r && a != n && r != n
    ensures v in w.m.seen && Leads(site, w1, w', NoBegin) && RolledBack(w, v, w1, a, start, w')
  {
    OvertakingReady(site, w, v, w1, start);
    OvertakenClaim(site, w, v, w1, start);
    SubnetIsOwn(site, w, v, w1);
    w' := LaunchUndone(site, w1, v, w.m.seen[v].cidr, a, r, n);
    StillOut(w, start);
  }

  /** A start in the socket has not been read, and its op_id is no other's. */
  lemma StillOut(w: World, start: Request)
    requires WorldInv(w) && start in w.unread && start.verb == StartVm
    ensures start !in w.arrived && start.opId !in w.p.disk.seen.receipts && start.opId in w.armed
  {
    assert Live(w, start);
  }

  /** The failing direction: the launch can be rolled back, its manifest removed, and the start
      it overtook take effect after that. */
  lemma LateStartFollows(site: Site, w: World, v: VmId, w1: World, start: Request, a: OpId, r: OpId, n: OpId)
    returns (late: World, step: WorldStep, after: World)
    requires Overtaking(site, w, v, w1, start) && Fits(site)
    requires Unused(w, a) && Unused(w, r) && Unused(w, n) && a != r && a != n && r != n
    ensures Leads(site, w1, late, NoBegin) && WorldNext(site, late, step, after) && step.PrivdStep?
    ensures v !in late.m.seen && v !in late.m.safe && Starts(late.p.host, after.p.host, v)
  {
    var w' := OvertakenIsUndone(site, w, v, w1, start, a, r, n);
    OvertakenClaim(site, w, v, w1, start);
    var x := w.m.seen[v];
    var w5 := NetGranted(site, w', v, a, x.cidr, NoBegin);
    Joined(site, w1, w', w5, NoBegin);
    late, step, after := StartLands(site, w5, v, start.opId, x.slot, NoBegin);
    Joined(site, w1, w5, late, NoBegin);
  }

  // ---------------------------------------------------------------- exactly when a launch is safe

  ghost predicate CarefulFrom(worlds: seq<World>, steps: seq<WorldStep>, n: nat)
    requires |worlds| == |steps| + 1
  {
    forall i :: n <= i < |steps| ==> Careful(worlds[i], steps[i])
  }

  /** No tree or process of `v` appears while a version of its manifest is missing. */
  ghost predicate StartsNamed(worlds: seq<World>, steps: seq<WorldStep>, v: VmId)
    requires |worlds| == |steps| + 1
  {
    forall i :: 0 <= i < |steps| && Missing(worlds[i].m, v) ==> !Starts(worlds[i].p.host, worlds[i + 1].p.host, v)
  }

  /** Whatever happens after a launch of `v` begins in `w`, later launches being careful. */
  ghost predicate LaunchIsSafe(site: Site, w: World, v: VmId) {
    forall worlds, steps ::
      IsPath(site, worlds, steps) && |steps| > 0 && worlds[0] == w && steps[0] == Launch(Begins(v)) && CarefulFrom(worlds, steps, 1)
      ==> StartsNamed(worlds, steps, v)
  }

  lemma CarefulPathNames(site: Site, worlds: seq<World>, steps: seq<WorldStep>, v: VmId)
    requires IsPath(site, worlds, steps) && WorldInv(worlds[0]) && CarefulFrom(worlds, steps, 0)
    ensures StartsNamed(worlds, steps, v)
  {
    forall i | 0 <= i < |steps| && Missing(worlds[i].m, v)
      ensures !Starts(worlds[i].p.host, worlds[i + 1].p.host, v)
    {
      PathKeepsStarts(site, worlds, steps, i);
      if Starts(worlds[i].p.host, worlds[i + 1].p.host, v) {
        StartIsOwned(site, worlds[i], steps[i], worlds[i + 1], v);
        assert false;
      }
    }
  }

  lemma LatePathIsNot(site: Site, w: World, v: VmId, w1: World, late: World, step: WorldStep, after: World)
    requires WorldNext(site, w, Launch(Begins(v)), w1) && Leads(site, w1, late, NoBegin)
    requires WorldNext(site, late, step, after) && step.PrivdStep? && Missing(late.m, v) && Starts(late.p.host, after.p.host, v)
    ensures !LaunchIsSafe(site, w, v)
  {
    var us, ts :| PathTo(site, us, ts, w1, late, NoBegin);
    assert IsPath(site, [w, w1], [Launch(Begins(v))]);
    JoinedPath(site, [w, w1], [Launch(Begins(v))], us, ts);
    var worlds, steps := [w, w1] + us[1..], [Launch(Begins(v))] + ts;
    Extends(site, worlds, steps, step, after);
    var all, did := worlds + [after], steps + [step];
    assert CarefulFrom(all, did, 1);
    var k := |steps|;
    assert all[k] == late && all[k + 1] == after && did[k] == step;
    assert !StartsNamed(all, did, v);
  }

  /** A launch of a VM that is not running is safe, whatever comes after, if and only if no
      start of it is unread in privd's socket. */
  lemma LaunchSafeIff(site: Site, worlds: seq<World>, steps: seq<WorldStep>, i: nat, v: VmId, w1: World, a: OpId, r: OpId, n: OpId)
    requires IsWorldRun(site, worlds, steps) && i < |worlds| && CarefulUntil(worlds, steps, i) && TidyUntil(worlds, steps, i)
    requires LaunchStep(site, worlds[i], Begins(v), w1) && VmHalfClear(worlds[i].p.disk.seen.ledger, v) && Fits(site)
    requires Unused(worlds[i], a) && Unused(worlds[i], r) && Unused(worlds[i], n) && a != r && a != n && r != n
    ensures LaunchIsSafe(site, worlds[i], v) <==> forall req :: req in worlds[i].unread && req.verb == StartVm ==> Target(req) != v
  {
    var w := worlds[i];
    RunKeepsStarts(site, worlds, steps, i);
    if req :| req in w.unread && req.verb == StartVm && Target(req) == v {
      RunKeepsLeases(site, worlds, steps, i);
      RunKeepsVmIds(site, worlds, steps, i);
      var late, step, after := LateStartFollows(site, w, v, w1, req, a, r, n);
      LatePathIsNot(site, w, v, w1, late, step, after);
    } else {
      SafeWhenNothingUnread(site, w, v);
    }
  }

  lemma SafeWhenNothingUnread(site: Site, w: World, v: VmId)
    requires WorldInv(w) && Careful(w, Launch(Begins(v)))
    ensures LaunchIsSafe(site, w, v)
  {
    forall us, ts | IsPath(site, us, ts) && |ts| > 0 && us[0] == w && ts[0] == Launch(Begins(v)) && CarefulFrom(us, ts, 1)
      ensures StartsNamed(us, ts, v)
    {
      CarefulPathNames(site, us, ts, v);
    }
  }
}
