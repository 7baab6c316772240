/** Runs of one machine in which the adapter's three promises fail, and the exact condition
    for the promise about slots. */
module AdapterRuns {
  import opened Wire
  import opened Ledger
  import opened Handlers
  import opened Privd
  import opened PrivdInvariant
  import opened PrivdTheorems
  import opened Adapter
  import opened AdapterInvariant
  import opened AdapterLeases
  import opened AdapterTheorems
  import opened AdapterPaths
  import opened AdapterLimits
  import opened AdapterNetLimits

  const SITE := Site(Config(100, 200), 100, 100, MIN_GUEST_CID, 8)
  const VM := "v"
  const SUBNET := "10.0.0.0/30"
  const LEASE := Manifest(0, SUBNET, "", 0)

  // ---------------------------------------------------------------- reachable worlds

  ghost predicate Benign(w: World, step: WorldStep) { Careful(w, step) && NetCareful(w, step) && Tidy(w, step) }

  ghost predicate RunTo(worlds: seq<World>, steps: seq<WorldStep>, w: World) {
    && IsWorldRun(SITE, worlds, steps) && worlds[|steps|] == w
    && forall i :: 0 <= i < |steps| ==> Benign(worlds[i], steps[i])
  }

  /** A run that meets every condition so far ends in `w`. */
  ghost predicate Reached(w: World) { exists worlds, steps :: RunTo(worlds, steps, w) }

  lemma Goes(w: World, step: WorldStep, w': World)
    requires Reached(w) && WorldNext(SITE, w, step, w') && Benign(w, step)
    ensures Reached(w')
  {
    var worlds, steps :| RunTo(worlds, steps, w);
    Extends(SITE, worlds, steps, step, w');
    assert RunTo(worlds + [w'], steps + [step], w');
  }

  lemma CalmIsGood(w: World, step: WorldStep, w': World)
    requires WorldNext(SITE, w, step, w') && Plain(step, Calm)
    ensures Benign(w, step)
  {
  }

  lemma {:induction false} GoesOn(worlds: seq<World>, steps: seq<WorldStep>, w: World, w': World)
    requires Reached(w) && PathTo(SITE, worlds, steps, w, w', Calm)
    ensures Reached(w')
    decreases |steps|
  {
    if |steps| > 0 {
      CalmIsGood(w, steps[0], worlds[1]);
      Goes(w, steps[0], worlds[1]);
      assert IsPath(SITE, worlds[1..], steps[1..]) by {
        forall i | 0 <= i < |steps| - 1
          ensures WorldNext(SITE, worlds[1..][i], steps[1..][i], worlds[1..][i + 1])
        {
          assert WorldNext(SITE, worlds[i + 1], steps[i + 1], worlds[i + 2]);
        }
      }
      GoesOn(worlds[1..], steps[1..], worlds[1], w');
    }
  }

  lemma Follows(w: World, w': World)
    requires Reached(w) && Leads(SITE, w, w', Calm)
    ensures Reached(w')
  {
    var worlds, steps :| PathTo(SITE, worlds, steps, w, w', Calm);
    GoesOn(worlds, steps, w, w');
  }

  lemma ReachedStarts(w: World)
    requires Reached(w)
    ensures WorldInv(w) && LeaseInv(SITE, w) && IdsInv(SITE, w, StartVm)
  {
    var worlds, steps :| RunTo(worlds, steps, w);
    RunKeepsStarts(SITE, worlds, steps, |steps|);
    RunKeepsLeases(SITE, worlds, steps, |steps|);
    RunKeepsVmIds(SITE, worlds, steps, |steps|);
  }

  lemma ReachedNets(w: World)
    requires Reached(w)
    ensures NetInv(w) && LeaseInv(SITE, w) && IdsInv(SITE, w, AllocateNetwork)
  {
    var worlds, steps :| RunTo(worlds, steps, w);
    RunKeepsNets(SITE, worlds, steps, |steps|);
    RunKeepsLeases(SITE, worlds, steps, |steps|);
    RunKeepsNetIds(SITE, worlds, steps, |steps|);
  }

  /** A run to `w`, then one step, then a path, then a last step. */
  lemma RunOf(w: World, first: WorldStep, w1: World, late: World, last: WorldStep, after: World, kind: Kind)
    returns (worlds: seq<World>, steps: seq<WorldStep>)
    requires Reached(w) && WorldNext(SITE, w, first, w1) && Leads(SITE, w1, late, kind) && WorldNext(SITE, late, last, after)
    ensures IsWorldRun(SITE, worlds, steps) && |steps| > 0 && worlds[|steps| - 1] == late && worlds[|steps|] == after
  {
    var ws, ss :| RunTo(ws, ss, w);
    Extends(SITE, ws, ss, first, w1);
    var us, ts :| PathTo(SITE, us, ts, w1, late, kind);
    JoinedPath(SITE, ws + [w1], ss + [first], us, ts);
    Extends(SITE, ws + [w1] + us[1..], ss + [first] + ts, last, after);
    worlds, steps := ws + [w1] + us[1..] + [after], ss + [first] + ts + [last];
  }

  lemma Longer(worlds: seq<World>, steps: seq<WorldStep>, step: WorldStep, w': World) returns (us: seq<World>, ts: seq<WorldStep>)
    requires IsWorldRun(SITE, worlds, steps) && WorldNext(SITE, worlds[|steps|], step, w')
    ensures IsWorldRun(SITE, us, ts) && us[|ts|] == w'
  {
    Extends(SITE, worlds, steps, step, w');
    us, ts := worlds + [w'], steps + [step];
  }

  // ---------------------------------------------------------------- a first launch

  /** The launch has its manifest and nothing else. */
  ghost predicate Reserved(w: World) {
    && Reached(w) && Ready(w, VM) && w.task == Staging(VM)
    && w.m == Manifests(map[VM := LEASE], map[VM := LEASE], {}) && w.leases == map[VM := SUBNET]
    && w.unread == {} && w.armed == {} && w.arrived == {} && w.p.disk.seen == Disk(map[], map[]) && w.p.disk.safe == Disk(map[], map[])
    && At(w.p.host, VM) == NOTHING
  }

  const START := State(Host(map[], "0", "n"), Store(Disk(map[], map[]), Disk(map[], map[])), Down, {}, History([], {}, {}, map[], {}, {}))

  lemma Moved(w: World, ps: Step, p': State)
    requires Reached(w) && Next(SITE.privd, w.p, ps, p') && !ps.PowerLoss? && !ps.Arrive?
    ensures Reached(w.(p := p'))
  {
    assert PeerStep(SITE, w, ps, w.(p := p'));
    Goes(w, PrivdStep(ps), w.(p := p'));
  }

  lemma Boots() returns (w: World)
    ensures Reached(w) && w == World(START.(daemon := Up(map[], false, {}, None)), NO_MANIFESTS, map[], {}, Idle, {}, {}) && Rest(w.p)
  {
    var w0 := World(START, NO_MANIFESTS, map[], {}, Idle, {}, {});
    assert RunTo([w0], [], w0);
    var none: ReceiptMap := map[];
    var loading := START.(daemon := Loading(none.Keys, none));
    Moved(w0, Restart("n"), loading);
    Moved(w0.(p := loading), LoadDone, START.(daemon := Up(none, false, {}, None)));
    w := w0.(p := START.(daemon := Up(none, false, {}, None)));
  }

  lemma FirstBegins() returns (w: World)
    ensures Reached(w) && w == World(START.(daemon := Up(map[], false, {}, None)), NO_MANIFESTS, map[], {}, Reserving(VM), {}, {})
  {
    var w0 := Boots();
    w := w0.(task := Reserving(VM));
    assert Synced(NO_MANIFESTS) == NO_MANIFESTS;
    assert LaunchStep(SITE, w0, Begins(VM), w);
    Goes(w0, Launch(Begins(VM)), w);
  }

  lemma Reserves() returns (w: World)
    ensures Reserved(w)
  {
    var w1 := FirstBegins();
    w := AfterReserve(w1, 0, SUBNET, Put, Gone);
    assert LaunchStep(SITE, w1, Reserve(0, SUBNET, Put, Gone), w);
    Goes(w1, Launch(Reserve(0, SUBNET, Put, Gone)), w);
  }

  lemma Does(w: World, move: LaunchMove, w': World)
    requires Reached(w) && LaunchStep(SITE, w, move, w') && !move.Begins? && !move.Reserve?
    ensures Reached(w')
  {
    Goes(w, Launch(move), w');
  }

  /** And has asked for its network. */
  lemma AsksNetwork(w: World, a: OpId) returns (w': World)
    requires Reserved(w) && ValidId(a)
    ensures Reached(w') && w'.armed == {a}
    ensures var req := NetRequest(a, VM, SUBNET); w' == w.(unread := {req}, armed := w'.armed, task := AwaitingNet(VM, req))
  {
    var req := NetRequest(a, VM, SUBNET);
    w' := w.(unread := {req}, armed := {a}, task := AwaitingNet(VM, req));
    assert {} + {req} == {req} && {} + {a} == {a};
    Does(w, AskNet(a), w');
  }

  // ---------------------------------------------------------------- a late start

  /** privd has granted the network under `a`, and served nothing else. */
  ghost predicate Granted(w: World, a: OpId, m: Manifest) {
    && Reached(w) && Ready(w, VM) && w.m == Manifests(map[VM := m], map[VM := m], {}) && w.leases == map[VM := SUBNET]
    && w.p.disk.seen.ledger == map[VM := EntryFor(a, VM, SUBNET)]
    && (forall r :: r in w.arrived ==> r.opId == a)
    && (forall o :: o in w.p.disk.seen.receipts || o in w.p.disk.safe.receipts ==> o == a)
  }

  lemma GetsNetwork(a: OpId) returns (w: World)
    requires ValidId(a)
    ensures Granted(w, a, LEASE) && w.task == Networked(VM) && w.unread == {} && w.armed == {a}
  {
    var w0 := Reserves();
    var w1 := AsksNetwork(w0, a);
    var w2 := NetGranted(SITE, w1, VM, a, SUBNET, Calm);
    Follows(w1, w2);
    w := w2.(task := Networked(VM));
    Does(w2, NetReply(Ok(None)), w);
    assert w.unread == {};
  }

  lemma Sends(w: World, a: OpId, s: OpId) returns (w': World)
    requires Granted(w, a, LEASE) && w.task == Networked(VM) && w.unread == {} && w.armed == {a} && ValidId(s) && s != a
    ensures Granted(w', a, LEASE.(startOpId := s)) && w'.task.Awaiting? && w'.unread == {StartRequest(SITE, s, VM, 0)} && w'.armed == {a, s}
  {
    var x := LEASE.(startOpId := s);
    var w1 := w.(m := Manifests(map[VM := x], map[VM := x], {}), armed := {a, s}, task := Sending(VM, s));
    assert Rewrite(w, x, Put) == w1.m && w.armed + {s} == {a, s};
    Does(w, Arm(s, Put), w1);
    var req := StartRequest(SITE, s, VM, 0);
    w' := w1.(unread := {req}, task := Awaiting(VM, req));
    assert w1.unread + {req} == {req};
    Does(w1, Send, w');
  }

  /** The start is sent, and its reply given up while privd has not read it. */
  lemma LosesReply(a: OpId, s: OpId) returns (w: World)
    requires ValidId(a) && ValidId(s) && a != s
    ensures Granted(w, a, LEASE.(startOpId := s)) && w.task == Idle && w.unread == {StartRequest(SITE, s, VM, 0)} && w.armed == {a, s}
  {
    var w0 := GetsNetwork(a);
    var w1 := Sends(w0, a, s);
    w := w1.(task := Idle);
    Does(w1, ReplyLost, w);
  }

  lemma OneLease(w: World, a: OpId, m: Manifest)
    requires Granted(w, a, m) && m.cidr == SUBNET
    ensures NetworkLeases(w.p.daemon, w.p.disk.seen.ledger) == Leases(map[VM := SUBNET]) && Cidrs(w.m.seen) == map[VM := SUBNET]
  {
  }

  lemma LaunchesAgain(w: World, a: OpId, m: Manifest) returns (w': World)
    requires Granted(w, a, m) && m.cidr == SUBNET && w.task == Idle
    ensures LaunchStep(SITE, w, Begins(VM), w')
  {
    OneLease(w, a, m);
    var one := map[VM := SUBNET];
    w' := w.(task := Reserving(VM), m := Synced(w.m), leases := one + one + one);
  }

  lemma OthersUnused(w: World, a: OpId, s: OpId, m: Manifest, op: OpId)
    requires Granted(w, a, m) && w.armed == {a, s} && w.unread == {StartRequest(SITE, s, VM, 0)}
    requires ValidId(op) && op != a && op != s
    ensures Unused(w, op)
  {
  }

  lemma IsOvertaking(w: World, a: OpId, s: OpId, w1: World)
    requires Reached(w) && w.unread == {StartRequest(SITE, s, VM, 0)} && LaunchStep(SITE, w, Begins(VM), w1)
    requires w.p.disk.seen.ledger == map[VM := EntryFor(a, VM, SUBNET)]
    ensures Overtaking(SITE, w, VM, w1, StartRequest(SITE, s, VM, 0))
  {
    ReachedStarts(w);
  }

  /** The second launch begins while the start of the first is unread. */
  lemma Overtaken(w: World, a: OpId, s: OpId, b: OpId, c: OpId, d: OpId) returns (w1: World)
    requires Granted(w, a, LEASE.(startOpId := s)) && w.task == Idle && w.armed == {a, s} && w.unread == {StartRequest(SITE, s, VM, 0)}
    requires ValidId(b) && ValidId(c) && ValidId(d) && {a, s} !! {b, c, d}
    ensures Overtaking(SITE, w, VM, w1, StartRequest(SITE, s, VM, 0)) && Unused(w, b) && Unused(w, c) && Unused(w, d)
  {
    var m := LEASE.(startOpId := s);
    assert b !in {a, s} && c !in {a, s} && d !in {a, s};
    OthersUnused(w, a, s, m, b);
    OthersUnused(w, a, s, m, c);
    OthersUnused(w, a, s, m, d);
    w1 := LaunchesAgain(w, a, m);
    IsOvertaking(w, a, s, w1);
  }

  /** launch does not look whether the manifest it overwrites still names a start whose outcome
      is unknown; here that start takes effect after the manifest is gone. */
  lemma LateStart() returns (worlds: seq<World>, steps: seq<WorldStep>)
    ensures IsWorldRun(SITE, worlds, steps) && |steps| > 0
    ensures var (before, after) := (worlds[|steps| - 1], worlds[|steps|]);
      VM !in before.m.seen && VM !in before.m.safe && Starts(before.p.host, after.p.host, VM)
  {
    worlds, steps := LateStartWith("a", "s", "b", "c", "d");
  }

  lemma LateStartWith(a: OpId, s: OpId, b: OpId, c: OpId, d: OpId) returns (worlds: seq<World>, steps: seq<WorldStep>)
    requires ValidId(a) && ValidId(s) && ValidId(b) && ValidId(c) && ValidId(d)
    requires a != s && {a, s} !! {b, c, d} && b != c && b != d && c != d
    ensures IsWorldRun(SITE, worlds, steps) && |steps| > 0
    ensures var (before, after) := (worlds[|steps| - 1], worlds[|steps|]);
      VM !in before.m.seen && VM !in before.m.safe && Starts(before.p.host, after.p.host, VM)
  {
    var w := LosesReply(a, s);
    var w1 := Overtaken(w, a, s, b, c, d);
    var late, step, after := LateStartFollows(SITE, w, VM, w1, StartRequest(SITE, s, VM, 0), b, c, d);
    worlds, steps := RunOf(w, Launch(Begins(VM)), w1, late, step, after, NoBegin);
  }

  // ---------------------------------------------------------------- a late network

  /** The reply to allocate_network is given up. */
  lemma LosesNetwork(a: OpId) returns (w: World)
    requires ValidId(a)
    ensures Reached(w) && Ready(w, VM) && w.task == ReleasingVm(VM, None) && w.unread == {NetRequest(a, VM, SUBNET)}
    ensures w.armed == {a} && w.arrived == {} && w.p.disk.seen == Disk(map[], map[]) && w.p.disk.safe == Disk(map[], map[])
  {
    var w0 := Reserves();
    var w1 := AsksNetwork(w0, a);
    var w2 := w1.(task := Resolving(VM));
    Does(w1, NetLost, w2);
    w := w2.(task := ReleasingVm(VM, None));
    assert ReleaseStep(w2, Resolve(Put, false), w);
    Goes(w2, Release(Resolve(Put, false)), w);
  }

  /** And the rollback has released the VM half. */
  lemma RollsHalfBack(a: OpId, b: OpId, c: OpId) returns (w: World)
    requires ValidId(a) && ValidId(b) && ValidId(c) && a != b && a != c && b != c
    ensures Reached(w) && Ready(w, VM) && w.task == ReleasingNet(VM, true, None)
    ensures NetRequest(a, VM, SUBNET) in w.unread && Unused(w, c)
  {
    var w0 := LosesNetwork(a);
    w := ReleasesVm(SITE, w0, VM, b, Calm);
    Follows(w0, w);
  }

  lemma IsLastHalf(w: World)
    requires Reached(w) && Ready(w, VM) && w.task == ReleasingNet(VM, true, None)
    ensures LastHalf(SITE, w, VM)
  {
    ReachedNets(w);
  }

  /** launch takes a lost allocate_network for a failed one; here it takes effect after the
      rollback has removed the manifest. */
  lemma LateNetwork() returns (worlds: seq<World>, steps: seq<WorldStep>)
    ensures IsWorldRun(SITE, worlds, steps) && |steps| > 0
    ensures var (before, after) := (worlds[|steps| - 1], worlds[|steps|]);
      VM !in before.m.seen && VM !in before.m.safe && NetAppears(before.p.host, after.p.host, VM)
  {
    var w := RollsHalfBack("a", "b", "c");
    IsLastHalf(w);
    var asked, late, step, after := LateNetFollows(SITE, w, VM, NetRequest("a", VM, SUBNET), "c");
    worlds, steps := RunOf(w, Release(Ask(ReleaseOf("c", ReleaseNetwork, VM))), asked, late, step, after, NoAsk);
  }

  // ---------------------------------------------------------------- a slot given twice

  const OTHER := "w"
  const OTHER_LEASE := Manifest(0, "10.0.0.4/30", "", 0)

  /** The launch fails before its network, and its rollback releases both halves. */
  lemma FailsEarly(b: OpId) returns (w: World, w': World)
    requires ValidId(b)
    ensures Reserved(w) && WorldNext(SITE, w, Launch(LaunchFails), w.(task := Resolving(VM)))
    ensures Leads(SITE, w.(task := Resolving(VM)), w', NoBegin) && Onward(w, w', VM, b, ReleasingNet(VM, true, None), map[])
    ensures w'.unread == {}
  {
    w := Reserves();
    var w1, w2 := w.(task := Resolving(VM)), w.(task := ReleasingVm(VM, None));
    Stays(SITE, w1, NoBegin);
    Then(SITE, w1, w1, Release(Resolve(Put, false)), w2, NoBegin);
    w' := ReleasesVm(SITE, w2, VM, b, NoBegin);
    Joined(SITE, w1, w2, w', NoBegin);
  }

  /** The removal stops after the manifest: the directory is still there. */
  lemma Strands() returns (w: World, w': World)
    ensures Reached(w) && WorldNext(SITE, w, Launch(LaunchFails), w.(task := Resolving(VM)))
    ensures Leads(SITE, w.(task := Resolving(VM)), w', NoBegin) && LeftBare(w')
  {
    var w3;
    w, w3 := FailsEarly("b");
    var w4 := StrandsFrom(w3, "c");
    w' := w4;
    Joined(SITE, w.(task := Resolving(VM)), w3, w', NoBegin);
  }

  ghost predicate LeftBare(w: World) {
    && Rest(w.p) && w.task == Idle && w.p.disk.seen.ledger == map[]
    && w.m == Manifests(map[], map[VM := LEASE], {VM}) && w.leases == map[VM := SUBNET]
  }

  lemma StrandsFrom(w: World, c: OpId) returns (w': World)
    requires Ready(w, VM) && w.task == ReleasingNet(VM, true, None) && Unused(w, c) && w.p.disk.seen.ledger == map[]
    requires w.m == Manifests(map[VM := LEASE], map[VM := LEASE], {}) && w.leases == map[VM := SUBNET]
    ensures Leads(SITE, w, w', NoBegin) && LeftBare(w')
  {
    var w1 := AsksNet(SITE, w, VM, c);
    Stays(SITE, w, NoBegin);
    Then(SITE, w, w, Release(Ask(ReleaseOf(c, ReleaseNetwork, VM))), w1, NoBegin);
    w' := Withdraws(SITE, w1, VM, c, Stranded, NoBegin);
    Joined(SITE, w, w1, w', NoBegin);
    assert w'.m.seen == map[] && w'.m.bare == {VM} && w'.p.disk.seen.ledger == map[];
  }

  /** The next launch takes the slot, and a power loss brings the first manifest back. */
  lemma TakesSlot(w: World) returns (w1: World, late: World, cut: WorldStep, after: World)
    requires LeftBare(w)
    ensures LaunchStep(SITE, w, Begins(OTHER), w1) && LaunchStep(SITE, w1, Reserve(0, OTHER_LEASE.cidr, Put, Gone), late)
    ensures WorldNext(SITE, late, cut, after) && after.m.seen == map[VM := LEASE, OTHER := OTHER_LEASE]
  {
    assert NetworkLeases(w.p.daemon, w.p.disk.seen.ledger) == Leases(map[]) && Cidrs(w.m.seen) == map[];
    var none: LeaseMap := map[];
    w1 := w.(task := Reserving(OTHER), m := Synced(w.m), leases := w.leases + none + none);
    assert w1.m == w.m && w1.leases == w.leases;
    late := AfterReserve(w1, 0, OTHER_LEASE.cidr, Put, Gone);
    var both := map[VM := LEASE, OTHER := OTHER_LEASE];
    var boot := w.p.host.boot + "1";
    cut, after := PowerCut(boot, late.p.disk.seen, both), AfterCut(late, boot, late.p.disk.seen, both);
  }

  /** A removal that stops half way leaves a directory without a manifest, which allocateSlot
      does not count; here two VMs come out of a power loss with one slot. */
  lemma SlotGivenTwice() returns (worlds: seq<World>, steps: seq<WorldStep>)
    ensures IsWorldRun(SITE, worlds, steps)
    ensures var seen := worlds[|steps|].m.seen;
      VM != OTHER && VM in seen && OTHER in seen && seen[VM].slot == seen[OTHER].slot
  {
    var w, w' := Strands();
    var w1, late, cut, after := TakesSlot(w');
    worlds, steps := RunOf(w, Launch(LaunchFails), w.(task := Resolving(VM)), w', Launch(Begins(OTHER)), w1, NoBegin);
    var reserve := Launch(Reserve(0, OTHER_LEASE.cidr, Put, Gone));
    worlds, steps := Longer(worlds, steps, reserve, late);
    worlds, steps := Longer(worlds, steps, cut, after);
  }

  /** Once a VM that was not there has its slot and its subnet, no power loss can bring either
      back under another VM if and only if no directory without its manifest had held them. */
  lemma LaunchDistinctIff(site: Site, worlds: seq<World>, steps: seq<WorldStep>, i: nat, slot: nat, cidr: string, undo: Removal)
    requires IsWorldRun(site, worlds, steps) && i < |steps| && TidyUntil(worlds, steps, i)
    requires steps[i] == Launch(Reserve(slot, cidr, Put, undo)) && worlds[i].task.Reserving? && worlds[i].task.vm !in worlds[i].m.seen
    ensures Distinct(worlds[i + 1].m) <==> !MayComeBack(worlds[i].m, worlds[i].task.vm, slot, cidr)
  {
    var (w, w') := (worlds[i], worlds[i + 1]);
    RunKeepsLeases(site, worlds, steps, i);
    assert LaunchStep(site, w, Reserve(slot, cidr, Put, undo), w');
    if x :| x in w.m.bare && x != w.task.vm && x !in w.m.seen && x in w.m.safe && (w.m.safe[x].slot == slot || w.m.safe[x].cidr == cidr) {
      assert !Apart(w.task.vm, w'.m.seen[w.task.vm], x, w'.m.safe[x]);
    } else {
      StepKeepsLeases(site, w, steps[i], w');
    }
  }
}
