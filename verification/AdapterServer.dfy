/** The adapter as the code has it: Launch, doRollback and doRelease over one lifecycle object.
    Everything it does, between whatever happens around it, is a run of the machine in
    `Adapter`, so what is proved of runs is true of it. */
module AdapterServer {
  import opened Wire
  import opened Handlers
  import opened Privd
  import opened Adapter
  import opened AdapterPaths

  // ---------------------------------------------------------------- client

  /** What a caller of privd's client is told about a lost or unparseable reply is unknown;
      only these two answers to a mutation are definite. */
  method Classify(reply: Option<Response>) returns (view: View)
    ensures view.Unknown_? <==>
      reply.None? || reply.value == Err(OutcomePending) || reply.value == Err(OutcomeUnknown)
    ensures reply.Some? ==> view == ClientView(reply.value)
  {
    if reply.None? { return Unknown_; }
    match reply.value {
      case Err(cause) =>
        if cause == OutcomePending || cause == OutcomeUnknown { return Unknown_; }
        return Refused_(cause);
      case Ok(Some(start)) => return Succeeded_(start);
      case Ok(None) => return Succeeded_(StartResult(0, ""));
    }
  }

  /** The manifest names a start and no process. */
  predicate Open(x: Manifest) { x.startOpId != "" && x.vmmPid <= 0 }

  /** privd has this receipt of the operation and may answer with it. */
  predicate Receipted(d: Daemon, op: OpId, r: Receipt) { d.Up? && !d.failed && op in d.records && d.records[op] == r }

  predicate NamesProcess(r: Option<Response>) {
    && r.Some? && r.value.Ok? && r.value.start.Some?
    && r.value.start.value.pid > 0 && r.value.start.value.startTime != ""
  }

  /** privd says that the start failed. */
  ghost predicate StartFailed(x: Manifest, d: Daemon) {
    exists r :: Receipted(d, x.startOpId, r) && r.state == Failed
  }

  /** privd says that the start succeeded, and with which pid. */
  ghost predicate StartSucceeded(x: Manifest, d: Daemon, pid: int) {
    exists r :: Receipted(d, x.startOpId, r) && r.state == Succeeded && NamesProcess(r.response) && r.response.value.start.value.pid == pid
  }

  /** Whether the start happened cannot be told: privd is down, its journal failed, it has no
      receipt, the receipt is open, or it is of a success without a process. */
  predicate Untold(x: Manifest, d: Daemon) {
    || !d.Up? || d.failed || x.startOpId !in d.records
    || var r := d.records[x.startOpId];
       || r.state == Pending || r.state == Unknown
       || (r.state == Succeeded && !NamesProcess(r.response))
  }

  /** What the answer about a start means for its manifest. */
  method JudgeStart(m: Manifest, d: Daemon) returns (r: Resolution)
    ensures r == Settled <==> !Open(m) || StartFailed(m, d)
    ensures r == Retain <==> Open(m) && Untold(m, d)
    ensures forall pid :: r == RecordPid(pid) <==> Open(m) && StartSucceeded(m, d, pid)
    ensures r == ResolveStart(m, d)
  {
    if m.startOpId == "" || m.vmmPid > 0 { return Settled; }
    if !d.Up? { return Retain; }
    var answer := QueryReply(d, m.startOpId);
    if answer.NotFoundAnswer? { return Retain; }
    if answer.state == Failed { return Settled; }
    if answer.state != Succeeded || answer.response.None? { return Retain; }
    match answer.response.value {
      case Ok(Some(start)) => return if start.pid > 0 && start.startTime != "" then RecordPid(start.pid) else Retain;
      case _ => return Retain;
    }
  }

  // ---------------------------------------------------------------- the outside

  /** What the adapter depends on and does not decide; the n-th question may be answered
      otherwise than the one before. */
  datatype Outside = Outside(
    moves: (nat, World) -> World,                             // privd and the socket, meanwhile
    works: nat -> bool,                                       // a dial, the staging, the runner, a removal of images
    writes: nat -> PutIo,
    removes: nat -> Removal,
    ids: (nat, World) -> Option<OpId>,
    subnets: (nat, World, VmId) -> Option<string>,            // Acquire
    replies: (nat, World, Request) -> Option<Response>)

  /** An op_id no request and no reply has carried. */
  predicate Fresh(w: World, op: OpId) {
    NewOp(w, op) && forall reply :: reply in w.p.past.replies ==> reply.0.opId != op
  }

  /** It answers truthfully: replies are privd's, op_ids are new, subnets are free. */
  ghost predicate Fair(site: Site, out: Outside) {
    && (forall n, w :: Leads(site, w, out.moves(n, w), Around))
    && (forall n, w :: out.ids(n, w).Some? ==> Fresh(w, out.ids(n, w).value))
    && (forall n, w, v :: out.subnets(n, w, v).Some? ==> CidrFor(w.leases, v, out.subnets(n, w, v).value))
    && (forall n, w, req :: out.replies(n, w, req).Some? ==> (req, out.replies(n, w, req).value) in w.p.past.replies)
  }

  /** Such an outside there is: nothing moves, and nothing is answered. */
  lemma SomeOutsideIsFair(site: Site) returns (out: Outside)
    ensures Fair(site, out)
  {
    out := Outside((n: nat, w: World) => w, (n: nat) => false, (n: nat) => PutFailed(false), (n: nat) => Untouched,
                   (n: nat, w: World) => None, (n: nat, w: World, v: VmId) => None, (n: nat, w: World, req: Request) => None);
    forall n: nat, w: World
      ensures Leads(site, w, out.moves(n, w), Around)
    {
      Stays(site, w, Around);
    }
  }

  datatype Question = Works | Writes | Removes | Id | Subnet(v: VmId) | Reply(req: Request)

  /** The request is out, and its reply is what comes next. */
  predicate Awaits(t: Task, req: Request) {
    match t
    case AwaitingNet(_, net) => net == req
    case Awaiting(_, start) => start == req
    case ReleasingVm(_, asked) => asked == Some(req)
    case ReleasingNet(_, _, asked) => asked == Some(req)
    case _ => false
  }

  /** The question was answered with a failure. Only a reservation may ask for a subnet, and
      only a request that is out has a reply to miss. */
  predicate Trouble(out: Outside, n: nat, w: World, q: Question) {
    match q
    case Works => !out.works(n)
    case Writes => !out.writes(n).Put?
    case Removes => !out.removes(n).Gone?
    case Id => out.ids(n, w).None?
    case Subnet(v) => w.task == Reserving(v) && out.subnets(n, w, v).None?
    case Reply(req) => Awaits(w.task, req) && out.replies(n, w, req).None?
  }

  // ---------------------------------------------------------------- histories

  /** The run so far, and the questions asked. */
  datatype Story = Story(worlds: seq<World>, steps: seq<WorldStep>, log: seq<(World, Question)>)

  predicate Later(a: Story, b: Story) { a.worlds <= b.worlds && a.steps <= b.steps && a.log <= b.log }

  ghost predicate Told(site: Site, s: Story, w: World) { IsWorldRun(site, s.worlds, s.steps) && s.worlds[|s.steps|] == w }

  /** privd's inventory and the manifests let a launch begin. */
  predicate CanBegin(w: World) {
    && w.p.daemon.Up? && (forall x :: x in w.m.seen ==> ValidId(x))
    && var inv := NetworkLeases(w.p.daemon, w.p.disk.seen.ledger);
       inv.Leases? && Mergeable(w.leases, Cidrs(w.m.seen), inv.leases)
  }

  /** The VM has no slot, and every slot is another's. */
  predicate SiteFull(site: Site, w: World, v: VmId) {
    v !in w.m.seen && forall t: nat :: t < site.maxSlots ==> Used(w.m.seen, t)
  }

  /** A step in which privd, the host or the site's limits said no. */
  predicate Objection(site: Site, w: World, step: WorldStep) {
    match step
    case Launch(ReserveFails) => w.task.Reserving? && SiteFull(site, w, w.task.vm)
    case Launch(NetReply(r)) => !r.Ok?
    case Launch(StartReply(r)) => !ClientView(r).Succeeded_?
    case Release(Resolve(_, _)) =>
      w.task.Resolving? && w.task.vm in w.m.seen && Open(w.m.seen[w.task.vm]) && Untold(w.m.seen[w.task.vm], w.p.daemon)
    case Release(ReleaseReply(r, again)) => !again && !r.Ok? && r != Err(NotFound)
    case Release(Judge(stageGone)) => stageGone && w.task.Judging? && At(w.p.host, w.task.vm).tree
    case _ => false
  }

  /** What the adapter is about: nothing yet, the launch of a VM, or its release. */
  datatype Part = Before | Provisioning(v: VmId) | Cleanup(v: VmId)

  function PartOf(t: Task): Part {
    if t.Idle? then Before
    else if t.Resolving? || t.ReleasingVm? || t.ReleasingNet? || t.Judging? || t.Removing? then Cleanup(t.vm)
    else Provisioning(t.vm)
  }

  /** Between `a` and `b`, in this part of the work, something outside the adapter failed or
      objected. */
  ghost predicate Excused(site: Site, out: Outside, a: Story, b: Story, part: Part) {
    || (exists k :: |a.log| <= k < |b.log| && PartOf(b.log[k].0.task) == part && Trouble(out, k, b.log[k].0, b.log[k].1))
    || (|b.worlds| == |b.steps| + 1
        && exists k :: |a.steps| <= k < |b.steps| && PartOf(b.worlds[k].task) == part && Objection(site, b.worlds[k], b.steps[k]))
  }

  lemma ExcusedLater(site: Site, out: Outside, a: Story, b: Story, c: Story, d: Story, part: Part)
    requires Later(a, b) && Later(b, c) && Later(c, d) && Excused(site, out, b, c, part) && |d.worlds| == |d.steps| + 1
    ensures Excused(site, out, a, d, part)
  {
    if k :| |b.log| <= k < |c.log| && PartOf(c.log[k].0.task) == part && Trouble(out, k, c.log[k].0, c.log[k].1) {
      assert d.log[k] == c.log[k];
    } else {
      var k :| |b.steps| <= k < |c.steps| && PartOf(c.worlds[k].task) == part && Objection(site, c.worlds[k], c.steps[k]);
      assert d.worlds[k] == c.worlds[k] && d.steps[k] == c.steps[k];
    }
  }

  // ---------------------------------------------------------------- around the adapter

  /** What others do leaves the adapter's own state as it is. */
  predicate OthersActed(w: World, w': World) {
    w' == w.(p := w'.p, unread := w'.unread, arrived := w'.arrived) && w.p.past.replies <= w'.p.past.replies
  }

  lemma StepAround(site: Site, w: World, step: WorldStep, w': World)
    requires WorldNext(site, w, step, w') && Plain(step, Around)
    ensures OthersActed(w, w')
  {
  }

  lemma {:induction false} PathAround(site: Site, worlds: seq<World>, steps: seq<WorldStep>, i: nat)
    requires IsPath(site, worlds, steps) && i <= |steps| && forall k :: 0 <= k < |steps| ==> Plain(steps[k], Around)
    ensures OthersActed(worlds[0], worlds[i])
  {
    if i > 0 {
      PathAround(site, worlds, steps, i - 1);
      StepAround(site, worlds[i - 1], steps[i - 1], worlds[i]);
    }
  }

  lemma StoryGoes(site: Site, s: Story, w: World, step: WorldStep, w': World) returns (s': Story)
    requires Told(site, s, w) && WorldNext(site, w, step, w')
    ensures Told(site, s', w') && Later(s, s') && s'.log == s.log
    ensures |s'.worlds| == |s'.steps| + 1 && |s'.steps| == |s.steps| + 1
    ensures s'.steps[|s.steps|] == step && s'.worlds[|s.steps|] == w
  {
    Extends(site, s.worlds, s.steps, step, w');
    s' := s.(worlds := s.worlds + [w'], steps := s.steps + [step]);
  }

  lemma StoryWaits(site: Site, s: Story, w: World, w': World) returns (s': Story)
    requires Told(site, s, w) && Leads(site, w, w', Around)
    ensures Told(site, s', w') && Later(s, s') && s'.log == s.log && OthersActed(w, w')
  {
    var us, ts :| PathTo(site, us, ts, w, w', Around);
    PathAround(site, us, ts, |ts|);
    JoinedPath(site, s.worlds, s.steps, us, ts);
    s' := s.(worlds := s.worlds + us[1..], steps := s.steps + ts);
  }

  // ---------------------------------------------------------------- what the calls promise

  /** Both versions of the manifest of `v` are `x`. */
  predicate Holds(m: Manifests, v: VmId, x: Manifest) { v in m.seen && v in m.safe && m.seen[v] == x && m.safe[v] == x }

  /** Manifests that were there and durable still are. */
  predicate Keeps(m: Manifests, m': Manifests) {
    forall v :: v in m.seen && v in m.safe ==> v in m'.seen && v in m'.safe
  }

  /** Nobody else's manifest looks different. */
  predicate OnlyOwn(m: Manifests, m': Manifests, v: VmId) { m.seen - {v} == m'.seen - {v} }

  /** The task is `t`, and both versions of the manifest of `v` are the one in memory. */
  predicate On(w: World, t: Task, v: VmId, x: Manifest) { w.task == t && Holds(w.m, v, x) }

  /** The launch of `v` is given up: to be rolled back, or left as it is. */
  predicate Stopped(w: World, v: VmId) { w.task == Resolving(v) || w.task == Idle }

  /** privd granted the network of this manifest. */
  ghost predicate NetGiven(w: World, v: VmId, cidr: string) {
    exists req, r: Response :: (req, r) in w.p.past.replies && NetRequested(req, v, cidr) && r.Ok?
  }

  /** A success with this pid, which is 0 where the reply names no process. */
  predicate Started(r: Response, pid: int) { r.Ok? && pid == if r.start.Some? then r.start.value.pid else 0 }

  /** privd started the VM under this manifest's op_id, with the uid and CID of its slot,
      the site's gid and its staged files, and the pid is the one it answered with. */
  ghost predicate StartGiven(site: Site, w: World, v: VmId, x: Manifest) {
    exists req, r :: (req, r) in w.p.past.replies && req.opId == x.startOpId && StartRequested(site, req, v, x.slot) && Started(r, x.vmmPid)
  }

  ghost predicate Launched(site: Site, w: World, v: VmId) {
    v in w.m.seen && Holds(w.m, v, w.m.seen[v]) && NetGiven(w, v, w.m.seen[v].cidr) && StartGiven(site, w, v, w.m.seen[v])
  }

  /** Between `a` and `b` the manifest of `v` was removed and the removal synced, after both
      halves were released and the chroot seen absent. */
  ghost predicate Withdrawn(a: Story, b: Story, v: VmId) {
    && |b.worlds| == |b.steps| + 1
    && exists k :: |a.steps| <= k < |b.steps| && b.worlds[k].task == Removing(v) && b.steps[k] == Release(Remove(Gone))
  }

  lemma WithdrawnLater(a: Story, b: Story, c: Story, d: Story, v: VmId)
    requires Later(a, b) && Later(b, c) && Later(c, d) && Withdrawn(b, c, v) && |d.worlds| == |d.steps| + 1
    ensures Withdrawn(a, d, v)
  {
    var k :| |b.steps| <= k < |c.steps| && c.worlds[k].task == Removing(v) && c.steps[k] == Release(Remove(Gone));
    assert d.worlds[k] == c.worlds[k] && d.steps[k] == c.steps[k];
  }

  lemma StoryLater(site: Site, out: Outside, v: VmId, a: Story, b: Story, c: Story, ok: bool)
    requires Later(a, b) && Later(b, c) && |c.worlds| == |c.steps| + 1
    requires if ok then Withdrawn(b, c, v) else Excused(site, out, b, c, Cleanup(v))
    ensures if ok then Withdrawn(a, c, v) else Excused(site, out, a, c, Cleanup(v))
  {
    if ok { WithdrawnLater(a, b, c, c, v); } else { ExcusedLater(site, out, a, b, c, c, Cleanup(v)); }
  }

  // ---------------------------------------------------------------- a release under way

  predicate Releasing(t: Task) { t.ReleasingVm? || t.ReleasingNet? }

  /** Still the same half of the same release. */
  predicate SameHalf(t: Task, t': Task) {
    Releasing(t) && Releasing(t') && t' == t.(asked := t'.asked)
  }

  predicate Unasked(t: Task) { Releasing(t) && t.asked.None? }

  predicate ReleaseAnswered(w: World, r: Option<Response>) {
    Releasing(w.task) && w.task.asked.Some? && r.Some? && (w.task.asked.value, r.value) in w.p.past.replies
  }

  /** privd released the half, or had nothing of it. */
  predicate Freed(r: Option<Response>) { r.Some? && (r.value.Ok? || r.value == Err(NotFound)) }

  function AfterHalf(t: Task, ok: bool): Task {
    match t
    case ReleasingVm(v, _) => ReleasingNet(v, ok, None)
    case ReleasingNet(v, vmOk, _) => Judging(v, vmOk, ok)
    case _ => t
  }

  /** How a release of `v` ends: with the manifest withdrawn; or for a reason outside the adapter,
      and then a durable manifest still is. */
  ghost predicate Ends(site: Site, out: Outside, a: Story, b: Story, m: Manifests, m': Manifests, v: VmId, ok: bool) {
    && Later(a, b) && OnlyOwn(m, m', v)
    && if ok then v !in m'.seen && v !in m'.safe && Withdrawn(a, b, v)
       else Excused(site, out, a, b, Cleanup(v)) && (v in m.seen && v in m.safe ==> v in m'.safe)
  }

  lemma EndsLater(site: Site, out: Outside, a: Story, b: Story, c: Story, m: Manifests, m': Manifests, m'': Manifests, v: VmId, ok: bool)
    requires Later(a, b) && Keeps(m, m') && OnlyOwn(m, m', v) && Ends(site, out, b, c, m', m'', v, ok) && |c.worlds| == |c.steps| + 1
    ensures Ends(site, out, a, c, m, m'', v, ok)
  {
    StoryLater(site, out, v, a, b, c, ok);
  }

  /** How the stages of a launch of `v` end: launched, or given up for a reason outside. */
  ghost predicate Stages(site: Site, out: Outside, a: Story, b: Story, m: Manifests, w: World, v: VmId, ok: bool) {
    && Later(a, b) && Keeps(m, w.m) && OnlyOwn(m, w.m, v)
    && if ok then w.task == Idle && Launched(site, w, v) else Stopped(w, v) && Excused(site, out, a, b, Provisioning(v))
  }

  lemma StagesLater(site: Site, out: Outside, a: Story, b: Story, c: Story, m: Manifests, m': Manifests, w: World, v: VmId, ok: bool)
    requires Later(a, b) && Keeps(m, m') && OnlyOwn(m, m', v) && Stages(site, out, b, c, m', w, v, ok) && |c.worlds| == |c.steps| + 1
    ensures Stages(site, out, a, c, m, w, v, ok)
  {
    if !ok { ExcusedLater(site, out, a, b, c, c, Provisioning(v)); }
  }

  ghost predicate LaunchEnds(site: Site, out: Outside, a: Story, b: Story, m: Manifests, w: World, v: VmId, ok: bool) {
    && Later(a, b) && OnlyOwn(m, w.m, v)
    && (if ok then Launched(site, w, v)
        else Excused(site, out, a, b, Provisioning(v)) || Excused(site, out, a, b, Before) || !CanBegin(w))
    && (v in m.seen && v in m.safe ==> v in w.m.safe || Withdrawn(a, b, v))
  }

  lemma LaunchLater(site: Site, out: Outside, a: Story, b: Story, c: Story, m: Manifests, m': Manifests, w: World, v: VmId, ok: bool)
    requires Later(a, b) && Keeps(m, m') && OnlyOwn(m, m', v) && LaunchEnds(site, out, b, c, m', w, v, ok) && |c.worlds| == |c.steps| + 1
    ensures LaunchEnds(site, out, a, c, m, w, v, ok)
  {
    if Excused(site, out, b, c, Provisioning(v)) { ExcusedLater(site, out, a, b, c, c, Provisioning(v)); }
    if Excused(site, out, b, c, Before) { ExcusedLater(site, out, a, b, c, c, Before); }
    if Withdrawn(b, c, v) { WithdrawnLater(a, b, c, c, v); }
  }

  lemma NetReplied(w: World, op: OpId, v: VmId, cidr: string, r: Response)
    requires (NetRequest(op, v, cidr), r) in w.p.past.replies && r.Ok?
    ensures NetGiven(w, v, cidr)
  {
  }

  lemma StartReplied(site: Site, w: World, v: VmId, y: Manifest, r: Response)
    requires (StartRequest(site, y.startOpId, v, y.slot), r) in w.p.past.replies && ClientView(r).Succeeded_?
    ensures StartGiven(site, w, v, y.(vmmPid := ClientView(r).start.pid))
  {
    assert Started(r, ClientView(r).start.pid);
  }

  lemma GivenStays(site: Site, w: World, w': World, v: VmId, x: Manifest)
    requires w.p.past.replies <= w'.p.past.replies
    ensures NetGiven(w, v, x.cidr) ==> NetGiven(w', v, x.cidr)
    ensures StartGiven(site, w, v, x) ==> StartGiven(site, w', v, x)
  {
  }

  lemma WriteEffect(m: Manifests, v: VmId, x: Manifest, put: PutIo)
    ensures var m' := WriteManifest(m, v, x, put); Keeps(m, m') && OnlyOwn(m, m', v) && (put.Put? ==> Holds(m', v, x))
  {
  }

  lemma RemoveEffect(m: Manifests, v: VmId, how: Removal)
    ensures var m' := RemoveManifest(m, v, how); OnlyOwn(m, m', v) && (!how.Gone? ==> m'.safe == m.safe)
  {
  }

  lemma ReserveEffect(w: World, v: VmId, slot: nat, cidr: string, put: PutIo, undo: Removal)
    requires w.task == Reserving(v)
    ensures var w' := AfterReserve(w, slot, cidr, put, undo);
      && Keeps(w.m, w'.m) && OnlyOwn(w.m, w'.m, v)
      && if put.Put? then On(w', Staging(v), v, Manifest(slot, cidr, "", 0)) else w'.task.Idle?
  {
  }

  // ---------------------------------------------------------------- answers that came

  predicate FreshId(w: World, op: Option<OpId>) { op.Some? && Fresh(w, op.value) }

  predicate Leasable(w: World, v: VmId, cidr: Option<string>) { cidr.Some? && CidrFor(w.leases, v, cidr.value) }

  predicate Heard(w: World, req: Request, r: Option<Response>) { r.Some? && (req, r.value) in w.p.past.replies }

  ghost predicate Picked(w: World, v: VmId, limit: nat, slot: Option<nat>) {
    slot.Some? && SlotFor(w.m.seen, v, limit, slot.value)
  }

  /** A release of `v` may go on: no start is open, or privd answers that it failed, or that it
      succeeded and the pid can be recorded. */
  ghost predicate MayRelease(m: Manifests, d: Daemon, v: VmId, asked: bool, put: PutIo) {
    || v !in m.seen || !Open(m.seen[v])
    || (asked && StartFailed(m.seen[v], d))
    || (asked && put.Put? && exists pid :: StartSucceeded(m.seen[v], d, pid))
  }

  /** Once it goes on, the pid privd answered with is in both versions, and nothing else has
      changed. Where it cannot be told whether the start happened nothing has. */
  ghost predicate Resolved(m: Manifests, d: Daemon, m': Manifests, v: VmId, ok: bool) {
    v in m.seen ==>
      && (Open(m.seen[v]) && Untold(m.seen[v], d) ==> !ok && m' == m)
      && (ok && (!Open(m.seen[v]) || StartFailed(m.seen[v], d)) ==> m' == m)
      && (forall pid :: ok && Open(m.seen[v]) && StartSucceeded(m.seen[v], d, pid) ==> Holds(m', v, m.seen[v].(vmmPid := pid)))
  }

  /** A slot and a subnet that may be reserved for `v`. */
  ghost predicate Choice(site: Site, w: World, v: VmId, x: Option<Manifest>) {
    && x.Some? && x.value == Manifest(x.value.slot, x.value.cidr, "", 0)
    && SlotFor(w.m.seen, v, site.maxSlots, x.value.slot) && CidrFor(w.leases, v, x.value.cidr)
  }

  class Lifecycle {
    const site: Site
    const out: Outside
    const attempts: nat   // polls of release_vm before its deadline
    var world: World
    var clock: nat
    ghost var story: Story

    ghost predicate Valid()
      reads this
    {
      Fair(site, out) && Told(site, story, world) && |story.log| == clock
    }

    constructor (site: Site, out: Outside, attempts: nat, w: World)
      requires Fair(site, out) && WorldInitial(w)
      ensures Valid() && world == w && story == Story([w], [], [])
    {
      this.site, this.out, this.attempts, world, clock := site, out, attempts, w, 0;
      story := Story([w], [], []);
    }

    method Tick(ghost q: Question)
      requires Valid()
      modifies this
      ensures Valid() && world == old(world) && clock == old(clock) + 1 && Later(old(story), story)
      ensures Trouble(out, old(clock), world, q) ==> Excused(site, out, old(story), story, PartOf(old(world.task)))
    {
      story := story.(log := story.log + [(world, q)]);
      clock := clock + 1;
      assert story.log[old(clock)] == (world, q);
    }

    /** Time passes. */
    method Wait()
      requires Valid()
      modifies this
      ensures Valid() && OthersActed(old(world), world) && Later(old(story), story) && clock == old(clock)
    {
      var w := out.moves(clock, world);
      ghost var s := StoryWaits(site, story, world, w);
      story, world := s, w;
    }

    method GoLaunch(move: LaunchMove, w: World)
      requires Valid() && LaunchStep(site, world, move, w)
      modifies this
      ensures Valid() && world == w && Later(old(story), story)
      ensures Objection(site, old(world), Launch(move)) ==> Excused(site, out, old(story), story, PartOf(old(world.task)))
    {
      ghost var s := StoryGoes(site, story, world, Launch(move), w);
      story, world := s, w;
    }

    method GoRelease(act: ReleaseMove, w: World)
      requires Valid() && ReleaseStep(world, act, w)
      modifies this
      ensures Valid() && world == w && Later(old(story), story)
      ensures Objection(site, old(world), Release(act)) ==> Excused(site, out, old(story), story, PartOf(old(world.task)))
      ensures act == Remove(Gone) ==> forall v :: old(world).task == Removing(v) ==> Withdrawn(old(story), story, v)
    {
      ghost var s := StoryGoes(site, story, world, Release(act), w);
      story, world := s, w;
    }

    method Crash()
      requires Valid()
      modifies this
      ensures Valid() && world == old(world).(task := Idle, leases := map[]) && Later(old(story), story)
    {
      var w := world.(task := Idle, leases := map[]);
      ghost var s := StoryGoes(site, story, world, AdapterCrash, w);
      story, world := s, w;
    }

    // -------------------------------------------------------------- questions

    /** Something that takes time and may fail. */
    method Try() returns (ok: bool)
      requires Valid()
      modifies this
      ensures Valid() && OthersActed(old(world), world) && Later(old(story), story) && (!ok ==> Excused(site, out, old(story), story, PartOf(old(world.task))))
      ensures ok == out.works(old(clock)) && clock == old(clock) + 1
    {
      Wait();
      ok := out.works(clock);
      ghost var s := story;
      Tick(Works);
      if !ok { ExcusedLater(site, out, old(story), s, story, story, PartOf(old(world.task))); }
    }

    method Write() returns (put: PutIo)
      requires Valid()
      modifies this
      ensures Valid() && world == old(world) && Later(old(story), story) && (!put.Put? ==> Excused(site, out, old(story), story, PartOf(old(world.task))))
      ensures put == out.writes(old(clock))
    {
      put := out.writes(clock);
      Tick(Writes);
    }

    method RemoveAll() returns (how: Removal)
      requires Valid()
      modifies this
      ensures Valid() && world == old(world) && Later(old(story), story) && (!how.Gone? ==> Excused(site, out, old(story), story, PartOf(old(world.task))))
    {
      how := out.removes(clock);
      Tick(Removes);
    }

    /** A new op_id; without entropy the process panics. */
    method NewId() returns (op: Option<OpId>)
      requires Valid()
      modifies this
      ensures Valid() && Later(old(story), story)
      ensures if op.Some? then world == old(world) && FreshId(world, op)
              else world == old(world).(task := Idle, leases := map[]) && Excused(site, out, old(story), story, PartOf(old(world.task)))
    {
      op := out.ids(clock, world);
      Tick(Id);
      ghost var s := story;
      if op.None? {
        Crash();
        ExcusedLater(site, out, old(story), old(story), s, story, PartOf(old(world.task)));
      }
    }

    /** Connecting to privd with a new op_id for the request. */
    method Dial() returns (op: Option<OpId>)
      requires Valid()
      modifies this
      ensures Valid() && Later(old(story), story) && world.m == old(world.m) && old(world.p.past.replies) <= world.p.past.replies
      ensures if op.Some? then OthersActed(old(world), world) && FreshId(world, op)
              else world.task in {old(world.task), Idle} && Excused(site, out, old(story), story, PartOf(old(world.task)))
    {
      var ok := Try();
      if !ok { return None; }
      ghost var s := story;
      op := NewId();
      if op.None? { ExcusedLater(site, out, old(story), s, story, story, PartOf(old(world.task))); }
    }

    method Acquire(v: VmId) returns (cidr: Option<string>)
      requires Valid() && world.task == Reserving(v)
      modifies this
      ensures Valid() && world == old(world) && Later(old(story), story)
      ensures if cidr.Some? then Leasable(world, v, cidr) else Excused(site, out, old(story), story, PartOf(old(world.task)))
    {
      cidr := out.subnets(clock, world, v);
      Tick(Subnet(v));
    }

    /** What privd's client returns: the reply, or nothing before the deadline. */
    method Hear(req: Request) returns (r: Option<Response>)
      requires Valid() && Awaits(world.task, req)
      modifies this
      ensures Valid() && OthersActed(old(world), world) && Later(old(story), story)
      ensures if r.Some? then Heard(world, req, r) else Excused(site, out, old(story), story, PartOf(old(world.task)))
    {
      Wait();
      r := out.replies(clock, world, req);
      ghost var s := story;
      Tick(Reply(req));
      if r.None? { ExcusedLater(site, out, old(story), s, story, story, PartOf(old(world.task))); }
    }

    // -------------------------------------------------------------- the launch, stage by stage

    /** restoreNetworkLeases. */
    method Begin(v: VmId)
      requires Valid() && world.task.Idle?
      modifies this
      ensures Valid() && Later(old(story), story) && Keeps(old(world.m), world.m) && world.m.seen == old(world.m.seen)
      ensures if world.task.Idle? then Excused(site, out, old(story), story, Before) || !CanBegin(world) else world.task == Reserving(v)
    {
      var ok := Try();
      if !ok || !CanBegin(world) { return; }
      var inv := NetworkLeases(world.p.daemon, world.p.disk.seen.ledger);
      GoLaunch(Begins(v), world.(task := Reserving(v), m := Synced(world.m), leases := world.leases + Cidrs(world.m.seen) + inv.leases));
    }

    method PickSlot(v: VmId) returns (slot: Option<nat>)
      ensures if slot.Some? then Picked(world, v, site.maxSlots, slot) else SiteFull(site, world, v)
    {
      if v in world.m.seen { return Some(world.m.seen[v].slot); }
      for t := 0 to site.maxSlots
        invariant forall u: nat :: u < t ==> Used(world.m.seen, u)
      {
        if !Used(world.m.seen, t) { return Some(t); }
      }
      return None;
    }

    /** Slot and subnet; without them, something failed or the site is full. */
    method Choose(v: VmId) returns (x: Option<Manifest>)
      requires Valid() && world.task == Reserving(v)
      modifies this
      ensures Valid() && Later(old(story), story) && OthersActed(old(world), world)
      ensures if x.Some? then Choice(site, world, v, x) else Excused(site, out, old(story), story, Provisioning(v)) || SiteFull(site, world, v)
    {
      var made := Try();
      ghost var s := story;
      var slot := PickSlot(v);
      var cidr := Acquire(v);
      if !made { ExcusedLater(site, out, old(story), old(story), s, story, Provisioning(v)); }
      if cidr.None? { ExcusedLater(site, out, old(story), s, story, story, Provisioning(v)); }
      x := if slot.None? || !made || cidr.None? then None else Some(Manifest(slot.value, cidr.value, "", 0));
    }

    /** Slot, subnet and the reserved manifest. */
    method ReserveManifest(v: VmId) returns (x: Manifest)
      requires Valid() && world.task == Reserving(v)
      modifies this
      ensures Valid() && Later(old(story), story) && Keeps(old(world.m), world.m) && OnlyOwn(old(world.m), world.m, v)
      ensures if world.task.Idle? then Excused(site, out, old(story), story, Provisioning(v)) else On(world, Staging(v), v, x)
    {
      var choice := Choose(v);
      ghost var (s, full) := (story, SiteFull(site, world, v));
      x := if choice.Some? then choice.value else Manifest(0, "", "", 0);
      if choice.Some? {
        PublishReserved(v, x);
        if world.task.Idle? { ExcusedLater(site, out, old(story), s, story, story, Provisioning(v)); }
      } else {
        GoLaunch(ReserveFails, world.(task := Idle));
        if full { ExcusedLater(site, out, old(story), s, story, story, Provisioning(v)); } else { ExcusedLater(site, out, old(story), old(story), s, story, Provisioning(v)); }
      }
    }

    method PublishReserved(v: VmId, x: Manifest)
      requires Valid() && world.task == Reserving(v) && Choice(site, world, v, Some(x))
      modifies this
      ensures Valid() && Later(old(story), story) && Keeps(old(world.m), world.m) && OnlyOwn(old(world.m), world.m, v)
      ensures if world.task.Idle? then Excused(site, out, old(story), story, Provisioning(v)) else On(world, Staging(v), v, x)
    {
      var put := Write();
      ghost var s := story;
      var undo := Gone;
      if !put.Put? && v !in world.m.seen { undo := RemoveAll(); }
      ReserveEffect(world, v, x.slot, x.cidr, put, undo);
      GoLaunch(Reserve(x.slot, x.cidr, put, undo), AfterReserve(world, x.slot, x.cidr, put, undo));
      if !put.Put? { ExcusedLater(site, out, old(story), old(story), s, story, Provisioning(v)); }
    }

    method Stage(v: VmId)
      requires Valid() && world.task == Staging(v)
      modifies this
      ensures Valid() && Later(old(story), story) && world.m == old(world.m)
      ensures world.task == Staging(v) || (world.task == Resolving(v) && Excused(site, out, old(story), story, Provisioning(v)))
    {
      var ok := Try();
      ghost var s := story;
      if !ok {
        GoLaunch(LaunchFails, world.(task := Resolving(v)));
        ExcusedLater(site, out, old(story), old(story), s, story, Provisioning(v));
      }
    }

    method AllocateNetwork(v: VmId, x: Manifest)
      requires Valid() && On(world, Staging(v), v, x)
      modifies this
      ensures Valid() && Later(old(story), story) && world.m == old(world.m)
      ensures || (world.task == Networked(v) && NetGiven(world, v, x.cidr))
              || (Stopped(world, v) && Excused(site, out, old(story), story, Provisioning(v)))
    {
      var op := Dial();
      ghost var s := story;
      if op.Some? {
        AskNetwork(v, x, op.value);
        if Stopped(world, v) { ExcusedLater(site, out, old(story), s, story, story, Provisioning(v)); }
      } else if world.task.Staging? {
        GoLaunch(NetDialFails, world.(task := Resolving(v)));
        ExcusedLater(site, out, old(story), old(story), s, story, Provisioning(v));
      }
    }

    method AskNetwork(v: VmId, x: Manifest, op: OpId)
      requires Valid() && On(world, Staging(v), v, x) && NewOp(world, op)
      modifies this
      ensures Valid() && Later(old(story), story) && world.m == old(world.m)
      ensures || (world.task == Networked(v) && NetGiven(world, v, x.cidr))
              || (Stopped(world, v) && Excused(site, out, old(story), story, Provisioning(v)))
    {
      var req := NetRequest(op, v, x.cidr);
      GoLaunch(AskNet(op), world.(unread := world.unread + {req}, armed := world.armed + {op}, task := AwaitingNet(v, req)));
      ghost var s := story;
      AwaitNetwork(v, op, x.cidr);
      if Stopped(world, v) { ExcusedLater(site, out, old(story), s, story, story, Provisioning(v)); }
    }

    method AwaitNetwork(v: VmId, op: OpId, cidr: string)
      requires Valid() && world.task == AwaitingNet(v, NetRequest(op, v, cidr))
      modifies this
      ensures Valid() && Later(old(story), story) && world.m == old(world.m)
      ensures || (world.task == Networked(v) && NetGiven(world, v, cidr))
              || (Stopped(world, v) && Excused(site, out, old(story), story, Provisioning(v)))
    {
      var r := Hear(NetRequest(op, v, cidr));
      ghost var s := story;
      if r.None? {
        GoLaunch(NetLost, world.(task := Resolving(v)));
        ExcusedLater(site, out, old(story), old(story), s, story, Provisioning(v));
      } else {
        if r.value.Ok? { NetReplied(world, op, v, cidr, r.value); }
        GoLaunch(NetReply(r.value), world.(task := if r.value.Ok? then Networked(v) else Resolving(v)));
        if !r.value.Ok? { ExcusedLater(site, out, old(story), s, story, story, Provisioning(v)); }
      }
    }

    /** The stage is recorded, the images hashed, and the start's op_id made durable before the
        request is written. */
    method ArmStart(v: VmId, x: Manifest) returns (y: Manifest)
      requires Valid() && On(world, Networked(v), v, x)
      modifies this
      ensures Valid() && Later(old(story), story) && Keeps(old(world.m), world.m) && OnlyOwn(old(world.m), world.m, v)
      ensures old(world.p.past.replies) <= world.p.past.replies
      ensures if world.task.Sending? then On(world, Sending(v, y.startOpId), v, y) && y == x.(startOpId := y.startOpId, vmmPid := 0)
              else Stopped(world, v) && Excused(site, out, old(story), story, Provisioning(v))
    {
      y := x;
      var op := Dial();
      ghost var s := story;
      if op.Some? {
        y := x.(startOpId := op.value, vmmPid := 0);
        WriteOpId(v, x, y);
        if !world.task.Sending? { ExcusedLater(site, out, old(story), s, story, story, Provisioning(v)); }
      } else if world.task.Networked? {
        GoLaunch(LaunchFails, world.(task := Resolving(v)));
        ExcusedLater(site, out, old(story), old(story), s, story, Provisioning(v));
      }
    }

    method WriteOpId(v: VmId, x: Manifest, y: Manifest)
      requires Valid() && On(world, Networked(v), v, x) && NewOp(world, y.startOpId) && y == x.(startOpId := y.startOpId, vmmPid := 0)
      modifies this
      ensures Valid() && Later(old(story), story) && Keeps(old(world.m), world.m) && OnlyOwn(old(world.m), world.m, v)
      ensures world.p == old(world.p)
      ensures if world.task.Sending? then On(world, Sending(v, y.startOpId), v, y) else Stopped(world, v) && Excused(site, out, old(story), story, Provisioning(v))
    {
      var put := Write();
      ghost var s := story;
      WriteEffect(world.m, v, y, put);
      GoLaunch(Arm(y.startOpId, put), world.(m := WriteManifest(world.m, v, y, put), armed := world.armed + {y.startOpId},
                                             task := if put.Put? then Sending(v, y.startOpId) else Resolving(v)));
      if !put.Put? { ExcusedLater(site, out, old(story), old(story), s, story, Provisioning(v)); }
    }

    /** start_vm is sent. */
    method SendStart(v: VmId, y: Manifest)
      requires Valid() && On(world, Sending(v, y.startOpId), v, y)
      modifies this
      ensures Valid() && Later(old(story), story) && world.m == old(world.m) && old(world.p.past.replies) <= world.p.past.replies
      ensures || world.task == Awaiting(v, StartRequest(site, y.startOpId, v, y.slot))
              || (world.task == Disarming(v) && Excused(site, out, old(story), story, Provisioning(v)))
    {
      var dialled := Try();
      ghost var s := story;
      if !dialled {
        GoLaunch(DialFails, world.(task := Disarming(v)));
        ExcusedLater(site, out, old(story), old(story), s, story, Provisioning(v));
      } else {
        var req := StartRequest(site, y.startOpId, v, y.slot);
        GoLaunch(Send, world.(unread := world.unread + {req}, task := Awaiting(v, req)));
      }
    }

    /** What its reply decides; without a definite one the manifest keeps the op_id. */
    method AwaitStart(v: VmId, y: Manifest) returns (pid: int)
      requires Valid() && world.task == Awaiting(v, StartRequest(site, y.startOpId, v, y.slot))
      modifies this
      ensures Valid() && Later(old(story), story) && world.m == old(world.m) && old(world.p.past.replies) <= world.p.past.replies
      ensures || (world.task == Recording(v, y.startOpId, pid) && StartGiven(site, world, v, y.(vmmPid := pid)))
              || (world.task in {Disarming(v), Idle} && Excused(site, out, old(story), story, Provisioning(v)))
    {
      pid := 0;
      var r := Hear(StartRequest(site, y.startOpId, v, y.slot));
      ghost var s := story;
      if r.None? {
        GoLaunch(ReplyLost, world.(task := Idle));
        ExcusedLater(site, out, old(story), old(story), s, story, Provisioning(v));
      } else {
        pid := TakeStartReply(v, y, r.value);
        if !world.task.Recording? { ExcusedLater(site, out, old(story), s, story, story, Provisioning(v)); }
      }
    }

    method TakeStartReply(v: VmId, y: Manifest, r: Response) returns (pid: int)
      requires Valid() && world.task == Awaiting(v, StartRequest(site, y.startOpId, v, y.slot))
      requires (StartRequest(site, y.startOpId, v, y.slot), r) in world.p.past.replies
      modifies this
      ensures Valid() && Later(old(story), story) && world.m == old(world.m) && world.p == old(world.p)
      ensures || (world.task == Recording(v, y.startOpId, pid) && StartGiven(site, world, v, y.(vmmPid := pid)))
              || (world.task in {Disarming(v), Idle} && Excused(site, out, old(story), story, Provisioning(v)))
    {
      pid := 0;
      var view := Classify(Some(r));
      match view {
        case Succeeded_(start) =>
          pid := start.pid;
          StartReplied(site, world, v, y, r);
          GoLaunch(StartReply(r), world.(task := Recording(v, y.startOpId, pid)));
          assert StartGiven(site, world, v, y.(vmmPid := pid)) by { GivenStays(site, old(world), world, v, y.(vmmPid := pid)); }
        case Refused_(_) => GoLaunch(StartReply(r), world.(task := Disarming(v)));
        case Unknown_ => GoLaunch(StartReply(r), world.(task := Idle));
      }
    }

    method ClearOpId(v: VmId, y: Manifest)
      requires Valid() && On(world, Disarming(v), v, y)
      modifies this
      ensures Valid() && Later(old(story), story) && Keeps(old(world.m), world.m) && OnlyOwn(old(world.m), world.m, v) && Stopped(world, v)
    {
      var put := Write();
      var x := y.(startOpId := "", vmmPid := 0);
      WriteEffect(world.m, v, x, put);
      GoLaunch(Disarm(put), world.(m := WriteManifest(world.m, v, x, put), task := if put.Put? then Resolving(v) else Idle));
    }

    method RecordVmm(v: VmId, y: Manifest, pid: int)
      requires Valid() && On(world, Recording(v, y.startOpId, pid), v, y)
      modifies this
      ensures Valid() && Later(old(story), story) && Keeps(old(world.m), world.m) && OnlyOwn(old(world.m), world.m, v)
      ensures world.p == old(world.p)
      ensures On(world, Attaching(v), v, y.(vmmPid := pid)) || (world.task == Resolving(v) && Excused(site, out, old(story), story, Provisioning(v)))
    {
      var put := Write();
      ghost var s := story;
      var z := y.(vmmPid := pid);
      WriteEffect(world.m, v, z, put);
      GoLaunch(Record(put), world.(m := WriteManifest(world.m, v, z, put), task := if put.Put? then Attaching(v) else Resolving(v)));
      if !put.Put? { ExcusedLater(site, out, old(story), old(story), s, story, Provisioning(v)); }
    }

    /** The runner is spawned and attaches. */
    method Attach(v: VmId) returns (ok: bool)
      requires Valid() && world.task == Attaching(v)
      modifies this
      ensures Valid() && Later(old(story), story) && world.m == old(world.m) && old(world.p.past.replies) <= world.p.past.replies
      ensures if ok then world.task == Idle else world.task == Resolving(v) && Excused(site, out, old(story), story, Provisioning(v))
    {
      ok := Try();
      ghost var s := story;
      if ok {
        GoLaunch(Attached, world.(task := Idle));
      } else {
        GoLaunch(LaunchFails, world.(task := Resolving(v)));
        ExcusedLater(site, out, old(story), old(story), s, story, Provisioning(v));
      }
    }

    // -------------------------------------------------------------- release

    /** resolveStartOutcome: nothing to do, a pid to record, or the manifest stays as it is. */
    method ResolveStartOutcome(v: VmId, again: bool)
      requires Valid() && world.task == Resolving(v)
      modifies this
      ensures Valid() && Later(old(story), story) && Keeps(old(world.m), world.m) && OnlyOwn(old(world.m), world.m, v)
      ensures || world.task == (if again then Resolving(v) else ReleasingVm(v, None))
              || (world.task == Idle && Excused(site, out, old(story), story, Cleanup(v)))
      ensures world.task != Idle <==> MayRelease(old(world.m), world.p.daemon, v, out.works(old(clock)), out.writes(old(clock) + 1))
      ensures Resolved(old(world.m), world.p.daemon, world.m, v, world.task != Idle)
    {
      var asked := Try();
      ghost var s := story;
      if !asked && v in world.m.seen && world.m.seen[v].startOpId != "" && world.m.seen[v].vmmPid <= 0 {
        GoRelease(ResolveFails, world.(task := Idle));
        ExcusedLater(site, out, old(story), old(story), s, story, Cleanup(v));
        return;
      }
      SettleOutcome(v, again);
      if world.task.Idle? { ExcusedLater(site, out, old(story), s, story, story, Cleanup(v)); }
    }

    method SettleOutcome(v: VmId, again: bool)
      requires Valid() && world.task == Resolving(v)
      modifies this
      ensures Valid() && Later(old(story), story) && Keeps(old(world.m), world.m) && OnlyOwn(old(world.m), world.m, v)
      ensures || world.task == (if again then Resolving(v) else ReleasingVm(v, None))
              || (world.task == Idle && Excused(site, out, old(story), story, Cleanup(v)))
      ensures world.p == old(world.p)
      ensures world.task != Idle <==> MayRelease(old(world.m), world.p.daemon, v, true, out.writes(old(clock)))
      ensures Resolved(old(world.m), world.p.daemon, world.m, v, world.task != Idle)
    {
      var r := Settled;
      if v in world.m.seen { r := JudgeStart(world.m.seen[v], world.p.daemon); }
      match r {
        case Settled => GoRelease(Resolve(Put, again), world.(task := if again then Resolving(v) else ReleasingVm(v, None)));
        case Retain => GoRelease(Resolve(Put, again), world.(task := Idle));
        case RecordPid(pid) => RecordRecovered(v, world.m.seen[v], again, pid);
      }
    }

    /** The start had succeeded: its pid goes into the manifest first. */
    method RecordRecovered(v: VmId, x: Manifest, again: bool, pid: int)
      requires Valid() && world.task == Resolving(v) && Lookup(world.m.seen, v) == Some(x)
      requires ResolveStart(x, world.p.daemon) == RecordPid(pid)
      modifies this
      ensures Valid() && Later(old(story), story) && Keeps(old(world.m), world.m) && OnlyOwn(old(world.m), world.m, v)
      ensures || world.task == (if again then Resolving(v) else ReleasingVm(v, None))
              || (world.task == Idle && Excused(site, out, old(story), story, Cleanup(v)))
      ensures world.p == old(world.p) && (world.task != Idle <==> out.writes(old(clock)).Put?)
      ensures world.task != Idle ==> Holds(world.m, v, x.(vmmPid := pid))
    {
      var next := if again then Resolving(v) else ReleasingVm(v, None);
      var put := Write();
      ghost var s := story;
      WriteEffect(world.m, v, x.(vmmPid := pid), put);
      var m := WriteManifest(world.m, v, x.(vmmPid := pid), put);
      GoRelease(Resolve(put, again), world.(m := m, task := if put.Put? then next else Idle));
      if !put.Put? { ExcusedLater(site, out, old(story), old(story), s, story, Cleanup(v)); }
    }

    /** One release request: its reply, or nothing. */
    method AskRelease() returns (r: Option<Response>)
      requires Valid() && Unasked(world.task)
      modifies this
      ensures Valid() && Later(old(story), story) && world.m == old(world.m)
      ensures if r.Some? then SameHalf(old(world.task), world.task) && ReleaseAnswered(world, r)
              else (SameHalf(old(world.task), world.task) || world.task == Idle) && Excused(site, out, old(story), story, PartOf(old(world.task)))
    {
      var op := Dial();
      if op.None? { return None; }
      ghost var s := story;
      r := SendRelease(op.value);
      if r.None? { ExcusedLater(site, out, old(story), s, story, story, PartOf(old(world.task))); }
    }

    method SendRelease(op: OpId) returns (r: Option<Response>)
      requires Valid() && Unasked(world.task) && Fresh(world, op)
      modifies this
      ensures Valid() && Later(old(story), story) && world.m == old(world.m) && SameHalf(old(world.task), world.task)
      ensures if r.Some? then ReleaseAnswered(world, r) else Excused(site, out, old(story), story, PartOf(old(world.task)))
    {
      var verb := if world.task.ReleasingVm? then ReleaseVm else ReleaseNetwork;
      var req := Request(op, verb, Payload(world.task.vm, "", 0, 0, 0, "", [], "", {}));
      GoRelease(Ask(req), world.(task := world.task.(asked := Some(req))));
      ghost var s := story;
      r := Hear(req);
      if r.None? { ExcusedLater(site, out, old(story), s, story, story, PartOf(old(world.task))); }
    }

    /** What the reply, or its absence, decides. */
    method EndHalf(t: Task, r: Option<Response>, ghost before: Story)
      requires Valid() && Later(before, story) && Releasing(t)
      requires if r.Some? then SameHalf(t, world.task) && ReleaseAnswered(world, r)
               else (SameHalf(t, world.task) || world.task == Idle) && Excused(site, out, before, story, PartOf(t))
      modifies this
      ensures Valid() && Later(old(story), story) && world.m == old(world.m)
      ensures world.task == AfterHalf(t, true) || (world.task in {AfterHalf(t, false), Idle} && Excused(site, out, before, story, PartOf(t)))
    {
      ghost var s := story;
      if r.Some? {
        TakeRelease(t, r);
        if !Freed(r) { ExcusedLater(site, out, before, s, story, story, PartOf(t)); }
      } else if !world.task.Idle? {
        GoRelease(ReleaseLost, world.(task := AfterHalf(t, false)));
        ExcusedLater(site, out, before, before, s, story, PartOf(t));
      }
    }

    method TakeRelease(t: Task, r: Option<Response>)
      requires Valid() && SameHalf(t, world.task) && ReleaseAnswered(world, r)
      modifies this
      ensures Valid() && Later(old(story), story) && world.m == old(world.m) && world.task == AfterHalf(t, Freed(r))
      ensures !Freed(r) ==> Excused(site, out, old(story), story, PartOf(old(world.task)))
    {
      GoRelease(ReleaseReply(r.value, false), world.(task := AfterHalf(t, Freed(r))));
    }

    method AskAgain(v: VmId)
      requires Valid() && SameHalf(ReleasingVm(v, None), world.task) && ReleaseAnswered(world, Some(Err(InvalidState)))
      modifies this
      ensures Valid() && Later(old(story), story) && world.m == old(world.m) && world.task == ReleasingVm(v, None)
    {
      GoRelease(ReleaseReply(Err(InvalidState), true), world.(task := ReleasingVm(v, None)));
    }

    /** One poll of release_vm; the last one takes whatever answer there is. */
    method Poll(v: VmId, last: bool) returns (again: bool)
      requires Valid() && world.task == ReleasingVm(v, None)
      modifies this
      ensures Valid() && Later(old(story), story) && world.m == old(world.m) && (again ==> !last)
      ensures || world.task == (if again then ReleasingVm(v, None) else ReleasingNet(v, true, None))
              || (!again && world.task in {ReleasingNet(v, false, None), Idle} && Excused(site, out, old(story), story, Cleanup(v)))
    {
      var r := AskRelease();
      again := r == Some(Err(InvalidState)) && !last;
      if again { AskAgain(v); } else { EndHalf(ReleasingVm(v, None), r, old(story)); }
    }

    /** release_vm, asked again while privd says the process is still alive. */
    method ReleaseVmWhenDead(v: VmId)
      requires Valid() && world.task == ReleasingVm(v, None)
      modifies this
      ensures Valid() && Later(old(story), story) && world.m == old(world.m)
      ensures || world.task == ReleasingNet(v, true, None)
              || (world.task in {ReleasingNet(v, false, None), Idle} && Excused(site, out, old(story), story, Cleanup(v)))
    {
      var tries := 0;
      var again := true;
      while again
        invariant Valid() && Later(old(story), story) && world.m == old(world.m) && tries <= attempts + 1
        invariant again ==> tries <= attempts && world.task == ReleasingVm(v, None)
        invariant !again ==> || world.task == ReleasingNet(v, true, None)
                             || (world.task in {ReleasingNet(v, false, None), Idle} && Excused(site, out, old(story), story, Cleanup(v)))
        decreases attempts + 1 - tries
      {
        ghost var s := story;
        again := Poll(v, tries == attempts);
        if !again && world.task != ReleasingNet(v, true, None) { ExcusedLater(site, out, old(story), s, story, story, Cleanup(v)); }
        tries := tries + 1;
      }
    }

    method ReleaseNet(v: VmId, vmOk: bool)
      requires Valid() && world.task == ReleasingNet(v, vmOk, None)
      modifies this
      ensures Valid() && Later(old(story), story) && world.m == old(world.m)
      ensures || world.task == Judging(v, vmOk, true)
              || (world.task in {Judging(v, vmOk, false), Idle} && Excused(site, out, old(story), story, Cleanup(v)))
    {
      var r := AskRelease();
      EndHalf(ReleasingNet(v, vmOk, None), r, old(story));
    }

    /** The stage directory goes; with both halves released and the chroot seen absent, the
        manifest may. */
    method JudgeRelease(v: VmId, vmOk: bool, netOk: bool)
      requires Valid() && world.task == Judging(v, vmOk, netOk)
      modifies this
      ensures Valid() && Later(old(story), story) && world.m == old(world.m)
      ensures || world.task == Removing(v)
              || (world.task == Idle && (!vmOk || !netOk || Excused(site, out, old(story), story, Cleanup(v))))
    {
      var gone := Try();
      ghost var s := story;
      var clean := gone && vmOk && netOk && !At(world.p.host, v).tree;
      GoRelease(Judge(gone), world.(task := if clean then Removing(v) else Idle));
      if !gone {
        ExcusedLater(site, out, old(story), old(story), s, story, Cleanup(v));
      } else if !clean && vmOk && netOk {
        ExcusedLater(site, out, old(story), s, story, story, Cleanup(v));
      }
    }

    method RemoveDir(v: VmId) returns (ok: bool)
      requires Valid() && world.task == Removing(v)
      modifies this
      ensures Valid() && world.task == Idle && Ends(site, out, old(story), story, old(world.m), world.m, v, ok)
    {
      var how := RemoveAll();
      ghost var s := story;
      RemoveEffect(world.m, v, how);
      GoRelease(Remove(how), world.(m := RemoveManifest(world.m, v, how), leases := if how.Gone? then world.leases - {v} else world.leases, task := Idle));
      ok := how.Gone?;
      if ok {
        WithdrawnLater(old(story), s, story, story, v);
      } else {
        ExcusedLater(site, out, old(story), old(story), s, story, Cleanup(v));
      }
    }

    /** The network half, and the end; without the VM half it cannot end well. */
    method ReleaseRest(v: VmId, vmOk: bool, ghost before: Story) returns (ok: bool)
      requires Valid() && world.task == ReleasingNet(v, vmOk, None) && Later(before, story) && (!vmOk ==> Excused(site, out, before, story, Cleanup(v)))
      modifies this
      ensures Valid() && world.task == Idle && Ends(site, out, before, story, old(world.m), world.m, v, ok)
    {
      ghost var s := story;
      ReleaseNet(v, vmOk);
      ghost var s1 := story;
      if world.task.Idle? {
        ExcusedLater(site, out, before, s, story, story, Cleanup(v));
        return false;
      }
      var netOk := world.task.netOk;
      JudgeRelease(v, vmOk, netOk);
      ghost var s2 := story;
      if world.task.Idle? {
        if !vmOk { ExcusedLater(site, out, before, before, s, story, Cleanup(v)); }
        else if !netOk { ExcusedLater(site, out, before, s, s1, story, Cleanup(v)); }
        else { ExcusedLater(site, out, before, s1, story, story, Cleanup(v)); }
        return false;
      }
      ok := RemoveDir(v);
      StoryLater(site, out, v, before, s2, story, ok);
    }

    method ReleaseHalves(v: VmId) returns (ok: bool)
      requires Valid() && world.task == ReleasingVm(v, None)
      modifies this
      ensures Valid() && world.task == Idle && Ends(site, out, old(story), story, old(world.m), world.m, v, ok)
    {
      ReleaseVmWhenDead(v);
      if world.task.Idle? { return false; }
      ok := ReleaseRest(v, world.task.vmOk, old(story));
    }

    /** doRelease once it is under way: the start's outcome first. */
    method ReleaseResolved(v: VmId) returns (ok: bool)
      requires Valid() && world.task == Resolving(v)
      modifies this
      ensures Valid() && world.task == Idle && Ends(site, out, old(story), story, old(world.m), world.m, v, ok)
    {
      ResolveStartOutcome(v, false);
      if world.task.Idle? { return false; }
      ghost var (s, m) := (story, world.m);
      ok := ReleaseHalves(v);
      EndsLater(site, out, old(story), s, story, old(world.m), m, world.m, v, ok);
    }

    /** doRelease. */
    method DoRelease(v: VmId) returns (ok: bool)
      requires Valid() && world.task.Idle?
      modifies this
      ensures Valid() && world.task == Idle && Ends(site, out, old(story), story, old(world.m), world.m, v, ok)
    {
      GoRelease(ReleaseBegin(v), world.(task := Resolving(v)));
      ghost var (s, m) := (story, world.m);
      ok := ReleaseResolved(v);
      EndsLater(site, out, old(story), s, story, old(world.m), m, world.m, v, ok);
    }

    /** doRollback: the same, but that the outcome is resolved before the VMM is signalled. */
    method DoRollback(v: VmId) returns (ok: bool)
      requires Valid() && world.task == Resolving(v)
      modifies this
      ensures Valid() && world.task == Idle && Ends(site, out, old(story), story, old(world.m), world.m, v, ok)
    {
      ResolveStartOutcome(v, true);
      if world.task.Idle? { return false; }
      Wait();
      ghost var (s, m) := (story, world.m);
      ok := ReleaseResolved(v);
      EndsLater(site, out, old(story), s, story, old(world.m), m, world.m, v, ok);
    }

    // -------------------------------------------------------------- the whole launch

    /** From the reply to start_vm on. */
    method FinishStart(v: VmId, y: Manifest, pid: int) returns (ok: bool)
      requires Valid() && On(world, Recording(v, y.startOpId, pid), v, y)
      requires NetGiven(world, v, y.cidr) && StartGiven(site, world, v, y.(vmmPid := pid))
      modifies this
      ensures Valid() && Stages(site, out, old(story), story, old(world.m), world, v, ok)
    {
      RecordVmm(v, y, pid);
      if !world.task.Attaching? { return false; }
      ghost var s := story;
      ok := Attach(v);
      GivenStays(site, old(world), world, v, y.(vmmPid := pid));
      if !ok { ExcusedLater(site, out, old(story), s, story, story, Provisioning(v)); }
    }

    method StartVmm(v: VmId, y: Manifest) returns (ok: bool)
      requires Valid() && On(world, Sending(v, y.startOpId), v, y) && NetGiven(world, v, y.cidr)
      modifies this
      ensures Valid() && Stages(site, out, old(story), story, old(world.m), world, v, ok)
    {
      SendStart(v, y);
      ghost var s := story;
      var pid := 0;
      if world.task.Awaiting? {
        pid := AwaitStart(v, y);
        if !world.task.Recording? { ExcusedLater(site, out, old(story), s, story, story, Provisioning(v)); }
      }
      ghost var s' := story;
      if world.task.Recording? {
        GivenStays(site, old(world), world, v, y);
        ok := FinishStart(v, y, pid);
        StagesLater(site, out, old(story), s', story, old(world.m), old(world.m), world, v, ok);
        return;
      }
      if world.task.Disarming? {
        ClearOpId(v, y);
        ExcusedLater(site, out, old(story), old(story), s', story, Provisioning(v));
      }
      return false;
    }

    method StartUp(v: VmId, x: Manifest) returns (ok: bool)
      requires Valid() && On(world, Networked(v), v, x) && NetGiven(world, v, x.cidr)
      modifies this
      ensures Valid() && Stages(site, out, old(story), story, old(world.m), world, v, ok)
    {
      var y := ArmStart(v, x);
      if !world.task.Sending? { return false; }
      GivenStays(site, old(world), world, v, x);
      ghost var (s, m) := (story, world.m);
      ok := StartVmm(v, y);
      StagesLater(site, out, old(story), s, story, old(world.m), m, world, v, ok);
    }

    method Provision(v: VmId, x: Manifest) returns (ok: bool)
      requires Valid() && On(world, Staging(v), v, x)
      modifies this
      ensures Valid() && Stages(site, out, old(story), story, old(world.m), world, v, ok)
    {
      Stage(v);
      if world.task.Resolving? { return false; }
      ghost var s := story;
      AllocateNetwork(v, x);
      if Stopped(world, v) {
        ExcusedLater(site, out, old(story), s, story, story, Provisioning(v));
        return false;
      }
      ghost var s' := story;
      ok := StartUp(v, x);
      StagesLater(site, out, old(story), s', story, old(world.m), old(world.m), world, v, ok);
    }

    /** Launch from the reserved manifest on, with the rollback of a failure. */
    method ProvisionOrRollBack(v: VmId, x: Manifest) returns (ok: bool)
      requires Valid() && On(world, Staging(v), v, x)
      modifies this
      ensures Valid() && world.task == Idle && LaunchEnds(site, out, old(story), story, old(world.m), world, v, ok)
    {
      ok := Provision(v, x);
      ghost var s := story;
      if world.task.Resolving? {
        var gone := DoRollback(v);
        ExcusedLater(site, out, old(story), old(story), s, story, Provisioning(v));
        if gone { WithdrawnLater(old(story), s, story, story, v); }
      }
    }

    /** Launch: on success privd granted this manifest's network and started its VM, and both
        versions of the manifest say so; it fails only for a reason outside the adapter; and a
        durable manifest is gone only if a release withdrew it. */
    method LaunchVm(v: VmId) returns (ok: bool)
      requires Valid() && world.task.Idle?
      modifies this
      ensures Valid() && world.task == Idle && LaunchEnds(site, out, old(story), story, old(world.m), world, v, ok)
    {
      Begin(v);
      if world.task.Idle? { return false; }
      ghost var s := story;
      var x := ReserveManifest(v);
      if world.task.Idle? {
        ExcusedLater(site, out, old(story), s, story, story, Provisioning(v));
        return false;
      }
      ghost var (s', m') := (story, world.m);
      ok := ProvisionOrRollBack(v, x);
      LaunchLater(site, out, old(story), s', story, old(world.m), m', world, v, ok);
    }
  }
}
