/** privd as a transition system: a daemon that journals mutations, a host that a
    backend changes piecemeal, and a disk whose failed writes leave either version
    visible. Any step may be followed by a daemon crash or a power loss.

    Every durable file has two contents: the one a reader sees and the one that
    survives a power loss. They differ only after a write whose barrier failed. */
module Privd {
  import opened Wire
  import opened Ledger
  import opened Handlers

  // ---------------------------------------------------------------- host

  datatype Proc = Proc(pid: int, startTime: string, ns: string)

  /** What one VM has on the host: network pieces, a jail tree, running VMMs. */
  datatype Footprint = Footprint(net: bool, tree: bool, procs: set<Proc>)

  const NOTHING := Footprint(false, false, {})

  datatype Host = Host(vms: map<VmId, Footprint>, boot: string, ns: string)

  function At(h: Host, v: VmId): Footprint {
    if v in h.vms then h.vms[v] else NOTHING
  }

  function WithFootprint(h: Host, v: VmId, f: Footprint): (r: Host)
    ensures r.boot == h.boot && r.ns == h.ns
    ensures At(r, v) == f
    ensures forall w :: w != v ==> At(r, w) == At(h, w)
  {
    h.(vms := h.vms[v := f])
  }

  /** The process an entry records, on the boot that started it. */
  predicate Matches(e: VMEntry, p: Proc, boot: string) {
    e.pid == p.pid && e.startTime == p.startTime && e.ns == p.ns && e.bootId == boot
  }

  /** Everything the VM has on the host is claimed by its ledger entry. */
  predicate Named(f: Footprint, e: Option<VMEntry>, boot: string) {
    && (f.net ==> e.Some? && e.value.netCidr != "")
    && (f.tree ==> e.Some? && e.value.pid != 0)
    && (forall p :: p in f.procs ==> e.Some? && Matches(e.value, p, boot))
  }

  /** What the backend may do to a VM's footprint while it serves `verb`, whether the
      call later succeeds, fails or is cut short. `execed`: the jailer was executed. */
  predicate Progress(verb: Verb, f: Footprint, g: Footprint, execed: bool, execed': bool) {
    match verb
    case AllocateNetwork => g.tree == f.tree && g.procs == f.procs && execed' == execed
    case ReleaseNetwork => (g.net ==> f.net) && g.tree == f.tree && g.procs == f.procs && execed' == execed
    case StartVm =>
      && g.net == f.net
      && (execed ==> execed' && g.tree == f.tree)
      && (!execed' ==> g.procs == f.procs)
      && (g.procs != {} ==> g.tree)
    case ReleaseVm => g.net == f.net && (g.tree ==> f.tree) && g.procs == f.procs && execed' == execed
    case _ => g == f && execed' == execed
  }

  /** A rollback only takes away: network pieces, or a tree no jailer was started in. */
  predicate Undo(verb: Verb, f: Footprint, g: Footprint) {
    match verb
    case AllocateNetwork => (g.net ==> f.net) && g.tree == f.tree && g.procs == f.procs
    case StartVm => g.net == f.net && (g.tree ==> f.tree) && g.procs <= f.procs && (g.procs != {} ==> g.tree)
    case _ => g == f
  }

  // ---------------------------------------------------------------- disk

  datatype Disk = Disk(ledger: LedgerMap, receipts: ReceiptMap)

  /** saveOperation: syncing the journal's ancestors settles the ledger directory too. */
  datatype SaveIo = Saved | MkdirFailed | WriteFailed(visible: bool)

  datatype PutIo = Put | PutFailed(visible: bool)

  /** The disk as readers see it, and as a power loss could leave it. */
  datatype Store = Store(seen: Disk, safe: Disk)

  function Save(d: Store, io: SaveIo, rec: Receipt): Store {
    var receipts := d.seen.receipts[rec.request.opId := rec];
    match io
    case Saved => Store(Disk(d.seen.ledger, receipts), Disk(d.seen.ledger, receipts))
    case MkdirFailed => d
    case WriteFailed(visible) =>
      Store(if visible then Disk(d.seen.ledger, receipts) else d.seen,
            Disk(d.seen.ledger, d.safe.receipts))
  }

  function Written(ledger: LedgerMap, v: VmId, next: Option<VMEntry>): LedgerMap {
    if next.Some? then ledger[v := next.value] else ledger - {v}
  }

  function Publish(d: Store, io: PutIo, v: VmId, next: Option<VMEntry>): Store {
    var ledger := Written(d.seen.ledger, v, next);
    match io
    case Put => Store(Disk(ledger, d.seen.receipts), Disk(ledger, d.safe.receipts))
    case PutFailed(visible) =>
      if visible then d.(seen := Disk(ledger, d.seen.receipts)) else d
  }

  /** Each file after a power loss: one of its two contents. */
  predicate Picks<K, V(==)>(seen: map<K, V>, safe: map<K, V>, after: map<K, V>) {
    && (forall k :: k in after ==>
          (k in seen && after[k] == seen[k]) || (k in safe && after[k] == safe[k]))
    && (forall k :: k in seen && k in safe ==> k in after)
  }

  // ---------------------------------------------------------------- daemon

  datatype Phase =
    | Calling(entry: VMEntry, execed: bool)             // backend call in progress
    | Undoing(entry: VMEntry, cause: Cause)             // rolling a failed call back
    | Storing(next: Option<VMEntry>, answer: Response)  // backend done, ledger write next
    | Answering(response: Response)                     // receipt publication next

  datatype Exec = Exec(req: Request, phase: Phase)

  /** `Up.exec` is the operation holding the execution mutex; `waiting` are the
      operations admitted and queued for it; `failed` is the journal's sticky error. */
  datatype Daemon =
    | Down
    | Loading(todo: set<OpId>, records: ReceiptMap)
    | Up(records: ReceiptMap, failed: bool, waiting: set<OpId>, exec: Option<Exec>)

  /** What happened, for stating properties of whole runs. */
  datatype History = History(
    log: seq<Request>,               // executions begun, in order
    begun: set<OpId>,
    execed: set<OpId>,               // starts that reached the jailer exec
    wrote: map<OpId, Response>,      // claims whose ledger write became visible, and their answer
    landed: set<OpId>,               // claims whose ledger write returned nil
    replies: set<(Request, Response)>)

  datatype State = State(host: Host, disk: Store, daemon: Daemon, orphans: set<OpId>, past: History)

  predicate Claims(verb: Verb) { verb == AllocateNetwork || verb == StartVm }

  /** An unresolved `prior` blocks `req`: claims wait on everything, the rest on their own VM. */
  predicate Blocks(prior: Request, req: Request) {
    Claims(req.verb) || Target(prior) == Target(req)
  }

  predicate Fenced(records: ReceiptMap, req: Request) {
    exists op :: op in records && records[op].state == Unknown && Blocks(records[op].request, req)
  }

  function PendingReceipt(req: Request): Receipt { Receipt(req, Pending, None) }

  /** How a finished execution is journalled. */
  function FinalReceipt(req: Request, response: Response): Receipt {
    if !Definite(response) then Receipt(req, Unknown, None)
    else Receipt(req, if response.Ok? then Succeeded else Failed, Some(response))
  }

  /** The answer to a request whose op_id is already journalled. */
  function Replay(prior: Receipt, req: Request): Response {
    if prior.request.verb != req.verb || prior.request.payload != req.payload then Err(InvalidState)
    else if prior.response.Some? then prior.response.value
    else if prior.state == Pending then Err(OutcomePending)
    else Err(OutcomeUnknown)
  }

  datatype Admission = Replied(response: Response) | Journal

  /** dispatchMutation up to the pending receipt. */
  function Admit(records: ReceiptMap, failed: bool, req: Request): Admission {
    if !ValidId(req.opId) then Replied(Err(BadRequest))
    else if failed then Replied(Err(OutcomeUnknown))
    else if req.opId in records then Replied(Replay(records[req.opId], req))
    else if Fenced(records, req) then Replied(Err(OutcomeUnknown))
    else Journal
  }

  datatype Outcome =
    | Fail(cause: Cause)
    | Good
    | Started(pid: int, startTime: string)

  /** The gate reports death only of a process that is gone. */
  predicate GateTruthful(h: Host, e: VMEntry, f: Footprint, gate: Gate) {
    gate == Dead ==>
      || e.pid == 0
      || e.bootId != h.boot
      || (e.ns == h.ns && forall p :: p in f.procs ==> !(p.pid == e.pid && p.startTime == e.startTime && p.ns == h.ns))
  }

  /** Where the handler goes when its backend call returns. */
  function AfterCall(req: Request, h: Host, entry: VMEntry, execed: bool, out: Outcome): Phase {
    match req.verb
    case AllocateNetwork =>
      if out.Fail? then Undoing(entry, ExecFailed) else Storing(Some(entry), Ok(None))
    case ReleaseNetwork =>
      if out.Fail? then Answering(Err(ExecFailed)) else Storing(AfterReleaseNetwork(entry), Ok(None))
    case StartVm =>
      if out.Started? then
        Storing(Some(entry.(pid := out.pid, startTime := out.startTime, bootId := h.boot, ns := h.ns)),
                Ok(Some(StartResult(out.pid, out.startTime))))
      else if execed then Answering(Err(OutcomeUnknown))
      else if out.Fail? then Undoing(entry, out.cause)
      else Answering(Err(OutcomeUnknown))
    case ReleaseVm =>
      if out.Fail? then Answering(Err(out.cause)) else Storing(AfterReleaseVm(entry), Ok(None))
    case _ =>
      if out.Fail? then Answering(Err(out.cause)) else Answering(Ok(None))
  }

  /** The backend contract: the causes it fails with, and what success says about the host. */
  predicate Returned(req: Request, h: Host, f: Footprint, execed: bool, out: Outcome) {
    && (out.Fail? ==> out.cause in {BadRequest, InvalidState, DigestMismatch, ExecFailed, Internal})
    && match req.verb
       case ReleaseNetwork => !out.Started? && (out.Good? ==> !f.net)
       case StartVm =>
         && !out.Good?
         && (out.Started? ==>
               execed && out.pid > 0 && f.tree && f.procs <= {Proc(out.pid, out.startTime, h.ns)})
       case ReleaseVm => !out.Started? && (out.Good? ==> !f.tree)
       case _ => !out.Started?
  }

  /** A rollback that returned nil left nothing of the failed call. */
  predicate Undone(verb: Verb, f: Footprint) {
    match verb
    case AllocateNetwork => !f.net
    case StartVm => !f.tree && f.procs == {}
    case _ => true
  }

  // ---------------------------------------------------------------- read-only answers

  datatype QueryAnswer = NotFoundAnswer | Answered(state: ReceiptState, response: Option<Response>)

  /** queryOperation's reply; a broken journal answers unknown for every operation. */
  function QueryReply(d: Daemon, op: OpId): QueryAnswer
    requires d.Up?
  {
    if d.failed then Answered(Unknown, None)
    else if op !in d.records then NotFoundAnswer
    else Answered(d.records[op].state, d.records[op].response)
  }

  /** `causes`: what a refusal may say; which receipt it names first depends on map order. */
  datatype Inventory = Leases(leases: map<VmId, string>) | NoInventory(causes: set<Cause>)

  function InventoryCause(rec: Receipt): Cause {
    if rec.state == Pending then OutcomePending else OutcomeUnknown
  }

  /** networkLeases: the ledger's network halves, or a refusal while anything is unresolved. */
  function NetworkLeases(d: Daemon, ledger: LedgerMap): Inventory
    requires d.Up?
  {
    if d.exec.Some? then NoInventory({OutcomePending})
    else if d.failed then NoInventory({OutcomeUnknown})
    else if exists op :: op in d.records && Uncertain(d.records[op]) then
      NoInventory(set op | op in d.records && Uncertain(d.records[op]) :: InventoryCause(d.records[op]))
    else if !AllReadable(ledger) then NoInventory({Internal})
    else Leases(map v | v in ledger && ledger[v].netCidr != "" :: ledger[v].netCidr)
  }

  // ---------------------------------------------------------------- steps

  datatype Step =
    | Arrive(req: Request, io: SaveIo)
    | RefuseQueued(op: OpId, io: SaveIo)
    | Begin(op: OpId, gate: Gate, expired: bool)
    | Work(f: Footprint, execed: bool)
    | CallReturns(out: Outcome)
    | UndoReturns(ok: bool)
    | WriteLedger(put: PutIo)
    | Finish(io: SaveIo)
    | Query(op: OpId, io: SaveIo)
    | Exit(v: VmId, p: Proc)
    | LateEffect(op: OpId, f: Footprint)
    | Crash
    | Restart(ns: string)
    | LoadOne(op: OpId, io: SaveIo)
    | LoadFails
    | LoadDone
    | PowerLoss(boot: string, after: Disk)

  predicate MutexFree(d: Daemon) { d.Up? && d.exec.None? }

  /** Journal one receipt; on failure the journal's error sticks. */
  function Journalled(s: State, io: SaveIo, rec: Receipt): State
    requires s.daemon.Up?
  {
    s.(disk := Save(s.disk, io, rec),
       daemon := if io.Saved? then s.daemon.(records := s.daemon.records[rec.request.opId := rec])
                 else s.daemon.(failed := true))
  }

  function Reply(s: State, req: Request, r: Response): State {
    s.(past := s.past.(replies := s.past.replies + {(req, r)}))
  }

  function DoArrive(s: State, req: Request, io: SaveIo): State
    requires s.daemon.Up?
  {
    match Admit(s.daemon.records, s.daemon.failed, req)
    case Replied(r) => Reply(s, req, r)
    case Journal =>
      var t := Journalled(s, io, PendingReceipt(req));
      if io.Saved? then t.(daemon := t.daemon.(waiting := t.daemon.waiting + {req.opId}))
      else Reply(t, req, Err(OutcomeUnknown))
  }

  function DoRefuse(s: State, op: OpId, io: SaveIo): State
    requires s.daemon.Up? && op in s.daemon.records
  {
    var req := s.daemon.records[op].request;
    var t := Journalled(s, io, FinalReceipt(req, Err(InvalidState)));
    Reply(t.(daemon := t.daemon.(waiting := t.daemon.waiting - {op})), req,
          if io.Saved? then Err(InvalidState) else Err(OutcomeUnknown))
  }

  function DoBegin(cfg: Config, s: State, op: OpId, gate: Gate, expired: bool): State
    requires s.daemon.Up? && op in s.daemon.records
  {
    var req := s.daemon.records[op].request;
    var plan := MakePlan(cfg, s.disk.seen.ledger, req, gate);
    var phase :=
      if expired then Answering(Err(ExecFailed))
      else if plan.Answer? then Answering(plan.response)
      else Calling(plan.entry, false);
    s.(daemon := s.daemon.(waiting := s.daemon.waiting - {op}, exec := Some(Exec(req, phase))),
       past := s.past.(log := s.past.log + [req], begun := s.past.begun + {op}))
  }

  function DoWriteLedger(s: State, put: PutIo): State
    requires s.daemon.Up? && s.daemon.exec.Some? && s.daemon.exec.value.phase.Storing?
  {
    var x := s.daemon.exec.value;
    var op := x.req.opId;
    var claim := Claims(x.req.verb);
    s.(disk := Publish(s.disk, put, Target(x.req), x.phase.next),
       daemon := s.daemon.(exec := Some(Exec(x.req, Answering(if put.Put? then x.phase.answer else Err(Internal))))),
       past := s.past.(wrote := if claim && (put.Put? || put.visible) then s.past.wrote[op := x.phase.answer] else s.past.wrote,
                       landed := if claim && put.Put? then s.past.landed + {op} else s.past.landed))
  }

  function DoFinish(s: State, io: SaveIo): State
    requires s.daemon.Up? && s.daemon.exec.Some? && s.daemon.exec.value.phase.Answering?
  {
    var x := s.daemon.exec.value;
    var rec := FinalReceipt(x.req, x.phase.response);
    var t := Journalled(s, io, rec);
    Reply(t.(daemon := t.daemon.(exec := None)), x.req,
          if io.Saved? && Definite(x.phase.response) then x.phase.response else Err(OutcomeUnknown))
  }

  function SetPhase(s: State, phase: Phase): State
    requires s.daemon.Up? && s.daemon.exec.Some?
  {
    s.(daemon := s.daemon.(exec := Some(s.daemon.exec.value.(phase := phase))))
  }

  function DoWork(s: State, f: Footprint, execed: bool): State
    requires s.daemon.Up? && s.daemon.exec.Some? && s.daemon.exec.value.phase.Calling?
  {
    var x := s.daemon.exec.value;
    SetPhase(s, x.phase.(execed := execed)).(
      host := WithFootprint(s.host, Target(x.req), f),
      past := s.past.(execed := if execed then s.past.execed + {x.req.opId} else s.past.execed))
  }

  /** Operations whose backend call a crash cuts loose: its children may still land effects. */
  function CutLoose(d: Daemon): set<OpId> {
    if d.Up? && d.exec.Some? && (d.exec.value.phase.Calling? || d.exec.value.phase.Undoing?)
    then {d.exec.value.req.opId} else {}
  }

  predicate Promotes(s: State, op: OpId) {
    && MutexFree(s.daemon) && !s.daemon.failed
    && op in s.daemon.records && s.daemon.records[op].state == Unknown
    && Recover(s.disk.seen.ledger, s.daemon.records[op]).state == Succeeded
  }

  function DoLoadOne(s: State, op: OpId, io: SaveIo): State
    requires s.daemon.Loading? && op in s.disk.seen.receipts
  {
    var rec := s.disk.seen.receipts[op];
    var todo := s.daemon.todo - {op};
    if Final(rec) then s.(daemon := Loading(todo, s.daemon.records[op := rec]))
    else
      var settled := Recover(s.disk.seen.ledger, Receipt(rec.request, Unknown, None));
      s.(disk := Save(s.disk, io, settled),
         daemon := if io.Saved? then Loading(todo, s.daemon.records[op := settled])
                   else Up(s.daemon.records, true, {}, None))
  }

  function AfterPowerLoss(h: Host, boot: string): (r: Host)
    ensures r.boot == boot && r.ns == h.ns
    ensures forall v :: At(r, v) == Footprint(false, At(h, v).tree, {})
  {
    Host(map v | v in h.vms :: Footprint(false, h.vms[v].tree, {}), boot, h.ns)
  }

  predicate Next(cfg: Config, s: State, step: Step, s': State) {
    match step
    case Arrive(req, io) =>
      s.daemon.Up? && s' == DoArrive(s, req, io)
    case RefuseQueued(op, io) =>
      && MutexFree(s.daemon) && op in s.daemon.waiting && op in s.daemon.records
      && (s.daemon.failed || Fenced(s.daemon.records, s.daemon.records[op].request))
      && s' == DoRefuse(s, op, io)
    case Begin(op, gate, expired) =>
      && MutexFree(s.daemon) && op in s.daemon.waiting && op in s.daemon.records
      && !s.daemon.failed && !Fenced(s.daemon.records, s.daemon.records[op].request)
      && (var req := s.daemon.records[op].request;
          var v := Target(req);
          v in s.disk.seen.ledger ==> GateTruthful(s.host, s.disk.seen.ledger[v], At(s.host, v), gate))
      && s' == DoBegin(cfg, s, op, gate, expired)
    case Work(f, execed) =>
      && s.daemon.Up? && s.daemon.exec.Some?
      && (var x := s.daemon.exec.value;
          var v := Target(x.req);
          || (x.phase.Calling? && Progress(x.req.verb, At(s.host, v), f, x.phase.execed, execed)
              && s' == DoWork(s, f, execed))
          || (x.phase.Undoing? && Undo(x.req.verb, At(s.host, v), f)
              && s' == s.(host := WithFootprint(s.host, v, f))))
    case CallReturns(out) =>
      && s.daemon.Up? && s.daemon.exec.Some? && s.daemon.exec.value.phase.Calling?
      && (var x := s.daemon.exec.value;
          && Returned(x.req, s.host, At(s.host, Target(x.req)), x.phase.execed, out)
          && s' == SetPhase(s, AfterCall(x.req, s.host, x.phase.entry, x.phase.execed, out)))
    case UndoReturns(ok) =>
      && s.daemon.Up? && s.daemon.exec.Some? && s.daemon.exec.value.phase.Undoing?
      && (var x := s.daemon.exec.value;
          && (ok ==> Undone(x.req.verb, At(s.host, Target(x.req))))
          && s' == SetPhase(s, Answering(Err(if ok then x.phase.cause else OutcomeUnknown))))
    case WriteLedger(put) =>
      && s.daemon.Up? && s.daemon.exec.Some? && s.daemon.exec.value.phase.Storing?
      && s' == DoWriteLedger(s, put)
    case Finish(io) =>
      && s.daemon.Up? && s.daemon.exec.Some? && s.daemon.exec.value.phase.Answering?
      && s' == DoFinish(s, io)
    case Query(op, io) =>
      && Promotes(s, op)
      && s' == Journalled(s, io, Recover(s.disk.seen.ledger, s.daemon.records[op]))
    case Exit(v, p) =>
      && p in At(s.host, v).procs
      && s' == s.(host := WithFootprint(s.host, v, At(s.host, v).(procs := At(s.host, v).procs - {p})))
    case LateEffect(op, f) =>
      && op in s.orphans && op in s.disk.seen.receipts
      && (var req := s.disk.seen.receipts[op].request;
          && Progress(req.verb, At(s.host, Target(req)), f, true, true)
          && s' == s.(host := WithFootprint(s.host, Target(req), f)))
    case Crash =>
      !s.daemon.Down? && s' == s.(daemon := Down, orphans := s.orphans + CutLoose(s.daemon))
    case Restart(ns) =>
      s.daemon.Down? && s' == s.(daemon := Loading(s.disk.seen.receipts.Keys, map[]), host := s.host.(ns := ns))
    case LoadOne(op, io) =>
      && s.daemon.Loading? && op in s.daemon.todo && op in s.disk.seen.receipts
      && s' == DoLoadOne(s, op, io)
    case LoadFails =>
      s.daemon.Loading? && s' == s.(daemon := Up(s.daemon.records, true, {}, None))
    case LoadDone =>
      s.daemon.Loading? && s.daemon.todo == {} && s' == s.(daemon := Up(s.daemon.records, false, {}, None))
    case PowerLoss(boot, after) =>
      && boot != s.host.boot
      && Picks(s.disk.seen.ledger, s.disk.safe.ledger, after.ledger)
      && Picks(s.disk.seen.receipts, s.disk.safe.receipts, after.receipts)
      && s' == s.(host := AfterPowerLoss(s.host, boot), disk := Store(after, after), daemon := Down, orphans := {})
  }

  /** The receipt a step journals, if it journals one, and how that write goes. */
  function Saving(s: State, step: Step): Option<(SaveIo, Receipt)> {
    match step
    case Arrive(req, io) =>
      if s.daemon.Up? && Admit(s.daemon.records, s.daemon.failed, req).Journal?
      then Some((io, PendingReceipt(req))) else None
    case RefuseQueued(op, io) =>
      if s.daemon.Up? && op in s.daemon.records
      then Some((io, FinalReceipt(s.daemon.records[op].request, Err(InvalidState)))) else None
    case Finish(io) =>
      if s.daemon.Up? && s.daemon.exec.Some? && s.daemon.exec.value.phase.Answering?
      then Some((io, FinalReceipt(s.daemon.exec.value.req, s.daemon.exec.value.phase.response))) else None
    case Query(op, io) =>
      if s.daemon.Up? && op in s.daemon.records
      then Some((io, Recover(s.disk.seen.ledger, s.daemon.records[op]))) else None
    case LoadOne(op, io) =>
      if op in s.disk.seen.receipts && Uncertain(s.disk.seen.receipts[op])
      then Some((io, Recover(s.disk.seen.ledger, Receipt(s.disk.seen.receipts[op].request, Unknown, None)))) else None
    case _ => None
  }

  predicate Initial(s: State) {
    && s.host.vms == map[]
    && s.disk == Store(Disk(map[], map[]), Disk(map[], map[]))
    && s.daemon.Down? && s.orphans == {}
    && s.past == History([], {}, {}, map[], {}, {})
  }

  /** A finite run: `states[i]` takes `steps[i]` to `states[i + 1]`. */
  ghost predicate IsRun(cfg: Config, states: seq<State>, steps: seq<Step>) {
    && |states| == |steps| + 1
    && Initial(states[0])
    && forall i :: 0 <= i < |steps| ==> Next(cfg, states[i], steps[i], states[i + 1])
  }
}
