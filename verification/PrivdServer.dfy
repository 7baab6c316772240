/** The daemon as the code has it: fields changed under two mutexes, receipts and ledger
    files rewritten on disk, and scans over them. Each method is one critical section and
    is proved to be a step of the machine in `Privd`, so what holds over every run of the
    machine holds of this server. How a write goes is a parameter of the call. */
module PrivdServer {
  import opened Wire
  import opened Ledger
  import opened Handlers
  import opened Privd

  /** handleStartVM's check of the staged names. */
  method HasForeignFile(files: seq<string>) returns (foreign: bool)
    ensures foreign <==> exists i :: 0 <= i < |files| && files[i] !in STAGED_NAMES
  {
    for i := 0 to |files|
      invariant forall j :: 0 <= j < i ==> files[j] in STAGED_NAMES
    {
      if files[i] !in STAGED_NAMES { return true; }
    }
    return false;
  }

  method DecideAllocate(ledger: LedgerMap, req: Request) returns (plan: Plan)
    requires req.verb == AllocateNetwork
    ensures plan == PlanAllocate(ledger, req)
  {
    if !Decodes(req) || !ValidId(req.payload.vmId) { return Answer(Err(BadRequest)); }
    if req.payload.cidr == "" { return Answer(Err(BadRequest)); }
    match Get(ledger, req.payload.vmId) {
      case Present(existing) =>
        if existing.netCidr == req.payload.cidr { return Answer(Ok(None)); }
        return Answer(Err(InvalidState));
      case Unreadable => return Answer(Err(Internal));
      case Absent =>
    }
    var holder := SubnetHolder(ledger, req.payload.cidr);
    if holder.ScanFailed? { return Answer(Err(Internal)); }
    if holder.Held? { return Answer(Err(InvalidState)); }
    return Call(VMEntry(req.opId, "", req.payload.vmId, 0, 0, 0, 0, "", "", "", req.payload.cidr));
  }

  method DecideStart(cfg: Config, ledger: LedgerMap, req: Request) returns (plan: Plan)
    requires req.verb == StartVm
    ensures plan == PlanStart(cfg, ledger, req)
  {
    if !Decodes(req) || !ValidId(req.payload.vmId) { return Answer(Err(BadRequest)); }
    var p := req.payload;
    if p.uid < cfg.uidMin || p.uid >= cfg.uidMax { return Answer(Err(BadRequest)); }
    if p.cid < MIN_GUEST_CID { return Answer(Err(BadRequest)); }
    var foreign := HasForeignFile(p.files);
    if foreign || p.stageBase != p.vmId { return Answer(Err(BadRequest)); }
    match Get(ledger, p.vmId) {
      case Absent => return Answer(Err(BadRequest));
      case Unreadable => return Answer(Err(Internal));
      case Present(entry) =>
        if entry.pid != 0 { return Answer(Err(InvalidState)); }
        var holder := IdentityHolder(ledger, p.uid, p.cid);
        if holder.ScanFailed? { return Answer(Err(Internal)); }
        if holder.Held? { return Answer(Err(InvalidState)); }
        return Call(entry.(uid := p.uid, gid := p.gid, cid := p.cid, startOpId := req.opId));
    }
  }

  /** execute: the handler of the verb, up to its backend call. */
  method Decide(cfg: Config, ledger: LedgerMap, req: Request, gate: Gate) returns (plan: Plan)
    ensures plan == MakePlan(cfg, ledger, req, gate)
  {
    match req.verb {
      case AllocateNetwork => plan := DecideAllocate(ledger, req);
      case StartVm => plan := DecideStart(cfg, ledger, req);
      case OtherVerb(_) => plan := Answer(Err(BadRequest));
      case _ =>
        plan := PlanExisting(ledger, req);
        if plan.Call? && req.verb == ReleaseVm && gate != Dead { plan := Answer(Err(InvalidState)); }
    }
  }

  /** What a load makes of one readable receipt. */
  function Settle(ledger: LedgerMap, rec: Receipt): Receipt {
    if Final(rec) then rec else Recover(ledger, Receipt(rec.request, Unknown, None))
  }

  /** Every receipt but those in `todo` has been settled and loaded. */
  ghost predicate Loaded(records: ReceiptMap, disk: Disk, todo: set<OpId>) {
    && records.Keys == disk.receipts.Keys - todo
    && forall op :: op in records ==> records[op] == Settle(disk.ledger, disk.receipts[op])
  }

  /** A receipt file loadOperations refuses to go past. */
  predicate Invalid(op: OpId, rec: Receipt) {
    !ValidId(op) || rec.request.opId != op || (Final(rec) && rec.response.None?)
  }

  predicate Stops(op: OpId, rec: Receipt, unreadable: set<OpId>, io: SaveIo) {
    op in unreadable || Invalid(op, rec) || (Uncertain(rec) && !io.Saved?)
  }

  ghost predicate LoadPath(cfg: Config, trace: seq<State>, steps: seq<Step>) {
    && |trace| == |steps| + 1
    && forall i :: 0 <= i < |steps| ==> (steps[i].LoadOne? || steps[i].LoadFails?) && Next(cfg, trace[i], steps[i], trace[i + 1])
  }

  lemma LoadExtends(cfg: Config, trace: seq<State>, steps: seq<Step>, step: Step, s': State)
    requires LoadPath(cfg, trace, steps) && (step.LoadOne? || step.LoadFails?)
    requires Next(cfg, trace[|steps|], step, s')
    ensures LoadPath(cfg, trace + [s'], steps + [step])
  {
  }

  /** One turn of the load loop, on a receipt that could be read. */
  method LoadReceipt(cfg: Config, disk: Store, records: ReceiptMap, todo: set<OpId>, op: OpId, io: SaveIo, ghost s: State)
    returns (disk': Store, records': ReceiptMap, ok: bool, ghost s': State)
    requires op in todo && op in disk.seen.receipts && disk.seen.receipts[op].request.opId == op
    requires s.disk == disk && s.daemon == Loading(todo, records)
    ensures Next(cfg, s, LoadOne(op, io), s') && s'.disk == disk'
    ensures s'.daemon == if ok then Loading(todo - {op}, records') else Up(records', true, {}, None)
    ensures ok <==> Final(disk.seen.receipts[op]) || io.Saved?
    ensures records' == if ok then records[op := Settle(disk.seen.ledger, disk.seen.receipts[op])] else records
    ensures disk'.seen.ledger == disk.seen.ledger
    ensures ok ==> disk'.seen.receipts == disk.seen.receipts[op := Settle(disk.seen.ledger, disk.seen.receipts[op])]
  {
    var record := disk.seen.receipts[op];
    s' := DoLoadOne(s, op, io);
    disk' := disk;
    if Uncertain(record) {
      record := Recover(disk.seen.ledger, Receipt(record.request, Unknown, None));
      disk' := Save(disk, io, record);
      if !io.Saved? { return disk', records, false, s'; }
    }
    assert disk.seen.receipts[op := disk.seen.receipts[op]] == disk.seen.receipts;
    return disk', records[op := record], true, s';
  }

  /** loadOperations: receipts in directory order, each uncertain one settled on the ledger
      or republished as unknown. A receipt that cannot be read (`unreadable`), is invalid, or
      cannot be rewritten stops the load. `trace` are the machine states it passes through. */
  method LoadOperations(cfg: Config, start: Store, unreadable: set<OpId>, ios: OpId -> SaveIo, ghost s: State)
    returns (disk: Store, records: ReceiptMap, failed: bool, ghost trace: seq<State>, ghost steps: seq<Step>)
    requires s.disk == start && s.daemon == Loading(start.seen.receipts.Keys, map[])
    ensures LoadPath(cfg, trace, steps) && trace[0] == s && trace[|steps|].disk == disk
    ensures trace[|steps|].daemon == if failed then Up(records, true, {}, None) else Loading({}, records)
    ensures failed <==> exists op :: op in start.seen.receipts && Stops(op, start.seen.receipts[op], unreadable, ios(op))
    ensures !failed ==> Loaded(records, start.seen, {})
  {
    disk, records, failed, trace, steps := start, map[], false, [s], [];
    var todo := start.seen.receipts.Keys;
    while todo != {}
      invariant LoadPath(cfg, trace, steps) && trace[0] == s
      invariant trace[|steps|].disk == disk && trace[|steps|].daemon == Loading(todo, records)
      invariant todo <= start.seen.receipts.Keys && disk.seen.ledger == start.seen.ledger
      invariant forall op :: op in todo ==> op in disk.seen.receipts && disk.seen.receipts[op] == start.seen.receipts[op]
      invariant forall op :: op in start.seen.receipts && op !in todo ==> !Stops(op, start.seen.receipts[op], unreadable, ios(op))
      invariant Loaded(records, start.seen, todo)
    {
      var op :| op in todo;
      if op in unreadable || Invalid(op, disk.seen.receipts[op]) {
        ghost var end := trace[|steps|].(daemon := Up(records, true, {}, None));
        LoadExtends(cfg, trace, steps, LoadFails, end);
        return disk, records, true, trace + [end], steps + [LoadFails];
      }
      var ok;
      ghost var end;
      assert Stops(op, start.seen.receipts[op], unreadable, ios(op)) <==> Uncertain(disk.seen.receipts[op]) && !ios(op).Saved?;
      disk, records, ok, end := LoadReceipt(cfg, disk, records, todo, op, ios(op), trace[|steps|]);
      LoadExtends(cfg, trace, steps, LoadOne(op, ios(op)), end);
      trace, steps := trace + [end], steps + [LoadOne(op, ios(op))];
      if !ok { return disk, records, true, trace, steps; }
      todo := todo - {op};
    }
  }

  /** A privd that finished loading. `waiting` are the callers between their pending receipt
      and the execution mutex, `exec` is the one that holds it. */
  class Server {
    const cfg: Config
    var disk: Store
    var records: ReceiptMap
    var failed: bool
    var waiting: set<OpId>
    var exec: Option<Exec>
    ghost var host: Host
    ghost var orphans: set<OpId>
    ghost var past: History

    constructor (cfg: Config, disk: Store, records: ReceiptMap, failed: bool, ghost s: State)
      requires s.disk == disk && s.daemon == Up(records, failed, {}, None)
      ensures Now() == s && this.cfg == cfg
    {
      this.cfg := cfg;
      this.disk, this.records, this.failed, this.waiting, this.exec := disk, records, failed, {}, None;
      host, orphans, past := s.host, s.orphans, s.past;
    }

    /** The machine state this server is in. */
    ghost function Now(): State
      reads this
    {
      State(host, disk, Up(records, failed, waiting, exec), orphans, past)
    }

    method SaveOperation(rec: Receipt, io: SaveIo)
      modifies this`disk, this`records, this`failed
      ensures Now() == Journalled(old(Now()), io, rec)
    {
      disk := Save(disk, io, rec);
      if io.Saved? { records := records[rec.request.opId := rec]; } else { failed := true; }
    }

    /** The loop both fence checks run over the receipts. */
    method FindFence(req: Request) returns (fenced: bool)
      ensures fenced <==> Fenced(records, req)
    {
      var left := records.Keys;
      while left != {}
        invariant left <= records.Keys
        invariant forall op :: op in records && op !in left ==>
          !(records[op].state == Unknown && Blocks(records[op].request, req))
      {
        var op :| op in left;
        var prior := records[op];
        if prior.state == Unknown && (Claims(req.verb) || Target(prior.request) == Target(req)) {
          return true;
        }
        left := left - {op};
      }
      return false;
    }

    ghost method Note(req: Request, r: Response)
      modifies this`past
      ensures Now() == Reply(old(Now()), req, r)
    {
      past := past.(replies := past.replies + {(req, r)});
    }

    /** dispatchMutation up to the pending receipt. No reply means the caller is queued. */
    method Admit(req: Request, io: SaveIo) returns (reply: Option<Response>)
      modifies this
      ensures Next(cfg, old(Now()), Arrive(req, io), Now())
      ensures reply.None? ==> past == old(past) && waiting == old(waiting) + {req.opId} && req.opId !in old(records)
      ensures reply.Some? ==> waiting == old(waiting) && past.replies == old(past.replies) + {(req, reply.value)}
    {
      if !ValidId(req.opId) {
        reply := Some(Err(BadRequest));
      } else if failed {
        reply := Some(Err(OutcomeUnknown));
      } else if req.opId in records {
        var prior := records[req.opId];
        if prior.request.verb != req.verb || prior.request.payload != req.payload {
          reply := Some(Err(InvalidState));
        } else if prior.response.Some? {
          reply := prior.response;
        } else {
          reply := Some(Err(if prior.state == Pending then OutcomePending else OutcomeUnknown));
        }
      } else {
        var fenced := FindFence(req);
        if fenced {
          reply := Some(Err(OutcomeUnknown));
        } else {
          SaveOperation(PendingReceipt(req), io);
          if io.Saved? {
            waiting := waiting + {req.opId};
            return None;
          }
          reply := Some(Err(OutcomeUnknown));
        }
      }
      Note(req, reply.value);
    }

    /** A queued caller gets the execution mutex: it looks at the journal once more, and is
        either refused, its receipt final, or begins. */
    method TakeMutex(op: OpId, gate: Gate, expired: bool, io: SaveIo) returns (refusal: Option<Response>)
      requires exec.None? && op in waiting && op in records
      requires var v := Target(records[op].request);
        v in disk.seen.ledger ==> GateTruthful(host, disk.seen.ledger[v], At(host, v), gate)
      modifies this
      ensures refusal.Some? <==> old(failed) || Fenced(old(records), old(records)[op].request)
      ensures refusal.Some? ==> Next(cfg, old(Now()), RefuseQueued(op, io), Now()) && exec.None?
      ensures refusal.None? ==> Next(cfg, old(Now()), Begin(op, gate, expired), Now()) && exec.Some?
    {
      var req := records[op].request;
      var fenced := FindFence(req);
      if failed || fenced {
        SaveOperation(FinalReceipt(req, Err(InvalidState)), io);
        waiting := waiting - {op};
        refusal := Some(if io.Saved? then Err(InvalidState) else Err(OutcomeUnknown));
        Note(req, refusal.value);
        return;
      }
      var plan := Decide(cfg, disk.seen.ledger, req, gate);
      waiting := waiting - {op};
      exec := Some(Exec(req, if expired then Answering(Err(ExecFailed))
                             else if plan.Answer? then Answering(plan.response)
                             else Calling(plan.entry, false)));
      past := past.(log := past.log + [req], begun := past.begun + {op});
      return None;
    }

    /** The handler's last write: the entry, or its deletion when both halves are empty. */
    method WriteEntry(put: PutIo)
      requires exec.Some? && exec.value.phase.Storing?
      modifies this
      ensures Next(cfg, old(Now()), WriteLedger(put), Now())
    {
      var (req, phase) := (exec.value.req, exec.value.phase);
      disk := Publish(disk, put, Target(req), phase.next);
      exec := Some(Exec(req, Answering(if put.Put? then phase.answer else Err(Internal))));
      if Claims(req.verb) {
        if put.Put? || put.visible { past := past.(wrote := past.wrote[req.opId := phase.answer]); }
        if put.Put? { past := past.(landed := past.landed + {req.opId}); }
      }
    }

    /** dispatchMutation from the handler's answer to the reply, still under the mutex. */
    method FinishMutation(io: SaveIo) returns (response: Response)
      requires exec.Some? && exec.value.phase.Answering?
      modifies this
      ensures Next(cfg, old(Now()), Finish(io), Now())
      ensures response == if io.Saved? && Definite(old(exec).value.phase.response) then old(exec).value.phase.response
                          else Err(OutcomeUnknown)
    {
      var (req, answer) := (exec.value.req, exec.value.phase.response);
      var record := Receipt(req, Failed, None);
      if answer.Ok? { record := record.(state := Succeeded); }
      if answer == Err(Internal) || answer == Err(OutcomeUnknown) {
        record := record.(state := Unknown);
      } else {
        record := record.(response := Some(answer));
      }
      assert record == FinalReceipt(req, answer);
      SaveOperation(record, io);
      exec := None;
      response := if !io.Saved? || record.state == Unknown then Err(OutcomeUnknown) else answer;
      Note(req, response);
    }

    /** queryOperation: settle the receipt if the mutex is free and the ledger can, then answer. */
    method QueryOperation(op: OpId, io: SaveIo) returns (answer: QueryAnswer)
      modifies this
      ensures if Promotes(old(Now()), op) then Next(cfg, old(Now()), Query(op, io), Now()) else Now() == old(Now())
      ensures answer == QueryReply(Now().daemon, op)
    {
      if exec.None? && op in records && records[op].state == Unknown && !failed {
        var recovered := Recover(disk.seen.ledger, records[op]);
        if recovered.state == Succeeded { SaveOperation(recovered, io); }
      }
      if failed { return Answered(Unknown, None); }
      if op !in records { return NotFoundAnswer; }
      return Answered(records[op].state, records[op].response);
    }

    /** networkLeases, scanning receipts in map order and entries in directory order. */
    method LeaseInventory() returns (leases: map<VmId, string>, refusal: Option<Cause>)
      ensures match NetworkLeases(Now().daemon, disk.seen.ledger)
        case Leases(m) => refusal.None? && leases == m
        case NoInventory(causes) => refusal.Some? && refusal.value in causes
    {
      leases := map[];
      if exec.Some? { return leases, Some(OutcomePending); }
      if failed { return leases, Some(OutcomeUnknown); }
      var left := records.Keys;
      while left != {}
        invariant left <= records.Keys
        invariant forall op :: op in records && op !in left ==> Final(records[op])
      {
        var op :| op in left;
        if Uncertain(records[op]) { return leases, Some(InventoryCause(records[op])); }
        left := left - {op};
      }
      var todo := disk.seen.ledger.Keys;
      while todo != {}
        invariant todo <= disk.seen.ledger.Keys
        invariant forall v :: v in disk.seen.ledger && v !in todo ==> Readable(v, disk.seen.ledger[v])
        invariant leases == map v | v in disk.seen.ledger && v !in todo && disk.seen.ledger[v].netCidr != "" :: disk.seen.ledger[v].netCidr
      {
        var v :| v in todo;
        var found := Get(disk.seen.ledger, v);
        if !found.Present? { return leases, Some(Internal); }
        if found.entry.netCidr != "" { leases := leases[found.entry.vmId := found.entry.netCidr]; }
        todo := todo - {v};
      }
      return leases, None;
    }
  }
}
