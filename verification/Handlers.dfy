/** What each verb handler decides from the ledger before it touches the host, and
    the ledger record it writes after the backend has answered. */
module Handlers {
  import opened Wire
  import opened Ledger

  datatype Config = Config(uidMin: int, uidMax: int)

  /** Verdict of the process-identity gate on a ledger entry. */
  datatype Gate = Alive | Dead | Refused

  datatype Plan =
    | Answer(response: Response)  // decided without touching the host
    | Call(entry: VMEntry)        // call the backend with this entry

  const STAGED_NAMES: seq<string> :=
    ["vmlinux", "rootfs.ext4", "config.ext4", "workspace.ext4", "fc-config.json"]

  function PlanAllocate(ledger: LedgerMap, req: Request): (r: Plan)
    requires req.verb == AllocateNetwork
  {
    if !Decodes(req) || !ValidId(req.payload.vmId) || req.payload.cidr == "" then Answer(Err(BadRequest))
    else
      match Get(ledger, req.payload.vmId)
      case Present(e) =>
        if e.netCidr == req.payload.cidr then Answer(Ok(None)) else Answer(Err(InvalidState))
      case Unreadable => Answer(Err(Internal))
      case Absent =>
        match SubnetScan(ledger, req.payload.cidr)
        case ScanFailed => Answer(Err(Internal))
        case Held => Answer(Err(InvalidState))
        case Free =>
          Call(VMEntry(req.opId, "", req.payload.vmId, 0, 0, 0, 0, "", "", "", req.payload.cidr))
  }

  function PlanExisting(ledger: LedgerMap, req: Request): (r: Plan)
  {
    if !Decodes(req) || !ValidId(req.payload.vmId) then Answer(Err(BadRequest))
    else
      match Get(ledger, req.payload.vmId)
      case Present(e) => Call(e)
      case Unreadable => Answer(Err(Internal))
      case Absent => Answer(Err(NotFound))
  }

  function PlanStart(cfg: Config, ledger: LedgerMap, req: Request): (r: Plan)
    requires req.verb == StartVm
  {
    if !Decodes(req) || !ValidId(req.payload.vmId) then Answer(Err(BadRequest))
    else
      var p := req.payload;
      if p.uid < cfg.uidMin || p.uid >= cfg.uidMax || p.cid < MIN_GUEST_CID then Answer(Err(BadRequest))
      else if exists i :: 0 <= i < |p.files| && p.files[i] !in STAGED_NAMES then Answer(Err(BadRequest))
      else if p.stageBase != p.vmId then Answer(Err(BadRequest))
      else
        match Get(ledger, p.vmId)
        case Unreadable => Answer(Err(Internal))
        case Absent => Answer(Err(BadRequest))
        case Present(e) =>
          if e.pid != 0 then Answer(Err(InvalidState))
          else
            match IdentityScan(ledger, p.uid, p.cid)
            case ScanFailed => Answer(Err(Internal))
            case Held => Answer(Err(InvalidState))
            case Free => Call(e.(uid := p.uid, gid := p.gid, cid := p.cid, startOpId := req.opId))
  }

  function PlanReleaseVm(ledger: LedgerMap, req: Request, gate: Gate): (r: Plan)
  {
    var plan := PlanExisting(ledger, req);
    if plan.Call? && gate != Dead then Answer(Err(InvalidState)) else plan
  }

  function MakePlan(cfg: Config, ledger: LedgerMap, req: Request, gate: Gate): (r: Plan)
  {
    match req.verb
    case AllocateNetwork => PlanAllocate(ledger, req)
    case ReleaseNetwork => PlanExisting(ledger, req)
    case StartVm => PlanStart(cfg, ledger, req)
    case SignalVm => PlanExisting(ledger, req)
    case ReleaseVm => PlanReleaseVm(ledger, req, gate)
    case OtherVerb(_) => Answer(Err(BadRequest))
  }

  /** The record a completed release_network leaves; None deletes the file. */
  function AfterReleaseNetwork(e: VMEntry): Option<VMEntry> {
    if e.pid == 0 then None else Some(e.(netCidr := ""))
  }

  /** The record a completed release_vm leaves; None deletes the file. */
  function AfterReleaseVm(e: VMEntry): Option<VMEntry> {
    if e.netCidr == "" then None
    else Some(e.(uid := 0, gid := 0, cid := 0, pid := 0, startTime := "", bootId := "", ns := ""))
  }

  /** The ledger names `op` as the start, or the allocation, that produced an entry. */
  predicate WitnessedStart(ledger: LedgerMap, v: VmId, op: OpId) {
    v in ledger && ledger[v].startOpId == op && ledger[v].pid > 0
  }

  predicate WitnessedNetwork(ledger: LedgerMap, v: VmId, op: OpId) {
    v in ledger && ledger[v].networkOpId == op && ledger[v].netCidr != ""
  }

  predicate Witnessed(ledger: LedgerMap, req: Request) {
    match req.verb
    case StartVm => WitnessedStart(ledger, Target(req), req.opId)
    case AllocateNetwork => WitnessedNetwork(ledger, Target(req), req.opId)
    case _ => false
  }

  /** The response recovery rebuilds from the ledger entry that witnesses `req`. */
  function RebuiltResponse(ledger: LedgerMap, req: Request): Response
    requires Witnessed(ledger, req)
  {
    if req.verb == StartVm then
      Ok(Some(StartResult(ledger[Target(req)].pid, ledger[Target(req)].startTime)))
    else
      Ok(None)
  }

  /** recoverCommittedOperation: settle a receipt on a ledger witness, or leave it alone. */
  function Recover(ledger: LedgerMap, rec: Receipt): (r: Receipt)
    ensures r.request == rec.request
  {
    var v := Target(rec.request);
    if ValidId(v) && Get(ledger, v).Present? && Witnessed(ledger, rec.request) then
      Receipt(rec.request, Succeeded, Some(RebuiltResponse(ledger, rec.request)))
    else
      rec
  }
}
