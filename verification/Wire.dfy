/** Values that cross privd's socket or reach its disk: requests, responses,
    receipts and ledger entries. Payloads are already-canonical JSON, so equality
    of payloads is the byte equality the daemon compares. */
module Wire {

  datatype Option<+T> = None | Some(value: T)

  function Lookup<K, V>(m: map<K, V>, k: K): (r: Option<V>)
    ensures r.Some? <==> k in m
    ensures r.Some? ==> r.value == m[k]
  {
    if k in m then Some(m[k]) else None
  }

  type VmId = string
  type OpId = string

  /** vm_id and op_id share one format: ^[a-z0-9][a-z0-9-]{0,62}$ */
  predicate ValidId(id: string) {
    && 1 <= |id| <= 63
    && LowerAlnum(id[0])
    && forall i :: 1 <= i < |id| ==> LowerAlnum(id[i]) || id[i] == '-'
  }

  predicate LowerAlnum(c: char) {
    'a' <= c <= 'z' || '0' <= c <= '9'
  }

  datatype Verb =
    | AllocateNetwork
    | ReleaseNetwork
    | StartVm
    | SignalVm
    | ReleaseVm
    | OtherVerb(name: string)

  /** A JSON payload. `Undecodable` is one whose vm_id cannot be read at all;
      otherwise `refusedBy` are the verbs whose request type it does not decode as.
      Absent fields decode to their zero values. */
  datatype Payload =
    | Undecodable
    | Payload(vmId: VmId, cidr: string, uid: int, gid: int, cid: nat,
              kind: string, files: seq<string>, stageBase: string,
              refusedBy: set<Verb>)

  datatype Request = Request(opId: OpId, verb: Verb, payload: Payload)

  /** The VM a request is about, or "" when its payload cannot say. */
  function Target(req: Request): VmId {
    if req.payload.Undecodable? then "" else req.payload.vmId
  }

  predicate Decodes(req: Request) {
    req.payload.Payload? && req.verb !in req.payload.refusedBy
  }

  datatype Cause =
    | BadRequest
    | InvalidState
    | DigestMismatch
    | ExecFailed
    | NotFound
    | Internal
    | OutcomePending
    | OutcomeUnknown

  datatype StartResult = StartResult(pid: int, startTime: string)

  datatype Response = Ok(start: Option<StartResult>) | Err(cause: Cause)

  /** A response that settles its operation: effects are either in the ledger or gone. */
  predicate Definite(r: Response) {
    r.Ok? || (r.cause != Internal && r.cause != OutcomeUnknown)
  }

  datatype ReceiptState = Pending | Unknown | Succeeded | Failed

  datatype Receipt = Receipt(request: Request, state: ReceiptState, response: Option<Response>)

  predicate Uncertain(r: Receipt) {
    r.state == Pending || r.state == Unknown
  }

  predicate Final(r: Receipt) {
    !Uncertain(r)
  }

  /** Durable per-VM ownership record. A network-only entry has pid 0. */
  datatype VMEntry = VMEntry(
    networkOpId: OpId, startOpId: OpId, vmId: VmId,
    uid: int, gid: int, cid: nat,
    pid: int, startTime: string, bootId: string, ns: string,
    netCidr: string)

  type LedgerMap = map<VmId, VMEntry>
  type ReceiptMap = map<OpId, Receipt>
}
