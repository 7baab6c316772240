/** What every state privd can reach satisfies, through crashes, restarts, failed
    writes, failed rollbacks and power losses. */
module PrivdInvariant {
  import opened Wire
  import opened Ledger
  import opened Handlers
  import opened Privd

  // ---------------------------------------------------------------- journal

  ghost predicate WellShaped(rs: ReceiptMap) {
    forall op :: op in rs ==>
      && rs[op].request.opId == op
      && (Final(rs[op]) <==> rs[op].response.Some?)
      && (rs[op].response.Some? ==> (rs[op].state == Succeeded <==> rs[op].response.value.Ok?))
  }

  /** The journal that survives a power loss lags the visible one: same requests, and
      an outcome it holds is the outcome. */
  ghost predicate Lags(safe: ReceiptMap, seen: ReceiptMap) {
    forall op :: op in safe ==>
      op in seen && seen[op].request == safe[op].request && (Final(safe[op]) ==> seen[op] == safe[op])
  }

  /** An admitted operation's receipt is pending everywhere until its execution ends. */
  predicate Queued(op: OpId, req: Request, records: ReceiptMap, d: Store) {
    && op == req.opId
    && op in records && records[op] == PendingReceipt(req)
    && op in d.seen.receipts && d.seen.receipts[op] == PendingReceipt(req)
    && op in d.safe.receipts && d.safe.receipts[op] == PendingReceipt(req)
  }

  /** While an operation executes, nothing it must wait for is unresolved. */
  ghost predicate FenceHolds(x: Exec, records: ReceiptMap, d: Store, begun: set<OpId>) {
    && (forall op :: op in records && records[op].state == Unknown ==> !Blocks(records[op].request, x.req))
    && (forall op :: op in begun && op in d.safe.receipts && op != x.req.opId ==>
          Blocks(d.safe.receipts[op].request, x.req) ==> Final(d.safe.receipts[op]))
  }

  ghost predicate UpInv(records: ReceiptMap, failed: bool, waiting: set<OpId>, exec: Option<Exec>, d: Store, begun: set<OpId>) {
    && (!failed ==> records == d.seen.receipts)
    && (!failed ==> forall op :: op in records && records[op].state == Pending ==>
          op in waiting || (exec.Some? && exec.value.req.opId == op))
    && (forall op :: op in waiting ==> op !in begun && op in records && Queued(op, records[op].request, records, d))
    && (exec.Some? ==>
          && exec.value.req.opId in begun
          && Queued(exec.value.req.opId, exec.value.req, records, d)
          && FenceHolds(exec.value, records, d, begun)
          && (!exec.value.phase.Answering? ==> d.safe.ledger == d.seen.ledger))
    && (!failed && (waiting != {} || exec.Some?) ==> d.safe.receipts == d.seen.receipts)
    && (!failed && waiting != {} && exec.None? ==> d.safe.ledger == d.seen.ledger)
  }

  ghost predicate LoadingInv(todo: set<OpId>, records: ReceiptMap, d: Store) {
    && todo <= d.seen.receipts.Keys
    && records.Keys == d.seen.receipts.Keys - todo
    && (forall op :: op in records ==> records[op] == d.seen.receipts[op] && records[op].state != Pending)
  }

  ghost predicate DaemonInv(daemon: Daemon, d: Store, begun: set<OpId>) {
    match daemon
    case Down => true
    case Loading(todo, records) => LoadingInv(todo, records, d)
    case Up(records, failed, waiting, exec) => UpInv(records, failed, waiting, exec, d, begun)
  }

  ghost predicate JournalInv(s: State) {
    && WellShaped(s.disk.seen.receipts)
    && WellShaped(s.disk.safe.receipts)
    && Lags(s.disk.safe.receipts, s.disk.seen.receipts)
    && s.past.begun <= s.disk.safe.receipts.Keys
    && DaemonInv(s.daemon, s.disk, s.past.begun)
  }

  /** Executions begun: one per op_id, each on the journalled request. */
  ghost predicate LogInv(log: seq<Request>, begun: set<OpId>, safe: ReceiptMap) {
    && (forall i :: 0 <= i < |log| ==>
          log[i].opId in begun && log[i].opId in safe && safe[log[i].opId].request == log[i])
    && (forall i, j :: 0 <= i < j < |log| ==> log[i].opId != log[j].opId)
  }

  // ---------------------------------------------------------------- ledger

  /** A network-only entry holds no process identity, a started VM holds both of them, and
      an entry is never empty. */
  predicate EntryInv(v: VmId, e: VMEntry) {
    && e.vmId == v
    && e.pid >= 0
    && (e.pid == 0 ==> NoProcessFields(e) && e.netCidr != "")
    && (e.pid > 0 ==> e.uid != 0 && e.cid >= MIN_GUEST_CID)
  }

  ghost predicate EntriesInv(ledger: LedgerMap) {
    forall v :: v in ledger ==> EntryInv(v, ledger[v])
  }

  /** No identity is claimed by two VMs, whichever contents the two files end up with. */
  ghost predicate Exclusive(a: LedgerMap, b: LedgerMap) {
    forall v, w :: v in a && w in b && v != w ==> Disjoint(a[v], b[w])
  }

  /** Every claim in the ledger was written by the operation it names. */
  ghost predicate Signed(ledger: LedgerMap, wrote: map<OpId, Response>) {
    forall v :: v in ledger ==>
      && (ledger[v].pid > 0 ==>
            && ledger[v].startOpId in wrote
            && wrote[ledger[v].startOpId] == Ok(Some(StartResult(ledger[v].pid, ledger[v].startTime))))
      && (ledger[v].netCidr != "" ==>
            ledger[v].networkOpId in wrote && wrote[ledger[v].networkOpId] == Ok(None))
  }

  /** A claim whose ledger write succeeded stays witnessed until its receipt is final. */
  ghost predicate LandedInv(landed: set<OpId>, d: Store) {
    forall op :: op in landed && op in d.safe.receipts && Uncertain(d.safe.receipts[op]) ==>
      && Witnessed(d.seen.ledger, d.safe.receipts[op].request)
      && Witnessed(d.safe.ledger, d.safe.receipts[op].request)
  }

  /** A journalled outcome of a claim that reached the ledger is that claim's answer. */
  ghost predicate OutcomeInv(rs: ReceiptMap, past: History) {
    forall op :: op in rs && Final(rs[op]) ==>
      && (op in past.wrote ==> rs[op].state == Succeeded && rs[op].response == Some(past.wrote[op]))
      && (op in past.execed ==> rs[op].state == Succeeded)
  }

  /** The entry carries what its request asked for. */
  predicate AsAllocated(e: VMEntry, req: Request) {
    req.payload.Payload? && e.netCidr == req.payload.cidr
  }

  predicate AsStarted(e: VMEntry, req: Request) {
    req.payload.Payload? && e.uid == req.payload.uid && e.gid == req.payload.gid && e.cid == req.payload.cid
  }

  /** What the ledger write under way will do. */
  ghost predicate StoringInv(x: Exec, ledger: LedgerMap) {
    x.phase.Storing? ==>
      var v := Target(x.req);
      var next := x.phase.next;
      && x.phase.answer.Ok?
      && (next.Some? ==>
            && EntryInv(v, next.value)
            && (forall w :: w in ledger && w != v ==> Disjoint(next.value, ledger[w]) && Disjoint(ledger[w], next.value)))
      && match x.req.verb
         case AllocateNetwork =>
           && next.Some? && next.value.networkOpId == x.req.opId && next.value.netCidr != ""
           && next.value.pid == 0 && x.phase.answer == Ok(None) && AsAllocated(next.value, x.req)
         case StartVm =>
           && next.Some? && next.value.startOpId == x.req.opId && next.value.pid > 0
           && x.phase.answer == Ok(Some(StartResult(next.value.pid, next.value.startTime)))
           && v in ledger && next.value.netCidr == ledger[v].netCidr && next.value.networkOpId == ledger[v].networkOpId
           && AsStarted(next.value, x.req)
         case ReleaseNetwork =>
           v in ledger && next == AfterReleaseNetwork(ledger[v]) && x.phase.answer == Ok(None)
         case ReleaseVm =>
           v in ledger && next == AfterReleaseVm(ledger[v]) && x.phase.answer == Ok(None)
         case _ => false
  }

  /** The entry the backend was called with, against the ledger. */
  ghost predicate CallingInv(x: Exec, ledger: LedgerMap) {
    x.phase.Calling? || x.phase.Undoing? ==>
      var v := Target(x.req);
      var e := x.phase.entry;
      match x.req.verb
      case AllocateNetwork =>
        && v !in ledger && EntryInv(v, e) && e.pid == 0 && e.networkOpId == x.req.opId && AsAllocated(e, x.req)
        && (forall w :: w in ledger ==> Disjoint(e, ledger[w]) && Disjoint(ledger[w], e))
      case StartVm =>
        && v in ledger && ledger[v].pid == 0 && e.pid == 0 && e.vmId == v && e.uid != 0 && e.cid >= MIN_GUEST_CID && AsStarted(e, x.req)
        && e.startOpId == x.req.opId && e.netCidr == ledger[v].netCidr && e.networkOpId == ledger[v].networkOpId
        && (forall w :: w in ledger && w != v ==> Disjoint(e, ledger[w]) && Disjoint(ledger[w], e))
      case OtherVerb(_) => false
      case _ => v in ledger && e == ledger[v] && x.phase.Calling?
  }

  ghost predicate AnsweringInv(x: Exec, past: History) {
    x.phase.Answering? && Definite(x.phase.response) ==>
      && (x.req.opId in past.wrote ==> x.phase.response == past.wrote[x.req.opId])
      && (x.req.opId in past.execed ==> x.phase.response.Ok?)
  }

  ghost predicate ExecInv(x: Exec, ledger: LedgerMap, past: History) {
    && StoringInv(x, ledger)
    && CallingInv(x, ledger)
    && AnsweringInv(x, past)
    && (!x.phase.Answering? ==> x.req.opId !in past.wrote)
    && (x.phase.Calling? && x.phase.execed ==> x.req.verb == StartVm)
    && (x.phase.Undoing? || (x.phase.Calling? && !x.phase.execed) ==> x.req.opId !in past.execed)
  }

  ghost predicate RunningInv(s: State) {
    s.daemon.Up? && s.daemon.exec.Some? ==> ExecInv(s.daemon.exec.value, s.disk.seen.ledger, s.past)
  }

  ghost predicate PastInv(past: History) {
    && past.wrote.Keys <= past.begun
    && (forall op :: op in past.wrote ==> past.wrote[op].Ok?)
    && past.landed <= past.wrote.Keys
    && past.execed <= past.begun
  }

  /** The ledger's contents, in both versions. */
  ghost predicate BooksInv(seen: LedgerMap, safe: LedgerMap, wrote: map<OpId, Response>) {
    && EntriesInv(seen) && EntriesInv(safe)
    && Exclusive(seen, seen) && Exclusive(safe, safe) && Exclusive(seen, safe) && Exclusive(safe, seen)
    && Signed(seen, wrote) && Signed(safe, wrote)
  }

  ghost predicate LedgerInv(s: State) {
    && BooksInv(s.disk.seen.ledger, s.disk.safe.ledger, s.past.wrote)
    && LandedInv(s.past.landed, s.disk)
    && OutcomeInv(s.disk.seen.receipts, s.past)
    && PastInv(s.past)
    && RunningInv(s)
  }

  // ---------------------------------------------------------------- host

  ghost predicate OpenOp(ledger: LedgerMap, rec: Receipt, v: VmId) {
    Uncertain(rec) && Target(rec.request) == v && !Witnessed(ledger, rec.request)
  }

  /** Some execution about `v` is unresolved and has no witness in this ledger. */
  ghost predicate Open(ledger: LedgerMap, rs: ReceiptMap, begun: set<OpId>, v: VmId) {
    exists op :: op in begun && op in rs && OpenOp(ledger, rs[op], v)
  }

  /** Ownership conservation against one version of the ledger. */
  ghost predicate Conserved(h: Host, ledger: LedgerMap, rs: ReceiptMap, begun: set<OpId>) {
    forall v :: Open(ledger, rs, begun, v) || Named(At(h, v), Lookup(ledger, v), h.boot)
  }

  predicate VmHalfClear(ledger: LedgerMap, v: VmId) {
    v in ledger ==> ledger[v].pid == 0
  }

  predicate NetHalfClear(ledger: LedgerMap, v: VmId) {
    v in ledger ==> ledger[v].netCidr == ""
  }

  /** The ledger as the answer to a request says it is: a claim granted is in it as asked
      for, a half released, or never there, is not. */
  predicate Answers(ledger: LedgerMap, req: Request, response: Response) {
    var v := Target(req);
    match req.verb
    case AllocateNetwork => response.Ok? ==> v in ledger && AsAllocated(ledger[v], req)
    case StartVm =>
      response.Ok? ==>
        && v in ledger && AsStarted(ledger[v], req) && ledger[v].pid > 0
        && response.start == Some(StartResult(ledger[v].pid, ledger[v].startTime))
    case ReleaseNetwork => response.Ok? || response == Err(NotFound) ==> NetHalfClear(ledger, v)
    case ReleaseVm => response.Ok? || response == Err(NotFound) ==> VmHalfClear(ledger, v)
    case _ => true
  }

  /** What the running operation's VM has on the host, phase by phase. */
  ghost predicate FootprintInv(x: Exec, f: Footprint, seen: LedgerMap, safe: LedgerMap, boot: string) {
    var v := Target(x.req);
    match x.phase
    case Calling(_, execed) =>
      (match x.req.verb
       case AllocateNetwork => !f.tree && f.procs == {}
       case StartVm => (f.net ==> v in seen && seen[v].netCidr != "") && (!execed ==> f.procs == {})
       case ReleaseVm => Named(f, Lookup(seen, v), boot) && f.procs == {}
       case _ => Named(f, Lookup(seen, v), boot))
    case Undoing(_, _) =>
      && f.procs == {}
      && (x.req.verb == AllocateNetwork ==> !f.tree)
      && (x.req.verb == StartVm && f.net ==> v in seen && seen[v].netCidr != "")
    case Storing(next, _) => Named(f, next, boot)
    case Answering(response) =>
      && (Definite(response) ==> Named(f, Lookup(seen, v), boot) && Named(f, Lookup(safe, v), boot))
      && Answers(seen, x.req, response) && Answers(safe, x.req, response)
  }

  ghost predicate RunningHostInv(s: State) {
    s.daemon.Up? && s.daemon.exec.Some? ==>
      var x := s.daemon.exec.value;
      FootprintInv(x, At(s.host, Target(x.req)), s.disk.seen.ledger, s.disk.safe.ledger, s.host.boot)
  }

  /** An operation cut loose by a crash stays unresolved and unwitnessed for good. */
  ghost predicate OrphanInv(op: OpId, h: Host, d: Store, begun: set<OpId>) {
    && op in begun && op in d.seen.receipts && Uncertain(d.seen.receipts[op])
    && (var req := d.seen.receipts[op].request;
        && !Witnessed(d.seen.ledger, req) && !Witnessed(d.safe.ledger, req)
        && (req.verb == ReleaseVm ==> At(h, Target(req)).procs == {}))
  }

  ghost predicate OrphansInv(s: State) {
    && (forall op :: op in s.orphans ==> OrphanInv(op, s.host, s.disk, s.past.begun))
    && (s.daemon.Up? && s.daemon.exec.Some? ==> s.daemon.exec.value.req.opId !in s.orphans)
  }

  /** At most one execution about a VM is unresolved. */
  ghost predicate OneOpen(safe: ReceiptMap, begun: set<OpId>) {
    forall a, b :: a in begun && b in begun && a in safe && b in safe ==>
      Uncertain(safe[a]) && Uncertain(safe[b]) && Target(safe[a].request) == Target(safe[b].request) ==> a == b
  }

  ghost predicate ProcsInTrees(h: Host) {
    forall v :: At(h, v).procs != {} ==> At(h, v).tree
  }

  ghost predicate HostInv(s: State) {
    && Conserved(s.host, s.disk.seen.ledger, s.disk.seen.receipts, s.past.begun)
    && Conserved(s.host, s.disk.safe.ledger, s.disk.seen.receipts, s.past.begun)
    && RunningHostInv(s)
    && OrphansInv(s)
    && OneOpen(s.disk.safe.receipts, s.past.begun)
    && ProcsInTrees(s.host)
  }

  ghost predicate Inv(s: State) {
    JournalInv(s) && LogInv(s.past.log, s.past.begun, s.disk.safe.receipts) && LedgerInv(s) && HostInv(s)
  }
}
