/** What privd guarantees over every run. */
module PrivdTheorems {
  import opened Wire
  import opened Ledger
  import opened Handlers
  import opened Privd
  import opened PrivdInvariant
  import opened PrivdJournal
  import opened PrivdLedger
  import opened PrivdHost

  lemma InitialInv(s: State)
    requires Initial(s)
    ensures Inv(s)
  {
  }

  /** Settled receipts keep their requests, and settled outcomes never change. */
  ghost predicate SettledKept(before: Store, after: Store) {
    forall op :: op in before.safe.receipts ==>
      && op in after.safe.receipts
      && after.safe.receipts[op].request == before.safe.receipts[op].request
      && (Final(before.safe.receipts[op]) ==>
            && after.safe.receipts[op] == before.safe.receipts[op]
            && op in after.seen.receipts && after.seen.receipts[op] == before.safe.receipts[op])
  }

  lemma SaveKeepsSettled(d: Store, io: SaveIo, rec: Receipt)
    requires Lags(d.safe.receipts, d.seen.receipts)
    requires rec.request.opId in d.safe.receipts ==>
      rec.request == d.safe.receipts[rec.request.opId].request && Uncertain(d.safe.receipts[rec.request.opId])
    ensures SettledKept(d, Save(d, io, rec))
  {
  }

  lemma PickKeepsSettled(d: Store, after: Disk)
    requires Lags(d.safe.receipts, d.seen.receipts) && Picks(d.seen.receipts, d.safe.receipts, after.receipts)
    ensures SettledKept(d, Store(after, after))
  {
  }

  /** The journal only ever writes receipts that are not yet settled. */
  lemma SavedIsUnsettled(cfg: Config, s: State, step: Step, s': State)
    requires JournalInv(s) && LedgerInv(s) && Next(cfg, s, step, s')
    ensures Saving(s, step).Some? ==>
      var (_, rec) := Saving(s, step).value;
      rec.request.opId in s.disk.safe.receipts ==> Uncertain(s.disk.safe.receipts[rec.request.opId])
  {
  }

  lemma StepKeepsSettled(cfg: Config, s: State, step: Step, s': State)
    requires JournalInv(s) && LedgerInv(s) && Next(cfg, s, step, s')
    ensures SettledKept(s.disk, s'.disk)
  {
    if Saving(s, step).Some? {
      SavedReceipt(cfg, s, step, s');
      SavedIsUnsettled(cfg, s, step, s');
      var (io, rec) := Saving(s, step).value;
      SaveKeepsSettled(s.disk, io, rec);
    } else if step.PowerLoss? {
      PickKeepsSettled(s.disk, step.after);
    }
  }

  lemma StepKeepsLog(cfg: Config, s: State, step: Step, s': State)
    requires Inv(s) && Next(cfg, s, step, s')
    ensures LogInv(s'.past.log, s'.past.begun, s'.disk.safe.receipts)
  {
    StepKeepsSettled(cfg, s, step, s');
    if step.Begin? {
      assert Queued(step.op, s.daemon.records[step.op].request, s.daemon.records, s.disk);
    } else {
      assert s'.past.log == s.past.log && s'.past.begun == s.past.begun;
    }
  }

  lemma StepKeepsInv(cfg: Config, s: State, step: Step, s': State)
    requires Inv(s) && Next(cfg, s, step, s')
    ensures Inv(s')
  {
    StepKeepsJournal(cfg, s, step, s');
    StepKeepsLog(cfg, s, step, s');
    StepKeepsLedger(cfg, s, step, s');
    StepKeepsHost(cfg, s, step, s');
  }

  lemma StepKeepsLedger(cfg: Config, s: State, step: Step, s': State)
    requires JournalInv(s) && LedgerInv(s) && Next(cfg, s, step, s')
    ensures LedgerInv(s')
  {
    StepKeepsBooks(cfg, s, step, s');
    StepKeepsOutcomes(cfg, s, step, s');
    StepKeepsPast(cfg, s, step, s');
    StepKeepsRunning(cfg, s, step, s');
  }

  lemma StepKeepsHost(cfg: Config, s: State, step: Step, s': State)
    requires Inv(s) && Next(cfg, s, step, s')
    ensures HostInv(s')
  {
    StepConserves(cfg, s, step, s');
    StepKeepsFootprint(cfg, s, step, s');
    StepKeepsOneOpen(cfg, s, step, s');
    StepKeepsTrees(cfg, s, step, s');
    StepKeepsOrphans(cfg, s, step, s');
    RunningIsNoOrphan(cfg, s, step, s');
  }

  lemma {:induction false} RunKeepsInv(cfg: Config, states: seq<State>, steps: seq<Step>, i: nat)
    requires IsRun(cfg, states, steps) && i < |states|
    ensures Inv(states[i])
  {
    if i == 0 {
      InitialInv(states[0]);
    } else {
      RunKeepsInv(cfg, states, steps, i - 1);
      StepKeepsInv(cfg, states[i - 1], steps[i - 1], states[i]);
    }
  }

  // ---------------------------------------------------------------- ownership

  /** A pending or unknown receipt about `v` is on disk. */
  ghost predicate Unresolved(rs: ReceiptMap, v: VmId) {
    exists op :: op in rs && Uncertain(rs[op]) && Target(rs[op].request) == v
  }

  /** Ownership conservation: whatever a VM has on the host is named by its ledger entry
      or covered by an unresolved receipt, in the disk readers see and in the disk a
      power loss would leave. */
  lemma OwnershipConserved(cfg: Config, states: seq<State>, steps: seq<Step>, i: nat, v: VmId)
    requires IsRun(cfg, states, steps) && i < |states|
    ensures var s := states[i];
      && (Named(At(s.host, v), Lookup(s.disk.seen.ledger, v), s.host.boot) || Unresolved(s.disk.seen.receipts, v))
      && (Named(At(s.host, v), Lookup(s.disk.safe.ledger, v), s.host.boot) || Unresolved(s.disk.safe.receipts, v))
  {
    RunKeepsInv(cfg, states, steps, i);
    var s := states[i];
    assert Open(s.disk.safe.ledger, s.disk.seen.receipts, s.past.begun, v)
        || Named(At(s.host, v), Lookup(s.disk.safe.ledger, v), s.host.boot);
    if Open(s.disk.safe.ledger, s.disk.seen.receipts, s.past.begun, v) {
      var op :| op in s.past.begun && op in s.disk.seen.receipts && OpenOp(s.disk.safe.ledger, s.disk.seen.receipts[op], v);
      assert op in s.disk.safe.receipts && Uncertain(s.disk.safe.receipts[op]);
    }
    assert Open(s.disk.seen.ledger, s.disk.seen.receipts, s.past.begun, v)
        || Named(At(s.host, v), Lookup(s.disk.seen.ledger, v), s.host.boot);
  }

  /** No identity is ever claimed by two VMs, whichever contents their ledger files hold. */
  lemma ClaimsExclusive(cfg: Config, states: seq<State>, steps: seq<Step>, i: nat, v: VmId, w: VmId, e: VMEntry, f: VMEntry)
    requires IsRun(cfg, states, steps) && i < |states| && v != w
    requires Lookup(states[i].disk.seen.ledger, v) == Some(e) || Lookup(states[i].disk.safe.ledger, v) == Some(e)
    requires Lookup(states[i].disk.seen.ledger, w) == Some(f) || Lookup(states[i].disk.safe.ledger, w) == Some(f)
    ensures e.netCidr != "" ==> e.netCidr != f.netCidr
    ensures e.pid != 0 ==> e.uid != f.uid && e.cid != f.cid && e.cid >= MIN_GUEST_CID
    ensures e.pid == 0 ==> e.uid == 0 && e.cid == 0 && e.netCidr != ""
  {
    RunKeepsInv(cfg, states, steps, i);
  }

  // ---------------------------------------------------------------- execution

  /** At most one execution per op_id, and every execution is of the journalled request: a
      reused op_id with another verb or payload never executes. */
  lemma AtMostOnce(cfg: Config, states: seq<State>, steps: seq<Step>, i: nat, j: nat)
    requires IsRun(cfg, states, steps) && i < |states| && j < |states[i].past.log|
    ensures var req := states[i].past.log[j];
      && req.opId in states[i].disk.seen.receipts && states[i].disk.seen.receipts[req.opId].request == req
      && req.opId in states[i].disk.safe.receipts && states[i].disk.safe.receipts[req.opId].request == req
    ensures forall k :: 0 <= k < |states[i].past.log| && states[i].past.log[k].opId == states[i].past.log[j].opId ==> k == j
  {
    RunKeepsInv(cfg, states, steps, i);
  }

  lemma RunKeepsSettled(cfg: Config, states: seq<State>, steps: seq<Step>, i: nat)
    requires IsRun(cfg, states, steps) && i < |steps|
    ensures SettledKept(states[i].disk, states[i + 1].disk)
  {
    RunKeepsInv(cfg, states, steps, i);
    StepKeepsSettled(cfg, states[i], steps[i], states[i + 1]);
  }

  lemma {:induction false} SettledChain(disks: seq<Store>, i: nat, j: nat, op: OpId)
    requires i < j < |disks| && forall k :: 0 <= k < |disks| - 1 ==> SettledKept(disks[k], disks[k + 1])
    requires op in disks[i].safe.receipts && Final(disks[i].safe.receipts[op])
    ensures Lookup(disks[j].safe.receipts, op) == Lookup(disks[j].seen.receipts, op) == Lookup(disks[i].safe.receipts, op)
  {
    assert SettledKept(disks[j - 1], disks[j - 1 + 1]);
    if i < j - 1 { SettledChain(disks, i, j - 1, op); }
  }

  /** A settled outcome is the outcome in every later state, in both versions of the disk. */
  lemma SettledForever(cfg: Config, states: seq<State>, steps: seq<Step>, i: nat, j: nat, op: OpId)
    requires IsRun(cfg, states, steps) && i < j < |states|
    requires op in states[i].disk.safe.receipts && Final(states[i].disk.safe.receipts[op])
    ensures Lookup(states[j].disk.safe.receipts, op) == Lookup(states[i].disk.safe.receipts, op)
    ensures Lookup(states[j].disk.seen.receipts, op) == Lookup(states[i].disk.safe.receipts, op)
  {
    var disks := seq(|states|, k requires 0 <= k < |states| => states[k].disk);
    forall k | 0 <= k < |disks| - 1
      ensures SettledKept(disks[k], disks[k + 1])
    {
      RunKeepsSettled(cfg, states, steps, k);
    }
    SettledChain(disks, i, j, op);
  }

  /** What a request whose op_id already has an outcome is told. */
  function StoredAnswer(rec: Receipt, req: Request): Option<Response> {
    if rec.request == req then rec.response else Some(Err(InvalidState))
  }

  /** Replaying a finished request answers exactly the stored response and changes nothing
      else; the same op_id on another request is refused. */
  lemma ExactReplay(cfg: Config, states: seq<State>, steps: seq<Step>, i: nat, r: Response)
    requires IsRun(cfg, states, steps) && i < |steps| && steps[i].Arrive? && ValidId(steps[i].req.opId)
    requires states[i].daemon.Up? && !states[i].daemon.failed
    requires var (rs, req) := (states[i].disk.seen.receipts, steps[i].req);
      req.opId in rs && Final(rs[req.opId]) && StoredAnswer(rs[req.opId], req) == Some(r)
    ensures states[i + 1] == Reply(states[i], steps[i].req, r)
  {
    RunKeepsInv(cfg, states, steps, i);
  }

  /** The fence: an execution begins with nothing unresolved that it must wait for, and
      none appears while it runs. */
  lemma FenceOverRuns(cfg: Config, states: seq<State>, steps: seq<Step>, i: nat)
    requires IsRun(cfg, states, steps) && i < |states|
    requires states[i].daemon.Up? && states[i].daemon.exec.Some?
    ensures FenceHolds(states[i].daemon.exec.value, states[i].daemon.records, states[i].disk, states[i].past.begun)
  {
    RunKeepsInv(cfg, states, steps, i);
  }

  // ---------------------------------------------------------------- recovery

  lemma RecoveredFromWitness(ledger: LedgerMap, wrote: map<OpId, Response>, rec: Receipt)
    requires Signed(ledger, wrote) && Uncertain(rec) && Recover(ledger, rec).state == Succeeded
    ensures Witnessed(ledger, rec.request) && rec.request.opId in wrote
    ensures Recover(ledger, rec).response == Some(wrote[rec.request.opId])
  {
  }

  lemma PromotionStep(cfg: Config, s: State, step: Step, s': State)
    requires JournalInv(s) && Signed(s.disk.seen.ledger, s.past.wrote)
    requires Next(cfg, s, step, s') && (step.Query? || step.LoadOne?)
    requires var (rs, rs') := (s.disk.seen.receipts, s'.disk.seen.receipts);
      step.op in rs && step.op in rs' && Uncertain(rs[step.op]) && rs'[step.op].state == Succeeded
    ensures step.op in s.past.wrote
    ensures s'.disk.seen.receipts[step.op].response == Some(s.past.wrote[step.op])
    ensures Witnessed(s'.disk.safe.ledger, s.disk.seen.receipts[step.op].request)
  {
    var rec := Receipt(s.disk.seen.receipts[step.op].request, Unknown, None);
    assert Recover(s.disk.seen.ledger, rec).state == Succeeded;
    RecoveredFromWitness(s.disk.seen.ledger, s.past.wrote, rec);
  }

  /** A receipt is promoted only when that operation's own ledger write landed, with the
      answer that operation was about to give; and by the time the promotion is visible
      the witness itself is beyond a power loss. */
  lemma PromotionSound(cfg: Config, states: seq<State>, steps: seq<Step>, i: nat, op: OpId)
    requires IsRun(cfg, states, steps) && i < |steps|
    requires (steps[i].Query? || steps[i].LoadOne?) && steps[i].op == op
    requires var (rs, rs') := (states[i].disk.seen.receipts, states[i + 1].disk.seen.receipts);
      op in rs && op in rs' && Uncertain(rs[op]) && rs'[op].state == Succeeded
    ensures op in states[i].past.wrote
    ensures states[i + 1].disk.seen.receipts[op].response == Some(states[i].past.wrote[op])
    ensures Witnessed(states[i + 1].disk.safe.ledger, states[i].disk.seen.receipts[op].request)
  {
    RunKeepsInv(cfg, states, steps, i);
    PromotionStep(cfg, states[i], steps[i], states[i + 1]);
  }

  /** Recovery misses nothing: a claim whose ledger write returned nil and whose receipt is
      unresolved is recovered exactly when its entry can be read. */
  lemma RecoveryComplete(cfg: Config, states: seq<State>, steps: seq<Step>, i: nat, op: OpId)
    requires IsRun(cfg, states, steps) && i < |states| && op in states[i].past.landed
    ensures op in states[i].disk.seen.receipts
    ensures var (rec, ledger) := (states[i].disk.seen.receipts[op], states[i].disk.seen.ledger);
      var v := Target(rec.request);
      Uncertain(rec) ==>
        && v in ledger
        && (Recover(ledger, Receipt(rec.request, Unknown, None)).state == Succeeded <==> ValidId(v) && Readable(v, ledger[v]))
  {
    RunKeepsInv(cfg, states, steps, i);
  }

  // ---------------------------------------------------------------- answers

  lemma FinishedAnswers(cfg: Config, s: State, io: SaveIo, s': State)
    requires RunningHostInv(s) && ProcsInTrees(s.host) && Next(cfg, s, Finish(io), s')
    ensures var (req, r) := (s.daemon.exec.value.req, s.daemon.exec.value.phase.response);
      var f := At(s'.host, Target(req));
      && Answers(s'.disk.seen.ledger, req, r) && Answers(s'.disk.safe.ledger, req, r)
      && (r.Ok? || r == Err(NotFound) ==>
            && (req.verb == ReleaseNetwork ==> !f.net)
            && (req.verb == ReleaseVm ==> !f.tree && f.procs == {}))
  {
  }

  /** What privd answers is so: a claim granted is in the ledger as it was asked for, a half
      released or not found is neither in the ledger nor on the host; in both versions. */
  lemma AnswersAreTrue(cfg: Config, states: seq<State>, steps: seq<Step>, i: nat)
    requires IsRun(cfg, states, steps) && i < |steps| && steps[i].Finish?
    ensures states[i].daemon.Up? && states[i].daemon.exec.Some? && states[i].daemon.exec.value.phase.Answering?
    ensures var (req, r) := (states[i].daemon.exec.value.req, states[i].daemon.exec.value.phase.response);
      var (s', f) := (states[i + 1], At(states[i + 1].host, Target(req)));
      && Answers(s'.disk.seen.ledger, req, r) && Answers(s'.disk.safe.ledger, req, r)
      && (r.Ok? || r == Err(NotFound) ==>
            && (req.verb == ReleaseNetwork ==> !f.net)
            && (req.verb == ReleaseVm ==> !f.tree && f.procs == {}))
  {
    RunKeepsInv(cfg, states, steps, i);
    assert Next(cfg, states[i], steps[i], states[i + 1]);
    FinishedAnswers(cfg, states[i], steps[i].io, states[i + 1]);
  }

  // ---------------------------------------------------------------- inventory and processes

  /** An inventory that answers is exactly the ledger's network halves, gives no subnet to
      two VMs, and misses no network on the host. */
  lemma InventoryExact(cfg: Config, states: seq<State>, steps: seq<Step>, i: nat)
    requires IsRun(cfg, states, steps) && i < |states| && states[i].daemon.Up?
    requires NetworkLeases(states[i].daemon, states[i].disk.seen.ledger).Leases?
    ensures var (s, m) := (states[i], NetworkLeases(states[i].daemon, states[i].disk.seen.ledger).leases);
      && (forall v :: v in m <==> v in s.disk.seen.ledger && s.disk.seen.ledger[v].netCidr != "")
      && (forall v :: v in m ==> m[v] == s.disk.seen.ledger[v].netCidr)
      && (forall v, w :: v in m && w in m && v != w ==> m[v] != m[w])
      && (forall v :: At(s.host, v).net ==> v in m)
  {
    RunKeepsInv(cfg, states, steps, i);
    var s := states[i];
    forall v
      ensures Named(At(s.host, v), Lookup(s.disk.seen.ledger, v), s.host.boot)
    {
      assert !Open(s.disk.seen.ledger, s.disk.seen.receipts, s.past.begun, v);
    }
  }

  lemma TreeRemovalFindsNoProcess(cfg: Config, s: State, step: Step, s': State, v: VmId)
    requires LedgerInv(s) && HostInv(s) && Next(cfg, s, step, s') && At(s.host, v).tree && !At(s'.host, v).tree
    ensures At(s.host, v).procs == {}
  {
    match step
    case Work(f, _) => assert v == Target(s.daemon.exec.value.req);
    case LateEffect(op, f) => assert OrphanInv(op, s.host, s.disk, s.past.begun);
    case _ =>
  }

  /** No step of a run removes a jail tree under a running process. */
  lemma NoTreeRemovedUnderProcess(cfg: Config, states: seq<State>, steps: seq<Step>, i: nat, v: VmId)
    requires IsRun(cfg, states, steps) && i < |steps|
    requires At(states[i].host, v).tree && !At(states[i + 1].host, v).tree
    ensures At(states[i].host, v).procs == {}
  {
    RunKeepsInv(cfg, states, steps, i);
    TreeRemovalFindsNoProcess(cfg, states[i], steps[i], states[i + 1], v);
  }

  /** A start that reached the jailer exec is never journalled as failed. */
  lemma ExecedNeverFailed(cfg: Config, states: seq<State>, steps: seq<Step>, i: nat, op: OpId)
    requires IsRun(cfg, states, steps) && i < |states| && op in states[i].past.execed
    ensures op in states[i].disk.seen.receipts && states[i].disk.seen.receipts[op].state != Failed
  {
    RunKeepsInv(cfg, states, steps, i);
  }
}
