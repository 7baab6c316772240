/** Every step keeps the ledger's invariant. */
module PrivdLedger {
  import opened Wire
  import opened Ledger
  import opened Handlers
  import opened Privd
  import opened PrivdInvariant

  lemma SaveKeepsBooks(d: Store, io: SaveIo, rec: Receipt, wrote: map<OpId, Response>)
    requires BooksInv(d.seen.ledger, d.safe.ledger, wrote)
    ensures var e := Save(d, io, rec); BooksInv(e.seen.ledger, e.safe.ledger, wrote)
  {
  }

  lemma PickKeepsBooks(seen: LedgerMap, safe: LedgerMap, after: LedgerMap, wrote: map<OpId, Response>)
    requires BooksInv(seen, safe, wrote) && Picks(seen, safe, after)
    ensures BooksInv(after, after, wrote)
  {
  }

  lemma WrittenKeepsClaims(ledger: LedgerMap, v: VmId, next: Option<VMEntry>)
    requires EntriesInv(ledger) && Exclusive(ledger, ledger)
    requires next.Some? ==> EntryInv(v, next.value)
    requires next.Some? ==> forall w :: w in ledger && w != v ==> Disjoint(next.value, ledger[w]) && Disjoint(ledger[w], next.value)
    ensures var l := Written(ledger, v, next);
      EntriesInv(l) && Exclusive(l, l) && Exclusive(l, ledger) && Exclusive(ledger, l)
  {
  }

  lemma WrittenKeepsSigned(x: Exec, ledger: LedgerMap, wrote: map<OpId, Response>)
    requires x.phase.Storing? && StoringInv(x, ledger) && Signed(ledger, wrote) && x.req.opId !in wrote
    ensures var wrote' := if Claims(x.req.verb) then wrote[x.req.opId := x.phase.answer] else wrote;
      Signed(ledger, wrote') && Signed(Written(ledger, Target(x.req), x.phase.next), wrote')
  {
  }

  lemma WriteKeepsBooks(d: Store, put: PutIo, x: Exec, wrote: map<OpId, Response>, wrote': map<OpId, Response>)
    requires BooksInv(d.seen.ledger, d.safe.ledger, wrote) && d.safe.ledger == d.seen.ledger
    requires x.phase.Storing? && StoringInv(x, d.seen.ledger) && x.req.opId !in wrote
    requires wrote' == if Claims(x.req.verb) && (put.Put? || put.visible) then wrote[x.req.opId := x.phase.answer] else wrote
    ensures var e := Publish(d, put, Target(x.req), x.phase.next); BooksInv(e.seen.ledger, e.safe.ledger, wrote')
  {
    WrittenKeepsClaims(d.seen.ledger, Target(x.req), x.phase.next);
    WrittenKeepsSigned(x, d.seen.ledger, wrote);
  }

  /** Journalling a receipt never reopens a settled claim. */
  predicate Extends(d: Store, rec: Receipt) {
    var op := rec.request.opId;
    op in d.safe.receipts ==>
      rec.request == d.safe.receipts[op].request && (Uncertain(rec) ==> Uncertain(d.safe.receipts[op]))
  }

  lemma SaveKeepsLanded(landed: set<OpId>, d: Store, io: SaveIo, rec: Receipt)
    requires LandedInv(landed, d) && Lags(d.safe.receipts, d.seen.receipts) && landed <= d.safe.receipts.Keys
    requires Extends(d, rec)
    ensures LandedInv(landed, Save(d, io, rec))
  {
  }

  lemma PickKeepsLanded(landed: set<OpId>, d: Store, after: Disk)
    requires LandedInv(landed, d) && Lags(d.safe.receipts, d.seen.receipts) && landed <= d.safe.receipts.Keys
    requires Picks(d.seen.ledger, d.safe.ledger, after.ledger) && Picks(d.seen.receipts, d.safe.receipts, after.receipts)
    ensures LandedInv(landed, Store(after, after))
  {
  }

  /** The ledger entry of a VM changes only while nothing else about it is unresolved. */
  lemma WriteKeepsLanded(landed: set<OpId>, landed': set<OpId>, d: Store, put: PutIo, x: Exec, records: ReceiptMap, begun: set<OpId>)
    requires LandedInv(landed, d) && landed <= begun && begun <= d.safe.receipts.Keys
    requires x.phase.Storing? && StoringInv(x, d.seen.ledger) && FenceHolds(x, records, d, begun)
    requires Queued(x.req.opId, x.req, records, d)
    requires landed' == if Claims(x.req.verb) && put.Put? then landed + {x.req.opId} else landed
    requires x.req.opId !in landed
    ensures LandedInv(landed', Publish(d, put, Target(x.req), x.phase.next))
  {
    var d' := Publish(d, put, Target(x.req), x.phase.next);
    forall op | op in landed' && op in d'.safe.receipts && Uncertain(d'.safe.receipts[op])
      ensures Witnessed(d'.seen.ledger, d'.safe.receipts[op].request)
      ensures Witnessed(d'.safe.ledger, d'.safe.receipts[op].request)
    {
      if op != x.req.opId {
        assert Target(d.safe.receipts[op].request) != Target(x.req);
      }
    }
  }

  /** Journalled outcomes are the answers of the executions they settle. */
  ghost predicate Honest(rec: Receipt, past: History) {
    var op := rec.request.opId;
    Final(rec) ==>
      && (op in past.wrote ==> rec.state == Succeeded && rec.response == Some(past.wrote[op]))
      && (op in past.execed ==> rec.state == Succeeded)
  }

  /** Which receipt a step journals: consistent with the journal, and honest. */
  lemma SavedReceipt(cfg: Config, s: State, step: Step, s': State)
    requires JournalInv(s) && LedgerInv(s) && Next(cfg, s, step, s')
    ensures Saving(s, step).Some? ==>
      var (io, rec) := Saving(s, step).value;
      s'.disk == Save(s.disk, io, rec) && Extends(s.disk, rec) && Honest(rec, s.past)
  {
  }

  lemma StepKeepsBooks(cfg: Config, s: State, step: Step, s': State)
    requires JournalInv(s) && LedgerInv(s) && Next(cfg, s, step, s')
    ensures BooksInv(s'.disk.seen.ledger, s'.disk.safe.ledger, s'.past.wrote)
    ensures LandedInv(s'.past.landed, s'.disk)
  {
    if Saving(s, step).Some? {
      SavedReceipt(cfg, s, step, s');
      var (io, rec) := Saving(s, step).value;
      SaveKeepsBooks(s.disk, io, rec, s.past.wrote);
      SaveKeepsLanded(s.past.landed, s.disk, io, rec);
    } else if step.WriteLedger? {
      WriteKeepsBooks(s.disk, step.put, s.daemon.exec.value, s.past.wrote, s'.past.wrote);
      WriteKeepsLanded(s.past.landed, s'.past.landed, s.disk, step.put, s.daemon.exec.value, s.daemon.records, s.past.begun);
    } else if step.PowerLoss? {
      PickKeepsBooks(s.disk.seen.ledger, s.disk.safe.ledger, step.after.ledger, s.past.wrote);
      PickKeepsLanded(s.past.landed, s.disk, step.after);
    }
  }

  lemma SaveKeepsOutcomes(d: Store, io: SaveIo, rec: Receipt, past: History)
    requires OutcomeInv(d.seen.receipts, past) && Honest(rec, past)
    ensures OutcomeInv(Save(d, io, rec).seen.receipts, past)
  {
  }

  lemma PickKeepsOutcomes(d: Store, after: ReceiptMap, past: History)
    requires OutcomeInv(d.seen.receipts, past) && Lags(d.safe.receipts, d.seen.receipts)
    requires Picks(d.seen.receipts, d.safe.receipts, after)
    ensures OutcomeInv(after, past)
  {
  }

  lemma GrowthKeepsOutcomes(rs: ReceiptMap, past: History, past': History, op: OpId)
    requires OutcomeInv(rs, past) && op in rs && Uncertain(rs[op])
    requires past'.execed <= past.execed + {op}
    requires forall o :: o in past'.wrote && o != op ==> o in past.wrote && past'.wrote[o] == past.wrote[o]
    ensures OutcomeInv(rs, past')
  {
  }

  /** A step that journals nothing leaves the receipts alone, unless power is lost. */
  lemma ReceiptsKept(cfg: Config, s: State, step: Step, s': State)
    requires Next(cfg, s, step, s') && Saving(s, step).None? && !step.PowerLoss?
    ensures s'.disk.seen.receipts == s.disk.seen.receipts && s'.disk.safe.receipts == s.disk.safe.receipts
  {
  }

  lemma RunningKeepsOutcomes(cfg: Config, s: State, step: Step, s': State)
    requires JournalInv(s) && OutcomeInv(s.disk.seen.receipts, s.past)
    requires Next(cfg, s, step, s') && (step.Work? || step.WriteLedger?)
    ensures OutcomeInv(s.disk.seen.receipts, s'.past)
  {
    GrowthKeepsOutcomes(s.disk.seen.receipts, s.past, s'.past, s.daemon.exec.value.req.opId);
  }

  lemma StepKeepsOutcomes(cfg: Config, s: State, step: Step, s': State)
    requires JournalInv(s) && LedgerInv(s) && Next(cfg, s, step, s')
    ensures OutcomeInv(s'.disk.seen.receipts, s'.past)
  {
    if Saving(s, step).Some? {
      SavedReceipt(cfg, s, step, s');
      var (io, rec) := Saving(s, step).value;
      SaveKeepsOutcomes(s.disk, io, rec, s.past);
      SavingKeepsClaims(cfg, s, step, s');
    } else if step.PowerLoss? {
      PickKeepsOutcomes(s.disk, step.after.receipts, s.past);
      SavingKeepsClaims(cfg, s, step, s');
    } else {
      ReceiptsKept(cfg, s, step, s');
      if step.Work? || step.WriteLedger? {
        RunningKeepsOutcomes(cfg, s, step, s');
      } else {
        SavingKeepsClaims(cfg, s, step, s');
      }
    }
  }

  lemma SavingKeepsClaims(cfg: Config, s: State, step: Step, s': State)
    requires Next(cfg, s, step, s') && !step.Work? && !step.WriteLedger?
    ensures s'.past.wrote == s.past.wrote && s'.past.execed == s.past.execed
  {
  }

  lemma StepKeepsPast(cfg: Config, s: State, step: Step, s': State)
    requires JournalInv(s) && LedgerInv(s) && Next(cfg, s, step, s')
    ensures PastInv(s'.past)
  {
    if step.WriteLedger? { WriteKeepsPast(cfg, s, step, s'); } else { OthersKeepPast(cfg, s, step, s'); }
  }

  lemma WriteKeepsPast(cfg: Config, s: State, step: Step, s': State)
    requires JournalInv(s) && LedgerInv(s) && Next(cfg, s, step, s') && step.WriteLedger?
    ensures PastInv(s'.past)
  {
  }

  lemma OthersKeepPast(cfg: Config, s: State, step: Step, s': State)
    requires JournalInv(s) && PastInv(s.past) && Next(cfg, s, step, s') && !step.WriteLedger?
    ensures PastInv(s'.past)
  {
  }

  /** The plan a handler makes respects every other VM's claims. */
  lemma PlanSound(cfg: Config, ledger: LedgerMap, req: Request, gate: Gate)
    requires EntriesInv(ledger) && Exclusive(ledger, ledger)
    ensures var plan := MakePlan(cfg, ledger, req, gate);
      plan.Call? ==> CallingInv(Exec(req, Calling(plan.entry, false)), ledger)
  {
  }

  /** So does the record it goes on to write. */
  lemma AfterCallSound(req: Request, h: Host, f: Footprint, ledger: LedgerMap, entry: VMEntry, execed: bool, out: Outcome)
    requires EntriesInv(ledger) && Exclusive(ledger, ledger)
    requires CallingInv(Exec(req, Calling(entry, execed)), ledger) && Returned(req, h, f, execed, out)
    ensures var x := Exec(req, AfterCall(req, h, entry, execed, out)); CallingInv(x, ledger) && StoringInv(x, ledger)
  {
  }

  /** Steps that leave the running operation, its ledger and its history alone, or end it. */
  lemma ExecUntouched(cfg: Config, s: State, step: Step, s': State)
    requires Next(cfg, s, step, s')
    requires !(step.Begin? || step.Work? || step.CallReturns? || step.UndoReturns? || step.WriteLedger?)
    ensures s'.daemon.Up? && s'.daemon.exec.Some? ==>
      && s.daemon.Up? && s.daemon.exec == s'.daemon.exec
      && s'.disk.seen.ledger == s.disk.seen.ledger
      && s'.past.wrote == s.past.wrote && s'.past.execed == s.past.execed
  {
  }

  lemma BeginKeepsRunning(cfg: Config, s: State, op: OpId, gate: Gate, expired: bool, s': State)
    requires JournalInv(s) && LedgerInv(s) && Next(cfg, s, Begin(op, gate, expired), s')
    ensures RunningInv(s')
  {
    PlanSound(cfg, s.disk.seen.ledger, s.daemon.records[op].request, gate);
    assert op !in s.past.begun;
  }

  lemma CallReturnsKeepsRunning(cfg: Config, s: State, out: Outcome, s': State)
    requires LedgerInv(s) && Next(cfg, s, CallReturns(out), s')
    ensures RunningInv(s')
  {
    var x := s.daemon.exec.value;
    AfterCallSound(x.req, s.host, At(s.host, Target(x.req)), s.disk.seen.ledger, x.phase.entry, x.phase.execed, out);
  }

  lemma WorkKeepsRunning(cfg: Config, s: State, f: Footprint, execed: bool, s': State)
    requires LedgerInv(s) && Next(cfg, s, Work(f, execed), s')
    ensures RunningInv(s')
  {
  }

  lemma UndoOrWriteKeepsRunning(cfg: Config, s: State, step: Step, s': State)
    requires LedgerInv(s) && Next(cfg, s, step, s') && (step.UndoReturns? || step.WriteLedger?)
    ensures RunningInv(s')
  {
  }

  lemma StepKeepsRunning(cfg: Config, s: State, step: Step, s': State)
    requires JournalInv(s) && LedgerInv(s) && Next(cfg, s, step, s')
    ensures RunningInv(s')
  {
    if step.Begin? {
      BeginKeepsRunning(cfg, s, step.op, step.gate, step.expired, s');
    } else if step.Work? {
      WorkKeepsRunning(cfg, s, step.f, step.execed, s');
    } else if step.CallReturns? {
      CallReturnsKeepsRunning(cfg, s, step.out, s');
    } else if step.UndoReturns? || step.WriteLedger? {
      UndoOrWriteKeepsRunning(cfg, s, step, s');
    } else {
      ExecUntouched(cfg, s, step, s');
    }
  }
}
