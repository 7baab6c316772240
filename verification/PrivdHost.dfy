/** Every step keeps ownership of what is on the host. */
module PrivdHost {
  import opened Wire
  import opened Ledger
  import opened Handlers
  import opened Privd
  import opened PrivdInvariant
  import opened PrivdJournal
  import opened PrivdLedger

  // ---------------------------------------------------------------- conservation

  /** A receipt may become final when the ledger witnesses it or names the VM's footprint. */
  ghost predicate MayClose(h: Host, ledger: LedgerMap, rec: Receipt, begun: set<OpId>) {
    Final(rec) && rec.request.opId in begun ==>
      || Witnessed(ledger, rec.request)
      || Named(At(h, Target(rec.request)), Lookup(ledger, Target(rec.request)), h.boot)
  }

  lemma RecordConserves(h: Host, ledger: LedgerMap, rs: ReceiptMap, rec: Receipt, begun: set<OpId>)
    requires Conserved(h, ledger, rs, begun) && MayClose(h, ledger, rec, begun)
    requires rec.request.opId in rs ==> rs[rec.request.opId].request == rec.request
    ensures Conserved(h, ledger, rs[rec.request.opId := rec], begun)
  {
    var op := rec.request.opId;
    var rs' := rs[op := rec];
    forall v
      ensures Open(ledger, rs', begun, v) || Named(At(h, v), Lookup(ledger, v), h.boot)
    {
      if Open(ledger, rs, begun, v) {
        var o :| o in begun && o in rs && OpenOp(ledger, rs[o], v);
        if o != op || Uncertain(rec) {
          assert OpenOp(ledger, rs'[o], v);
        }
      }
    }
  }

  lemma SaveConserves(h: Host, d: Store, io: SaveIo, rec: Receipt, begun: set<OpId>)
    requires Conserved(h, d.seen.ledger, d.seen.receipts, begun) && Conserved(h, d.safe.ledger, d.seen.receipts, begun)
    requires MayClose(h, d.seen.ledger, rec, begun)
    requires rec.request.opId in d.seen.receipts ==> d.seen.receipts[rec.request.opId].request == rec.request
    ensures var e := Save(d, io, rec);
      Conserved(h, e.seen.ledger, e.seen.receipts, begun) && Conserved(h, e.safe.ledger, e.seen.receipts, begun)
  {
    RecordConserves(h, d.seen.ledger, d.seen.receipts, rec, begun);
  }

  /** A host change is covered by any unresolved operation about that VM. */
  lemma CoveredChangeConserves(h: Host, v: VmId, f: Footprint, ledger: LedgerMap, rs: ReceiptMap, begun: set<OpId>, op: OpId)
    requires Conserved(h, ledger, rs, begun)
    requires op in begun && op in rs && OpenOp(ledger, rs[op], v)
    ensures Conserved(WithFootprint(h, v, f), ledger, rs, begun)
  {
    var h' := WithFootprint(h, v, f);
    forall w
      ensures Open(ledger, rs, begun, w) || Named(At(h', w), Lookup(ledger, w), h'.boot)
    {
      assert Open(ledger, rs, begun, w) || Named(At(h, w), Lookup(ledger, w), h.boot);
    }
  }

  lemma ExitConserves(h: Host, v: VmId, p: Proc, ledger: LedgerMap, rs: ReceiptMap, begun: set<OpId>)
    requires Conserved(h, ledger, rs, begun)
    ensures Conserved(WithFootprint(h, v, At(h, v).(procs := At(h, v).procs - {p})), ledger, rs, begun)
  {
    var h' := WithFootprint(h, v, At(h, v).(procs := At(h, v).procs - {p}));
    forall w
      ensures Open(ledger, rs, begun, w) || Named(At(h', w), Lookup(ledger, w), h'.boot)
    {
      assert Open(ledger, rs, begun, w) || Named(At(h, w), Lookup(ledger, w), h.boot);
    }
  }

  /** A ledger write is covered when the new entry names the VM's footprint. */
  lemma WriteConserves(h: Host, ledger: LedgerMap, rs: ReceiptMap, begun: set<OpId>, v: VmId, next: Option<VMEntry>)
    requires Conserved(h, ledger, rs, begun) && Named(At(h, v), next, h.boot)
    ensures Conserved(h, Written(ledger, v, next), rs, begun)
  {
    var ledger' := Written(ledger, v, next);
    assert Lookup(ledger', v) == next;
    forall w | w != v
      ensures Open(ledger', rs, begun, w) || Named(At(h, w), Lookup(ledger', w), h.boot)
    {
      assert Lookup(ledger', w) == Lookup(ledger, w);
      if Open(ledger, rs, begun, w) {
        var o :| o in begun && o in rs && OpenOp(ledger, rs[o], w);
        assert OpenOp(ledger', rs[o], w);
      }
    }
  }

  lemma PowerLossConserves(h: Host, boot: string, d: Store, after: Disk, begun: set<OpId>)
    requires Conserved(h, d.seen.ledger, d.seen.receipts, begun) && Conserved(h, d.safe.ledger, d.seen.receipts, begun)
    requires Lags(d.safe.receipts, d.seen.receipts) && begun <= d.safe.receipts.Keys
    requires Picks(d.seen.ledger, d.safe.ledger, after.ledger) && Picks(d.seen.receipts, d.safe.receipts, after.receipts)
    ensures Conserved(AfterPowerLoss(h, boot), after.ledger, after.receipts, begun)
  {
    var h' := AfterPowerLoss(h, boot);
    forall v
      ensures Open(after.ledger, after.receipts, begun, v) || Named(At(h', v), Lookup(after.ledger, v), boot)
    {
      var from := if Lookup(after.ledger, v) == Lookup(d.seen.ledger, v) then d.seen.ledger else d.safe.ledger;
      assert Lookup(after.ledger, v) == Lookup(from, v);
      assert Open(from, d.seen.receipts, begun, v) || Named(At(h, v), Lookup(from, v), h.boot);
      if Open(from, d.seen.receipts, begun, v) {
        var o :| o in begun && o in d.seen.receipts && OpenOp(from, d.seen.receipts[o], v);
        assert o in after.receipts && OpenOp(after.ledger, after.receipts[o], v);
      }
    }
  }

  /** What a step journals may close: its operation is witnessed, or its footprint named. */
  lemma SavedMayClose(cfg: Config, s: State, step: Step, s': State)
    requires JournalInv(s) && LedgerInv(s) && HostInv(s) && Next(cfg, s, step, s')
    ensures Saving(s, step).Some? ==>
      var (io, rec) := Saving(s, step).value;
      && MayClose(s.host, s.disk.seen.ledger, rec, s.past.begun)
      && (rec.request.opId in s.disk.seen.receipts ==> s.disk.seen.receipts[rec.request.opId].request == rec.request)
      && s'.host == s.host && s'.past.begun == s.past.begun
  {
  }

  /** The running operation is open until its ledger write. */
  lemma RunningIsOpen(s: State)
    requires JournalInv(s) && LedgerInv(s)
    requires s.daemon.Up? && s.daemon.exec.Some? && !s.daemon.exec.value.phase.Answering?
    ensures var x := s.daemon.exec.value;
      && x.req.opId in s.past.begun && x.req.opId in s.disk.seen.receipts
      && OpenOp(s.disk.seen.ledger, s.disk.seen.receipts[x.req.opId], Target(x.req))
      && s.disk.safe.ledger == s.disk.seen.ledger
  {
    var x := s.daemon.exec.value;
    assert Queued(x.req.opId, x.req, s.daemon.records, s.disk);
    assert !Witnessed(s.disk.seen.ledger, x.req) by {
      assert Signed(s.disk.seen.ledger, s.past.wrote) && x.req.opId !in s.past.wrote;
    }
  }

  ghost predicate ConservedBoth(s: State) {
    && Conserved(s.host, s.disk.seen.ledger, s.disk.seen.receipts, s.past.begun)
    && Conserved(s.host, s.disk.safe.ledger, s.disk.seen.receipts, s.past.begun)
  }

  lemma RunningConserves(cfg: Config, s: State, step: Step, s': State)
    requires JournalInv(s) && LedgerInv(s) && RunningHostInv(s) && ConservedBoth(s)
    requires Next(cfg, s, step, s') && (step.Work? || step.WriteLedger?)
    ensures ConservedBoth(s')
  {
    RunningIsOpen(s);
    var (x, ledger, rs) := (s.daemon.exec.value, s.disk.seen.ledger, s.disk.seen.receipts);
    if step.Work? {
      CoveredChangeConserves(s.host, Target(x.req), step.f, ledger, rs, s.past.begun, x.req.opId);
    } else {
      WriteConserves(s.host, ledger, rs, s.past.begun, Target(x.req), x.phase.next);
    }
  }

  /** Steps that only the host, or nothing at all, takes notice of. */
  lemma OutsideConserves(cfg: Config, s: State, step: Step, s': State)
    requires OrphansInv(s) && ConservedBoth(s) && Next(cfg, s, step, s') && Saving(s, step).None?
    requires !step.Begin? && !step.Work? && !step.WriteLedger? && !step.PowerLoss?
    ensures ConservedBoth(s')
  {
    var (seen, safe, rs, begun) := (s.disk.seen.ledger, s.disk.safe.ledger, s.disk.seen.receipts, s.past.begun);
    if step.Exit? {
      ExitConserves(s.host, step.v, step.p, seen, rs, begun);
      ExitConserves(s.host, step.v, step.p, safe, rs, begun);
    } else if step.LateEffect? {
      assert OrphanInv(step.op, s.host, s.disk, begun);
      var v := Target(rs[step.op].request);
      CoveredChangeConserves(s.host, v, step.f, seen, rs, begun, step.op);
      CoveredChangeConserves(s.host, v, step.f, safe, rs, begun, step.op);
    } else if step.Restart? {
      RestartConserves(s.host, step.ns, seen, rs, begun);
      RestartConserves(s.host, step.ns, safe, rs, begun);
    }
  }

  lemma StepConserves(cfg: Config, s: State, step: Step, s': State)
    requires JournalInv(s) && LedgerInv(s) && HostInv(s) && Next(cfg, s, step, s')
    ensures ConservedBoth(s')
  {
    if Saving(s, step).Some? {
      SavedReceipt(cfg, s, step, s');
      SavedMayClose(cfg, s, step, s');
      var (io, rec) := Saving(s, step).value;
      SaveConserves(s.host, s.disk, io, rec, s.past.begun);
    } else if step.Begin? {
      BeginConserves(cfg, s, step.op, step.gate, step.expired, s');
    } else if step.Work? || step.WriteLedger? {
      RunningConserves(cfg, s, step, s');
    } else if step.PowerLoss? {
      PowerLossConserves(s.host, step.boot, s.disk, step.after, s.past.begun);
    } else {
      OutsideConserves(cfg, s, step, s');
    }
  }

  lemma BeginConserves(cfg: Config, s: State, op: OpId, gate: Gate, expired: bool, s': State)
    requires HostInv(s) && Next(cfg, s, Begin(op, gate, expired), s')
    ensures Conserved(s'.host, s'.disk.seen.ledger, s'.disk.seen.receipts, s'.past.begun)
    ensures Conserved(s'.host, s'.disk.safe.ledger, s'.disk.seen.receipts, s'.past.begun)
  {
    GrowthConserves(s.host, s.disk.seen.ledger, s.disk.seen.receipts, s.past.begun, s'.past.begun);
    GrowthConserves(s.host, s.disk.safe.ledger, s.disk.seen.receipts, s.past.begun, s'.past.begun);
  }

  lemma GrowthConserves(h: Host, ledger: LedgerMap, rs: ReceiptMap, begun: set<OpId>, begun': set<OpId>)
    requires Conserved(h, ledger, rs, begun) && begun <= begun'
    ensures Conserved(h, ledger, rs, begun')
  {
    forall v
      ensures Open(ledger, rs, begun', v) || Named(At(h, v), Lookup(ledger, v), h.boot)
    {
      if Open(ledger, rs, begun, v) {
        var o :| o in begun && o in rs && OpenOp(ledger, rs[o], v);
        assert o in begun';
      }
    }
  }

  lemma RestartConserves(h: Host, ns: string, ledger: LedgerMap, rs: ReceiptMap, begun: set<OpId>)
    requires Conserved(h, ledger, rs, begun)
    ensures Conserved(h.(ns := ns), ledger, rs, begun)
  {
    forall v
      ensures Open(ledger, rs, begun, v) || Named(At(h.(ns := ns), v), Lookup(ledger, v), h.boot)
    {
      assert At(h.(ns := ns), v) == At(h, v);
    }
  }

  // ---------------------------------------------------------------- the running operation's VM

  /** Nothing else about the VM is unresolved, so its ledger entry names all it has. */
  lemma BeginFindsVmNamed(cfg: Config, s: State, op: OpId, gate: Gate, expired: bool, s': State)
    requires JournalInv(s) && HostInv(s) && Next(cfg, s, Begin(op, gate, expired), s')
    ensures var v := Target(s.daemon.records[op].request);
      Named(At(s.host, v), Lookup(s.disk.seen.ledger, v), s.host.boot)
  {
  }

  lemma BeginKeepsFootprint(cfg: Config, s: State, op: OpId, gate: Gate, expired: bool, s': State)
    requires JournalInv(s) && LedgerInv(s) && HostInv(s) && Next(cfg, s, Begin(op, gate, expired), s')
    ensures RunningHostInv(s')
  {
    BeginFindsVmNamed(cfg, s, op, gate, expired, s');
    var req := s.daemon.records[op].request;
    PlanKeepsFootprint(cfg, s.host, s.disk.seen.ledger, req, gate);
  }

  lemma PlanKeepsFootprint(cfg: Config, h: Host, ledger: LedgerMap, req: Request, gate: Gate)
    requires EntriesInv(ledger) && Named(At(h, Target(req)), Lookup(ledger, Target(req)), h.boot)
    requires ProcsInTrees(h)
    requires Target(req) in ledger ==> GateTruthful(h, ledger[Target(req)], At(h, Target(req)), gate)
    ensures var plan := MakePlan(cfg, ledger, req, gate);
      FootprintInv(Exec(req, if plan.Answer? then Answering(plan.response) else Calling(plan.entry, false)),
                   At(h, Target(req)), ledger, ledger, h.boot)
  {
  }

  lemma WorkKeepsFootprint(cfg: Config, s: State, f: Footprint, execed: bool, s': State)
    requires LedgerInv(s) && HostInv(s) && Next(cfg, s, Work(f, execed), s')
    ensures RunningHostInv(s')
  {
  }

  /** What the backend's answer leaves is what the next phase expects to find. */
  lemma AfterCallFootprint(req: Request, h: Host, f: Footprint, ledger: LedgerMap, entry: VMEntry, execed: bool, out: Outcome)
    requires EntriesInv(ledger) && CallingInv(Exec(req, Calling(entry, execed)), ledger)
    requires FootprintInv(Exec(req, Calling(entry, execed)), f, ledger, ledger, h.boot) && (f.procs != {} ==> f.tree)
    requires Returned(req, h, f, execed, out) && (execed ==> req.verb == StartVm)
    ensures FootprintInv(Exec(req, AfterCall(req, h, entry, execed, out)), f, ledger, ledger, h.boot)
  {
  }

  lemma CallReturnsKeepsFootprint(cfg: Config, s: State, out: Outcome, s': State)
    requires JournalInv(s) && LedgerInv(s) && HostInv(s) && Next(cfg, s, CallReturns(out), s')
    ensures RunningHostInv(s')
  {
    var x := s.daemon.exec.value;
    AfterCallFootprint(x.req, s.host, At(s.host, Target(x.req)), s.disk.seen.ledger, x.phase.entry, x.phase.execed, out);
  }

  lemma UndoReturnsKeepsFootprint(cfg: Config, s: State, ok: bool, s': State)
    requires JournalInv(s) && LedgerInv(s) && HostInv(s) && Next(cfg, s, UndoReturns(ok), s')
    ensures RunningHostInv(s')
  {
  }

  /** So does the ledger write, whichever way it goes. */
  lemma PublishFootprint(x: Exec, f: Footprint, d: Store, put: PutIo, boot: string)
    requires x.phase.Storing? && StoringInv(x, d.seen.ledger) && d.safe.ledger == d.seen.ledger
    requires FootprintInv(x, f, d.seen.ledger, d.safe.ledger, boot)
    ensures var e := Publish(d, put, Target(x.req), x.phase.next);
      FootprintInv(Exec(x.req, Answering(if put.Put? then x.phase.answer else Err(Internal))), f, e.seen.ledger, e.safe.ledger, boot)
  {
  }

  lemma WriteKeepsFootprint(cfg: Config, s: State, put: PutIo, s': State)
    requires JournalInv(s) && LedgerInv(s) && HostInv(s) && Next(cfg, s, WriteLedger(put), s')
    ensures RunningHostInv(s')
  {
    var x := s.daemon.exec.value;
    PublishFootprint(x, At(s.host, Target(x.req)), s.disk, put, s.host.boot);
  }

  /** An orphan's VM is never the running operation's VM. */
  lemma OrphanElsewhere(s: State, op: OpId)
    requires JournalInv(s) && HostInv(s) && op in s.orphans && s.daemon.Up? && s.daemon.exec.Some?
    ensures op in s.disk.seen.receipts
    ensures Target(s.disk.seen.receipts[op].request) != Target(s.daemon.exec.value.req)
  {
  }

  lemma ArriveKeepsFootprint(cfg: Config, s: State, req: Request, io: SaveIo, s': State)
    requires HostInv(s) && Next(cfg, s, Arrive(req, io), s')
    ensures RunningHostInv(s')
  {
  }

  lemma ExitKeepsFootprint(cfg: Config, s: State, v: VmId, p: Proc, s': State)
    requires HostInv(s) && Next(cfg, s, Exit(v, p), s')
    ensures RunningHostInv(s')
  {
  }

  lemma LateEffectKeepsFootprint(cfg: Config, s: State, op: OpId, f: Footprint, s': State)
    requires JournalInv(s) && HostInv(s) && Next(cfg, s, LateEffect(op, f), s')
    ensures RunningHostInv(s')
  {
    if s.daemon.Up? && s.daemon.exec.Some? { OrphanElsewhere(s, op); }
  }

  lemma StepKeepsFootprint(cfg: Config, s: State, step: Step, s': State)
    requires JournalInv(s) && LedgerInv(s) && HostInv(s) && Next(cfg, s, step, s')
    ensures RunningHostInv(s')
  {
    if step.Arrive? {
      ArriveKeepsFootprint(cfg, s, step.req, step.io, s');
    } else if step.Begin? {
      BeginKeepsFootprint(cfg, s, step.op, step.gate, step.expired, s');
    } else if step.Work? {
      WorkKeepsFootprint(cfg, s, step.f, step.execed, s');
    } else if step.CallReturns? {
      CallReturnsKeepsFootprint(cfg, s, step.out, s');
    } else if step.UndoReturns? {
      UndoReturnsKeepsFootprint(cfg, s, step.ok, s');
    } else if step.WriteLedger? {
      WriteKeepsFootprint(cfg, s, step.put, s');
    } else if step.Exit? {
      ExitKeepsFootprint(cfg, s, step.v, step.p, s');
    } else if step.LateEffect? {
      LateEffectKeepsFootprint(cfg, s, step.op, step.f, s');
    } else {
      NoExecAfter(cfg, s, step, s');
    }
  }

  lemma NoExecAfter(cfg: Config, s: State, step: Step, s': State)
    requires Next(cfg, s, step, s')
    requires step.RefuseQueued? || step.Finish? || step.Query? || step.Crash? || step.Restart?
          || step.LoadOne? || step.LoadFails? || step.LoadDone? || step.PowerLoss?
    ensures !(s'.daemon.Up? && s'.daemon.exec.Some?)
  {
  }

  // ---------------------------------------------------------------- orphans and trees

  lemma SaveKeepsOneOpen(d: Store, io: SaveIo, rec: Receipt, begun: set<OpId>)
    requires OneOpen(d.safe.receipts, begun) && begun <= d.safe.receipts.Keys
    requires Lags(d.safe.receipts, d.seen.receipts) && Extends(d, rec)
    ensures OneOpen(Save(d, io, rec).safe.receipts, begun)
  {
  }

  lemma PickKeepsOneOpen(d: Store, after: ReceiptMap, begun: set<OpId>)
    requires OneOpen(d.safe.receipts, begun) && begun <= d.safe.receipts.Keys
    requires Lags(d.safe.receipts, d.seen.receipts) && Picks(d.seen.receipts, d.safe.receipts, after)
    ensures OneOpen(after, begun)
  {
  }

  lemma FenceKeepsOneOpen(safe: ReceiptMap, begun: set<OpId>, x: Exec, records: ReceiptMap, d: Store)
    requires OneOpen(safe, begun) && safe == d.safe.receipts
    requires FenceHolds(x, records, d, begun + {x.req.opId})
    requires x.req.opId in safe ==> safe[x.req.opId].request == x.req
    ensures OneOpen(safe, begun + {x.req.opId})
  {
  }

  lemma StepKeepsOneOpen(cfg: Config, s: State, step: Step, s': State)
    requires JournalInv(s) && LedgerInv(s) && HostInv(s) && Next(cfg, s, step, s')
    ensures OneOpen(s'.disk.safe.receipts, s'.past.begun)
  {
    if Saving(s, step).Some? {
      SavedReceipt(cfg, s, step, s');
      SavedMayClose(cfg, s, step, s');
      var (io, rec) := Saving(s, step).value;
      SaveKeepsOneOpen(s.disk, io, rec, s.past.begun);
    } else if step.Begin? {
      BeginKeepsJournal(cfg, s, step.op, step.gate, step.expired, s');
      FenceKeepsOneOpen(s.disk.safe.receipts, s.past.begun, s'.daemon.exec.value, s'.daemon.records, s'.disk);
    } else if step.PowerLoss? {
      PickKeepsOneOpen(s.disk, step.after.receipts, s.past.begun);
    }
  }

  lemma ChangeKeepsTrees(h: Host, v: VmId, f: Footprint)
    requires ProcsInTrees(h) && (f.procs != {} ==> f.tree)
    ensures ProcsInTrees(WithFootprint(h, v, f))
  {
  }

  lemma StepKeepsTrees(cfg: Config, s: State, step: Step, s': State)
    requires RunningHostInv(s) && OrphansInv(s) && ProcsInTrees(s.host) && Next(cfg, s, step, s')
    ensures ProcsInTrees(s'.host)
  {
    if step.Work? {
      ChangeKeepsTrees(s.host, Target(s.daemon.exec.value.req), step.f);
    } else if step.Exit? {
      ChangeKeepsTrees(s.host, step.v, At(s.host, step.v).(procs := At(s.host, step.v).procs - {step.p}));
    } else if step.LateEffect? {
      assert OrphanInv(step.op, s.host, s.disk, s.past.begun);
      ChangeKeepsTrees(s.host, Target(s.disk.seen.receipts[step.op].request), step.f);
    } else if step.Restart? {
      assert forall v :: At(s'.host, v) == At(s.host, v);
    }
  }

  /** The journal never settles an orphan. */
  lemma SavedIsNoOrphan(cfg: Config, s: State, step: Step, s': State)
    requires JournalInv(s) && LedgerInv(s) && HostInv(s) && Next(cfg, s, step, s')
    ensures Saving(s, step).Some? ==>
      var (_, rec) := Saving(s, step).value;
      rec.request.opId in s.orphans ==> Uncertain(rec)
  {
  }

  lemma SaveKeepsOrphans(orphans: set<OpId>, h: Host, d: Store, io: SaveIo, rec: Receipt, begun: set<OpId>)
    requires forall op :: op in orphans ==> OrphanInv(op, h, d, begun)
    requires rec.request.opId in orphans ==> Uncertain(rec)
    requires rec.request.opId in d.seen.receipts ==> d.seen.receipts[rec.request.opId].request == rec.request
    ensures forall op :: op in orphans ==> OrphanInv(op, h, Save(d, io, rec), begun)
  {
  }

  lemma OrphanUntouched(op: OpId, h: Host, d: Store, begun: set<OpId>, v: VmId, f: Footprint, put: PutIo, next: Option<VMEntry>)
    requires OrphanInv(op, h, d, begun) && Target(d.seen.receipts[op].request) != v
    ensures OrphanInv(op, WithFootprint(h, v, f), d, begun)
    ensures OrphanInv(op, h, Publish(d, put, v, next), begun)
  {
  }

  lemma WorkKeepsOrphans(cfg: Config, s: State, f: Footprint, execed: bool, s': State)
    requires JournalInv(s) && HostInv(s) && Next(cfg, s, Work(f, execed), s')
    ensures forall op :: op in s'.orphans ==> OrphanInv(op, s'.host, s'.disk, s'.past.begun)
  {
    forall op | op in s.orphans
      ensures OrphanInv(op, s'.host, s'.disk, s'.past.begun)
    {
      OrphanElsewhere(s, op);
      OrphanUntouched(op, s.host, s.disk, s.past.begun, Target(s.daemon.exec.value.req), f, Put, None);
    }
  }

  lemma WriteKeepsOrphans(cfg: Config, s: State, put: PutIo, s': State)
    requires JournalInv(s) && HostInv(s) && Next(cfg, s, WriteLedger(put), s')
    ensures forall op :: op in s'.orphans ==> OrphanInv(op, s'.host, s'.disk, s'.past.begun)
  {
    forall op | op in s.orphans
      ensures OrphanInv(op, s'.host, s'.disk, s'.past.begun)
    {
      var x := s.daemon.exec.value;
      OrphanElsewhere(s, op);
      OrphanUntouched(op, s.host, s.disk, s.past.begun, Target(x.req), At(s.host, Target(x.req)), put, x.phase.next);
    }
  }

  lemma CutLooseIsOpen(s: State, op: OpId)
    requires JournalInv(s) && LedgerInv(s) && RunningHostInv(s) && op in CutLoose(s.daemon)
    ensures OrphanInv(op, s.host, s.disk, s.past.begun)
  {
    RunningIsOpen(s);
    var x := s.daemon.exec.value;
    assert Queued(op, x.req, s.daemon.records, s.disk);
    assert x.phase.Undoing? ==> x.req.verb != ReleaseVm by {
      assert CallingInv(x, s.disk.seen.ledger);
    }
  }

  lemma CrashKeepsOrphans(cfg: Config, s: State, s': State)
    requires JournalInv(s) && LedgerInv(s) && HostInv(s) && Next(cfg, s, Crash, s')
    ensures forall op :: op in s'.orphans ==> OrphanInv(op, s'.host, s'.disk, s'.past.begun)
  {
    forall op | op in s'.orphans
      ensures OrphanInv(op, s'.host, s'.disk, s'.past.begun)
    {
      if op in s.orphans {
        assert OrphanInv(op, s.host, s.disk, s.past.begun);
      } else {
        CutLooseIsOpen(s, op);
      }
    }
  }

  lemma StepKeepsOrphans(cfg: Config, s: State, step: Step, s': State)
    requires JournalInv(s) && LedgerInv(s) && HostInv(s) && Next(cfg, s, step, s')
    ensures forall op :: op in s'.orphans ==> OrphanInv(op, s'.host, s'.disk, s'.past.begun)
  {
    if Saving(s, step).Some? {
      SavedReceipt(cfg, s, step, s');
      SavedMayClose(cfg, s, step, s');
      SavedIsNoOrphan(cfg, s, step, s');
      var (io, rec) := Saving(s, step).value;
      SaveKeepsOrphans(s.orphans, s.host, s.disk, io, rec, s.past.begun);
      assert s'.orphans == s.orphans;
    } else if step.Work? {
      WorkKeepsOrphans(cfg, s, step.f, step.execed, s');
    } else if step.WriteLedger? {
      WriteKeepsOrphans(cfg, s, step.put, s');
    } else if step.Crash? {
      CrashKeepsOrphans(cfg, s, s');
    } else if step.LateEffect? {
      LateEffectKeepsOrphans(cfg, s, step.op, step.f, s');
    } else {
      IdleKeepsOrphans(cfg, s, step, s');
    }
  }

  lemma IdleKeepsOrphans(cfg: Config, s: State, step: Step, s': State)
    requires OrphansInv(s) && Next(cfg, s, step, s') && Saving(s, step).None?
    requires !step.Work? && !step.WriteLedger? && !step.Crash? && !step.LateEffect?
    ensures forall op :: op in s'.orphans ==> OrphanInv(op, s'.host, s'.disk, s'.past.begun)
  {
    if step.Restart? {
      assert forall v :: At(s'.host, v) == At(s.host, v);
    } else if step.Exit? {
      assert forall w :: At(s'.host, w).procs <= At(s.host, w).procs;
    }
  }

  lemma LateEffectKeepsOrphans(cfg: Config, s: State, op: OpId, f: Footprint, s': State)
    requires JournalInv(s) && HostInv(s) && Next(cfg, s, LateEffect(op, f), s')
    ensures forall o :: o in s'.orphans ==> OrphanInv(o, s'.host, s'.disk, s'.past.begun)
  {
    forall o | o in s.orphans
      ensures OrphanInv(o, s'.host, s'.disk, s'.past.begun)
    {
      assert OrphanInv(o, s.host, s.disk, s.past.begun) && OrphanInv(op, s.host, s.disk, s.past.begun);
    }
  }

  lemma RunningIsNoOrphan(cfg: Config, s: State, step: Step, s': State)
    requires JournalInv(s) && HostInv(s) && Next(cfg, s, step, s')
    ensures s'.daemon.Up? && s'.daemon.exec.Some? ==> s'.daemon.exec.value.req.opId !in s'.orphans
  {
  }
}
