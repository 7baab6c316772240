/** Every step keeps the journal's invariant. */
module PrivdJournal {
  import opened Wire
  import opened Ledger
  import opened Handlers
  import opened Privd
  import opened PrivdInvariant

  lemma ArriveKeepsJournal(s: State, req: Request, io: SaveIo, s': State)
    requires JournalInv(s) && s.daemon.Up? && s' == DoArrive(s, req, io)
    ensures JournalInv(s')
  {
    if Admit(s.daemon.records, s.daemon.failed, req).Journal? {
      SaveKeepsDisk(s.disk, io, PendingReceipt(req));
    }
  }

  lemma RefuseKeepsJournal(s: State, op: OpId, io: SaveIo, s': State)
    requires JournalInv(s) && MutexFree(s.daemon) && op in s.daemon.waiting && op in s.daemon.records
    requires s' == DoRefuse(s, op, io)
    ensures JournalInv(s')
  {
  }

  lemma BeginKeepsJournal(cfg: Config, s: State, op: OpId, gate: Gate, expired: bool, s': State)
    requires JournalInv(s)
    requires Next(cfg, s, Begin(op, gate, expired), s')
    ensures JournalInv(s')
  {
  }

  /** A receipt that agrees with what is journalled of its operation. */
  ghost predicate Agrees(rs: ReceiptMap, rec: Receipt) {
    var op := rec.request.opId;
    && (Final(rec) <==> rec.response.Some?)
    && (rec.response.Some? ==> (rec.state == Succeeded <==> rec.response.value.Ok?))
    && (op in rs ==> rs[op].request == rec.request && (Final(rs[op]) ==> rs[op] == rec))
  }

  lemma SaveKeepsDisk(d: Store, io: SaveIo, rec: Receipt)
    requires WellShaped(d.seen.receipts) && WellShaped(d.safe.receipts) && Lags(d.safe.receipts, d.seen.receipts)
    requires Agrees(d.seen.receipts, rec)
    ensures var e := Save(d, io, rec);
      && WellShaped(e.seen.receipts) && WellShaped(e.safe.receipts) && Lags(e.safe.receipts, e.seen.receipts)
      && d.safe.receipts.Keys <= e.safe.receipts.Keys
  {
  }

  lemma FinishKeepsJournal(s: State, io: SaveIo, s': State)
    requires JournalInv(s) && s.daemon.Up? && s.daemon.exec.Some? && s.daemon.exec.value.phase.Answering?
    requires s' == DoFinish(s, io)
    ensures JournalInv(s')
  {
    var x := s.daemon.exec.value;
    var rec := FinalReceipt(x.req, x.phase.response);
    SaveKeepsDisk(s.disk, io, rec);
    FinishKeepsDaemon(s, io, s');
  }

  lemma FinishKeepsDaemon(s: State, io: SaveIo, s': State)
    requires s.daemon.Up? && s.daemon.exec.Some? && s.daemon.exec.value.phase.Answering?
    requires DaemonInv(s.daemon, s.disk, s.past.begun) && s' == DoFinish(s, io)
    ensures DaemonInv(s'.daemon, s'.disk, s'.past.begun)
  {
  }

  lemma QueryKeepsJournal(cfg: Config, s: State, op: OpId, io: SaveIo, s': State)
    requires JournalInv(s) && Next(cfg, s, Query(op, io), s')
    ensures JournalInv(s')
  {
    SaveKeepsDisk(s.disk, io, Recover(s.disk.seen.ledger, s.daemon.records[op]));
  }

  lemma LoadOneKeepsJournal(s: State, op: OpId, io: SaveIo, s': State)
    requires JournalInv(s) && s.daemon.Loading? && op in s.daemon.todo && op in s.disk.seen.receipts
    requires s' == DoLoadOne(s, op, io)
    ensures JournalInv(s')
  {
  }

  lemma HostKeepsJournal(cfg: Config, s: State, step: Step, s': State)
    requires JournalInv(s) && Next(cfg, s, step, s') && (step.Exit? || step.LateEffect?)
    ensures JournalInv(s')
  {
  }

  lemma BackendKeepsJournal(cfg: Config, s: State, step: Step, s': State)
    requires JournalInv(s) && Next(cfg, s, step, s') && (step.Work? || step.CallReturns? || step.UndoReturns?)
    ensures JournalInv(s')
  {
    assert s'.disk == s.disk && s'.past.begun == s.past.begun;
    assert s'.daemon == s.daemon.(exec := s'.daemon.exec) && s'.daemon.exec.Some?;
    PhaseKeepsDaemon(s.daemon, s'.daemon, s.disk, s.past.begun);
  }

  lemma PhaseKeepsDaemon(d: Daemon, d': Daemon, disk: Store, begun: set<OpId>)
    requires DaemonInv(d, disk, begun) && d.Up? && d'.Up? && d.exec.Some? && !d.exec.value.phase.Answering?
    requires d' == d.(exec := d'.exec) && d'.exec.Some? && d'.exec.value.req == d.exec.value.req
    ensures DaemonInv(d', disk, begun)
  {
  }

  lemma WriteKeepsJournal(cfg: Config, s: State, put: PutIo, s': State)
    requires JournalInv(s) && Next(cfg, s, WriteLedger(put), s')
    ensures JournalInv(s')
  {
  }

  lemma OutageKeepsJournal(cfg: Config, s: State, step: Step, s': State)
    requires JournalInv(s) && Next(cfg, s, step, s')
    requires step.Crash? || step.Restart? || step.LoadFails? || step.LoadDone? || step.PowerLoss?
    ensures JournalInv(s')
  {
  }

  lemma StepKeepsJournal(cfg: Config, s: State, step: Step, s': State)
    requires JournalInv(s) && Next(cfg, s, step, s')
    ensures JournalInv(s')
  {
    if step.Arrive? {
      ArriveKeepsJournal(s, step.req, step.io, s');
    } else if step.RefuseQueued? {
      RefuseKeepsJournal(s, step.op, step.io, s');
    } else if step.Begin? {
      BeginKeepsJournal(cfg, s, step.op, step.gate, step.expired, s');
    } else if step.Finish? {
      FinishKeepsJournal(s, step.io, s');
    } else if step.Query? {
      QueryKeepsJournal(cfg, s, step.op, step.io, s');
    } else if step.LoadOne? {
      LoadOneKeepsJournal(s, step.op, step.io, s');
    } else if step.Crash? || step.Restart? || step.LoadFails? || step.LoadDone? || step.PowerLoss? {
      OutageKeepsJournal(cfg, s, step, s');
    } else if step.WriteLedger? {
      WriteKeepsJournal(cfg, s, step.put, s');
    } else if step.Exit? || step.LateEffect? {
      HostKeepsJournal(cfg, s, step, s');
    } else {
      BackendKeepsJournal(cfg, s, step, s');
    }
  }
}
