/** privd's own steps keep what the adapter relies on. */
module AdapterPrivdSteps {
  import opened Wire
  import opened Ledger
  import opened Handlers
  import opened Privd
  import opened PrivdInvariant
  import opened PrivdLedger
  import opened PrivdHost
  import opened PrivdTheorems
  import opened Adapter
  import opened AdapterInvariant

  // ---------------------------------------------------------------- requests and replies

  predicate Waits(p: State, req: Request) {
    p.daemon.Up? && req.opId in p.daemon.waiting && req.opId in p.daemon.records && p.daemon.records[req.opId].request == req
  }

  predicate Executes(p: State, req: Request) {
    p.daemon.Up? && p.daemon.exec.Some? && p.daemon.exec.value.req == req
  }

  lemma QueueShrinks(cfg: Config, p: State, ps: Step, p': State, req: Request)
    requires JournalInv(p) && Next(cfg, p, ps, p')
    ensures Waits(p', req) ==> Waits(p, req) || (ps.Arrive? && ps.req == req)
    ensures Executes(p', req) ==> Executes(p, req) || Waits(p, req)
  {
  }

  lemma OrphanWasLive(cfg: Config, p: State, ps: Step, p': State, req: Request)
    requires JournalInv(p) && Next(cfg, p, ps, p') && (req.opId in p.orphans ==> req.opId in p.disk.seen.receipts)
    requires req.opId in p'.orphans && req.opId in p'.disk.seen.receipts && p'.disk.seen.receipts[req.opId].request == req
    ensures LiveInPrivd(p, req)
  {
    if ps.Crash? {
      CutLooseWasLive(p, req);
    } else {
      OrphansOnlyShrink(cfg, p, ps, p');
      NewReceipts(cfg, p, ps, p', req.opId);
    }
  }

  lemma OrphansOnlyShrink(cfg: Config, p: State, ps: Step, p': State)
    requires Next(cfg, p, ps, p') && !ps.Crash?
    ensures p'.orphans == p.orphans || (ps.PowerLoss? && p'.orphans == {})
  {
  }

  lemma CutLooseWasLive(p: State, req: Request)
    requires JournalInv(p) && req.opId in p.orphans + CutLoose(p.daemon)
    requires req.opId in p.disk.seen.receipts && p.disk.seen.receipts[req.opId].request == req
    ensures LiveInPrivd(p, req)
  {
  }

  lemma QueueOnlyShrinks(cfg: Config, p: State, ps: Step, p': State, req: Request)
    requires JournalInv(p) && OrphansInv(p) && Next(cfg, p, ps, p') && LiveInPrivd(p', req)
    ensures LiveInPrivd(p, req) || (ps.Arrive? && ps.req == req)
  {
    if Waits(p', req) || Executes(p', req) {
      QueueShrinks(cfg, p, ps, p', req);
    } else {
      OrphanWasLive(cfg, p, ps, p', req);
    }
  }

  /** Only a request just read adds a receipt; every other receipt keeps its request. */
  lemma SavedKnown(cfg: Config, p: State, ps: Step, p': State)
    requires JournalInv(p) && Next(cfg, p, ps, p')
    ensures Saving(p, ps).Some? ==>
      var (io, rec) := Saving(p, ps).value;
      && p'.disk == Save(p.disk, io, rec)
      && if ps.Arrive? then rec.request == ps.req
         else rec.request.opId in p.disk.seen.receipts && p.disk.seen.receipts[rec.request.opId].request == rec.request
    ensures Saving(p, ps).None? && !ps.PowerLoss? ==> p'.disk.seen.receipts == p.disk.seen.receipts
  {
  }

  lemma NewReceipts(cfg: Config, p: State, ps: Step, p': State, op: OpId)
    requires JournalInv(p) && Next(cfg, p, ps, p') && !ps.PowerLoss? && op in p'.disk.seen.receipts
    ensures
      || (op in p.disk.seen.receipts && p'.disk.seen.receipts[op].request == p.disk.seen.receipts[op].request)
      || (ps.Arrive? && p'.disk.seen.receipts[op].request == ps.req && op == ps.req.opId && op !in p.disk.seen.receipts)
  {
    SavedKnown(cfg, p, ps, p');
  }

  /** Who gets a reply, and when. */
  lemma NewReplies(cfg: Config, p: State, ps: Step, p': State, reply: (Request, Response))
    requires JournalInv(p) && Next(cfg, p, ps, p') && reply in p'.past.replies && reply !in p.past.replies
    ensures
      || (ps.Arrive? && reply.0 == ps.req
          && (Admit(p.daemon.records, p.daemon.failed, ps.req) == Replied(reply.1) || reply.1 == Err(OutcomeUnknown)))
      || (ps.RefuseQueued? && reply.0 == p.daemon.records[ps.op].request && reply.1.Err?
          && reply.1.cause in {InvalidState, OutcomeUnknown})
      || (ps.Finish? && p.daemon.exec.Some? && reply.0 == p.daemon.exec.value.req
          && (reply.1 == p.daemon.exec.value.phase.response || reply.1 == Err(OutcomeUnknown)))
  {
  }

  /** A claim becomes live in privd only by being read from the socket. */
  lemma LiveOnlyShrinks(site: Site, w: World, ps: Step, w': World, req: Request)
    requires Inv(w.p) && PeerStep(site, w, ps, w') && Live(w', req)
    ensures Live(w, req)
  {
    if LiveInPrivd(w'.p, req) { QueueOnlyShrinks(site.privd, w.p, ps, w'.p, req); }
  }

  lemma StepKeepsTraffic(site: Site, w: World, ps: Step, w': World)
    requires JournalInv(w.p) && Traffic(w) && PeerStep(site, w, ps, w')
    ensures Traffic(w')
  {
    forall op | op in w'.p.disk.seen.receipts
      ensures
        || (op in w.p.disk.seen.receipts && w'.p.disk.seen.receipts[op].request == w.p.disk.seen.receipts[op].request)
        || (ps.Arrive? && w'.p.disk.seen.receipts[op].request == ps.req && op == ps.req.opId)
    {
      NewReceipts(site.privd, w.p, ps, w'.p, op);
    }
    forall reply | reply in w'.p.past.replies
      ensures reply.0 in w'.arrived
    {
      if reply !in w.p.past.replies {
        NewReplies(site.privd, w.p, ps, w'.p, reply);
      }
    }
  }

  /** A claim that has just been answered has left the queue, or never entered it. */
  lemma AnsweredClaimIsDone(site: Site, w: World, ps: Step, w': World, reply: (Request, Response))
    requires Inv(w.p) && Traffic(w) && PeerStep(site, w, ps, w')
    requires reply in w'.p.past.replies && reply !in w.p.past.replies
    requires Claims(reply.0.verb) && !ClientView(reply.1).Unknown_?
    ensures !LiveInPrivd(w'.p, reply.0)
  {
    NewReplies(site.privd, w.p, ps, w'.p, reply);
  }

  lemma StepKeepsDefinite(site: Site, w: World, ps: Step, w': World)
    requires Inv(w.p) && Traffic(w) && DefiniteReplies(w) && PeerStep(site, w, ps, w')
    ensures DefiniteReplies(w')
  {
    forall reply | reply in w'.p.past.replies && Claims(reply.0.verb) && !ClientView(reply.1).Unknown_?
      ensures !LiveInPrivd(w'.p, reply.0)
    {
      if reply !in w.p.past.replies {
        AnsweredClaimIsDone(site, w, ps, w', reply);
      } else if LiveInPrivd(w'.p, reply.0) {
        QueueOnlyShrinks(site.privd, w.p, ps, w'.p, reply.0);
        assert false;
      }
    }
  }

  // ---------------------------------------------------------------- quiet VMs

  /** Apart from a handler's write and a power loss, the ledger only settles. */
  lemma LedgerSettles(cfg: Config, p: State, ps: Step, p': State)
    requires Next(cfg, p, ps, p') && !ps.WriteLedger? && !ps.PowerLoss?
    ensures p'.disk.seen.ledger == p.disk.seen.ledger
    ensures p'.disk.safe.ledger == p.disk.safe.ledger || p'.disk.safe.ledger == p.disk.seen.ledger
  {
  }

  lemma WriteKeepsHalvesClear(cfg: Config, p: State, put: PutIo, p': State, v: VmId)
    requires RunningInv(p) && Next(cfg, p, WriteLedger(put), p') && HalvesClear(p, v)
    requires Target(p.daemon.exec.value.req) == v ==> p.daemon.exec.value.req.verb != StartVm
    ensures HalvesClear(p', v)
  {
  }

  /** Only a running start writes a pid for its VM. */
  lemma StepKeepsHalvesClear(cfg: Config, p: State, ps: Step, p': State, v: VmId)
    requires RunningInv(p) && Next(cfg, p, ps, p') && HalvesClear(p, v)
    requires NoneInPrivd(p, v, StartVm)
    ensures HalvesClear(p', v)
  {
    if ps.WriteLedger? {
      assert LiveInPrivd(p, p.daemon.exec.value.req);
      WriteKeepsHalvesClear(cfg, p, ps.put, p', v);
    } else if !ps.PowerLoss? {
      LedgerSettles(cfg, p, ps, p');
    }
  }

  /** Only a running start, or a child of an interrupted one, builds a tree. */
  lemma StepKeepsQuiet(cfg: Config, p: State, ps: Step, p': State, v: VmId)
    requires JournalInv(p) && RunningInv(p) && Next(cfg, p, ps, p') && Quiet(p, v)
    requires NoneInPrivd(p, v, StartVm)
    ensures Quiet(p', v)
  {
    StepKeepsHalvesClear(cfg, p, ps, p', v);
  }

  // ---------------------------------------------------------------- networks

  lemma WriteKeepsNetClear(cfg: Config, p: State, put: PutIo, p': State, v: VmId)
    requires RunningInv(p) && Next(cfg, p, WriteLedger(put), p') && NetClear(p, v)
    requires Target(p.daemon.exec.value.req) == v ==> p.daemon.exec.value.req.verb != AllocateNetwork
    ensures NetClear(p', v)
  {
  }

  /** Only a running allocation, or a child of an interrupted one, builds a network. */
  lemma StepKeepsNetClear(cfg: Config, p: State, ps: Step, p': State, v: VmId)
    requires JournalInv(p) && RunningInv(p) && Next(cfg, p, ps, p') && NetClear(p, v)
    requires NoneInPrivd(p, v, AllocateNetwork)
    ensures NetClear(p', v)
  {
    if ps.WriteLedger? {
      assert LiveInPrivd(p, p.daemon.exec.value.req);
      WriteKeepsNetClear(cfg, p, ps.put, p', v);
    } else if ps.PowerLoss? {
    } else {
      LedgerSettles(cfg, p, ps, p');
      StepKeepsNoNet(cfg, p, ps, p', v);
    }
  }

  lemma StepKeepsNoNet(cfg: Config, p: State, ps: Step, p': State, v: VmId)
    requires JournalInv(p) && Next(cfg, p, ps, p') && !At(p.host, v).net && NoneInPrivd(p, v, AllocateNetwork)
    ensures !At(p'.host, v).net
  {
    if ps.Work? {
      assert LiveInPrivd(p, p.daemon.exec.value.req);
    } else if ps.LateEffect? {
      assert LiveInPrivd(p, p.disk.seen.receipts[ps.op].request);
    }
  }

  // ---------------------------------------------------------------- releases

  predicate Finds(r: Response) { r.Ok? || r == Err(NotFound) }

  /** What a release leaves when it is answered. */
  predicate Cleared(p: State, req: Request) {
    && (req.verb == ReleaseVm ==> HalvesClear(p, Target(req)))
    && (req.verb == ReleaseNetwork ==> NetClear(p, Target(req)))
  }

  lemma FinishedReleaseClears(cfg: Config, p: State, io: SaveIo, p': State)
    requires RunningHostInv(p) && ProcsInTrees(p.host) && Next(cfg, p, Finish(io), p') && Finds(p.daemon.exec.value.phase.response)
    ensures Cleared(p', p.daemon.exec.value.req)
  {
    FinishedAnswers(cfg, p, io, p');
  }

  /** A request read for the first time is never answered from a stored outcome. */
  lemma FirstReadIsNotReplayed(site: Site, w: World, ps: Step, w': World, r: Response)
    requires JournalInv(w.p) && Traffic(w) && PeerStep(site, w, ps, w')
    requires ps.Arrive? && Admit(w.p.daemon.records, w.p.daemon.failed, ps.req) == Replied(r)
    ensures r.Err? && r.cause in {BadRequest, OutcomeUnknown, InvalidState}
  {
  }

  /** When privd answers a release with ok or not_found, that half is out of the ledger in
      both versions, and a released network off the host. */
  lemma ReleaseReplyClears(site: Site, w: World, ps: Step, w': World, reply: (Request, Response))
    requires Inv(w.p) && Traffic(w) && PeerStep(site, w, ps, w')
    requires reply in w'.p.past.replies && reply !in w.p.past.replies && Finds(reply.1)
    ensures Cleared(w'.p, reply.0)
  {
    NewReplies(site.privd, w.p, ps, w'.p, reply);
    if ps.Finish? {
      FinishedReleaseClears(site.privd, w.p, ps.io, w'.p);
    } else if ps.Arrive? {
      FirstReadIsNotReplayed(site, w, ps, w', reply.1);
      assert false;
    }
  }

  // ---------------------------------------------------------------- the two ledgers

  /** The ledger's versions differ only while some operation is unresolved: what settles a
      receipt settles the ledger directory first. */
  lemma StepKeepsLag(cfg: Config, p: State, ps: Step, p': State)
    requires JournalInv(p) && LagExplained(p.disk) && Next(cfg, p, ps, p')
    ensures LagExplained(p'.disk)
  {
    if Saving(p, ps).Some? {
      SavedKnown(cfg, p, ps, p');
    } else if ps.WriteLedger? {
      var op := p.daemon.exec.value.req.opId;
      assert op in p'.disk.seen.receipts && Uncertain(p'.disk.seen.receipts[op]);
    } else if !ps.PowerLoss? {
      SavedKnown(cfg, p, ps, p');
      LedgerSettles(cfg, p, ps, p');
    }
  }
}
