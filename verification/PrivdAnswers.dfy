/** Whatever way a client learns that its start succeeded, what it learns is the answer of
    the one execution that wrote the ledger. */
module PrivdAnswers {
  import opened Wire
  import opened Ledger
  import opened Handlers
  import opened Privd
  import opened PrivdInvariant
  import opened PrivdLedger
  import opened PrivdTheorems

  /** An answer with a pid is the one recorded with the ledger write of that operation. */
  predicate Told(r: Response, op: OpId, wrote: map<OpId, Response>) {
    r.Ok? && r.start.Some? ==> op in wrote && wrote[op] == r
  }

  predicate ToldBy(rec: Receipt, wrote: map<OpId, Response>) {
    rec.response.Some? ==> Told(rec.response.value, rec.request.opId, wrote)
  }

  ghost predicate AllTold(rs: ReceiptMap, wrote: map<OpId, Response>) {
    forall op :: op in rs ==> ToldBy(rs[op], wrote)
  }

  ghost predicate AnswerTold(d: Daemon, wrote: map<OpId, Response>) {
    d.Up? && d.exec.Some? && d.exec.value.phase.Answering? ==>
      Told(d.exec.value.phase.response, d.exec.value.req.opId, wrote)
  }

  ghost predicate DaemonTells(d: Daemon, wrote: map<OpId, Response>) {
    (!d.Down? ==> AllTold(d.records, wrote)) && AnswerTold(d, wrote)
  }

  ghost predicate RepliesTell(replies: set<(Request, Response)>, wrote: map<OpId, Response>) {
    forall reply :: reply in replies ==> Told(reply.1, reply.0.opId, wrote)
  }

  ghost predicate StartsTrue(s: State) {
    && AllTold(s.disk.seen.receipts, s.past.wrote)
    && DaemonTells(s.daemon, s.past.wrote)
    && RepliesTell(s.past.replies, s.past.wrote)
  }

  /** The receipt a step journals is true. */
  lemma SavedIsTold(cfg: Config, s: State, step: Step, s': State)
    requires JournalInv(s) && Signed(s.disk.seen.ledger, s.past.wrote) && StartsTrue(s) && Next(cfg, s, step, s')
    ensures Saving(s, step).Some? ==> ToldBy(Saving(s, step).value.1, s.past.wrote)
  {
  }

  lemma SaveKeepsTold(d: Store, io: SaveIo, rec: Receipt, wrote: map<OpId, Response>)
    requires AllTold(d.seen.receipts, wrote) && ToldBy(rec, wrote)
    ensures AllTold(Save(d, io, rec).seen.receipts, wrote)
  {
  }

  lemma PickKeepsTold(d: Store, after: ReceiptMap, wrote: map<OpId, Response>)
    requires AllTold(d.seen.receipts, wrote) && Lags(d.safe.receipts, d.seen.receipts) && WellShaped(d.safe.receipts)
    requires Picks(d.seen.receipts, d.safe.receipts, after)
    ensures AllTold(after, wrote)
  {
  }

  /** No claim is ever rewritten, so what was told stays true. */
  lemma WroteGrows(cfg: Config, s: State, step: Step, s': State)
    requires RunningInv(s) && Next(cfg, s, step, s')
    ensures forall op :: op in s.past.wrote ==> op in s'.past.wrote && s'.past.wrote[op] == s.past.wrote[op]
  {
  }

  lemma StepKeepsReceiptsTold(cfg: Config, s: State, step: Step, s': State)
    requires Inv(s) && StartsTrue(s) && Next(cfg, s, step, s')
    ensures AllTold(s'.disk.seen.receipts, s'.past.wrote)
  {
    WroteGrows(cfg, s, step, s');
    if Saving(s, step).Some? {
      SavedIsTold(cfg, s, step, s');
      SavedReceipt(cfg, s, step, s');
      var (io, rec) := Saving(s, step).value;
      SaveKeepsTold(s.disk, io, rec, s.past.wrote);
    } else if step.PowerLoss? {
      PickKeepsTold(s.disk, step.after.receipts, s.past.wrote);
    } else {
      ReceiptsKept(cfg, s, step, s');
    }
  }

  /** Where the receipts in memory come from. */
  lemma RecordsFrom(cfg: Config, s: State, step: Step, s': State, op: OpId)
    requires Next(cfg, s, step, s') && !s'.daemon.Down? && op in s'.daemon.records
    ensures
      || (!s.daemon.Down? && op in s.daemon.records && s'.daemon.records[op] == s.daemon.records[op])
      || (op in s.disk.seen.receipts && s'.daemon.records[op] == s.disk.seen.receipts[op])
      || (Saving(s, step).Some? && s'.daemon.records[op] == Saving(s, step).value.1)
  {
  }

  lemma StepKeepsAnswerTold(cfg: Config, s: State, step: Step, s': State)
    requires RunningInv(s) && AnswerTold(s.daemon, s.past.wrote) && Next(cfg, s, step, s')
    ensures AnswerTold(s'.daemon, s'.past.wrote)
  {
    if !(step.Begin? || step.Work? || step.CallReturns? || step.UndoReturns? || step.WriteLedger?) {
      ExecUntouched(cfg, s, step, s');
    }
  }

  lemma StepKeepsDaemonTells(cfg: Config, s: State, step: Step, s': State)
    requires JournalInv(s) && RunningInv(s) && Signed(s.disk.seen.ledger, s.past.wrote) && StartsTrue(s) && Next(cfg, s, step, s')
    ensures DaemonTells(s'.daemon, s'.past.wrote)
  {
    WroteGrows(cfg, s, step, s');
    SavedIsTold(cfg, s, step, s');
    StepKeepsAnswerTold(cfg, s, step, s');
    if !s'.daemon.Down? {
      forall op | op in s'.daemon.records
        ensures ToldBy(s'.daemon.records[op], s'.past.wrote)
      {
        RecordsFrom(cfg, s, step, s', op);
      }
    }
  }

  lemma StepKeepsRepliesTell(cfg: Config, s: State, step: Step, s': State)
    requires JournalInv(s) && RunningInv(s) && StartsTrue(s) && Next(cfg, s, step, s')
    ensures RepliesTell(s'.past.replies, s'.past.wrote)
  {
    WroteGrows(cfg, s, step, s');
  }

  lemma StepKeepsStartsTrue(cfg: Config, s: State, step: Step, s': State)
    requires Inv(s) && StartsTrue(s) && Next(cfg, s, step, s')
    ensures StartsTrue(s')
  {
    StepKeepsReceiptsTold(cfg, s, step, s');
    StepKeepsDaemonTells(cfg, s, step, s');
    StepKeepsRepliesTell(cfg, s, step, s');
  }

  lemma {:induction false} RunKeepsStartsTrue(cfg: Config, states: seq<State>, steps: seq<Step>, i: nat)
    requires IsRun(cfg, states, steps) && i < |states|
    ensures StartsTrue(states[i])
  {
    if i > 0 {
      RunKeepsStartsTrue(cfg, states, steps, i - 1);
      RunKeepsInv(cfg, states, steps, i - 1);
      StepKeepsStartsTrue(cfg, states[i - 1], steps[i - 1], states[i]);
    }
  }

  /** Every pid a client ever gets, as a first reply, as a replay or as the answer to a
      query, is the one the execution of that op_id wrote to the ledger. */
  lemma StartAnswersTrue(cfg: Config, states: seq<State>, steps: seq<Step>, i: nat, req: Request, start: StartResult)
    requires IsRun(cfg, states, steps) && i < |states|
    requires || (req, Ok(Some(start))) in states[i].past.replies
             || (states[i].daemon.Up? && QueryReply(states[i].daemon, req.opId) == Answered(Succeeded, Some(Ok(Some(start)))))
    ensures req.opId in states[i].past.wrote && states[i].past.wrote[req.opId] == Ok(Some(start))
  {
    RunKeepsStartsTrue(cfg, states, steps, i);
    RunKeepsInv(cfg, states, steps, i);
  }
}
