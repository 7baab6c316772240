/** Where privd promises less than one might read into it. */
module PrivdLimits {
  import opened Wire
  import opened Ledger
  import opened Handlers
  import opened Privd
  import opened PrivdInvariant
  import opened PrivdTheorems

  // ---------------------------------------------------------------- outcomes

  /** Readers see an outcome of `op`. */
  predicate Shown(d: Store, op: OpId) { op in d.seen.receipts && Final(d.seen.receipts[op]) }

  /** A receipt was journalled, whosever it is, and the journal's directory synced; or a
      power loss passed. */
  predicate Syncs(s: State, step: Step) {
    step.PowerLoss? || (Saving(s, step).Some? && Saving(s, step).value.0.Saved?)
  }

  ghost predicate SyncedSince(states: seq<State>, steps: seq<Step>, i: nat, op: OpId)
    requires |states| == |steps| + 1 && i < |states|
  {
    exists k :: 0 <= k < i && Syncs(states[k], steps[k]) && Shown(states[k + 1].disk, op)
  }

  lemma SyncedIsSafe(cfg: Config, s: State, step: Step, s': State)
    requires Next(cfg, s, step, s') && Syncs(s, step)
    ensures s'.disk.safe.receipts == s'.disk.seen.receipts
  {
  }

  lemma OnlySyncsSettle(cfg: Config, s: State, step: Step, s': State)
    requires Next(cfg, s, step, s') && !Syncs(s, step)
    ensures s'.disk.safe.receipts == s.disk.safe.receipts
  {
  }

  lemma {:induction false} SafeIffSynced(cfg: Config, states: seq<State>, steps: seq<Step>, i: nat, op: OpId)
    requires IsRun(cfg, states, steps) && i < |states|
    ensures op in states[i].disk.safe.receipts && Final(states[i].disk.safe.receipts[op]) <==> SyncedSince(states, steps, i, op)
  {
    if i > 0 {
      var (s, s') := (states[i - 1], states[i]);
      assert Next(cfg, s, steps[i - 1], states[i - 1 + 1]);
      SafeIffSynced(cfg, states, steps, i - 1, op);
      RunKeepsInv(cfg, states, steps, i);
      if op in s.disk.safe.receipts && Final(s.disk.safe.receipts[op]) {
        SettledForever(cfg, states, steps, i - 1, i, op);
      } else if Syncs(s, steps[i - 1]) {
        SyncedIsSafe(cfg, s, steps[i - 1], s');
      } else {
        OnlySyncsSettle(cfg, s, steps[i - 1], s');
      }
    }
  }

  /** A visible outcome is there after every power loss exactly when, since it became
      visible, some receipt was journalled with its sync or a power loss let it stand. */
  lemma OutcomePermanentIff(cfg: Config, states: seq<State>, steps: seq<Step>, i: nat, op: OpId, boot: string)
    requires IsRun(cfg, states, steps) && i < |states| && boot != states[i].host.boot && Shown(states[i].disk, op)
    ensures var s := states[i];
      (forall after, s' :: Next(cfg, s, PowerLoss(boot, after), s') ==>
         Lookup(s'.disk.seen.receipts, op) == Lookup(s.disk.seen.receipts, op))
      <==> SyncedSince(states, steps, i, op)
  {
    RunKeepsInv(cfg, states, steps, i);
    PermanentIff(cfg, states[i], op, boot);
    SafeIffSynced(cfg, states, steps, i, op);
  }

  /** An execution answered with a definite outcome has that outcome journalled in every
      later state, whatever crashes and power losses come. */
  lemma DefiniteAnswerPermanent(cfg: Config, states: seq<State>, steps: seq<Step>, i: nat, j: nat)
    requires IsRun(cfg, states, steps) && i < j < |states| && steps[i].Finish?
    ensures states[i].daemon.Up? && states[i].daemon.exec.Some? && states[i].daemon.exec.value.phase.Answering?
    ensures var x := states[i].daemon.exec.value;
      var said := if steps[i].io.Saved? && Definite(x.phase.response) then x.phase.response else Err(OutcomeUnknown);
      && (x.req, said) in states[i + 1].past.replies
      && (said != Err(OutcomeUnknown) ==>
            && Lookup(states[j].disk.seen.receipts, x.req.opId) == Some(FinalReceipt(x.req, said))
            && Lookup(states[j].disk.safe.receipts, x.req.opId) == Some(FinalReceipt(x.req, said)))
  {
    assert Next(cfg, states[i], steps[i], states[i + 1]);
    var x := states[i].daemon.exec.value;
    if steps[i].io.Saved? && Definite(x.phase.response) && i + 1 < j {
      SettledForever(cfg, states, steps, i + 1, j, x.req.opId);
    }
  }

  lemma PermanentIff(cfg: Config, s: State, op: OpId, boot: string)
    requires Inv(s) && op in s.disk.seen.receipts && Final(s.disk.seen.receipts[op]) && boot != s.host.boot
    ensures (forall after, s' :: Next(cfg, s, PowerLoss(boot, after), s') ==>
               Lookup(s'.disk.seen.receipts, op) == Lookup(s.disk.seen.receipts, op))
      <==> op in s.disk.safe.receipts && Final(s.disk.safe.receipts[op])
  {
    if !(op in s.disk.safe.receipts && Final(s.disk.safe.receipts[op])) {
      var s' := s.(host := AfterPowerLoss(s.host, boot), disk := Store(s.disk.safe, s.disk.safe),
                   daemon := Down, orphans := {});
      assert Next(cfg, s, PowerLoss(boot, s.disk.safe), s');
    } else {
      forall after, s' | Next(cfg, s, PowerLoss(boot, after), s')
        ensures Lookup(s'.disk.seen.receipts, op) == Lookup(s.disk.seen.receipts, op)
      {
        StepKeepsSettled(cfg, s, PowerLoss(boot, after), s');
      }
    }
  }

  // ---------------------------------------------------------------- readability

  /** handleStartVM bounds the uid by its configured range and does not look at the gid; the
      ledger it goes on to write can be read back exactly when neither is negative and the
      start time is a number. An entry that cannot be read refuses every later claim. */
  lemma StartLeavesLedgerReadableIff(cfg: Config, ledger: LedgerMap, req: Request, h: Host, pid: int, startTime: string)
    requires req.verb == StartVm && PlanStart(cfg, ledger, req).Call? && pid > 0
    ensures var phase := AfterCall(req, h, PlanStart(cfg, ledger, req).entry, true, Started(pid, startTime));
      AllReadable(Written(ledger, Target(req), phase.next)) <==>
        req.payload.uid >= 0 && req.payload.gid >= 0 && IsUint64(startTime)
  {
    var v := Target(req);
    var phase := AfterCall(req, h, PlanStart(cfg, ledger, req).entry, true, Started(pid, startTime));
    var ledger' := Written(ledger, v, phase.next);
    assert v in ledger' && forall w :: w in ledger' && w != v ==> w in ledger && ledger'[w] == ledger[w];
  }

  /** A gid of -1 is let through, and the entry written for it is unreadable. */
  lemma NegativeGidAccepted(h: Host)
    ensures var ledger: LedgerMap := map["v" := VMEntry("a", "", "v", 0, 0, 0, 0, "", "", "", "c")];
      var req := Request("s", StartVm, Payload("v", "", 100, -1, 3, "", [], "v", {}));
      var plan := PlanStart(Config(100, 200), ledger, req);
      && plan.Call?
      && !AllReadable(Written(ledger, "v", AfterCall(req, h, plan.entry, true, Started(7, "1")).next))
  {
    var ledger: LedgerMap := map["v" := VMEntry("a", "", "v", 0, 0, 0, 0, "", "", "", "c")];
    var req := Request("s", StartVm, Payload("v", "", 100, -1, 3, "", [], "v", {}));
    assert IdentityScan(ledger, 100, 3).Free?;
    StartLeavesLedgerReadableIff(Config(100, 200), ledger, req, h, 7, "1");
  }

  const VM := "v"
  const RELEASE := Request("r", ReleaseVm, Payload(VM, "", 0, 0, 0, "", [], "", {}))

  const PENDING: ReceiptMap := map["r" := PendingReceipt(RELEASE)]
  const REFUSED: ReceiptMap := map["r" := FinalReceipt(RELEASE, Err(NotFound))]

  /** A booted host with an empty ledger, and privd with the given journal. */
  function Serving(h: Host, seen: ReceiptMap, safe: ReceiptMap, daemon: Daemon, past: History): State {
    State(h, Store(Disk(map[], seen), Disk(map[], safe)), daemon, {}, past)
  }

  const NOTHING := History([], {}, {}, map[], {}, {})
  const BEGUN := History([RELEASE], {"r"}, {}, map[], {}, {})

  lemma ReleaseIsRefused(cfg: Config, h: Host)
    ensures ValidId("r") && MakePlan(cfg, map[], RELEASE, Dead) == Answer(Err(NotFound))
    ensures Next(cfg, Serving(h, map[], map[], Up(map[], false, {}, None), NOTHING), Arrive(RELEASE, Saved),
                 Serving(h, PENDING, PENDING, Up(PENDING, false, {"r"}, None), NOTHING))
  {
    var none: ReceiptMap := map[];
    assert none["r" := PendingReceipt(RELEASE)] == PENDING;
    assert {} + {"r"} == {"r"};
  }

  lemma ReleaseEnds(cfg: Config, h: Host)
    ensures Next(cfg, Serving(h, PENDING, PENDING, Up(PENDING, false, {"r"}, None), NOTHING), Begin("r", Dead, false),
                 Serving(h, PENDING, PENDING, Up(PENDING, false, {}, Some(Exec(RELEASE, Answering(Err(NotFound))))), BEGUN))
    ensures Next(cfg, Serving(h, PENDING, PENDING, Up(PENDING, false, {}, Some(Exec(RELEASE, Answering(Err(NotFound))))), BEGUN),
                 Finish(WriteFailed(true)),
                 Serving(h, REFUSED, PENDING, Up(PENDING, true, {}, None), BEGUN.(replies := {(RELEASE, Err(OutcomeUnknown))})))
  {
    ReleaseIsRefused(cfg, h);
  }

  /** From boot to a release of an unknown VM whose final receipt is renamed into place
      but whose directory sync then fails. */
  lemma UnsyncedOutcomeRun(cfg: Config, boot: Host, ns: string) returns (states: seq<State>, steps: seq<Step>)
    requires boot.vms == map[]
    ensures IsRun(cfg, states, steps) && |steps| == 5
    ensures states[5] == Serving(boot.(ns := ns), REFUSED, PENDING, Up(PENDING, true, {}, None),
                                 BEGUN.(replies := {(RELEASE, Err(OutcomeUnknown))}))
  {
    var h := boot.(ns := ns);
    ReleaseIsRefused(cfg, h);
    ReleaseEnds(cfg, h);
    var none: ReceiptMap := map[];
    assert none.Keys == {};
    states := [Serving(boot, map[], map[], Down, NOTHING),
               Serving(h, map[], map[], Loading({}, map[]), NOTHING),
               Serving(h, map[], map[], Up(map[], false, {}, None), NOTHING),
               Serving(h, PENDING, PENDING, Up(PENDING, false, {"r"}, None), NOTHING),
               Serving(h, PENDING, PENDING, Up(PENDING, false, {}, Some(Exec(RELEASE, Answering(Err(NotFound))))), BEGUN),
               Serving(h, REFUSED, PENDING, Up(PENDING, true, {}, None), BEGUN.(replies := {(RELEASE, Err(OutcomeUnknown))}))];
    steps := [Restart(ns), LoadDone, Arrive(RELEASE, Saved), Begin("r", Dead, false), Finish(WriteFailed(true))];
  }

  /** So an outcome that a restarted daemon reports as failed, and answers a repeated request
      with, can be pending again after a power loss: a final receipt is not final merely by
      being visible, and only the execution's own definite answer is a promise. */
  lemma OutcomeCanBeLost(cfg: Config, h: Host, ns: string, boot: string) returns (states: seq<State>, steps: seq<Step>)
    requires h.vms == map[] && boot != h.boot
    ensures IsRun(cfg, states, steps) && |steps| == 11
    ensures states[9].daemon.Up? && QueryReply(states[9].daemon, "r") == Answered(Failed, Some(Err(NotFound)))
    ensures steps[9] == Arrive(RELEASE, Saved) && states[10] == Reply(states[9], RELEASE, Err(NotFound))
    ensures states[11].disk.seen.receipts == map["r" := PendingReceipt(RELEASE)]
  {
    states, steps := ReloadedRun(cfg, h, ns);
    var s10, s11 := Replayed(cfg, states[9], boot);
    states, steps := RunMore(cfg, states, steps, Arrive(RELEASE, Saved), s10);
    states, steps := RunMore(cfg, states, steps, PowerLoss(boot, states[9].disk.safe), s11);
  }

  lemma ReloadedRun(cfg: Config, h: Host, ns: string) returns (states: seq<State>, steps: seq<Step>)
    requires h.vms == map[]
    ensures IsRun(cfg, states, steps) && |steps| == 9 && states[9].host.boot == h.boot
    ensures states[9].daemon == Up(REFUSED, false, {}, None)
    ensures states[9].disk.seen.receipts == REFUSED && states[9].disk.safe.receipts == PENDING
  {
    states, steps := UnsyncedOutcomeRun(cfg, h, ns);
    var s6, s7, s8, s9 := Reloads(cfg, states[5], ns);
    states, steps := RunMore(cfg, states, steps, Crash, s6);
    states, steps := RunMore(cfg, states, steps, Restart(ns), s7);
    states, steps := RunMore(cfg, states, steps, LoadOne("r", Saved), s8);
    states, steps := RunMore(cfg, states, steps, LoadDone, s9);
  }

  lemma RunMore(cfg: Config, states: seq<State>, steps: seq<Step>, step: Step, s': State)
    returns (longer: seq<State>, taken: seq<Step>)
    requires IsRun(cfg, states, steps) && Next(cfg, states[|steps|], step, s')
    ensures longer == states + [s'] && taken == steps + [step] && IsRun(cfg, longer, taken)
  {
    longer, taken := states + [s'], steps + [step];
  }

  lemma Reloads(cfg: Config, s: State, ns: string) returns (s6: State, s7: State, s8: State, s9: State)
    requires s.daemon == Up(PENDING, true, {}, None) && s.disk.seen.receipts == REFUSED
    ensures Next(cfg, s, Crash, s6) && Next(cfg, s6, Restart(ns), s7)
    ensures Next(cfg, s7, LoadOne("r", Saved), s8) && Next(cfg, s8, LoadDone, s9)
    ensures s9.daemon == Up(REFUSED, false, {}, None) && s9.disk == s.disk && s9.host == s.host.(ns := ns)
  {
    s6 := s.(daemon := Down, orphans := s.orphans + CutLoose(s.daemon));
    s7 := s6.(daemon := Loading(REFUSED.Keys, map[]), host := s.host.(ns := ns));
    s8 := DoLoadOne(s7, "r", Saved);
    s9 := s8.(daemon := Up(s8.daemon.records, false, {}, None));
    var none: ReceiptMap := map[];
    assert none["r" := REFUSED["r"]] == REFUSED && s8.daemon.todo == {};
  }

  lemma Replayed(cfg: Config, s: State, boot: string) returns (s': State, s'': State)
    requires s.daemon == Up(REFUSED, false, {}, None) && s.disk.seen.receipts == REFUSED && s.disk.safe.receipts == PENDING
    requires s.host.boot != boot
    ensures Next(cfg, s, Arrive(RELEASE, Saved), s') && s' == Reply(s, RELEASE, Err(NotFound))
    ensures Next(cfg, s', PowerLoss(boot, s.disk.safe), s'') && s''.disk.seen.receipts == PENDING
  {
    ReleaseIsRefused(cfg, s.host);
    s' := Reply(s, RELEASE, Err(NotFound));
    s'' := s'.(host := AfterPowerLoss(s.host, boot), disk := Store(s.disk.safe, s.disk.safe), daemon := Down, orphans := {});
  }
}
