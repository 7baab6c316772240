/** What an execution answers, from its Begin to its Finish: why it was refused or that its
    backend call returned, what became of a failed call, and what the ledger has for it. */
module PrivdExecutions {
  import opened Wire
  import opened Ledger
  import opened Handlers
  import opened Privd
  import opened PrivdInvariant
  import opened PrivdLedger
  import opened PrivdTheorems

  // ---------------------------------------------------------------- courses

  /** An execution: what it found as it began, and what has come of it. `execed`: its start had
      reached the jailer when the call returned. */
  datatype Course = Course(
    ledger: LedgerMap, gate: Gate, expired: bool,
    call: Option<Outcome>, execed: bool, undo: Option<bool>, put: Option<PutIo>)

  function Onward(s: State, step: Step, c: Course): Course {
    match step
    case CallReturns(out) =>
      c.(call := Some(out),
         execed := s.daemon.Up? && s.daemon.exec.Some? && s.daemon.exec.value.phase.Calling? && s.daemon.exec.value.phase.execed)
    case UndoReturns(ok) => c.(undo := Some(ok))
    case WriteLedger(put) => c.(put := Some(put))
    case _ => c
  }

  /** The course up to state `i` of the execution that begins at step `j`. */
  function CourseOf(states: seq<State>, steps: seq<Step>, j: nat, i: nat): Course
    requires |states| == |steps| + 1 && j < i < |states| && steps[j].Begin?
    decreases i
  {
    if i == j + 1 then Course(states[j].disk.seen.ledger, steps[j].gate, steps[j].expired, None, false, None, None)
    else Onward(states[i - 1], steps[i - 1], CourseOf(states, steps, j, i - 1))
  }

  predicate Runs(s: State, req: Request) { s.daemon.Up? && s.daemon.exec.Some? && s.daemon.exec.value.req == req }

  /** From step `j` on, up to state `i`, one execution of `req` holds the mutex. */
  ghost predicate Executes(states: seq<State>, steps: seq<Step>, j: nat, i: nat, req: Request) {
    && |states| == |steps| + 1 && j < i < |states|
    && steps[j].Begin? && steps[j].op == req.opId && forall k :: j < k <= i ==> Runs(states[k], req)
  }

  // ---------------------------------------------------------------- what is accepted

  /** The request is one its handler can read, and names only what it may. */
  predicate WellFormed(cfg: Config, req: Request) {
    && Decodes(req) && ValidId(Target(req))
    && match req.verb
       case AllocateNetwork => req.payload.cidr != ""
       case StartVm =>
         && cfg.uidMin <= req.payload.uid < cfg.uidMax && req.payload.cid >= 3
         && (forall f :: f in req.payload.files ==> f in ["vmlinux", "rootfs.ext4", "config.ext4", "workspace.ext4", "fc-config.json"])
         && req.payload.stageBase == Target(req)
       case OtherVerb(_) => false
       case _ => true
  }

  predicate HasEntry(ledger: LedgerMap, v: VmId) { v in ledger && Readable(v, ledger[v]) }

  /** The backend is called: the VM has what the verb needs, nobody else has what it claims,
      and a VM to be released has no process. */
  predicate Reaches(cfg: Config, ledger: LedgerMap, req: Request, gate: Gate) {
    var v := Target(req);
    && WellFormed(cfg, req)
    && match req.verb
       case AllocateNetwork =>
         v !in ledger && AllReadable(ledger) && forall w :: w in ledger ==> ledger[w].netCidr != req.payload.cidr
       case StartVm =>
         && HasEntry(ledger, v) && ledger[v].pid == 0 && AllReadable(ledger)
         && forall w :: w in ledger ==> ledger[w].uid != req.payload.uid && ledger[w].cid != req.payload.cid
       case ReleaseVm => HasEntry(ledger, v) && gate == Dead
       case _ => HasEntry(ledger, v)
  }

  /** The ledger, or an entry it needs, cannot be read. */
  predicate Illegible(ledger: LedgerMap, req: Request) {
    var v := Target(req);
    || (v in ledger && !Readable(v, ledger[v]))
    || (req.verb == AllocateNetwork && v !in ledger && !AllReadable(ledger))
    || (req.verb == StartVm && HasEntry(ledger, v) && ledger[v].pid == 0 && !AllReadable(ledger))
  }

  /** What a request is told that does not reach the backend. */
  predicate ToldAtOnce(cfg: Config, ledger: LedgerMap, req: Request, r: Response) {
    var (v, good) := (Target(req), WellFormed(cfg, req));
    && (r.Ok? <==> good && req.verb == AllocateNetwork && HasEntry(ledger, v) && ledger[v].netCidr == req.payload.cidr)
    && (r.Ok? ==> r.start.None?)
    && (r == Err(BadRequest) <==> !good || (req.verb == StartVm && v !in ledger))
    && (r == Err(NotFound) <==> good && req.verb in {ReleaseNetwork, ReleaseVm, SignalVm} && v !in ledger)
    && (r == Err(Internal) <==> good && Illegible(ledger, req))
    && (r.Err? ==> r.cause in {BadRequest, NotFound, Internal, InvalidState})
  }

  // ---------------------------------------------------------------- what is written

  /** The entry after a call that succeeded: the half the verb is about as the request or the
      backend has it, the other half as it was, and no entry without a half. */
  predicate RecordedFor(ledger: LedgerMap, req: Request, out: Outcome, next: Option<VMEntry>) {
    var v := Target(req);
    match req.verb
    case AllocateNetwork =>
      req.payload.Payload? && next == Some(VMEntry(req.opId, "", v, 0, 0, 0, 0, "", "", "", req.payload.cidr))
    case StartVm =>
      && req.payload.Payload? && v in ledger && next.Some? && out.Started?
      && var (e, was, p) := (next.value, ledger[v], req.payload);
         && e.startOpId == req.opId && e.uid == p.uid && e.gid == p.gid && e.cid == p.cid && e.pid == out.pid && e.startTime == out.startTime
         && e.networkOpId == was.networkOpId && e.vmId == was.vmId && e.netCidr == was.netCidr
    case ReleaseNetwork =>
      && v in ledger && (next.None? <==> ledger[v].pid == 0)
      && (next.Some? ==> next.value == ledger[v].(netCidr := ""))
    case ReleaseVm =>
      && v in ledger && (next.None? <==> ledger[v].netCidr == "")
      && (next.Some? ==>
            next.value == VMEntry(ledger[v].networkOpId, ledger[v].startOpId, ledger[v].vmId, 0, 0, 0, 0, "", "", "", ledger[v].netCidr))
    case _ => false
  }

  /** The ledger after the execution: as it began, or with that entry in it. */
  predicate LedgerFits(req: Request, c: Course, now: LedgerMap) {
    if c.put.None? || c.put == Some(PutFailed(false)) then now == c.ledger
    else c.call.Some? && RecordedFor(c.ledger, req, c.call.value, Lookup(now, Target(req))) && now - {Target(req)} == c.ledger - {Target(req)}
  }

  // ---------------------------------------------------------------- what is answered

  function Stored(put: PutIo, r: Response): Response { if put.Put? then r else Err(Internal) }

  function AfterUndo(ok: bool, cause: Cause): Response { if ok then Err(cause) else Err(OutcomeUnknown) }

  /** The answer after a backend call returned `out`. A failed claim is rolled back and answered
      with its cause, unless the rollback failed or the VM may be running; what succeeded is
      written down; a signal is answered as it went. */
  predicate AnswersCall(req: Request, c: Course, out: Outcome, r: Response) {
    match req.verb
    case SignalVm => c.undo.None? && c.put.None? && r == if out.Fail? then Err(out.cause) else Ok(None)
    case ReleaseNetwork => AnswersRelease(c, out, ExecFailed, r)
    case ReleaseVm => AnswersRelease(c, out, if out.Fail? then out.cause else ExecFailed, r)
    case AllocateNetwork =>
      if out.Fail? then c.put.None? && c.undo.Some? && r == AfterUndo(c.undo.value, ExecFailed)
      else c.undo.None? && c.put.Some? && r == Stored(c.put.value, Ok(None))
    case StartVm =>
      if out.Started? then c.undo.None? && c.put.Some? && r == Stored(c.put.value, Ok(Some(StartResult(out.pid, out.startTime))))
      else if c.execed then c.undo.None? && c.put.None? && r == Err(OutcomeUnknown)
      else out.Fail? && c.put.None? && c.undo.Some? && r == AfterUndo(c.undo.value, out.cause)
    case OtherVerb(_) => false
  }

  predicate AnswersRelease(c: Course, out: Outcome, cause: Cause, r: Response) {
    && c.undo.None?
    && if out.Fail? then c.put.None? && r == Err(cause) else c.put.Some? && r == Stored(c.put.value, Ok(None))
  }

  /** The answer of a whole execution. */
  predicate AnswerFits(cfg: Config, req: Request, c: Course, r: Response) {
    if c.expired then c.call.None? && c.put.None? && r == Err(ExecFailed)
    else if c.call.None? then c.put.None? && !Reaches(cfg, c.ledger, req, c.gate) && ToldAtOnce(cfg, c.ledger, req, r)
    else Reaches(cfg, c.ledger, req, c.gate) && AnswersCall(req, c, c.call.value, r)
  }

  // ---------------------------------------------------------------- phase by phase

  /** What the entry a call is made with says. */
  predicate Carries(ledger: LedgerMap, req: Request, e: VMEntry) {
    var v := Target(req);
    match req.verb
    case AllocateNetwork => req.payload.Payload? && e == VMEntry(req.opId, "", v, 0, 0, 0, 0, "", "", "", req.payload.cidr)
    case StartVm =>
      && req.payload.Payload? && v in ledger
      && e == ledger[v].(uid := req.payload.uid, gid := req.payload.gid, cid := req.payload.cid, startOpId := req.opId)
    case _ => v in ledger && e == ledger[v]
  }

  predicate Called(cfg: Config, req: Request, c: Course) { !c.expired && Reaches(cfg, c.ledger, req, c.gate) && c.put.None? && c.undo.None? }

  predicate Justified(cfg: Config, req: Request, c: Course, phase: Phase, now: LedgerMap) {
    match phase
    case Calling(e, _) => Called(cfg, req, c) && c.call.None? && now == c.ledger && Carries(c.ledger, req, e)
    case Undoing(_, cause) =>
      && Called(cfg, req, c) && now == c.ledger && c.call.Some? && c.call.value.Fail?
      && ((req.verb == AllocateNetwork && cause == ExecFailed) || (req.verb == StartVm && !c.execed && cause == c.call.value.cause))
    case Storing(next, answer) =>
      && Called(cfg, req, c) && now == c.ledger && c.call.Some? && RecordedFor(c.ledger, req, c.call.value, next)
      && !c.call.value.Fail? && answer == if req.verb == StartVm then Ok(Some(StartResult(c.call.value.pid, c.call.value.startTime))) else Ok(None)
    case Answering(r) => AnswerFits(cfg, req, c, r) && LedgerFits(req, c, now)
  }

  lemma PlanFits(cfg: Config, ledger: LedgerMap, req: Request, gate: Gate)
    ensures var plan := MakePlan(cfg, ledger, req, gate);
      if plan.Call? then Reaches(cfg, ledger, req, gate) && Carries(ledger, req, plan.entry)
      else !Reaches(cfg, ledger, req, gate) && ToldAtOnce(cfg, ledger, req, plan.response)
  {
    assert forall f :: f in STAGED_NAMES <==> f in ["vmlinux", "rootfs.ext4", "config.ext4", "workspace.ext4", "fc-config.json"];
  }

  lemma BeginFits(cfg: Config, s: State, step: Step, s': State)
    requires Next(cfg, s, step, s') && step.Begin?
    ensures s'.daemon.Up? && s'.daemon.exec.Some? && s'.daemon.exec.value.req == s.daemon.records[step.op].request
    ensures var x := s'.daemon.exec.value;
      Justified(cfg, x.req, Course(s.disk.seen.ledger, step.gate, step.expired, None, false, None, None), x.phase, s'.disk.seen.ledger)
  {
    PlanFits(cfg, s.disk.seen.ledger, s.daemon.records[step.op].request, step.gate);
  }

  lemma CallFits(cfg: Config, s: State, step: Step, s': State, c: Course)
    requires Next(cfg, s, step, s') && step.CallReturns? && Justified(cfg, s.daemon.exec.value.req, c, s.daemon.exec.value.phase, s.disk.seen.ledger)
    ensures s'.daemon.Up? && s'.daemon.exec.Some? && s'.daemon.exec.value.req == s.daemon.exec.value.req
    ensures var x := s'.daemon.exec.value; Justified(cfg, x.req, Onward(s, step, c), x.phase, s'.disk.seen.ledger)
  {
  }

  lemma UndoFits(cfg: Config, s: State, step: Step, s': State, c: Course)
    requires Next(cfg, s, step, s') && step.UndoReturns? && Justified(cfg, s.daemon.exec.value.req, c, s.daemon.exec.value.phase, s.disk.seen.ledger)
    ensures s'.daemon.Up? && s'.daemon.exec.Some? && s'.daemon.exec.value.req == s.daemon.exec.value.req
    ensures var x := s'.daemon.exec.value; Justified(cfg, x.req, Onward(s, step, c), x.phase, s'.disk.seen.ledger)
  {
  }

  lemma WriteFits(cfg: Config, s: State, step: Step, s': State, c: Course)
    requires Next(cfg, s, step, s') && step.WriteLedger? && Justified(cfg, s.daemon.exec.value.req, c, s.daemon.exec.value.phase, s.disk.seen.ledger)
    ensures s'.daemon.Up? && s'.daemon.exec.Some? && s'.daemon.exec.value.req == s.daemon.exec.value.req
    ensures var x := s'.daemon.exec.value; Justified(cfg, x.req, Onward(s, step, c), x.phase, s'.disk.seen.ledger)
  {
    var (v, next, ledger) := (Target(s.daemon.exec.value.req), s.daemon.exec.value.phase.next, s.disk.seen.ledger);
    assert Lookup(Written(ledger, v, next), v) == next && Written(ledger, v, next) - {v} == ledger - {v};
  }

  /** Any other step leaves the execution where it was, or ends it. */
  lemma RestFits(cfg: Config, s: State, step: Step, s': State, c: Course)
    requires Next(cfg, s, step, s') && !(step.Begin? || step.CallReturns? || step.UndoReturns? || step.WriteLedger?)
    requires s'.daemon.Up? && s'.daemon.exec.Some?
    ensures s.daemon.Up? && s.daemon.exec.Some? && s.daemon.exec.value.req == s'.daemon.exec.value.req
    ensures Justified(cfg, s.daemon.exec.value.req, c, s.daemon.exec.value.phase, s.disk.seen.ledger) ==>
      var x := s'.daemon.exec.value; Justified(cfg, x.req, Onward(s, step, c), x.phase, s'.disk.seen.ledger)
  {
    if !step.Work? { ExecUntouched(cfg, s, step, s'); }
  }

  // ---------------------------------------------------------------- over runs

  predicate Busy(s: State) { s.daemon.Up? && s.daemon.exec.Some? }

  lemma RanBefore(cfg: Config, s: State, step: Step, s': State)
    requires Next(cfg, s, step, s') && !step.Begin? && Busy(s')
    ensures Busy(s) && s.daemon.exec.value.req == s'.daemon.exec.value.req
  {
    if !(step.CallReturns? || step.UndoReturns? || step.WriteLedger?) {
      RestFits(cfg, s, step, s', Course(map[], Alive, false, None, false, None, None));
    }
  }

  lemma BackendFits(cfg: Config, s: State, step: Step, s': State, c: Course)
    requires Next(cfg, s, step, s') && (step.CallReturns? || step.UndoReturns?) && Busy(s) && Busy(s')
    requires Justified(cfg, s.daemon.exec.value.req, c, s.daemon.exec.value.phase, s.disk.seen.ledger)
    ensures Justified(cfg, s'.daemon.exec.value.req, Onward(s, step, c), s'.daemon.exec.value.phase, s'.disk.seen.ledger)
  {
    if step.CallReturns? { CallFits(cfg, s, step, s', c); } else { UndoFits(cfg, s, step, s', c); }
  }

  lemma StepFits(cfg: Config, s: State, step: Step, s': State, c: Course)
    requires Next(cfg, s, step, s') && !step.Begin? && Busy(s) && Busy(s')
    requires Justified(cfg, s.daemon.exec.value.req, c, s.daemon.exec.value.phase, s.disk.seen.ledger)
    ensures Justified(cfg, s'.daemon.exec.value.req, Onward(s, step, c), s'.daemon.exec.value.phase, s'.disk.seen.ledger)
  {
    if step.CallReturns? || step.UndoReturns? {
      BackendFits(cfg, s, step, s', c);
    } else if step.WriteLedger? {
      WriteFits(cfg, s, step, s', c);
    } else {
      RestFits(cfg, s, step, s', c);
    }
  }

  lemma BeginsItsOwn(cfg: Config, s: State, step: Step, s': State)
    requires JournalInv(s) && Next(cfg, s, step, s') && step.Begin?
    ensures Busy(s') && s'.daemon.exec.value.req.opId == step.op
  {
  }

  /** Whatever executes in a run began in it, and is as its course says. */
  lemma {:induction false} ExecutionFits(cfg: Config, states: seq<State>, steps: seq<Step>, i: nat) returns (j: nat)
    requires IsRun(cfg, states, steps) && i < |states| && Busy(states[i])
    ensures var x := states[i].daemon.exec.value;
      Executes(states, steps, j, i, x.req) && Justified(cfg, x.req, CourseOf(states, steps, j, i), x.phase, states[i].disk.seen.ledger)
  {
    var (s, step) := (states[i - 1], steps[i - 1]);
    assert Next(cfg, s, step, states[i - 1 + 1]);
    if step.Begin? {
      j := i - 1;
      BeginFits(cfg, s, step, states[i]);
      RunKeepsInv(cfg, states, steps, i - 1);
      BeginsItsOwn(cfg, s, step, states[i]);
    } else {
      RanBefore(cfg, s, step, states[i]);
      j := ExecutionFits(cfg, states, steps, i - 1);
      StepFits(cfg, s, step, states[i], CourseOf(states, steps, j, i - 1));
    }
  }

  /** The answer of every execution, and the ledger it leaves, follow from what it found and
      what its backend call, its rollback and its ledger write came to. */
  lemma ExecutionAnswered(cfg: Config, states: seq<State>, steps: seq<Step>, i: nat) returns (j: nat)
    requires IsRun(cfg, states, steps) && i < |steps| && steps[i].Finish?
    ensures states[i].daemon.Up? && states[i].daemon.exec.Some? && states[i].daemon.exec.value.phase.Answering?
    ensures var x := states[i].daemon.exec.value;
      && Executes(states, steps, j, i, x.req)
      && AnswerFits(cfg, x.req, CourseOf(states, steps, j, i), x.phase.response)
      && LedgerFits(x.req, CourseOf(states, steps, j, i), states[i].disk.seen.ledger)
  {
    assert Next(cfg, states[i], steps[i], states[i + 1]);
    j := ExecutionFits(cfg, states, steps, i);
  }

  /** A call in the course is a step of the run. */
  lemma {:induction false} CallIsStep(states: seq<State>, steps: seq<Step>, j: nat, i: nat) returns (k: nat)
    requires |states| == |steps| + 1 && j < i < |states| && steps[j].Begin?
    ensures if CourseOf(states, steps, j, i).call.Some? then j < k < i && steps[k] == CallReturns(CourseOf(states, steps, j, i).call.value)
            else NoCall(steps, j, i)
    decreases i
  {
    k := i - 1;
    if i > j + 1 && !steps[i - 1].CallReturns? { k := CallIsStep(states, steps, j, i - 1); }
  }

  predicate NoCall(steps: seq<Step>, j: nat, i: nat)
    requires i <= |steps|
  {
    forall n :: j < n < i ==> !steps[n].CallReturns?
  }

  /** signal_vm of a VM with an entry reaches the backend. It is answered ok only after that
      call succeeded, with the cause of one that failed, and with not_found exactly when its VM
      had no entry. */
  lemma SignalAnswered(cfg: Config, states: seq<State>, steps: seq<Step>, i: nat) returns (j: nat, k: nat)
    requires IsRun(cfg, states, steps) && i < |steps| && steps[i].Finish?
    requires Busy(states[i]) && states[i].daemon.exec.value.req.verb == SignalVm
    ensures var x := states[i].daemon.exec.value;
      && x.phase.Answering? && Executes(states, steps, j, i, x.req)
      && var (r, v, ledger) := (x.phase.response, Target(x.req), states[j].disk.seen.ledger);
         && (steps[j].expired ==> r == Err(ExecFailed))
         && (r.Ok? ==> j < k < i && steps[k] == CallReturns(Good))
         && (r == Err(DigestMismatch) || r == Err(InvalidState) ==> j < k < i && steps[k].CallReturns?)
         && (!steps[j].expired && WellFormed(cfg, x.req) && HasEntry(ledger, v) ==> j < k < i && steps[k].CallReturns?)
         && (NoCall(steps, j, i) || (j < k < i && steps[k].CallReturns?))
         && (j < k < i && steps[k].CallReturns? && steps[k].out.Fail? ==> r == Err(steps[k].out.cause))
         && (!steps[j].expired ==> (r == Err(NotFound) <==> WellFormed(cfg, x.req) && v !in ledger))
  {
    j := ExecutionAnswered(cfg, states, steps, i);
    CourseFound(states, steps, j, i);
    k := CallIsStep(states, steps, j, i);
    if CourseOf(states, steps, j, i).call.Some? {
      assert Next(cfg, states[k], steps[k], states[k + 1]) && Runs(states[k], states[i].daemon.exec.value.req);
    }
  }

  /** What it found is the ledger it began with. */
  lemma {:induction false} CourseFound(states: seq<State>, steps: seq<Step>, j: nat, i: nat)
    requires |states| == |steps| + 1 && j < i < |states| && steps[j].Begin?
    ensures var c := CourseOf(states, steps, j, i);
      c.ledger == states[j].disk.seen.ledger && c.gate == steps[j].gate && c.expired == steps[j].expired
    decreases i
  {
    if i > j + 1 { CourseFound(states, steps, j, i - 1); }
  }

  /** release_vm of a VM with an entry and no process reaches the backend, and once that
      succeeded and the entry is written the VM half is clear and the network half as it was. */
  lemma ReleaseVmAnswered(cfg: Config, states: seq<State>, steps: seq<Step>, i: nat) returns (j: nat, k: nat)
    requires IsRun(cfg, states, steps) && i < |steps| && steps[i].Finish?
    requires Busy(states[i]) && states[i].daemon.exec.value.req.verb == ReleaseVm
    ensures var x := states[i].daemon.exec.value;
      && x.phase.Answering? && Executes(states, steps, j, i, x.req)
      && var (r, v, was, now) := (x.phase.response, Target(x.req), states[j].disk.seen.ledger, states[i].disk.seen.ledger);
         && (!steps[j].expired && WellFormed(cfg, x.req) && HasEntry(was, v) ==>
               if steps[j].gate == Dead then j < k < i && steps[k].CallReturns? else r == Err(InvalidState))
         && (r.Ok? ==> j < k < i && steps[k].CallReturns? && !steps[k].out.Fail? && VmHalfClear(now, v) && v in was)
         && (r.Ok? && was[v].netCidr != "" ==> v in now && now[v].netCidr == was[v].netCidr && now[v].networkOpId == was[v].networkOpId)
  {
    j := ExecutionAnswered(cfg, states, steps, i);
    CourseFound(states, steps, j, i);
    k := CallIsStep(states, steps, j, i);
  }
}
