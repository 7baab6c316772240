/** Building runs: paths of the machine, and privd at rest serving one request after another. */
module AdapterPaths {
  import opened Wire
  import opened Ledger
  import opened Handlers
  import opened Privd
  import opened PrivdInvariant
  import opened Adapter
  import opened AdapterInvariant
  import opened AdapterLink

  // ---------------------------------------------------------------- paths

  /** What a path leaves out: launches begun; releases asked for as well; or launches begun,
      manifests reserved and networks released; or all that the adapter does itself. */
  datatype Kind = NoBegin | NoAsk | Calm | Around

  predicate Plain(step: WorldStep, kind: Kind) {
    match kind
    case NoBegin => !(step.Launch? && step.move.Begins?)
    case NoAsk => !(step.Launch? && step.move.Begins?) && !(step.Release? && step.act.Ask?)
    case Calm =>
      && !(step.Launch? && (step.move.Begins? || step.move.Reserve?))
      && !(step.Release? && step.act.Ask? && step.act.req.verb == ReleaseNetwork)
    case Around => step.PrivdStep? || step.SocketDrop?
  }

  ghost predicate PathTo(site: Site, worlds: seq<World>, steps: seq<WorldStep>, w: World, w': World, kind: Kind) {
    && IsPath(site, worlds, steps) && worlds[0] == w && worlds[|steps|] == w'
    && forall i :: 0 <= i < |steps| ==> Plain(steps[i], kind)
  }

  ghost predicate Leads(site: Site, w: World, w': World, kind: Kind) {
    exists worlds, steps :: PathTo(site, worlds, steps, w, w', kind)
  }

  lemma Stays(site: Site, w: World, kind: Kind)
    ensures Leads(site, w, w, kind)
  {
    assert PathTo(site, [w], [], w, w, kind);
  }

  lemma Then(site: Site, w: World, mid: World, step: WorldStep, w': World, kind: Kind)
    requires Leads(site, w, mid, kind) && WorldNext(site, mid, step, w') && Plain(step, kind)
    ensures Leads(site, w, w', kind)
  {
    var worlds, steps :| PathTo(site, worlds, steps, w, mid, kind);
    Extends(site, worlds, steps, step, w');
    assert PathTo(site, worlds + [w'], steps + [step], w, w', kind);
  }

  lemma Extends(site: Site, worlds: seq<World>, steps: seq<WorldStep>, step: WorldStep, w': World)
    requires IsPath(site, worlds, steps) && WorldNext(site, worlds[|steps|], step, w')
    ensures IsPath(site, worlds + [w'], steps + [step])
  {
  }

  lemma Joined(site: Site, w: World, mid: World, w': World, kind: Kind)
    requires Leads(site, w, mid, kind) && Leads(site, mid, w', kind)
    ensures Leads(site, w, w', kind)
  {
    var ws, ss :| PathTo(site, ws, ss, w, mid, kind);
    var us, ts :| PathTo(site, us, ts, mid, w', kind);
    JoinedPath(site, ws, ss, us, ts);
    assert PathTo(site, ws + us[1..], ss + ts, w, w', kind);
  }

  lemma JoinedPath(site: Site, ws: seq<World>, ss: seq<WorldStep>, us: seq<World>, ts: seq<WorldStep>)
    requires IsPath(site, ws, ss) && IsPath(site, us, ts) && ws[|ss|] == us[0]
    ensures IsPath(site, ws + us[1..], ss + ts)
  {
    var worlds, steps := ws + us[1..], ss + ts;
    forall i | 0 <= i < |steps|
      ensures WorldNext(site, worlds[i], steps[i], worlds[i + 1])
    {
      if i >= |ss| {
        assert WorldNext(site, us[i - |ss|], ts[i - |ss|], us[i - |ss| + 1]);
      } else {
        assert WorldNext(site, ws[i], ss[i], ws[i + 1]);
      }
    }
  }

  // ---------------------------------------------------------------- privd at rest

  /** Nothing queued, nothing unresolved, every entry readable. */
  ghost predicate Rest(p: State) {
    && p.daemon == Up(p.disk.seen.receipts, false, {}, None)
    && p.disk.safe.ledger == p.disk.seen.ledger && AllReadable(p.disk.seen.ledger)
    && (forall op :: op in p.disk.seen.receipts ==> Final(p.disk.seen.receipts[op]))
  }

  lemma InventoryMeansRest(p: State)
    requires Inv(p) && LagExplained(p.disk) && p.daemon.Up? && NetworkLeases(p.daemon, p.disk.seen.ledger).Leases?
    ensures Rest(p)
  {
    InventoryMeansSettled(p);
    if op :| op in p.daemon.waiting { assert false; }
  }

  /** Only `v` looks different on the host. */
  ghost predicate HostBut(h: Host, h': Host, v: VmId, f: Footprint) {
    h'.boot == h.boot && h'.ns == h.ns && At(h', v) == f && forall x :: x != v ==> At(h', x) == At(h, x)
  }

  /** privd is as in `p`, but for `req` running in `phase`. */
  ghost predicate During(p: State, q: State, req: Request, phase: Phase, f: Footprint, ledger: LedgerMap) {
    && (var rs := p.disk.seen.receipts[req.opId := PendingReceipt(req)];
        && q.daemon == Up(rs, false, {}, Some(Exec(req, phase)))
        && q.disk == Store(Disk(ledger, rs), Disk(ledger, rs)))
    && HostBut(p.host, q.host, Target(req), f)
    && q.past.replies == p.past.replies
  }

  /** And after it was answered with `r`. */
  ghost predicate AfterAnswer(p: State, q: State, req: Request, r: Response, f: Footprint, ledger: LedgerMap) {
    && (var rs := p.disk.seen.receipts[req.opId := FinalReceipt(req, r)];
        && q.daemon == Up(rs, false, {}, None)
        && q.disk == Store(Disk(ledger, rs), Disk(ledger, rs)))
    && HostBut(p.host, q.host, Target(req), f)
    && q.past.replies == p.past.replies + {(req, r)}
  }

  /** privd admitted `req` and nothing else. */
  function Admitted(p: State, req: Request): State
    requires p.daemon.Up?
  {
    var rs := p.disk.seen.receipts[req.opId := PendingReceipt(req)];
    var d := Disk(p.disk.seen.ledger, rs);
    p.(disk := Store(d, d), daemon := Up(rs, false, {req.opId}, None))
  }

  lemma Arrives(cfg: Config, p: State, req: Request)
    requires Rest(p) && ValidId(req.opId) && req.opId !in p.disk.seen.receipts
    ensures Next(cfg, p, Arrive(req, Saved), Admitted(p, req))
  {
    assert {} + {req.opId} == {req.opId};
  }

  lemma BeginsServing(cfg: Config, p: State, req: Request, gate: Gate, phase: Phase) returns (q: State)
    requires Rest(p)
    requires var plan := MakePlan(cfg, p.disk.seen.ledger, req, gate);
      phase == if plan.Answer? then Answering(plan.response) else Calling(plan.entry, false)
    requires var v := Target(req);
      v in p.disk.seen.ledger ==> GateTruthful(p.host, p.disk.seen.ledger[v], At(p.host, v), gate)
    ensures Next(cfg, Admitted(p, req), Begin(req.opId, gate, false), q)
    ensures During(p, q, req, phase, At(p.host, Target(req)), p.disk.seen.ledger)
  {
    var s := Admitted(p, req);
    assert !Fenced(s.daemon.records, req);
    assert {req.opId} - {req.opId} == {};
    q := DoBegin(cfg, s, req.opId, gate, false);
  }

  lemma Works(cfg: Config, p: State, q: State, req: Request, e: VMEntry, f: Footprint, g: Footprint, ledger: LedgerMap) returns (q': State)
    requires During(p, q, req, Calling(e, false), f, ledger) && Progress(req.verb, f, g, false, false)
    ensures Next(cfg, q, Work(g, false), q') && During(p, q', req, Calling(e, false), g, ledger)
  {
    q' := DoWork(q, g, false);
  }

  lemma ReturnsGood(cfg: Config, p: State, q: State, req: Request, e: VMEntry, g: Footprint, ledger: LedgerMap) returns (q': State)
    requires During(p, q, req, Calling(e, false), g, ledger) && Returned(req, q.host, g, false, Good)
    ensures Next(cfg, q, CallReturns(Good), q') && During(p, q', req, AfterCall(req, q.host, e, false, Good), g, ledger)
  {
    q' := SetPhase(q, AfterCall(req, q.host, e, false, Good));
  }

  lemma Writes(cfg: Config, p: State, q: State, req: Request, next: Option<VMEntry>, r: Response, g: Footprint, ledger: LedgerMap)
    returns (q': State)
    requires During(p, q, req, Storing(next, r), g, ledger)
    ensures Next(cfg, q, WriteLedger(Put), q')
    ensures During(p, q', req, Answering(r), g, Written(ledger, Target(req), next))
  {
    q' := DoWriteLedger(q, Put);
  }

  lemma Finishes(cfg: Config, p: State, q: State, req: Request, r: Response, g: Footprint, ledger: LedgerMap) returns (q': State)
    requires During(p, q, req, Answering(r), g, ledger) && Definite(r)
    ensures Next(cfg, q, Finish(Saved), q') && AfterAnswer(p, q', req, r, g, ledger)
  {
    q' := DoFinish(q, Saved);
    var rs := p.disk.seen.receipts;
    assert rs[req.opId := PendingReceipt(req)][req.opId := FinalReceipt(req, r)] == rs[req.opId := FinalReceipt(req, r)];
  }

  lemma RestAgain(p: State, q: State, req: Request, r: Response, g: Footprint, ledger: LedgerMap)
    requires Rest(p) && AfterAnswer(p, q, req, r, g, ledger) && Definite(r) && AllReadable(ledger)
    ensures Rest(q)
  {
  }

  // ---------------------------------------------------------------- one request served

  /** The world is as before, but that privd has served `req`. */
  ghost predicate Served(w: World, w': World, req: Request, r: Response, f: Footprint, ledger: LedgerMap) {
    && w' == w.(p := w'.p, unread := w.unread - {req}, arrived := w.arrived + {req})
    && AfterAnswer(w.p, w'.p, req, r, f, ledger) && Rest(w'.p)
  }

  ghost predicate Servable(w: World, req: Request) {
    Rest(w.p) && ValidId(req.opId) && req.opId !in w.p.disk.seen.receipts && MayArrive(w, req)
  }

  /** privd steps that are not an arrival. */
  lemma Moves(site: Site, w: World, mid: World, ps: Step, p': State, kind: Kind)
    requires Leads(site, w, mid, kind) && Next(site.privd, mid.p, ps, p') && !ps.PowerLoss? && !ps.Arrive?
    ensures Leads(site, w, mid.(p := p'), kind)
  {
    assert PeerStep(site, mid, ps, mid.(p := p'));
    Then(site, w, mid, PrivdStep(ps), mid.(p := p'), kind);
  }

  lemma Enters(site: Site, w: World, req: Request, kind: Kind) returns (w': World)
    requires Servable(w, req)
    ensures w' == w.(p := Admitted(w.p, req), unread := w.unread - {req}, arrived := w.arrived + {req})
    ensures Leads(site, w, w', kind)
  {
    w' := w.(p := Admitted(w.p, req), unread := w.unread - {req}, arrived := w.arrived + {req});
    Arrives(site.privd, w.p, req);
    assert PeerStep(site, w, Arrive(req, Saved), w');
    Stays(site, w, kind);
    Then(site, w, w, PrivdStep(Arrive(req, Saved)), w', kind);
  }

  /** A request answered without the backend. */
  lemma ServesAnswer(site: Site, w: World, req: Request, r: Response, kind: Kind) returns (w': World)
    requires Servable(w, req) && Definite(r) && MakePlan(site.privd, w.p.disk.seen.ledger, req, Alive) == Answer(r)
    ensures Leads(site, w, w', kind) && Served(w, w', req, r, At(w.p.host, Target(req)), w.p.disk.seen.ledger)
  {
    var w1 := Enters(site, w, req, kind);
    var q := BeginsServing(site.privd, w.p, req, Alive, Answering(r));
    Moves(site, w, w1, Begin(req.opId, Alive, false), q, kind);
    var q' := Finishes(site.privd, w.p, q, req, r, At(w.p.host, Target(req)), w.p.disk.seen.ledger);
    Moves(site, w, w1.(p := q), Finish(Saved), q', kind);
    RestAgain(w.p, q', req, r, At(w.p.host, Target(req)), w.p.disk.seen.ledger);
    w' := w1.(p := q');
  }

  /** A request the backend serves as well as it can: what it leaves on the host is `g`. */
  lemma ServesCall(site: Site, w: World, req: Request, gate: Gate, e: VMEntry, g: Footprint, next: Option<VMEntry>, kind: Kind)
    returns (w': World)
    requires Servable(w, req) && MakePlan(site.privd, w.p.disk.seen.ledger, req, gate) == Call(e)
    requires var v := Target(req);
      && (v in w.p.disk.seen.ledger ==> GateTruthful(w.p.host, w.p.disk.seen.ledger[v], At(w.p.host, v), gate))
      && Progress(req.verb, At(w.p.host, v), g, false, false)
      && AllReadable(Written(w.p.disk.seen.ledger, v, next))
    requires forall h :: Returned(req, h, g, false, Good) && AfterCall(req, h, e, false, Good) == Storing(next, Ok(None))
    ensures Leads(site, w, w', kind)
    ensures Served(w, w', req, Ok(None), g, Written(w.p.disk.seen.ledger, Target(req), next))
  {
    var (v, f, ledger) := (Target(req), At(w.p.host, Target(req)), w.p.disk.seen.ledger);
    var w1 := Enters(site, w, req, kind);
    var q := BeginsServing(site.privd, w.p, req, gate, Calling(e, false));
    Moves(site, w, w1, Begin(req.opId, gate, false), q, kind);
    var q1 := Works(site.privd, w.p, q, req, e, f, g, ledger);
    Moves(site, w, w1.(p := q), Work(g, false), q1, kind);
    w' := CallEnds(site, w, w1, q1, req, e, g, next, ledger, kind);
  }

  lemma CallEnds(site: Site, w: World, w1: World, q1: State, req: Request, e: VMEntry, g: Footprint, next: Option<VMEntry>,
                 ledger: LedgerMap, kind: Kind)
    returns (w': World)
    requires Rest(w.p) && w1 == w.(p := w1.p, unread := w.unread - {req}, arrived := w.arrived + {req})
    requires Leads(site, w, w1.(p := q1), kind) && During(w.p, q1, req, Calling(e, false), g, ledger)
    requires forall h :: Returned(req, h, g, false, Good) && AfterCall(req, h, e, false, Good) == Storing(next, Ok(None))
    requires AllReadable(Written(ledger, Target(req), next))
    ensures Leads(site, w, w', kind) && Served(w, w', req, Ok(None), g, Written(ledger, Target(req), next))
  {
    var after := Written(ledger, Target(req), next);
    assert Returned(req, q1.host, g, false, Good);
    var q2 := ReturnsGood(site.privd, w.p, q1, req, e, g, ledger);
    Moves(site, w, w1.(p := q1), CallReturns(Good), q2, kind);
    var q3 := Writes(site.privd, w.p, q2, req, next, Ok(None), g, ledger);
    Moves(site, w, w1.(p := q2), WriteLedger(Put), q3, kind);
    var q4 := Finishes(site.privd, w.p, q3, req, Ok(None), g, after);
    Moves(site, w, w1.(p := q3), Finish(Saved), q4, kind);
    RestAgain(w.p, q4, req, Ok(None), g, after);
    w' := w1.(p := q4);
  }
}
