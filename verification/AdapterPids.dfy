/** The pid a manifest records is the pid privd's execution of that very start reported. */
module AdapterPids {
  import opened Wire
  import opened Handlers
  import opened Privd
  import opened PrivdInvariant
  import opened PrivdTheorems
  import opened PrivdAnswers
  import opened Adapter
  import opened AdapterLink

  predicate TruePid(wrote: map<OpId, Response>, op: OpId, pid: int) {
    pid > 0 ==> op in wrote && wrote[op].Ok? && wrote[op].start.Some? && wrote[op].start.value.pid == pid
  }

  ghost predicate TruePids(m: map<VmId, Manifest>, wrote: map<OpId, Response>) {
    forall v :: v in m ==> TruePid(wrote, m[v].startOpId, m[v].vmmPid)
  }

  ghost predicate ManifestPids(m: Manifests, task: Task, wrote: map<OpId, Response>) {
    && TruePids(m.seen, wrote) && TruePids(m.safe, wrote)
    && (task.Recording? ==> TruePid(wrote, task.op, task.pid))
  }

  ghost predicate PidsInv(w: World) {
    Inv(w.p) && StartsTrue(w.p) && ManifestPids(w.m, w.task, w.p.past.wrote)
  }

  lemma WriteKeepsPids(m: Manifests, v: VmId, x: Manifest, put: PutIo, wrote: map<OpId, Response>)
    requires TruePids(m.seen, wrote) && TruePids(m.safe, wrote) && TruePid(wrote, x.startOpId, x.vmmPid)
    ensures var n := WriteManifest(m, v, x, put); TruePids(n.seen, wrote) && TruePids(n.safe, wrote)
  {
  }

  lemma ResolvedPid(w: World, v: VmId)
    requires JournalInv(w.p) && DaemonTells(w.p.daemon, w.p.past.wrote)
    requires v in w.m.seen && ResolveStart(w.m.seen[v], w.p.daemon).RecordPid?
    ensures TruePid(w.p.past.wrote, w.m.seen[v].startOpId, ResolveStart(w.m.seen[v], w.p.daemon).pid)
  {
  }

  lemma ResolveKeepsPids(w: World, v: VmId, put: PutIo, next: Task)
    requires JournalInv(w.p) && DaemonTells(w.p.daemon, w.p.past.wrote)
    requires ManifestPids(w.m, w.task, w.p.past.wrote) && !next.Recording?
    ensures var w' := AfterResolve(w, v, put, next); w'.p == w.p && ManifestPids(w'.m, w'.task, w.p.past.wrote)
  {
    if v in w.m.seen && ResolveStart(w.m.seen[v], w.p.daemon).RecordPid? {
      ResolvedPid(w, v);
      WriteKeepsPids(w.m, v, w.m.seen[v].(vmmPid := ResolveStart(w.m.seen[v], w.p.daemon).pid), put, w.p.past.wrote);
    }
  }

  lemma LaunchKeepsPids(site: Site, w: World, move: LaunchMove, w': World)
    requires RepliesTell(w.p.past.replies, w.p.past.wrote) && ManifestPids(w.m, w.task, w.p.past.wrote)
    requires LaunchStep(site, w, move, w')
    ensures w'.p == w.p && ManifestPids(w'.m, w'.task, w.p.past.wrote)
  {
    match move
    case Reserve(slot, cidr, put, undo) =>
      WriteKeepsPids(w.m, w.task.vm, Manifest(slot, cidr, "", 0), put, w.p.past.wrote);
    case Arm(op, put) =>
      WriteKeepsPids(w.m, w.task.vm, w.m.seen[w.task.vm].(startOpId := op, vmmPid := 0), put, w.p.past.wrote);
    case Disarm(put) =>
      WriteKeepsPids(w.m, w.task.vm, w.m.seen[w.task.vm].(startOpId := "", vmmPid := 0), put, w.p.past.wrote);
    case Record(put) =>
      WriteKeepsPids(w.m, w.task.vm, w.m.seen[w.task.vm].(startOpId := w.task.op, vmmPid := w.task.pid), put, w.p.past.wrote);
    case StartReply(r) => assert Told(r, w.task.req.opId, w.p.past.wrote);
    case _ =>
  }

  lemma ReleaseKeepsPids(w: World, act: ReleaseMove, w': World)
    requires JournalInv(w.p) && DaemonTells(w.p.daemon, w.p.past.wrote)
    requires ManifestPids(w.m, w.task, w.p.past.wrote) && ReleaseStep(w, act, w')
    ensures w'.p == w.p && ManifestPids(w'.m, w'.task, w.p.past.wrote)
  {
    match act
    case Resolve(put, again) =>
      ResolveKeepsPids(w, w.task.vm, put, if again then w.task else ReleasingVm(w.task.vm, None));
    case SettleStart(v, put) => ResolveKeepsPids(w, v, put, Idle);
    case _ =>
  }

  lemma PrivdKeepsPids(cfg: Config, p: State, ps: Step, p': State, m: Manifests, task: Task)
    requires Inv(p) && StartsTrue(p) && ManifestPids(m, task, p.past.wrote) && Next(cfg, p, ps, p')
    ensures Inv(p') && StartsTrue(p') && ManifestPids(m, task, p'.past.wrote)
  {
    StepKeepsInv(cfg, p, ps, p');
    StepKeepsStartsTrue(cfg, p, ps, p');
    WroteGrows(cfg, p, ps, p');
  }

  lemma StepKeepsPids(site: Site, w: World, step: WorldStep, w': World)
    requires PidsInv(w) && WorldNext(site, w, step, w')
    ensures PidsInv(w')
  {
    match step
    case PrivdStep(ps) => PrivdKeepsPids(site.privd, w.p, ps, w'.p, w.m, w.task);
    case PowerCut(boot, disk, manifests) =>
      CutIsPowerLoss(site.privd, w, boot, disk, manifests);
      PrivdKeepsPids(site.privd, w.p, PowerLoss(boot, disk), w'.p, w.m, w.task);
    case Launch(move) => LaunchKeepsPids(site, w, move, w');
    case Release(act) => ReleaseKeepsPids(w, act, w');
    case _ =>
  }

  lemma {:induction false} RunKeepsPids(site: Site, worlds: seq<World>, steps: seq<WorldStep>, i: nat)
    requires IsWorldRun(site, worlds, steps) && i < |worlds|
    ensures PidsInv(worlds[i])
  {
    if i == 0 {
      InitialInv(worlds[0].p);
    } else {
      RunKeepsPids(site, worlds, steps, i - 1);
      StepKeepsPids(site, worlds[i - 1], steps[i - 1], worlds[i]);
    }
  }

  /** In every run, careful or not, and in both versions of a manifest: a recorded pid is the
      one privd wrote to its ledger for the start that manifest names, however often the
      reply was lost and asked for again. */
  lemma RecordedPidIsTrue(site: Site, worlds: seq<World>, steps: seq<WorldStep>, i: nat, v: VmId, m: Manifest)
    requires IsWorldRun(site, worlds, steps) && i < |worlds| && m.vmmPid > 0
    requires Lookup(worlds[i].m.seen, v) == Some(m) || Lookup(worlds[i].m.safe, v) == Some(m)
    ensures m.startOpId in worlds[i].p.past.wrote
    ensures exists startTime :: worlds[i].p.past.wrote[m.startOpId] == Ok(Some(StartResult(m.vmmPid, startTime)))
  {
    RunKeepsPids(site, worlds, steps, i);
    var r := worlds[i].p.past.wrote[m.startOpId];
    assert r == Ok(Some(StartResult(m.vmmPid, r.start.value.startTime)));
  }
}
