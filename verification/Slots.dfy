/** Slots: the number a manifest holds, from which a VM's jail uid and guest CID follow. To
    drop the last manifest with a number is to give that number away. */
module Slots {
  import opened Wire
  import opened Prefixes
  import opened Alloc

  /** What a manifest says about slot and subnet; `cidr` is None when it does not parse. */
  datatype Claim = Claim(vmId: VmId, slot: int, cidr: Option<Net>)

  /** One entry of the vms directory, in directory order. */
  datatype Entry = Entry(name: string, found: Found)
  datatype Found = NotDirectory | NoManifest | Unreadable | Holds(claim: Claim)

  datatype SlotAnswer = Slot(slot: int) | Refused | SlotsExhausted

  /** The entry that decides allocateSlot before any free slot is looked for. */
  predicate Decides(e: Entry, v: VmId) { e.found.Unreadable? || (e.found.Holds? && e.found.claim.vmId == v) }

  ghost predicate Taken(entries: seq<Entry>, slot: int) {
    exists i :: 0 <= i < |entries| && entries[i].found.Holds? && entries[i].found.claim.slot == slot
  }

  ghost predicate FirstDecision(entries: seq<Entry>, v: VmId, i: nat) {
    i < |entries| && Decides(entries[i], v) && forall j :: 0 <= j < i ==> !Decides(entries[j], v)
  }

  /** A restart keeps its slot, an unreadable manifest met first refuses, and otherwise the
      answer is the least slot below the limit that no manifest names. */
  method AllocateSlot(entries: seq<Entry>, v: VmId, maxSlots: nat) returns (r: SlotAnswer)
    ensures forall i: nat :: FirstDecision(entries, v, i) ==>
      r == if entries[i].found.Unreadable? then Refused else Slot(entries[i].found.claim.slot)
    ensures (forall i :: 0 <= i < |entries| ==> !Decides(entries[i], v)) ==>
      match r
      case Slot(s) => 0 <= s < maxSlots && !Taken(entries, s) && forall t :: 0 <= t < s ==> Taken(entries, t)
      case SlotsExhausted => forall t :: 0 <= t < maxSlots ==> Taken(entries, t)
      case Refused => false
  {
    var taken: set<int> := {};
    for i := 0 to |entries|
      invariant forall j :: 0 <= j < i ==> !Decides(entries[j], v)
      invariant forall s :: s in taken <==> Taken(entries[..i], s)
    {
      var found := entries[i].found;
      assert entries[..i + 1] == entries[..i] + [entries[i]];
      TakenMore(entries[..i], entries[i]);
      assert forall k: nat :: FirstDecision(entries, v, k) ==> Decides(entries[k], v) && k >= i;
      assert Decides(entries[i], v) ==> forall k: nat :: FirstDecision(entries, v, k) ==> k == i;
      if found.Unreadable? { return Refused; }
      if found.Holds? {
        if found.claim.vmId == v { return Slot(found.claim.slot); }
        taken := taken + {found.claim.slot};
      }
    }
    assert entries[..|entries|] == entries;
    for slot := 0 to maxSlots
      invariant forall t :: 0 <= t < slot ==> Taken(entries, t)
    {
      if slot !in taken { return Slot(slot); }
    }
    return SlotsExhausted;
  }

  lemma TakenMore(entries: seq<Entry>, e: Entry)
    ensures forall s :: Taken(entries + [e], s) <==> Taken(entries, s) || (e.found.Holds? && e.found.claim.slot == s)
  {
    var all := entries + [e];
    forall s | Taken(entries, s) || (e.found.Holds? && e.found.claim.slot == s)
      ensures Taken(all, s)
    {
      if Taken(entries, s) {
        var i :| 0 <= i < |entries| && entries[i].found.Holds? && entries[i].found.claim.slot == s;
        assert all[i] == entries[i];
      } else {
        assert all[|entries|] == e;
      }
    }
    forall s | Taken(all, s)
      ensures Taken(entries, s) || (e.found.Holds? && e.found.claim.slot == s)
    {
      var i :| 0 <= i < |all| && all[i].found.Holds? && all[i].found.claim.slot == s;
      if i < |entries| { assert entries[i] == all[i]; }
    }
  }

  // ---------------------------------------------------------------- lease inventory

  /** A manifest NetworkLeases accepts from the directory `name`. */
  predicate GoodClaim(e: Entry) {
    && e.found.Holds?
    && e.found.claim.vmId == e.name && ValidId(e.name)
    && e.found.claim.cidr.Some? && e.found.claim.cidr.value.V4? && IsLease(e.found.claim.cidr.value.prefix)
  }

  function PrefixOf(e: Entry): Prefix
    requires GoodClaim(e)
  {
    e.found.claim.cidr.value.prefix
  }

  predicate Silent(e: Entry) { e.found.NotDirectory? || e.found.NoManifest? }

  ghost predicate GoodInventory(entries: seq<Entry>) {
    && (forall i :: 0 <= i < |entries| ==> Silent(entries[i]) || GoodClaim(entries[i]))
    && (forall i, j :: 0 <= i < j < |entries| && GoodClaim(entries[i]) && GoodClaim(entries[j]) ==>
          PrefixOf(entries[i]) != PrefixOf(entries[j]))
  }

  /** It answers exactly when every manifest is readable, names its own directory, holds a
      whole /30, and no /30 is claimed twice; the answer is then what the manifests say. */
  method NetworkLeases(entries: seq<Entry>) returns (leases: Option<LeaseMap>)
    requires forall i, j :: 0 <= i < j < |entries| ==> entries[i].name != entries[j].name
    ensures leases.Some? <==> GoodInventory(entries)
    ensures leases.Some? ==> forall v :: v in leases.value <==>
      exists i :: 0 <= i < |entries| && GoodClaim(entries[i]) && entries[i].name == v
    ensures leases.Some? ==> forall i :: 0 <= i < |entries| && GoodClaim(entries[i]) ==>
      entries[i].name in leases.value && leases.value[entries[i].name] == PrefixOf(entries[i])
    ensures leases.Some? ==> Aligned(leases.value)
    ensures leases.Some? ==> forall v, w :: v in leases.value && w in leases.value && v != w ==> leases.value[v] != leases.value[w]
  {
    var m: LeaseMap := map[];
    var occupied: Occupancy := map[];
    for i := 0 to |entries|
      invariant forall j :: 0 <= j < i ==> Silent(entries[j]) || GoodClaim(entries[j])
      invariant forall j :: 0 <= j < i && GoodClaim(entries[j]) ==> entries[j].name in m && m[entries[j].name] == PrefixOf(entries[j])
      invariant forall v :: v in m ==> exists j :: 0 <= j < i && GoodClaim(entries[j]) && entries[j].name == v
      invariant Inverse(m, occupied) && Aligned(m)
    {
      var e := entries[i];
      if !Silent(e) {
        if !GoodClaim(e) { return None; }
        var p := PrefixOf(e);
        if p in occupied {
          var j :| 0 <= j < i && GoodClaim(entries[j]) && entries[j].name == occupied[p];
          assert PrefixOf(entries[j]) == PrefixOf(entries[i]);
          return None;
        }
        assert e.name !in m;
        m := m[e.name := p];
        occupied := occupied[p := e.name];
      }
    }
    return Some(m);
  }

  /** A privileged claim that parses. */
  predicate GoodPrivileged(v: VmId, net: Option<Net>) {
    ValidId(v) && net.Some? && net.value.V4? && IsLease(net.value.prefix)
  }

  /** Every claim of privd's parses, and where a manifest has the same owner they agree. */
  ghost predicate Consistent(manifests: LeaseMap, claims: map<VmId, Option<Net>>) {
    forall v :: v in claims ==> GoodPrivileged(v, claims[v]) && (v in manifests ==> manifests[v] == claims[v].value.prefix)
  }

  ghost function Union(manifests: LeaseMap, claims: map<VmId, Option<Net>>): LeaseMap
    requires Consistent(manifests, claims)
  {
    map v | v in manifests.Keys + claims.Keys :: if v in manifests then manifests[v] else claims[v].value.prefix
  }

  method JoinClaims(manifests: LeaseMap, claims: map<VmId, Option<Net>>) returns (all: Option<LeaseMap>)
    ensures all.Some? <==> Consistent(manifests, claims)
    ensures all.Some? ==> all.value == Union(manifests, claims)
  {
    var leases := manifests;
    var left := claims.Keys;
    while left != {}
      invariant left <= claims.Keys && leases.Keys == manifests.Keys + (claims.Keys - left)
      invariant forall v :: v in manifests ==> leases[v] == manifests[v]
      invariant forall v :: v in claims && v !in left ==> GoodPrivileged(v, claims[v]) && leases[v] == claims[v].value.prefix
    {
      var v :| v in left;
      if !GoodPrivileged(v, claims[v]) { return None; }
      var p := claims[v].value.prefix;
      if v in leases && leases[v] != p {
        assert v in manifests;
        return None;
      }
      leases := leases[v := p];
      left := left - {v};
    }
    return Some(leases);
  }

  /** Nobody else holds `p`, and `v` nothing else. */
  ghost predicate Free(held: LeaseMap, v: VmId, p: Prefix) {
    (v in held ==> held[v] == p) && forall w :: w in held && w != v ==> held[w] != p
  }

  ghost predicate Acceptable(held: LeaseMap, v: VmId, p: Prefix) { v != "" && IsLease(p) && Free(held, v, p) }

  /** The two assignments of leases to owners are one. */
  ghost predicate Compatible(leases: LeaseMap, held: LeaseMap) {
    forall v :: v in leases ==> Acceptable(held, v, leases[v]) && Free(leases, v, leases[v])
  }

  method RestoreOne(v: VmId, p: Prefix, a: Allocator) returns (ok: bool)
    requires a.Valid()
    modifies a
    ensures a.Valid() && (old(Aligned(a.leases)) ==> Aligned(a.leases))
    ensures ok <==> Acceptable(old(a.leases), v, p)
    ensures a.leases == if ok then old(a.leases)[v := p] else old(a.leases)
  {
    ok := a.Restore(v, V4(p));
  }

  /** `now` is what was held and what was restored of `leases`, for the owners in `done`. */
  ghost predicate Grown(held: LeaseMap, leases: LeaseMap, done: set<VmId>, now: LeaseMap) {
    && done <= leases.Keys && now.Keys == held.Keys + done
    && (forall v :: v in held ==> now[v] == held[v])
    && (forall v :: v in done ==> now[v] == leases[v] && v != "" && IsLease(leases[v]))
  }

  lemma AllRestored(held: LeaseMap, leases: LeaseMap, now: LeaseMap)
    requires Grown(held, leases, leases.Keys, now)
    requires forall v, w :: v in now && w in now && v != w ==> now[v] != now[w]
    ensures Compatible(leases, held) && now == held + leases
  {
    forall v | v in leases
      ensures Free(held, v, leases[v]) && Free(leases, v, leases[v])
    {
      assert now[v] == leases[v];
      forall w | w in held && w != v ensures held[w] != leases[v] { assert now[w] == held[w]; }
      forall w | w in leases && w != v ensures leases[w] != leases[v] { assert now[w] == leases[w]; }
    }
  }

  lemma Clash(held: LeaseMap, leases: LeaseMap, done: set<VmId>, now: LeaseMap, v: VmId)
    requires Grown(held, leases, done, now) && v in leases && v !in done && !Acceptable(now, v, leases[v])
    ensures !Compatible(leases, held)
  {
    if w :| w in now && w != v && now[w] == leases[v] {
      assert if w in held then held[w] == leases[v] else leases[w] == leases[v];
    }
  }

  method RestoreAll(leases: LeaseMap, a: Allocator) returns (ok: bool)
    requires a.Valid()
    modifies a
    ensures a.Valid() && (old(Aligned(a.leases)) ==> Aligned(a.leases))
    ensures ok <==> Compatible(leases, old(a.leases))
    ensures ok ==> a.leases == old(a.leases) + leases
    ensures exists done :: Grown(old(a.leases), leases, done, a.leases)
  {
    ghost var done: set<VmId> := {};
    var todo := leases.Keys;
    while todo != {}
      invariant todo <= leases.Keys && done == leases.Keys - todo && a.Valid() && (old(Aligned(a.leases)) ==> Aligned(a.leases))
      invariant Grown(old(a.leases), leases, done, a.leases)
    {
      var v :| v in todo;
      if !Acceptable(a.leases, v, leases[v]) { Clash(old(a.leases), leases, done, a.leases, v); }
      var restored := RestoreOne(v, leases[v], a);
      if !restored { return false; }
      done, todo := done + {v}, todo - {v};
    }
    AllRestored(old(a.leases), leases, a.leases);
    return true;
  }

  /** restoreNetworkLeases: privd's claims join the manifests', and the union is restored. It
      succeeds exactly when all three assignments are one; the allocator then holds the union.
      A failure may have restored some of it, and takes nothing away. */
  method RestoreNetworkLeases(manifests: LeaseMap, claims: map<VmId, Option<Net>>, a: Allocator) returns (ok: bool)
    requires a.Valid()
    modifies a
    ensures a.Valid() && (old(Aligned(a.leases)) ==> Aligned(a.leases))
    ensures ok <==> Consistent(manifests, claims) && Compatible(Union(manifests, claims), old(a.leases))
    ensures ok ==> a.leases == old(a.leases) + Union(manifests, claims)
    ensures if Consistent(manifests, claims) then exists done :: Grown(old(a.leases), Union(manifests, claims), done, a.leases)
            else a.leases == old(a.leases)
  {
    var all := JoinClaims(manifests, claims);
    if all.None? { return false; }
    ok := RestoreAll(all.value, a);
  }
}

/** acquireLifecycle and launchBounded: a launch whose caller gives up keeps the lock until
    its worker ends. */
module LaunchLock {
  import opened Wire

  type CallId = nat

  /** `watched`: the caller still waits for the worker. */
  datatype Phase = Waiting | Working(watched: bool) | GaveUp | Ended

  datatype State = State(held: bool, calls: map<CallId, Phase>, sections: seq<CallId>)

  datatype Step =
    | Enter(c: CallId)
    | TryLock(c: CallId)
    | Cancel(c: CallId)
    | Finish(c: CallId)

  predicate Next(s: State, step: Step, s': State) {
    match step
    case Enter(c) => c !in s.calls && s' == s.(calls := s.calls[c := Waiting])
    case TryLock(c) =>
      && c in s.calls && s.calls[c].Waiting? && !s.held
      && s' == State(true, s.calls[c := Working(true)], s.sections + [c])
    case Cancel(c) =>
      && c in s.calls && (s.calls[c].Waiting? || s.calls[c] == Working(true))
      && s' == s.(calls := s.calls[c := if s.calls[c].Waiting? then GaveUp else Working(false)])
    case Finish(c) =>
      && c in s.calls && s.calls[c].Working?
      && s' == s.(held := false, calls := s.calls[c := Ended])
  }

  ghost predicate IsRun(states: seq<State>, steps: seq<Step>) {
    && |states| == |steps| + 1
    && states[0] == State(false, map[], [])
    && forall i :: 0 <= i < |steps| ==> Next(states[i], steps[i], states[i + 1])
  }

  /** The lock is held exactly while the latest section's worker runs, watched or not. */
  ghost predicate Held(s: State) {
    && (forall c :: c in s.calls && s.calls[c].Working? ==> s.held && |s.sections| > 0 && s.sections[|s.sections| - 1] == c)
    && (s.held ==> |s.sections| > 0 && s.sections[|s.sections| - 1] in s.calls && s.calls[s.sections[|s.sections| - 1]].Working?)
  }

  lemma {:induction false} RunHolds(states: seq<State>, steps: seq<Step>, i: nat)
    requires IsRun(states, steps) && i < |states|
    ensures Held(states[i])
  {
    if i > 0 {
      RunHolds(states, steps, i - 1);
      assert Next(states[i - 1], steps[i - 1], states[i - 1 + 1]);
    }
  }

  /** At most one worker runs; while an abandoned one does, no other call gets the lock. */
  lemma OneWorker(states: seq<State>, steps: seq<Step>, i: nat, c: CallId, d: CallId)
    requires IsRun(states, steps) && i < |states|
    requires c in states[i].calls && states[i].calls[c].Working?
    ensures d in states[i].calls && states[i].calls[d].Working? ==> c == d
    ensures i < |steps| ==> steps[i] != TryLock(d)
  {
    RunHolds(states, steps, i);
    if i < |steps| { assert Next(states[i], steps[i], states[i + 1]); }
  }
}
