/** The runner's side: each push of a guest stream is stamped, spooled and acknowledged. */
module TelemetrySpool {
  import opened Wire

  type StreamId = string

  /** A decoded push. `number` is its sequence, None when it does not parse. */
  datatype Push = Push(text: string, number: Option<nat>, kind: string, wallAt: string, monotonic: string, data: string)

  /** A stamped event; `receivedAt` is the host clock's reading when it was stamped. */
  datatype Envelope = Envelope(stream: StreamId, push: Push, receivedAt: int)

  /** What the registry says of a kind. */
  datatype KindInfo = Unregistered | HostObserved | GuestReported

  datatype Attempt = Attempt(envelope: Envelope, ok: bool)

  /** An append attempt that repeats the refused one before it repeats its envelope. */
  ghost predicate Repeats(attempts: seq<Attempt>) {
    forall i :: 0 < i < |attempts| ==>
      var (a, b) := (attempts[i - 1], attempts[i]);
      !a.ok && a.envelope.stream == b.envelope.stream && a.envelope.push == b.envelope.push ==> a.envelope == b.envelope
  }

  /** The attempt is of this very push on this stream, stamped with the host clock's reading of
      now, or with that of the attempt before it where that was refused for the same push. */
  predicate Carries(before: seq<Attempt>, a: Attempt, stream: StreamId, push: Push, now: int, ok: bool) {
    && a.ok == ok && a.envelope.stream == stream && a.envelope.push == push
    && (var n := |before| - 1;
        a.envelope.receivedAt ==
          if n >= 0 && !before[n].ok && before[n].envelope.stream == stream && before[n].envelope.push == push
          then before[n].envelope.receivedAt else now)
  }

  class Spooler {
    var spooled: map<StreamId, nat>     // highest sequence decided, per stream
    var refusal: Option<Envelope>       // the append the spool refused last
    ghost var spool: seq<Envelope>      // appends that succeeded
    ghost var attempts: seq<Attempt>    // all appends of guest events
    ghost var health: seq<(StreamId, string)>  // refusals recorded on the runner's own stream

    function Decided(stream: StreamId): nat
      reads this
    {
      if stream in spooled then spooled[stream] else 0
    }

    /** Per stream the spool is strictly increasing, so no sequence is in it twice, and
        nothing in it is beyond what was acknowledged. */
    ghost predicate Valid()
      reads this
    {
      && (forall i :: 0 <= i < |spool| ==> spool[i].push.number.Some? && spool[i].push.number.value <= Decided(spool[i].stream))
      && (forall i, j :: 0 <= i < j < |spool| && spool[i].stream == spool[j].stream ==>
            spool[i].push.number.value < spool[j].push.number.value)
      && Repeats(attempts)
      && refusal == if |attempts| > 0 && !attempts[|attempts| - 1].ok then Some(attempts[|attempts| - 1].envelope) else None
    }

    constructor ()
      ensures Valid() && spooled == map[] && refusal.None? && spool == [] && attempts == [] && health == []
    {
      spooled, refusal, spool, attempts, health := map[], None, [], [], [];
    }

    /** The refused envelope when this is the very push it was refused for, or a new one. */
    function Stamp(stream: StreamId, push: Push, now: int): Envelope
      reads this
    {
      if refusal.Some? && refusal.value.stream == stream && refusal.value.push == push then refusal.value
      else Envelope(stream, push, now)
    }

    /** A sequence not yet decided. */
    predicate Undecided(stream: StreamId, push: Push)
      reads this
    {
      push.number.Some? && push.number.value > Decided(stream)
    }

    /** The answer is the sequence to acknowledge, or None when the connection is given up.
        A kind the guest may not report is acknowledged whether or not the note of its
        refusal could be written. */
    method SpoolPush(stream: StreamId, push: Push, info: KindInfo, isObject: bool, now: int, appended: bool, noted: bool)
      returns (ack: Option<nat>)
      requires Valid()
      modifies this
      ensures Valid() && (ack.Some? ==> push.number == ack && ack.value <= Decided(stream))
      ensures ack.None? <==> push.number.None? || (old(Undecided(stream, push)) && info == GuestReported && !(isObject && appended))
      ensures forall s :: Decided(s) == if s == stream && ack.Some? && old(Undecided(stream, push)) then ack.value else old(Decided(s))
      ensures if old(Undecided(stream, push)) && info == GuestReported && isObject
        then |attempts| == |old(attempts)| + 1 && old(attempts) <= attempts && Carries(old(attempts), attempts[|old(attempts)|], stream, push, now, appended)
        else attempts == old(attempts)
      ensures spool == if |attempts| > |old(attempts)| && appended then old(spool) + [attempts[|old(attempts)|].envelope] else old(spool)
      ensures health == if old(Undecided(stream, push)) && info != GuestReported && noted
        then old(health) + [(stream, push.text)] else old(health)
    {
      if push.number.None? { return None; }
      var number := push.number.value;
      if number <= Decided(stream) { return push.number; }
      if info != GuestReported {
        if noted { health := health + [(stream, push.text)]; }
        spooled := spooled[stream := number];
        return push.number;
      }
      if !isObject { return None; }
      var env := Stamp(stream, push, now);
      attempts := attempts + [Attempt(env, appended)];
      if !appended {
        refusal := Some(env);
        return None;
      }
      spool := spool + [env];
      refusal := None;
      spooled := spooled[stream := number];
      return push.number;
    }
  }
}

/** Guest ring, connection and runner together, for one guest epoch. Which sequences are of
    a kind the guest may report is given by `reported`. */
module TelemetryLink {
  import opened Wire

  datatype Attempt = Attempt(number: nat, stamp: nat, ok: bool)

  /** Between a write and the Advance after it. `current`: on the connection of now. */
  datatype Writing = NotWriting | Wrote(number: nat, current: bool)

  /** The ring holds the sequences first..pushed; `sent` of them went out on this connection. */
  datatype Link = Link(
    first: nat, pushed: nat, sent: nat, writing: Writing,
    wire: seq<nat>, acks: seq<nat>,
    top: nat, spool: seq<nat>, refused: set<nat>, memory: Option<(nat, nat)>,
    dropped: set<nat>, attempts: seq<Attempt>, clock: nat)

  datatype Step = Push | Write | Advance | Read(appended: bool) | AckArrives | Reconnect

  const START := Link(1, 0, 0, NotWriting, [], [], 0, [], {}, None, {}, [], 0)

  /** A new connection: nothing in flight survives, and the ring rewinds. */
  function Rewound(l: Link): Link {
    l.(wire := [], acks := [], sent := 0,
       writing := if l.writing.Wrote? then l.writing.(current := false) else NotWriting)
  }

  function DoPush(l: Link, cap: nat): Link {
    var m := if l.pushed + 1 - l.first == cap
             then l.(first := l.first + 1, dropped := l.dropped + {l.first}, sent := if l.sent > 0 then l.sent - 1 else 0)
             else l;
    m.(pushed := m.pushed + 1)
  }

  function DoRead(reported: nat -> bool, l: Link, appended: bool): Link
    requires l.wire != []
  {
    var number := l.wire[0];
    var m := l.(wire := l.wire[1..]);
    if number <= l.top then m.(acks := l.acks + [number])
    else if !reported(number) then m.(refused := l.refused + {number}, top := number, acks := l.acks + [number])
    else
      var stamp := if l.memory.Some? && l.memory.value.0 == number then l.memory.value.1 else l.clock;
      var n := m.(clock := l.clock + 1, attempts := l.attempts + [Attempt(number, stamp, appended)]);
      if appended then n.(spool := l.spool + [number], top := number, memory := None, acks := l.acks + [number])
      else Rewound(n.(memory := Some((number, stamp))))
  }

  /** AckThrough: a prefix of the ring is forgotten, and the cursor moves with it. */
  function DoAck(l: Link): Link
    requires l.acks != []
  {
    var through := if l.acks[0] < l.pushed then l.acks[0] else l.pushed;
    var kept := if through + 1 > l.first then through + 1 - l.first else 0;
    l.(acks := l.acks[1..], first := l.first + kept, sent := if l.sent > kept then l.sent - kept else 0)
  }

  predicate Next(cap: nat, reported: nat -> bool, l: Link, step: Step, l': Link) {
    match step
    case Push => l' == DoPush(l, cap)
    case Write =>
      && l.writing.NotWriting? && l.first + l.sent <= l.pushed
      && l' == l.(wire := l.wire + [l.first + l.sent], writing := Wrote(l.first + l.sent, true))
    case Advance =>
      && l.writing.Wrote?
      && l' == l.(sent := if l.first + l.sent <= l.pushed then l.sent + 1 else l.sent, writing := NotWriting)
    case Read(appended) => l.wire != [] && l' == DoRead(reported, l, appended)
    case AckArrives => l.acks != [] && l' == DoAck(l)
    case Reconnect => l' == Rewound(l)
  }

  ghost predicate IsRun(cap: nat, reported: nat -> bool, states: seq<Link>, steps: seq<Step>) {
    && |states| == |steps| + 1 && states[0] == START && cap > 0
    && forall i :: 0 <= i < |steps| ==> Next(cap, reported, states[i], steps[i], states[i + 1])
  }

  // ---------------------------------------------------------------- every run

  ghost predicate SpoolInv(l: Link) {
    && (forall i :: 0 <= i < |l.spool| ==> l.spool[i] <= l.top)
    && (forall i, j :: 0 <= i < j < |l.spool| ==> l.spool[i] < l.spool[j])
  }

  /** Whatever the guest and the connection do, each sequence is spooled at most once and in
      strictly increasing order. */
  lemma {:induction false} SpoolIncreases(cap: nat, reported: nat -> bool, states: seq<Link>, steps: seq<Step>, i: nat)
    requires IsRun(cap, reported, states, steps) && i < |states|
    ensures SpoolInv(states[i])
  {
    if i > 0 {
      SpoolIncreases(cap, reported, states, steps, i - 1);
      assert Next(cap, reported, states[i - 1], steps[i - 1], states[i - 1 + 1]);
    }
  }

  // ---------------------------------------------------------------- in-order runs

  /** The Advance moves past the item that was written on the connection of now, or past none,
      or past one the runner has decided before. */
  predicate InOrder(l: Link, step: Step) {
    step.Advance? ==>
      || l.writing == Wrote(l.first + l.sent, true)
      || l.first + l.sent > l.pushed
      || l.first + l.sent <= l.top
  }

  /** Decided by the runner, or dropped by the full ring. */
  predicate Settled(l: Link, t: nat) { t in l.spool || t in l.refused || t in l.dropped }

  predicate Accounted(l: Link, t: nat) { Settled(l, t) || t in l.wire }

  ghost predicate RingInv(l: Link, cap: nat) {
    && 1 <= l.first <= l.first + l.sent <= l.pushed + 1 && l.pushed + 1 - l.first <= cap
    && (forall t :: 1 <= t < l.first ==> Settled(l, t))
    && (forall t :: t in l.dropped ==> 1 <= t < l.first)
  }

  ghost predicate HostInv(l: Link) {
    && SpoolInv(l) && l.top <= l.pushed
    && (forall t :: t in l.spool || t in l.refused ==> 1 <= t <= l.top)
    && (forall t :: 1 <= t <= l.top ==> Settled(l, t))
    && (forall i :: 0 <= i < |l.acks| ==> l.acks[i] <= l.top)
  }

  ghost predicate WireInv(l: Link) {
    && (forall t :: 1 <= t < l.first + l.sent ==> Accounted(l, t))
    && (forall i :: 0 <= i < |l.wire| ==> 1 <= l.wire[i] <= l.pushed)
    && (forall i, t :: 0 <= i < |l.wire| && 1 <= t < l.wire[i] ==> Accounted(l, t))
    && (forall i, j :: 0 <= i < j < |l.wire| ==> l.wire[i] < l.wire[j])
    && (forall i :: 0 <= i < |l.wire| ==> l.wire[i] < l.first + l.sent || l.writing == Wrote(l.wire[i], true))
    && (l.writing.Wrote? && l.writing.current ==>
          Accounted(l, l.writing.number) && l.writing.number <= l.pushed && l.writing.number <= l.first + l.sent)
  }

  ghost predicate LinkInv(l: Link, cap: nat) { RingInv(l, cap) && HostInv(l) && WireInv(l) }

  lemma PushKeeps(l: Link, cap: nat)
    requires LinkInv(l, cap) && cap > 0
    ensures LinkInv(DoPush(l, cap), cap)
  {
    var l' := DoPush(l, cap);
    assert forall t :: Settled(l, t) ==> Settled(l', t);
    assert forall t :: Accounted(l, t) ==> Accounted(l', t);
  }

  lemma WriteKeeps(l: Link, cap: nat, l': Link)
    requires LinkInv(l, cap) && l.writing.NotWriting? && l.first + l.sent <= l.pushed
    requires l' == l.(wire := l.wire + [l.first + l.sent], writing := Wrote(l.first + l.sent, true))
    ensures LinkInv(l', cap)
  {
    assert forall t :: Settled(l', t) <==> Settled(l, t);
    assert forall t :: Accounted(l, t) ==> Accounted(l', t);
    assert l'.wire[|l.wire|] == l.first + l.sent;
  }

  lemma AdvanceKeeps(l: Link, cap: nat, l': Link)
    requires LinkInv(l, cap) && l.writing.Wrote? && InOrder(l, Advance)
    requires l' == l.(sent := if l.first + l.sent <= l.pushed then l.sent + 1 else l.sent, writing := NotWriting)
    ensures LinkInv(l', cap)
  {
    assert forall t :: Settled(l', t) <==> Settled(l, t);
    assert forall t :: Accounted(l', t) <==> Accounted(l, t);
  }

  lemma AckKeeps(l: Link, cap: nat)
    requires LinkInv(l, cap) && l.acks != []
    ensures LinkInv(DoAck(l), cap)
  {
    var l' := DoAck(l);
    assert l.acks[0] <= l.top;
    assert forall t :: Settled(l', t) <==> Settled(l, t);
    assert forall t :: Accounted(l', t) <==> Accounted(l, t);
  }

  lemma RewindKeeps(l: Link, cap: nat)
    requires RingInv(l, cap) && HostInv(l)
    ensures LinkInv(Rewound(l), cap)
  {
    var l' := Rewound(l);
    assert forall t :: Settled(l', t) <==> Settled(l, t);
  }

  /** Taking the head of the wire, once its sequence is settled. */
  lemma TakeKeepsAccounted(l: Link, l': Link, t: nat)
    requires l.wire != [] && l'.wire == l.wire[1..] && Settled(l', l.wire[0]) && Accounted(l, t)
    requires l'.spool == l.spool || l'.spool == l.spool + [l.wire[0]]
    requires l.refused <= l'.refused && l.dropped <= l'.dropped
    ensures Accounted(l', t)
  {
    if t in l.wire && t != l.wire[0] {
      var i :| 0 <= i < |l.wire| && l.wire[i] == t;
      assert l'.wire[i - 1] == t;
    }
  }

  lemma TakeKeepsWire(l: Link, l': Link)
    requires WireInv(l) && l.wire != [] && l'.wire == l.wire[1..] && Settled(l', l.wire[0])
    requires l'.spool == l.spool || l'.spool == l.spool + [l.wire[0]]
    requires l.refused <= l'.refused && l.dropped <= l'.dropped
    requires l'.first == l.first && l'.sent == l.sent && l'.pushed == l.pushed && l'.writing == l.writing
    ensures WireInv(l')
  {
    forall t | Accounted(l, t)
      ensures Accounted(l', t)
    {
      TakeKeepsAccounted(l, l', t);
    }
    assert forall i :: 0 <= i < |l'.wire| ==> l'.wire[i] == l.wire[i + 1];
  }

  /** All before the head of the wire is settled. */
  lemma HeadIsNext(l: Link, t: nat)
    requires WireInv(l) && l.wire != [] && 1 <= t < l.wire[0]
    ensures Settled(l, t)
  {
    assert Accounted(l, t);
  }

  lemma ReadKeeps(reported: nat -> bool, l: Link, cap: nat, appended: bool)
    requires LinkInv(l, cap) && l.wire != []
    ensures LinkInv(DoRead(reported, l, appended), cap)
  {
    var number := l.wire[0];
    var l' := DoRead(reported, l, appended);
    forall t | 1 <= t < number
      ensures Settled(l, t)
    {
      HeadIsNext(l, t);
    }
    assert forall t :: Settled(l, t) ==> Settled(l', t);
    if number > l.top && reported(number) && !appended {
      var n := l.(wire := l.wire[1..], clock := l.clock + 1, attempts := l'.attempts, memory := l'.memory);
      assert forall t :: Settled(n, t) <==> Settled(l, t);
      RewindKeeps(n, cap);
    } else {
      assert Settled(l', number);
      TakeKeepsWire(l, l');
    }
  }

  lemma StepKeeps(cap: nat, reported: nat -> bool, l: Link, step: Step, l': Link)
    requires LinkInv(l, cap) && cap > 0 && Next(cap, reported, l, step, l') && InOrder(l, step)
    ensures LinkInv(l', cap)
  {
    match step
    case Push => PushKeeps(l, cap);
    case Write => WriteKeeps(l, cap, l');
    case Advance => AdvanceKeeps(l, cap, l');
    case Read(appended) => ReadKeeps(reported, l, cap, appended);
    case AckArrives => AckKeeps(l, cap);
    case Reconnect => RewindKeeps(l, cap);
  }

  ghost predicate InOrderUntil(states: seq<Link>, steps: seq<Step>, n: nat)
    requires |states| == |steps| + 1
  {
    forall i :: 0 <= i < n && i < |steps| ==> InOrder(states[i], steps[i])
  }

  lemma {:induction false} RunKeeps(cap: nat, reported: nat -> bool, states: seq<Link>, steps: seq<Step>, i: nat)
    requires IsRun(cap, reported, states, steps) && InOrderUntil(states, steps, i) && i < |states|
    ensures LinkInv(states[i], cap)
  {
    if i > 0 {
      RunKeeps(cap, reported, states, steps, i - 1);
      StepKeeps(cap, reported, states[i - 1], steps[i - 1], states[i]);
    }
  }

  /** An event the guest has forgotten without dropping it is in the spool, or was of a kind
      the guest may not report. */
  lemma AcknowledgedIsSpooled(cap: nat, reported: nat -> bool, states: seq<Link>, steps: seq<Step>, i: nat, t: nat)
    requires IsRun(cap, reported, states, steps) && InOrderUntil(states, steps, i) && i < |states|
    requires 1 <= t < states[i].first && t !in states[i].dropped
    ensures t in states[i].spool || t in states[i].refused
  {
    RunKeeps(cap, reported, states, steps, i);
    assert Settled(states[i], t);
  }

  // ---------------------------------------------------------------- exactly when an Advance is safe

  ghost predicate IsPath(cap: nat, reported: nat -> bool, states: seq<Link>, steps: seq<Step>) {
    && |states| == |steps| + 1
    && forall i :: 0 <= i < |steps| ==> Next(cap, reported, states[i], steps[i], states[i + 1])
  }

  /** Every event the guest has forgotten is decided or dropped. */
  ghost predicate NothingLost(l: Link) { forall t :: 1 <= t < l.first ==> Settled(l, t) }

  /** Whatever follows the Advance in `l`, as long as it is in order, loses nothing. */
  ghost predicate AdvanceIsSafe(cap: nat, reported: nat -> bool, l: Link) {
    forall states, steps ::
      && IsPath(cap, reported, states, steps) && |steps| > 0 && states[0] == l && steps[0] == Advance
      && (forall i :: 1 <= i < |steps| ==> InOrder(states[i], steps[i]))
      ==> NothingLost(states[|steps|])
  }

  lemma {:induction false} PathKeeps(cap: nat, reported: nat -> bool, states: seq<Link>, steps: seq<Step>, i: nat)
    requires IsPath(cap, reported, states, steps) && cap > 0 && i < |states| && LinkInv(states[0], cap)
    requires forall k :: 0 <= k < |steps| ==> InOrder(states[k], steps[k])
    ensures LinkInv(states[i], cap)
  {
    if i > 0 {
      PathKeeps(cap, reported, states, steps, i - 1);
      StepKeeps(cap, reported, states[i - 1], steps[i - 1], states[i]);
    }
  }

  /** A path without an Advance; it is in order, whatever is in it. */
  ghost predicate PathTo(cap: nat, reported: nat -> bool, states: seq<Link>, steps: seq<Step>, l: Link, l': Link) {
    && IsPath(cap, reported, states, steps) && states[0] == l && states[|steps|] == l'
    && forall i :: 0 <= i < |steps| ==> !steps[i].Advance?
  }

  ghost predicate Leads(cap: nat, reported: nat -> bool, l: Link, l': Link) {
    exists states, steps :: PathTo(cap, reported, states, steps, l, l')
  }

  lemma Then(cap: nat, reported: nat -> bool, l: Link, step: Step, m: Link, l': Link)
    requires Next(cap, reported, l, step, m) && !step.Advance? && Leads(cap, reported, m, l')
    ensures Leads(cap, reported, l, l')
  {
    var states, steps :| PathTo(cap, reported, states, steps, m, l');
    var (ls, ss) := ([l] + states, [step] + steps);
    forall i | 0 <= i < |ss|
      ensures Next(cap, reported, ls[i], ss[i], ls[i + 1])
    {
      if i > 0 { assert Next(cap, reported, states[i - 1], steps[i - 1], states[i]); }
    }
    assert PathTo(cap, reported, ls, ss, l, l');
  }

  /** The cursor has passed `c`, which is neither on the wire nor decided, and what is under
      way is all before it. */
  ghost predicate PassedOver(l: Link, c: nat, cap: nat) {
    && l.writing.NotWriting? && 1 <= l.first <= c <= l.pushed && l.first + l.sent == c + 1 && l.pushed + 1 - l.first <= cap
    && l.top < c && !Settled(l, c)
    && (forall i :: 0 <= i < |l.wire| ==> l.wire[i] < c)
    && (forall i :: 0 <= i < |l.acks| ==> l.acks[i] < c)
  }

  lemma ReadKeepsPassed(reported: nat -> bool, l: Link, c: nat, cap: nat)
    requires PassedOver(l, c, cap) && l.wire != []
    ensures PassedOver(DoRead(reported, l, true), c, cap)
  {
    assert l.wire[0] < c;
  }

  lemma AckKeepsPassed(l: Link, c: nat, cap: nat)
    requires PassedOver(l, c, cap) && l.acks != []
    ensures PassedOver(DoAck(l), c, cap)
  {
    assert l.acks[0] < c;
  }

  /** The runner reads what is on the wire, the guest takes the acknowledgements; then the next
      event is written, read and acknowledged, and `c` is forgotten with it. */
  lemma {:induction false} PassedIsLost(cap: nat, reported: nat -> bool, l: Link, c: nat) returns (l': Link)
    requires PassedOver(l, c, cap) && cap >= 2
    ensures Leads(cap, reported, l, l') && c < l'.first && !Settled(l', c)
    decreases |l.wire|, |l.acks|
  {
    if l.wire != [] {
      ReadKeepsPassed(reported, l, c, cap);
      var m := DoRead(reported, l, true);
      l' := PassedIsLost(cap, reported, m, c);
      Then(cap, reported, l, Read(true), m, l');
    } else if l.acks != [] {
      AckKeepsPassed(l, c, cap);
      var m := DoAck(l);
      l' := PassedIsLost(cap, reported, m, c);
      Then(cap, reported, l, AckArrives, m, l');
    } else if c == l.pushed {
      var m := DoPush(l, cap);
      l' := NextIsAcked(cap, reported, m, c);
      Then(cap, reported, l, Push, m, l');
    } else {
      l' := NextIsAcked(cap, reported, l, c);
    }
  }

  lemma NextIsAcked(cap: nat, reported: nat -> bool, l: Link, c: nat) returns (l': Link)
    requires l.writing.NotWriting? && 1 <= l.first <= c < l.pushed && l.first + l.sent == c + 1
    requires l.top < c && !Settled(l, c) && l.wire == [] && l.acks == []
    ensures Leads(cap, reported, l, l') && c < l'.first && !Settled(l', c)
  {
    var w := l.(wire := [c + 1], writing := Wrote(c + 1, true));
    var r := DoRead(reported, w, true);
    l' := DoAck(r);
    assert PathTo(cap, reported, [l'], [], l', l');
    Then(cap, reported, r, AckArrives, l', l');
    Then(cap, reported, w, Read(true), r, l');
    Then(cap, reported, l, Write, w, l');
  }

  lemma PassedByAdvance(l: Link, cap: nat)
    requires LinkInv(l, cap) && l.writing.Wrote? && !InOrder(l, Advance)
    ensures PassedOver(l.(sent := l.sent + 1, writing := NotWriting), l.first + l.sent, cap)
  {
    assert !Settled(l, l.first + l.sent);
  }

  lemma UnsafeAdvance(cap: nat, reported: nat -> bool, l: Link)
    requires LinkInv(l, cap) && cap >= 2 && l.writing.Wrote? && !InOrder(l, Advance)
    ensures !AdvanceIsSafe(cap, reported, l)
  {
    var (m, c) := (l.(sent := l.sent + 1, writing := NotWriting), l.first + l.sent);
    PassedByAdvance(l, cap);
    var l' := PassedIsLost(cap, reported, m, c);
    var states, steps :| PathTo(cap, reported, states, steps, m, l');
    var (ls, ss) := ([l] + states, [Advance] + steps);
    forall i | 0 <= i < |ss|
      ensures Next(cap, reported, ls[i], ss[i], ls[i + 1])
    {
      if i > 0 { assert Next(cap, reported, states[i - 1], steps[i - 1], states[i]); }
    }
    assert IsPath(cap, reported, ls, ss) && ls[|ss|] == l';
    assert !NothingLost(l');
  }

  /** An Advance of an in-order run, over a ring of two or more, is followed only by in-order
      continuations that lose nothing if and only if it is itself in order. */
  lemma AdvanceSafeIff(cap: nat, reported: nat -> bool, states: seq<Link>, steps: seq<Step>, i: nat)
    requires IsRun(cap, reported, states, steps) && InOrderUntil(states, steps, i) && i < |states|
    requires cap >= 2 && states[i].writing.Wrote?
    ensures AdvanceIsSafe(cap, reported, states[i]) <==>
      var l := states[i];
      || l.writing == Wrote(l.first + l.sent, true)
      || l.first + l.sent > l.pushed
      || l.first + l.sent <= l.top
  {
    var l := states[i];
    RunKeeps(cap, reported, states, steps, i);
    if InOrder(l, Advance) {
      forall us, ts |
        && IsPath(cap, reported, us, ts) && |ts| > 0 && us[0] == l && ts[0] == Advance
        && (forall k :: 1 <= k < |ts| ==> InOrder(us[k], ts[k]))
        ensures NothingLost(us[|ts|])
      {
        PathKeeps(cap, reported, us, ts, |ts|);
      }
    } else {
      UnsafeAdvance(cap, reported, l);
    }
  }

  // ---------------------------------------------------------------- a ring of one

  ghost predicate OneInv(l: Link) {
    && 1 <= l.first <= l.pushed + 1 <= l.first + 1 && NothingLost(l) && l.top <= l.pushed
    && (forall t :: 1 <= t <= l.top ==> Settled(l, t))
    && (forall i :: 0 <= i < |l.acks| ==> l.acks[i] <= l.top)
    && (forall i, t :: 0 <= i < |l.wire| && 1 <= t < l.wire[i] ==> Settled(l, t))
    && (forall i :: 0 <= i < |l.wire| ==> l.wire[i] <= l.pushed)
  }

  lemma OneStepKeeps(reported: nat -> bool, l: Link, step: Step, l': Link)
    requires OneInv(l) && Next(1, reported, l, step, l')
    ensures OneInv(l')
  {
    assert forall t :: Settled(l, t) ==> Settled(l', t);
    match step
    case Read(appended) =>
      assert forall i :: 0 <= i < |l'.wire| ==> l'.wire[i] == l.wire[i + 1];
    case _ =>
  }

  /** A ring of one loses nothing, in order or not: what is written is all it holds. */
  lemma {:induction false} OneSlotLosesNothing(reported: nat -> bool, states: seq<Link>, steps: seq<Step>, i: nat)
    requires IsRun(1, reported, states, steps) && i < |states|
    ensures OneInv(states[i]) && NothingLost(states[i])
  {
    if i > 0 {
      OneSlotLosesNothing(reported, states, steps, i - 1);
      assert Next(1, reported, states[i - 1], steps[i - 1], states[i - 1 + 1]);
      OneStepKeeps(reported, states[i - 1], steps[i - 1], states[i]);
    }
  }

  // ---------------------------------------------------------------- retries

  /** A refused append that may come again is the one remembered, and everything the ring
      holds before it is decided. */
  ghost predicate MemoryInv(l: Link) {
    && (forall i, j :: 0 <= i < |l.attempts| && 0 <= j < |l.attempts| && l.attempts[i].number == l.attempts[j].number ==>
          l.attempts[i].stamp == l.attempts[j].stamp)
    && (forall i :: 0 <= i < |l.attempts| ==> l.attempts[i].number >= 1 && (l.attempts[i].ok ==> l.attempts[i].number <= l.top))
    && (forall i :: 0 <= i < |l.attempts| && l.attempts[i].number > l.top ==> Remembered(l, l.attempts[i]))
  }

  ghost predicate Remembered(l: Link, a: Attempt) {
    && (a.number in l.wire || a.number >= l.first ==> l.memory == Some((a.number, a.stamp)))
    && (a.number <= l.first || a.number <= l.top + 1)
    && (forall t :: t in l.wire && t < a.number ==> t <= l.top)
  }

  /** While the head of the wire is being decided, an earlier refusal that may come again is
      a refusal of that very sequence. */
  lemma ReadKeepsRemembered(reported: nat -> bool, l: Link, cap: nat, appended: bool, a: Attempt)
    requires LinkInv(l, cap) && l.wire != [] && Remembered(l, a) && a.number >= 1
    requires a.number > DoRead(reported, l, appended).top >= l.top
    ensures Remembered(DoRead(reported, l, appended), a)
  {
    var number := l.wire[0];
    var l' := DoRead(reported, l, appended);
    assert number in l.wire;
    assert forall t :: t in l.wire[1..] ==> t in l.wire;
    if number > l.top && reported(number) && !appended && a.number < number {
      HeadIsNext(l, a.number);
    }
  }

  lemma ReadKeepsMemory(reported: nat -> bool, l: Link, cap: nat, appended: bool)
    requires LinkInv(l, cap) && MemoryInv(l) && l.wire != []
    ensures MemoryInv(DoRead(reported, l, appended))
  {
    var number := l.wire[0];
    var l' := DoRead(reported, l, appended);
    forall i | 0 <= i < |l.attempts| && l.attempts[i].number > l'.top
      ensures Remembered(l', l.attempts[i])
    {
      ReadKeepsRemembered(reported, l, cap, appended, l.attempts[i]);
    }
    if number > l.top && reported(number) {
      NewAttempt(reported, l, cap, appended);
    }
  }

  lemma NewAttempt(reported: nat -> bool, l: Link, cap: nat, appended: bool)
    requires LinkInv(l, cap) && MemoryInv(l) && l.wire != [] && l.wire[0] > l.top && reported(l.wire[0])
    ensures var l' := DoRead(reported, l, appended);
      && |l'.attempts| == |l.attempts| + 1 && l.attempts == l'.attempts[..|l.attempts|]
      && var a := l'.attempts[|l.attempts|];
         a.number == l.wire[0] && a.ok == appended
         && (a.number > l'.top ==> Remembered(l', a))
         && forall i :: 0 <= i < |l.attempts| && l.attempts[i].number == a.number ==> l.attempts[i].stamp == a.stamp
  {
    var number := l.wire[0];
    var l' := DoRead(reported, l, appended);
    assert number in l.wire;
    forall i | 0 <= i < |l.attempts| && l.attempts[i].number == number
      ensures l.memory == Some((number, l.attempts[i].stamp))
    {
      assert Remembered(l, l.attempts[i]);
    }
    if number > l.first && number > l.top + 1 {
      HeadIsNext(l, number - 1);
      assert false;
    }
  }

  lemma StepKeepsMemory(cap: nat, reported: nat -> bool, l: Link, step: Step, l': Link)
    requires LinkInv(l, cap) && MemoryInv(l) && cap > 0 && Next(cap, reported, l, step, l')
    ensures MemoryInv(l')
  {
    if step.Read? {
      ReadKeepsMemory(reported, l, cap, step.appended);
    } else {
      forall i | 0 <= i < |l'.attempts| && l'.attempts[i].number > l'.top
        ensures Remembered(l', l'.attempts[i])
      {
        assert Remembered(l, l.attempts[i]);
      }
    }
  }

  lemma {:induction false} RunKeepsMemory(cap: nat, reported: nat -> bool, states: seq<Link>, steps: seq<Step>, i: nat)
    requires IsRun(cap, reported, states, steps) && InOrderUntil(states, steps, i) && i < |states|
    ensures MemoryInv(states[i])
  {
    if i > 0 {
      RunKeepsMemory(cap, reported, states, steps, i - 1);
      RunKeeps(cap, reported, states, steps, i - 1);
      StepKeepsMemory(cap, reported, states[i - 1], steps[i - 1], states[i]);
    }
  }

  /** However often the spool refuses a push, every attempt at it carries one envelope. */
  lemma RetriesAreIdentical(cap: nat, reported: nat -> bool, states: seq<Link>, steps: seq<Step>, i: nat, a: Attempt, b: Attempt)
    requires IsRun(cap, reported, states, steps) && InOrderUntil(states, steps, i) && i < |states|
    requires a in states[i].attempts && b in states[i].attempts && a.number == b.number
    ensures a.stamp == b.stamp
  {
    RunKeepsMemory(cap, reported, states, steps, i);
  }

  // ---------------------------------------------------------------- the race

  /** An acknowledgement that arrives between the write of event 1 and its Advance makes the
      Advance skip event 2. Event 3 is then spooled and acknowledged, and the guest forgets
      event 2, which was neither dropped nor spooled. */
  lemma RaceLosesEvent() returns (states: seq<Link>, steps: seq<Step>)
    ensures IsRun(8, (n: nat) => true, states, steps) && |steps| == 11
    ensures var l := states[11]; l.first == 4 && l.spool == [1, 3] && l.dropped == {} && l.refused == {}
  {
    states, steps := RaceSkips();
    var s6 := states[6];
    var s7 := s6.(pushed := 3);
    var s8 := s7.(wire := [3], writing := Wrote(3, true));
    var s9 := s8.(sent := 2, writing := NotWriting);
    var s10 := DoRead((n: nat) => true, s9, true);
    var s11 := DoAck(s10);
    states := states + [s7, s8, s9, s10, s11];
    steps := steps + [Push, Write, Advance, Read(true), AckArrives];
  }

  lemma RaceSkips() returns (states: seq<Link>, steps: seq<Step>)
    ensures IsRun(8, (n: nat) => true, states, steps) && |steps| == 6
    ensures states[6] == START.(pushed := 2, first := 2, sent := 1, spool := [1], top := 1, attempts := [Attempt(1, 0, true)], clock := 1)
  {
    var s2 := START.(pushed := 2);
    var s3 := s2.(wire := [1], writing := Wrote(1, true));
    var s4 := DoRead((n: nat) => true, s3, true);
    var s5 := DoAck(s4);
    var s6 := s5.(sent := 1, writing := NotWriting);
    states := [START, START.(pushed := 1), s2, s3, s4, s5, s6];
    steps := [Push, Push, Write, Read(true), AckArrives, Advance];
  }
}
