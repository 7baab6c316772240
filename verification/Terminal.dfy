/** Terminal output from the guest's ring to the browser: each run of bytes carries the
    absolute offset of its first byte, and the only gaps are the ranges reported dropped. */
module TerminalStream {
  import opened Wire
  import opened TerminalRing

  datatype Msg = Piece(offset: nat, bytes: seq<Byte>) | Dropped(from: nat, to: nat)

  function Start(m: Msg): nat { if m.Piece? then m.offset else m.from }

  function After(m: Msg): nat { if m.Piece? then m.offset + |m.bytes| else m.to }

  /** Where a reader that began at `from` is after these messages. */
  function Cursor(from: nat, msgs: seq<Msg>): nat {
    if msgs == [] then from else After(msgs[|msgs| - 1])
  }

  /** The message takes the reader on from `cur`, with the stream's own bytes. */
  ghost predicate Continues(stream: seq<Byte>, cur: nat, m: Msg) {
    && Start(m) == cur < After(m) <= |stream|
    && (m.Piece? ==> m.bytes == stream[m.offset..m.offset + |m.bytes|])
  }

  /** Contiguous from `from` on: each message starts where the one before ended. */
  ghost predicate Faithful(stream: seq<Byte>, from: nat, msgs: seq<Msg>) {
    msgs == [] ||
    (var n := |msgs| - 1;
     Faithful(stream, from, msgs[..n]) && Continues(stream, Cursor(from, msgs[..n]), msgs[n]))
  }

  lemma FaithfulMore(stream: seq<Byte>, from: nat, msgs: seq<Msg>, m: Msg)
    requires Faithful(stream, from, msgs) && Continues(stream, Cursor(from, msgs), m)
    ensures Faithful(stream, from, msgs + [m]) && Cursor(from, msgs + [m]) == After(m)
  {
    assert (msgs + [m])[..|msgs|] == msgs;
  }

  lemma {:induction false} FaithfulLess(stream: seq<Byte>, from: nat, msgs: seq<Msg>, k: nat)
    requires Faithful(stream, from, msgs) && k <= |msgs|
    ensures Faithful(stream, from, msgs[..k])
    ensures k < |msgs| ==> Continues(stream, Cursor(from, msgs[..k]), msgs[k])
  {
    if k == |msgs| {
      assert msgs[..k] == msgs;
    } else if k < |msgs| - 1 {
      FaithfulLess(stream, from, msgs[..|msgs| - 1], k);
      assert msgs[..|msgs| - 1][..k] == msgs[..k];
    }
  }

  /** What was true of the stream stays true as it grows. */
  lemma {:induction false} FaithfulGrows(stream: seq<Byte>, more: seq<Byte>, from: nat, msgs: seq<Msg>)
    requires Faithful(stream, from, msgs)
    ensures Faithful(stream + more, from, msgs)
  {
    if msgs != [] {
      var m := msgs[|msgs| - 1];
      FaithfulGrows(stream, more, from, msgs[..|msgs| - 1]);
      if m.Piece? { assert (stream + more)[m.offset..m.offset + |m.bytes|] == stream[m.offset..m.offset + |m.bytes|]; }
    }
  }

  /** The message delivers the stream's byte at `x`, or reports it dropped. */
  ghost predicate Accounts(stream: seq<Byte>, m: Msg, x: nat) {
    Start(m) <= x < After(m) && (m.Piece? ==> x < |stream| && m.bytes[x - m.offset] == stream[x])
  }

  /** Every offset passed was delivered with its own byte, or reported dropped. */
  lemma {:induction false} EveryByteAccounted(stream: seq<Byte>, from: nat, msgs: seq<Msg>, x: nat)
    requires Faithful(stream, from, msgs) && from <= x < Cursor(from, msgs)
    ensures x < |stream|
    ensures exists i :: 0 <= i < |msgs| && Accounts(stream, msgs[i], x)
  {
    var n := |msgs| - 1;
    if x >= Start(msgs[n]) {
      assert Accounts(stream, msgs[n], x);
    } else {
      EveryByteAccounted(stream, from, msgs[..n], x);
      var i :| 0 <= i < n && Accounts(stream, msgs[..n][i], x);
      assert Accounts(stream, msgs[i], x);
    }
  }

  /** No offset is passed twice. */
  lemma {:induction false} InOrder(stream: seq<Byte>, from: nat, msgs: seq<Msg>, i: nat, j: nat)
    requires Faithful(stream, from, msgs) && i < j < |msgs|
    ensures After(msgs[i]) <= Start(msgs[j])
  {
    FaithfulLess(stream, from, msgs, j);
    FaithfulLess(stream, from, msgs, j - 1);
    if i < j - 1 { InOrder(stream, from, msgs, i, j - 1); }
  }

  // ---------------------------------------------------------------- guest

  /** One reader over a session's ring. */
  class Attachment {
    const ring: Ring
    var off: nat
    var drop: Option<Range>

    ghost predicate Valid()
      reads this, ring, ring.buf
    {
      ring.Valid() && off <= ring.head
    }

    constructor (ring: Ring, resume: nat)
      requires ring.Valid() && resume <= ring.head
      ensures Valid() && this.ring == ring && off == resume && drop.None?
    {
      this.ring, off, drop := ring, resume, None;
    }

    method RecordDrop(r: Range)
      modifies this`drop
      ensures drop == Some(if old(drop).None? then r else Range(old(drop).value.from, r.to))
    {
      if drop.None? { drop := Some(r); } else { drop := Some(drop.value.(to := r.to)); }
    }

    /** One pass of Read; it returns nothing where the code would wait for more output. */
    method Read(limit: nat) returns (b: seq<Byte>)
      requires Valid() && drop.None? && limit > 0
      modifies this
      ensures Valid() && off == (if drop.Some? then drop.value.to else old(off)) + |b|
      ensures drop == if old(off) < ring.Tail() then Some(Range(old(off), ring.Tail())) else None
      ensures |b| <= limit && b == ring.stream[off - |b|..off]
      ensures |b| < limit ==> off == ring.head
    {
      if off < ring.Tail() {
        RecordDrop(Range(off, ring.Tail()));
        off := ring.Tail();
      }
      if off >= ring.head { return []; }
      var all, _, _ := ring.ReadFrom(off);
      var n := if |all| <= limit then |all| else limit;
      TakenFrom(ring.stream, off, n);
      b := all[..n];
      off := off + n;
    }
  }

  lemma TakenFrom(stream: seq<Byte>, off: nat, n: nat)
    requires off + n <= |stream|
    ensures stream[off..][..n] == stream[off..off + n]
  {
  }

  ghost predicate NoLonger(msgs: seq<Msg>, limit: nat) {
    forall i :: 0 <= i < |msgs| && msgs[i].Piece? ==> |msgs[i].bytes| <= limit
  }

  lemma MoreIsFaithful(stream: seq<Byte>, resume: nat, msgs: seq<Msg>, m: Msg, chunk: nat)
    requires Faithful(stream, resume, msgs) && NoLonger(msgs, chunk)
    requires Continues(stream, Cursor(resume, msgs), m) && (m.Piece? ==> |m.bytes| <= chunk)
    ensures Faithful(stream, resume, msgs + [m]) && NoLonger(msgs + [m], chunk) && Cursor(resume, msgs + [m]) == After(m)
  {
    FaithfulMore(stream, resume, msgs, m);
  }

  /** A session as one reader meets it: the stream, the oldest offset the ring holds, and
      where the reader is. */
  datatype Session = Session(stream: seq<Byte>, tail: nat, cur: nat)

  predicate Sane(s: Session, size: nat) {
    s.cur <= |s.stream| && s.tail <= |s.stream| <= s.tail + size
  }

  /** The shell writes: what a ring of `size` bytes cannot hold any more is overwritten. */
  function Wrote(s: Session, p: seq<Byte>, size: nat): (r: Session)
    requires Sane(s, size)
    ensures Sane(r, size) && s.tail <= r.tail && s.stream <= r.stream
  {
    var head := |s.stream| + |p|;
    Session(s.stream + p, if head <= s.tail + size then s.tail else head - size, s.cur)
  }

  /** The reader skips what is gone. */
  function Skipped(s: Session): Session { if s.cur < s.tail then s.(cur := s.tail) else s }

  function SkipMsgs(s: Session): seq<Msg> { if s.cur < s.tail then [Dropped(s.cur, s.tail)] else [] }

  /** And reads a chunk, or up to the head. */
  function ReadEnd(s: Session, chunk: nat): nat { if s.cur + chunk < |s.stream| then s.cur + chunk else |s.stream| }

  function ReadMsgs(s: Session, chunk: nat): seq<Msg>
    requires s.cur <= |s.stream|
  {
    if s.cur < ReadEnd(s, chunk) then [Piece(s.cur, s.stream[s.cur..ReadEnd(s, chunk)])] else []
  }

  function Turned(s: Session, chunk: nat): Session { Skipped(s).(cur := ReadEnd(Skipped(s), chunk)) }

  function TurnMsgs(s: Session, chunk: nat): seq<Msg>
    requires s.cur <= |s.stream| && s.tail <= |s.stream|
  {
    SkipMsgs(s) + ReadMsgs(Skipped(s), chunk)
  }

  /** The session after the shell wrote `rounds[i]` before each turn i, and what was sent. */
  function Served(s: Session, size: nat, rounds: seq<seq<Byte>>, chunk: nat): Session
    requires Sane(s, size)
    decreases |rounds|
  {
    if rounds == [] then s else Served(Turned(Wrote(s, rounds[0], size), chunk), size, rounds[1..], chunk)
  }

  function ServedMsgs(s: Session, size: nat, rounds: seq<seq<Byte>>, chunk: nat): seq<Msg>
    requires Sane(s, size)
    decreases |rounds|
  {
    if rounds == [] then []
    else
      var t := Wrote(s, rounds[0], size);
      TurnMsgs(t, chunk) + ServedMsgs(Turned(t, chunk), size, rounds[1..], chunk)
  }

  /** Nothing is reported dropped that the ring still holds. */
  ghost predicate OnlyGoneDropped(msgs: seq<Msg>, tail: nat) {
    forall i :: 0 <= i < |msgs| && msgs[i].Dropped? ==> msgs[i].to <= tail
  }

  /** The messages so far bring the reader where the session says it is. */
  ghost predicate Tells(s: Session, resume: nat, msgs: seq<Msg>, chunk: nat) {
    Faithful(s.stream, resume, msgs) && NoLonger(msgs, chunk) && OnlyGoneDropped(msgs, s.tail) && Cursor(resume, msgs) == s.cur
  }

  lemma WroteTells(s: Session, p: seq<Byte>, size: nat, resume: nat, msgs: seq<Msg>, chunk: nat)
    requires Sane(s, size) && Tells(s, resume, msgs, chunk)
    ensures Tells(Wrote(s, p, size), resume, msgs, chunk)
  {
    FaithfulGrows(s.stream, p, resume, msgs);
  }

  lemma SkipTells(s: Session, resume: nat, msgs: seq<Msg>, chunk: nat)
    requires Tells(s, resume, msgs, chunk) && s.tail <= |s.stream|
    ensures Tells(Skipped(s), resume, msgs + SkipMsgs(s), chunk)
  {
    if s.cur < s.tail {
      MoreIsFaithful(s.stream, resume, msgs, Dropped(s.cur, s.tail), chunk);
    } else {
      assert msgs + SkipMsgs(s) == msgs;
    }
  }

  lemma ReadTells(s: Session, resume: nat, msgs: seq<Msg>, chunk: nat)
    requires Tells(s, resume, msgs, chunk) && s.cur <= |s.stream|
    ensures Tells(s.(cur := ReadEnd(s, chunk)), resume, msgs + ReadMsgs(s, chunk), chunk)
  {
    if s.cur < ReadEnd(s, chunk) {
      MoreIsFaithful(s.stream, resume, msgs, Piece(s.cur, s.stream[s.cur..ReadEnd(s, chunk)]), chunk);
    } else {
      assert msgs + ReadMsgs(s, chunk) == msgs;
    }
  }

  lemma TurnTells(s: Session, resume: nat, msgs: seq<Msg>, chunk: nat)
    requires Tells(s, resume, msgs, chunk) && s.cur <= |s.stream| && s.tail <= |s.stream|
    ensures Tells(Turned(s, chunk), resume, msgs + TurnMsgs(s, chunk), chunk)
  {
    SkipTells(s, resume, msgs, chunk);
    ReadTells(Skipped(s), resume, msgs + SkipMsgs(s), chunk);
    assert msgs + TurnMsgs(s, chunk) == msgs + SkipMsgs(s) + ReadMsgs(Skipped(s), chunk);
  }

  /** What a session sends is contiguous with its stream, and no more is dropped than is gone. */
  lemma {:induction false} ServedTells(s: Session, size: nat, rounds: seq<seq<Byte>>, chunk: nat, resume: nat, msgs: seq<Msg>)
    requires Sane(s, size) && Tells(s, resume, msgs, chunk)
    ensures Sane(Served(s, size, rounds, chunk), size)
    ensures Tells(Served(s, size, rounds, chunk), resume, msgs + ServedMsgs(s, size, rounds, chunk), chunk)
    decreases |rounds|
  {
    if rounds == [] {
      assert msgs + ServedMsgs(s, size, rounds, chunk) == msgs;
    } else {
      WroteTells(s, rounds[0], size, resume, msgs, chunk);
      ServedTellsMore(s, Wrote(s, rounds[0], size), size, rounds, chunk, resume, msgs);
    }
  }

  lemma {:induction false} ServedTellsMore(s: Session, t: Session, size: nat, rounds: seq<seq<Byte>>, chunk: nat, resume: nat, msgs: seq<Msg>)
    requires rounds != [] && Sane(s, size) && t == Wrote(s, rounds[0], size) && Tells(t, resume, msgs, chunk)
    ensures Sane(Served(s, size, rounds, chunk), size)
    ensures Tells(Served(s, size, rounds, chunk), resume, msgs + ServedMsgs(s, size, rounds, chunk), chunk)
    decreases |rounds|, 0
  {
    var u, sent := Turned(t, chunk), TurnMsgs(t, chunk);
    TurnTells(t, resume, msgs, chunk);
    ServedTells(u, size, rounds[1..], chunk, resume, msgs + sent);
    Joined(msgs, sent, ServedMsgs(u, size, rounds[1..], chunk));
  }

  lemma Joined(a: seq<Msg>, b: seq<Msg>, c: seq<Msg>)
    ensures a + (b + c) == a + b + c
  {
  }

  lemma {:induction false} ServedInTwo(s: Session, size: nat, a: seq<seq<Byte>>, b: seq<seq<Byte>>, chunk: nat)
    requires Sane(s, size)
    ensures Sane(Served(s, size, a, chunk), size)
    ensures Served(s, size, a + b, chunk) == Served(Served(s, size, a, chunk), size, b, chunk)
    decreases |a|
  {
    if a == [] {
      assert a + b == b;
    } else {
      assert (a + b)[1..] == a[1..] + b;
      ServedInTwo(Turned(Wrote(s, a[0], size), chunk), size, a[1..], b, chunk);
    }
  }

  predicate AllQuiet(rounds: seq<seq<Byte>>) { forall i :: 0 <= i < |rounds| ==> rounds[i] == [] }

  /** A turn gains a chunk on what the ring holds, or reaches the head. */
  lemma TurnGains(r: Session, size: nat, done: nat, chunk: nat)
    requires Sane(r, size) && (done == 0 || r.cur == |r.stream| || r.cur >= r.tail + done)
    ensures var t := Turned(r, chunk);
      t.stream == r.stream && t.tail == r.tail && (t.cur == |r.stream| || t.cur >= r.tail + done + chunk)
  {
  }

  lemma OneMore(n: nat, chunk: nat)
    ensures (n + 1) * chunk == n * chunk + chunk
  {
  }

  /** While the shell is quiet the reader gains a chunk a turn on what the ring holds. */
  lemma {:induction false} QuietGains(s: Session, size: nat, rounds: seq<seq<Byte>>, chunk: nat)
    requires Sane(s, size) && AllQuiet(rounds) && rounds != []
    ensures var r := Served(s, size, rounds, chunk);
      r.stream == s.stream && r.tail == s.tail && (r.cur == |s.stream| || r.cur >= s.tail + |rounds| * chunk)
    decreases |rounds|
  {
    var n := |rounds| - 1;
    var last: seq<seq<Byte>> := [[]];
    assert rounds == rounds[..n] + last;
    ServedInTwo(s, size, rounds[..n], last, chunk);
    var r := Served(s, size, rounds[..n], chunk);
    if n > 0 { QuietGains(s, size, rounds[..n], chunk); } else { assert rounds[..n] == []; }
    OneQuietTurn(r, size, last, chunk);
    var done := n * chunk;
    OneMore(n, chunk);
    TurnGains(r, size, done, chunk);
  }

  lemma OneQuietTurn(r: Session, size: nat, last: seq<seq<Byte>>, chunk: nat)
    requires Sane(r, size) && last == [[]]
    ensures Served(r, size, last, chunk) == Turned(r, chunk)
  {
    assert Wrote(r, [], size) == r;
    assert last[1..] == [];
  }

  /** The reader is at the head after quiet turns enough to read the whole ring. */
  lemma QuietCatchesUp(s: Session, size: nat, busy: seq<seq<Byte>>, quiet: seq<seq<Byte>>, chunk: nat)
    requires Sane(s, size) && AllQuiet(quiet) && quiet != [] && |quiet| * chunk >= size
    ensures var r := Served(s, size, busy + quiet, chunk); r.cur == |r.stream|
  {
    ServedInTwo(s, size, busy, quiet, chunk);
    QuietGains(Served(s, size, busy, chunk), size, quiet, chunk);
    var r := Served(s, size, busy + quiet, chunk);
    ServedSane(s, size, busy + quiet, chunk);
  }

  lemma {:induction false} ServedSane(s: Session, size: nat, rounds: seq<seq<Byte>>, chunk: nat)
    requires Sane(s, size)
    ensures Sane(Served(s, size, rounds, chunk), size)
    decreases |rounds|
  {
    if rounds != [] { ServedSane(Turned(Wrote(s, rounds[0], size), chunk), size, rounds[1..], chunk); }
  }

  /** One turn of streamOut. The offset `cur` is derived: a drop moves it to the range's end,
      a read by its length. */
  method Turn(rd: Attachment, cur: nat, msgs: seq<Msg>, chunk: nat) returns (next: nat, out: seq<Msg>)
    requires rd.Valid() && rd.drop.None? && chunk > 0 && cur == rd.off
    modifies rd
    ensures rd.Valid() && rd.drop.None? && next == rd.off
    ensures var s := Session(rd.ring.stream, rd.ring.Tail(), cur);
      next == Turned(s, chunk).cur && out == msgs + TurnMsgs(s, chunk)
  {
    next, out := cur, msgs;
    var b := rd.Read(chunk);
    if rd.drop.Some? {
      out := out + [Dropped(rd.drop.value.from, rd.drop.value.to)];
      next := rd.drop.value.to;
      rd.drop := None;
    }
    if b != [] {
      out := out + [Piece(next, b)];
      next := next + |b|;
    }
  }

  /** The shell writes, then streamOut takes a turn. */
  method WriteAndTurn(rd: Attachment, p: seq<Byte>, cur: nat, msgs: seq<Msg>, chunk: nat) returns (next: nat, out: seq<Msg>)
    requires rd.Valid() && rd.drop.None? && chunk > 0 && cur == rd.off
    modifies rd, rd.ring, rd.ring.buf
    ensures rd.Valid() && rd.drop.None? && next == rd.off
    ensures var (s, size) := (Session(old(rd.ring.stream), old(rd.ring.Tail()), cur), rd.ring.buf.Length);
      && Sane(s, size)
      && Session(rd.ring.stream, rd.ring.Tail(), next) == Turned(Wrote(s, p, size), chunk)
      && out == msgs + TurnMsgs(Wrote(s, p, size), chunk)
  {
    ghost var s, size := Session(rd.ring.stream, rd.ring.Tail(), cur), rd.ring.buf.Length;
    var _ := rd.ring.Append(p);
    assert Wrote(s, p, size) == Session(rd.ring.stream, rd.ring.Tail(), cur);
    next, out := Turn(rd, cur, msgs, chunk);
  }

  /** What is still to come after `i` rounds completes the whole. */
  ghost predicate Remains(s: Session, now: Session, size: nat, rounds: seq<seq<Byte>>, i: nat, msgs: seq<Msg>, chunk: nat)
    requires Sane(s, size) && Sane(now, size) && i <= |rounds|
  {
    && Served(s, size, rounds, chunk) == Served(now, size, rounds[i..], chunk)
    && ServedMsgs(s, size, rounds, chunk) == msgs + ServedMsgs(now, size, rounds[i..], chunk)
  }

  lemma RemainsNext(s: Session, now: Session, size: nat, rounds: seq<seq<Byte>>, i: nat, msgs: seq<Msg>, chunk: nat)
    requires Sane(s, size) && Sane(now, size) && i < |rounds| && Remains(s, now, size, rounds, i, msgs, chunk)
    ensures var t := Wrote(now, rounds[i], size);
      Sane(Turned(t, chunk), size) && Remains(s, Turned(t, chunk), size, rounds, i + 1, msgs + TurnMsgs(t, chunk), chunk)
  {
    var t := Wrote(now, rounds[i], size);
    ServedFrom(now, size, rounds, i, chunk);
    Joined(msgs, TurnMsgs(t, chunk), ServedMsgs(Turned(t, chunk), size, rounds[i + 1..], chunk));
  }

  lemma ServedFrom(s: Session, size: nat, rounds: seq<seq<Byte>>, i: nat, chunk: nat)
    requires Sane(s, size) && i < |rounds|
    ensures var t := Wrote(s, rounds[i], size);
      && Served(s, size, rounds[i..], chunk) == Served(Turned(t, chunk), size, rounds[i + 1..], chunk)
      && ServedMsgs(s, size, rounds[i..], chunk) == TurnMsgs(t, chunk) + ServedMsgs(Turned(t, chunk), size, rounds[i + 1..], chunk)
  {
    assert rounds[i..][1..] == rounds[i + 1..];
  }

  /** streamOut over rounds of shell output: before each read the shell may have written
      anything, or nothing. */
  method StreamOut(ring: Ring, resume: nat, rounds: seq<seq<Byte>>, chunk: nat) returns (msgs: seq<Msg>)
    requires ring.Valid() && resume <= ring.head && chunk > 0
    modifies ring, ring.buf
    ensures ring.Valid()
    ensures var s := Session(old(ring.stream), old(ring.Tail()), resume);
      && Sane(s, ring.buf.Length)
      && msgs == ServedMsgs(s, ring.buf.Length, rounds, chunk)
      && Served(s, ring.buf.Length, rounds, chunk) == Session(ring.stream, ring.Tail(), Cursor(resume, msgs))
    ensures Faithful(ring.stream, resume, msgs) && NoLonger(msgs, chunk) && OnlyGoneDropped(msgs, ring.Tail())
  {
    ghost var size, s := ring.buf.Length, Session(ring.stream, ring.Tail(), resume);
    ghost var now := s;
    var rd := new Attachment(ring, resume);
    var cur := resume;
    msgs := [];
    assert rounds[0..] == rounds;
    for i := 0 to |rounds|
      invariant fresh(rd) && rd.ring == ring && rd.Valid() && rd.drop.None? && cur == rd.off && Sane(now, size)
      invariant now == Session(ring.stream, ring.Tail(), cur)
      invariant Remains(s, now, size, rounds, i, msgs, chunk)
    {
      RemainsNext(s, now, size, rounds, i, msgs, chunk);
      cur, msgs := WriteAndTurn(rd, rounds[i], cur, msgs, chunk);
      now := Session(ring.stream, ring.Tail(), cur);
    }
    ServedTells(s, size, rounds, chunk, resume, []);
    assert [] + ServedMsgs(s, size, rounds, chunk) == ServedMsgs(s, size, rounds, chunk);
  }

  // ---------------------------------------------------------------- relay

  function ByteCount(msgs: seq<Msg>): nat {
    if msgs == [] then 0
    else ByteCount(msgs[..|msgs| - 1]) + if msgs[|msgs| - 1].Piece? then |msgs[|msgs| - 1].bytes| else 0
  }

  function Drops(msgs: seq<Msg>): seq<Msg> {
    if msgs == [] then []
    else Drops(msgs[..|msgs| - 1]) + if msgs[|msgs| - 1].Piece? then [] else [msgs[|msgs| - 1]]
  }

  lemma CountMore(msgs: seq<Msg>, m: Msg)
    ensures ByteCount(msgs + [m]) == ByteCount(msgs) + if m.Piece? then |m.bytes| else 0
    ensures Drops(msgs + [m]) == Drops(msgs) + if m.Piece? then [] else [m]
  {
    assert (msgs + [m])[..|msgs|] == msgs;
  }

  /** Bytes sent toward one browser and not acknowledged, bounded. */
  class Window {
    const max: nat
    var sent: nat
    var acked: nat

    ghost predicate Valid()
      reads this
    {
      max > 0 && acked <= sent <= acked + max
    }

    constructor (max: int, start: nat)
      ensures Valid() && sent == acked == start && this.max == if max <= 0 then 1 else max
    {
      this.max := if max <= 0 then 1 else max;
      sent, acked := start, start;
    }

    method Reserve(n: nat) returns (ok: bool)
      requires Valid()
      modifies this`sent
      ensures Valid() && ok == (n == 0 || old(sent) - acked + n <= max)
      ensures sent == old(sent) + if ok then n else 0
    {
      if n == 0 { return true; }
      if sent - acked + n > max { return false; }
      sent := sent + n;
      return true;
    }

    /** A stale acknowledgement is ignored, one past everything sent is clamped. */
    method Ack(offset: nat)
      requires Valid()
      modifies this`acked
      ensures Valid() && acked == if offset <= old(acked) then old(acked) else if offset > sent then sent else offset
    {
      if offset <= acked { return; }
      acked := if offset > sent then sent else offset;
    }
  }

  /** There is output left before `end`, and no room for as much of it as the window allows. */
  predicate Full(w: Window, at: nat, end: nat)
    reads w
  {
    at < end && w.acked <= w.sent && w.sent - w.acked + (if end - at < w.max then end - at else w.max) > w.max
  }

  /** Each acknowledgement is of everything there will be to acknowledge. */
  ghost predicate Prompt(acks: seq<nat>, end: nat) { forall i :: 0 <= i < |acks| ==> acks[i] >= end }

  predicate Suffix(rest: seq<nat>, acks: seq<nat>) { |rest| <= |acks| && rest == acks[|acks| - |rest|..] }

  /** One such acknowledgement for each of `left` bytes. */
  ghost predicate Enough(acks: seq<nat>, end: nat, left: int) { Prompt(acks, end) && |acks| >= left }

  lemma EnoughLeft(acks: seq<nat>, rest: seq<nat>, end: nat, left: int)
    requires Enough(acks, end, left) && Suffix(rest, acks) && |rest| + 1 >= |acks|
    ensures Enough(rest, end, left - 1)
  {
  }

  /** reserve: wait for room, taking the browser's acknowledgements as they come; it gives up
      only when no more come and there is still no room. */
  method Await(w: Window, n: nat, acks: seq<nat>) returns (ok: bool, rest: seq<nat>)
    requires w.Valid() && n > 0
    modifies w
    ensures w.Valid() && w.sent == old(w.sent) + if ok then n else 0
    ensures Suffix(rest, acks) && (!ok ==> rest == [] && w.sent - w.acked + n > w.max)
    ensures n <= w.max && acks != [] && acks[0] >= old(w.sent) ==> ok && |rest| >= |acks| - 1
  {
    rest := acks;
    ok := w.Reserve(n);
    while !ok && rest != []
      invariant w.Valid() && w.sent == old(w.sent) + if ok then n else 0
      invariant Suffix(rest, acks) && (!ok ==> w.sent - w.acked + n > w.max)
      invariant n <= w.max && acks != [] && acks[0] >= old(w.sent) ==> if ok then |rest| >= |acks| - 1 else rest == acks
      decreases rest, !ok
    {
      w.Ack(rest[0]);
      rest := rest[1..];
      ok := w.Reserve(n);
    }
  }

  /** `sent` extends `out` by pieces only, of `bytes` bytes together. */
  ghost predicate Relays(stream: seq<Byte>, from: nat, limit: nat, out: seq<Msg>, sent: seq<Msg>, bytes: nat) {
    Faithful(stream, from, sent) && NoLonger(sent, limit) && Drops(sent) == Drops(out) && ByteCount(sent) == ByteCount(out) + bytes
  }

  lemma RelaysMore(stream: seq<Byte>, from: nat, limit: nat, out: seq<Msg>, sent: seq<Msg>, bytes: nat, m: Msg)
    requires Relays(stream, from, limit, out, sent, bytes)
    requires m.Piece? && Continues(stream, Cursor(from, sent), m) && |m.bytes| <= limit
    ensures Relays(stream, from, limit, out, sent + [m], bytes + |m.bytes|) && Cursor(from, sent + [m]) == After(m)
  {
    MoreIsFaithful(stream, from, sent, m, limit);
    CountMore(sent, m);
  }

  /** One piece, as much of `b` as the window ever takes, once there is room for it. */
  method SendPiece(w: Window, at: nat, b: seq<Byte>, acks: seq<nat>, sent: seq<Msg>,
                   ghost stream: seq<Byte>, ghost from: nat, ghost out: seq<Msg>, ghost gain: nat,
                   ghost end: nat, ghost left: int)
    returns (next: seq<Msg>, n: nat, ok: bool, rest: seq<nat>)
    requires w.Valid() && b != [] && Relays(stream, from, w.max, out, sent, gain)
    requires Cursor(from, sent) == at && Continues(stream, at, Piece(at, b))
    modifies w
    ensures w.Valid() && 0 < n <= |b|
    ensures ok ==> w.sent == old(w.sent) + n && Relays(stream, from, w.max, out, next, gain + n)
    ensures ok ==> Cursor(from, next) == at + n && (b[n..] != [] ==> Continues(stream, at + n, Piece(at + n, b[n..])))
    ensures !ok ==> w.sent == old(w.sent) && next == sent && rest == [] && Full(w, at, at + |b|)
    ensures Enough(acks, end, left) && old(w.sent) <= end && 0 < left ==> ok && Enough(rest, end, left - n)
  {
    n := if |b| > w.max then w.max else |b|;
    SplitContinues(stream, at, b, n);
    RelaysMore(stream, from, w.max, out, sent, gain, Piece(at, b[..n]));
    ok, rest := Await(w, n, acks);
    if Enough(acks, end, left) && old(w.sent) <= end && 0 < left { EnoughLeft(acks, rest, end, left); }
    next := if ok then sent + [Piece(at, b[..n])] else sent;
  }

  /** sendOutput: one run of output in pieces that fit the window; all of it, unless the
      acknowledgements end while the window is full. */
  method SendOutput(w: Window, m: Msg, acks: seq<nat>, out: seq<Msg>,
                    ghost stream: seq<Byte>, ghost from: nat, ghost end: nat, ghost left: int)
    returns (sent: seq<Msg>, done: bool, rest: seq<nat>)
    requires w.Valid() && Faithful(stream, from, out) && NoLonger(out, w.max)
    requires m.Piece? && Continues(stream, Cursor(from, out), m)
    modifies w
    ensures w.Valid() && w.sent >= old(w.sent) && Relays(stream, from, w.max, out, sent, w.sent - old(w.sent))
    ensures w.sent - old(w.sent) == Cursor(from, sent) - m.offset
    ensures if done then Cursor(from, sent) == After(m) else rest == [] && Full(w, Cursor(from, sent), After(m))
    ensures Enough(acks, end, left) && old(w.sent) + |m.bytes| <= end && |m.bytes| <= left ==>
      done && Enough(rest, end, left - |m.bytes|)
  {
    var at, b := m.offset, m.bytes;
    sent, rest := out, acks;
    done := true;
    while b != []
      invariant w.Valid() && w.sent == old(w.sent) + at - m.offset && at >= m.offset
      invariant Relays(stream, from, w.max, out, sent, w.sent - old(w.sent))
      invariant Cursor(from, sent) == at && at + |b| == After(m) && (b != [] ==> Continues(stream, at, Piece(at, b)))
      invariant Enough(acks, end, left) && old(w.sent) + |m.bytes| <= end && |m.bytes| <= left ==>
        Enough(rest, end, left - (at - m.offset))
      decreases |b|
    {
      var n;
      sent, n, done, rest := SendPiece(w, at, b, rest, sent, stream, from, out, w.sent - old(w.sent), end, left - (at - m.offset));
      if !done { return; }
      at, b := at + n, b[n..];
    }
  }

  lemma SplitContinues(stream: seq<Byte>, at: nat, b: seq<Byte>, n: nat)
    requires Continues(stream, at, Piece(at, b)) && 0 < n <= |b|
    ensures Continues(stream, at, Piece(at, b[..n]))
    ensures n < |b| ==> Continues(stream, at + n, Piece(at + n, b[n..]))
  {
    var run := stream[at..at + |b|];
    assert b == run;
    assert run[..n] == stream[at..at + n] && run[n..] == stream[at + n..at + |b|];
  }

  /** One guest frame: output is split, a drop passes as it is. */
  method Forward(w: Window, m: Msg, acks: seq<nat>, out: seq<Msg>,
                 ghost stream: seq<Byte>, ghost from: nat, ghost end: nat, ghost left: int)
    returns (sent: seq<Msg>, done: bool, rest: seq<nat>)
    requires w.Valid() && Faithful(stream, from, out) && Continues(stream, Cursor(from, out), m) && NoLonger(out, w.max)
    modifies w
    ensures w.Valid() && w.sent - old(w.sent) == ByteCount(sent) - ByteCount(out) && NoLonger(sent, w.max)
    ensures Faithful(stream, from, sent) && (!done ==> Drops(sent) == Drops(out))
    ensures done ==> Drops(sent) == Drops(out) + if m.Piece? then [] else [m]
    ensures if done then Cursor(from, sent) == After(m) else rest == [] && Full(w, Cursor(from, sent), After(m))
    ensures done ==> w.sent - old(w.sent) == Bytes(m)
    ensures Enough(acks, end, left) && old(w.sent) + Bytes(m) <= end && Bytes(m) <= left ==> done && Enough(rest, end, left - Bytes(m))
  {
    if m.Piece? {
      sent, done, rest := SendOutput(w, m, acks, out, stream, from, end, left);
    } else {
      FaithfulMore(stream, from, out, m);
      CountMore(out, m);
      sent, done, rest := out + [m], true, acks;
    }
  }

  function Bytes(m: Msg): nat { if m.Piece? then |m.bytes| else 0 }

  /** pumpGuest: output split, drops forwarded as they are. Whatever reaches the browser is
      faithful to the stream, fits the window, and hides no gap; all of it does, unless the
      acknowledgements end while the window is full, which a prompt browser never lets be. */
  method PumpGuest(w: Window, frames: seq<Msg>, acks: seq<nat>, ghost stream: seq<Byte>, ghost from: nat)
    returns (out: seq<Msg>, done: bool)
    requires w.Valid() && Faithful(stream, from, frames)
    modifies w
    ensures w.Valid() && w.sent == old(w.sent) + ByteCount(out)
    ensures Faithful(stream, from, out) && NoLonger(out, w.max)
    ensures done ==> Cursor(from, out) == Cursor(from, frames) && Drops(out) == Drops(frames) && ByteCount(out) == ByteCount(frames)
    ensures !done ==> Drops(out) <= Drops(frames) && Full(w, Cursor(from, out), Cursor(from, frames))
    ensures Enough(acks, old(w.sent) + ByteCount(frames), ByteCount(frames)) ==> done
  {
    out, done := [], true;
    var rest := acks;
    ghost var end, left := w.sent + ByteCount(frames), ByteCount(frames);
    for i := 0 to |frames|
      invariant w.Valid() && w.sent == old(w.sent) + ByteCount(out) && NoLonger(out, w.max)
      invariant Copied(stream, from, frames, i, out)
      invariant done && (Enough(acks, end, left) ==> Enough(rest, end, left - ByteCount(out)))
    {
      CopiedNext(stream, from, frames, i, out);
      ghost var was := out;
      out, done, rest := Forward(w, frames[i], rest, out, stream, from, end, left - ByteCount(out));
      if !done { return; }
      CopiedMore(stream, from, frames, i, was, out);
    }
    assert frames[..|frames|] == frames;
  }

  /** `out` tells the first i frames: the same stretch, drops and bytes. */
  ghost predicate Copied(stream: seq<Byte>, from: nat, frames: seq<Msg>, i: nat, out: seq<Msg>)
  {
    && i <= |frames| && Faithful(stream, from, out) && Cursor(from, out) == Cursor(from, frames[..i])
    && Drops(out) == Drops(frames[..i]) && ByteCount(out) == ByteCount(frames[..i])
  }

  lemma CopiedNext(stream: seq<Byte>, from: nat, frames: seq<Msg>, i: nat, out: seq<Msg>)
    requires Faithful(stream, from, frames) && i < |frames| && Copied(stream, from, frames, i, out)
    ensures Continues(stream, Cursor(from, out), frames[i]) && ByteCount(out) + Bytes(frames[i]) <= ByteCount(frames)
    ensures Drops(out) <= Drops(frames) && After(frames[i]) <= Cursor(from, frames)
  {
    NextFrame(stream, from, frames, i);
    FramesLeft(stream, from, frames, i);
  }

  lemma CopiedMore(stream: seq<Byte>, from: nat, frames: seq<Msg>, i: nat, out: seq<Msg>, next: seq<Msg>)
    requires Faithful(stream, from, frames) && i < |frames| && Copied(stream, from, frames, i, out)
    requires Faithful(stream, from, next) && Cursor(from, next) == After(frames[i])
    requires Drops(next) == Drops(out) + if frames[i].Piece? then [] else [frames[i]]
    requires ByteCount(next) == ByteCount(out) + Bytes(frames[i])
    ensures Copied(stream, from, frames, i + 1, next)
  {
    NextFrame(stream, from, frames, i);
  }

  lemma NextFrame(stream: seq<Byte>, from: nat, frames: seq<Msg>, i: nat)
    requires Faithful(stream, from, frames) && i < |frames|
    ensures Continues(stream, Cursor(from, frames[..i]), frames[i])
    ensures Cursor(from, frames[..i + 1]) == After(frames[i])
    ensures Drops(frames[..i + 1]) == Drops(frames[..i]) + if frames[i].Piece? then [] else [frames[i]]
    ensures ByteCount(frames[..i + 1]) == ByteCount(frames[..i]) + Bytes(frames[i])
  {
    assert frames[..i + 1] == frames[..i] + [frames[i]];
    CountMore(frames[..i], frames[i]);
    FaithfulLess(stream, from, frames, i);
  }

  /** What is before the i-th frame is part of the whole. */
  lemma {:induction false} FramesLeft(stream: seq<Byte>, from: nat, frames: seq<Msg>, i: nat)
    requires Faithful(stream, from, frames) && i < |frames|
    ensures ByteCount(frames[..i]) + Bytes(frames[i]) <= ByteCount(frames)
    ensures Drops(frames[..i]) <= Drops(frames) && After(frames[i]) <= Cursor(from, frames)
    decreases |frames|
  {
    var n := |frames| - 1;
    if i < n {
      FramesLeft(stream, from, frames[..n], i);
      assert frames[..n][..i] == frames[..i];
    }
  }

  /** Guest and relay together: what arrives is faithful to the session's stream; it is all
      the session sent, with the same drops, unless the browser stops acknowledging. */
  method ServeBrowser(ring: Ring, resume: nat, rounds: seq<seq<Byte>>, chunk: nat, w: Window, acks: seq<nat>)
    returns (out: seq<Msg>, done: bool)
    requires ring.Valid() && resume <= ring.head && chunk > 0 && w.Valid()
    modifies ring, ring.buf, w
    ensures ring.Valid() && w.Valid() && Faithful(ring.stream, resume, out) && NoLonger(out, w.max)
    ensures w.sent == old(w.sent) + ByteCount(out)
    ensures var s := Session(old(ring.stream), old(ring.Tail()), resume);
      && Sane(s, ring.buf.Length)
      && var (end, sent) := (Served(s, ring.buf.Length, rounds, chunk), ServedMsgs(s, ring.buf.Length, rounds, chunk));
         && end.stream == ring.stream && end.tail == ring.Tail()
         && (done ==> Cursor(resume, out) == end.cur && Drops(out) == Drops(sent) && OnlyGoneDropped(sent, ring.Tail()))
         && (!done ==> Drops(out) <= Drops(sent) && Full(w, Cursor(resume, out), end.cur))
         && (Enough(acks, old(w.sent) + ByteCount(sent), ByteCount(sent)) ==> done)
  {
    var frames := StreamOut(ring, resume, rounds, chunk);
    out, done := PumpGuest(w, frames, acks, ring.stream, resume);
  }

  /** After quiet turns enough for the ring, a browser that acknowledges promptly has every
      byte of the session from its resume offset to the head, but for the drops it was told. */
  method ServeAll(ring: Ring, resume: nat, busy: seq<seq<Byte>>, quiet: seq<seq<Byte>>, chunk: nat, w: Window, acks: seq<nat>)
    returns (out: seq<Msg>, done: bool)
    requires ring.Valid() && resume <= ring.head && chunk > 0 && w.Valid()
    requires AllQuiet(quiet) && quiet != [] && |quiet| * chunk >= ring.buf.Length
    modifies ring, ring.buf, w
    ensures ring.Valid() && w.Valid() && Faithful(ring.stream, resume, out)
    ensures done ==> Cursor(resume, out) == ring.head
    ensures !done ==> Full(w, Cursor(resume, out), ring.head)
  {
    QuietCatchesUp(Session(ring.stream, ring.Tail(), resume), ring.buf.Length, busy, quiet, chunk);
    out, done := ServeBrowser(ring, resume, busy + quiet, chunk, w, acks);
  }

  // ---------------------------------------------------------------- the window and drops

  /** Bytes of `msgs` at offsets `a` and beyond: what a browser that consumed up to `a` has
      not. */
  function Unread(msgs: seq<Msg>, a: nat): nat {
    if msgs == [] then 0
    else Unread(msgs[..|msgs| - 1], a) + UnreadOf(msgs[|msgs| - 1], a)
  }

  function UnreadOf(m: Msg, a: nat): nat {
    if m.Dropped? || After(m) <= a then 0 else if a <= m.offset then |m.bytes| else After(m) - a
  }

  /** What the window counts as in flight once offset `a` is acknowledged. */
  function InFlight(from: nat, msgs: seq<Msg>, a: nat): nat {
    var sent := from + ByteCount(msgs);
    if a > sent then 0 else sent - a
  }

  /** So the class counts: once `msgs` are sent from `from` on, a new acknowledgement leaves
      InFlight of them. */
  method AckLeaves(w: Window, a: nat, ghost from: nat, ghost msgs: seq<Msg>)
    requires w.Valid() && w.sent == from + ByteCount(msgs) && a > w.acked
    modifies w
    ensures w.Valid() && w.sent == old(w.sent) && w.sent - w.acked == InFlight(from, msgs, a)
  {
    w.Ack(a);
  }

  ghost predicate NothingAfterDrop(msgs: seq<Msg>) {
    forall i, j :: 0 <= i < j < |msgs| && msgs[i].Dropped? ==> msgs[j].Dropped?
  }

  lemma {:induction false} CursorBounds(stream: seq<Byte>, from: nat, msgs: seq<Msg>)
    requires Faithful(stream, from, msgs)
    ensures from + ByteCount(msgs) <= Cursor(from, msgs)
    ensures from + ByteCount(msgs) == Cursor(from, msgs) <==> forall i :: 0 <= i < |msgs| ==> msgs[i].Piece?
  {
    if msgs != [] {
      var n := |msgs| - 1;
      CursorBounds(stream, from, msgs[..n]);
      assert Continues(stream, Cursor(from, msgs[..n]), msgs[n]);
      assert (forall i :: 0 <= i < |msgs| ==> msgs[i].Piece?) <==> msgs[n].Piece? && forall i :: 0 <= i < n ==> msgs[..n][i].Piece?;
    }
  }

  lemma {:induction false} UnreadPast(stream: seq<Byte>, from: nat, msgs: seq<Msg>, a: nat)
    requires Faithful(stream, from, msgs) && Cursor(from, msgs) <= a
    ensures Unread(msgs, a) == 0
  {
    if msgs != [] {
      var n := |msgs| - 1;
      UnreadPast(stream, from, msgs[..n], a);
    }
  }

  lemma {:induction false} UnreadOfPieces(stream: seq<Byte>, from: nat, msgs: seq<Msg>, a: nat)
    requires Faithful(stream, from, msgs) && from <= a <= Cursor(from, msgs)
    requires forall i :: 0 <= i < |msgs| ==> msgs[i].Piece?
    ensures Unread(msgs, a) == Cursor(from, msgs) - a
  {
    if msgs != [] {
      var n := |msgs| - 1;
      if a <= Cursor(from, msgs[..n]) {
        UnreadOfPieces(stream, from, msgs[..n], a);
      } else {
        UnreadPast(stream, from, msgs[..n], a);
      }
    }
  }

  lemma {:induction false} WindowExact(stream: seq<Byte>, from: nat, msgs: seq<Msg>, a: nat)
    requires Faithful(stream, from, msgs) && NothingAfterDrop(msgs) && from <= a <= Cursor(from, msgs)
    ensures Unread(msgs, a) == InFlight(from, msgs, a)
  {
    CursorBounds(stream, from, msgs);
    if msgs != [] {
      var n := |msgs| - 1;
      if msgs[n].Piece? {
        assert forall i :: 0 <= i < |msgs| ==> msgs[i].Piece?;
        UnreadOfPieces(stream, from, msgs, a);
      } else if a <= Cursor(from, msgs[..n]) {
        WindowExact(stream, from, msgs[..n], a);
      } else {
        UnreadPast(stream, from, msgs[..n], a);
        CursorBounds(stream, from, msgs[..n]);
      }
    }
  }

  /** A browser that consumed everything before the j-th message has the rest unread. */
  lemma {:induction false} UnreadFrom(stream: seq<Byte>, from: nat, msgs: seq<Msg>, j: nat)
    requires Faithful(stream, from, msgs) && j < |msgs|
    ensures Unread(msgs, Start(msgs[j])) == ByteCount(msgs) - ByteCount(msgs[..j])
  {
    var n := |msgs| - 1;
    if j == n {
      UnreadPast(stream, from, msgs[..n], Start(msgs[n]));
    } else {
      UnreadFrom(stream, from, msgs[..n], j);
      assert msgs[..n][..j] == msgs[..j];
      InOrder(stream, from, msgs, j, n);
      FaithfulLess(stream, from, msgs, j);
    }
  }

  /** The window counts a browser's unread bytes exactly when no output followed a drop: an
      acknowledgement is an offset in the stream, and the window's own count skips what was
      dropped. */
  lemma WindowExactIff(stream: seq<Byte>, from: nat, msgs: seq<Msg>)
    requires Faithful(stream, from, msgs)
    ensures (forall a :: from <= a <= Cursor(from, msgs) ==> Unread(msgs, a) == InFlight(from, msgs, a))
      <==> NothingAfterDrop(msgs)
  {
    if NothingAfterDrop(msgs) {
      forall a | from <= a <= Cursor(from, msgs)
        ensures Unread(msgs, a) == InFlight(from, msgs, a)
      {
        WindowExact(stream, from, msgs, a);
      }
    } else {
      var i, j :| 0 <= i < j < |msgs| && msgs[i].Dropped? && msgs[j].Piece?;
      MiscountAt(stream, from, msgs, i, j);
    }
  }

  /** Behind a drop the stream is ahead of the count. */
  lemma AheadAfterDrop(stream: seq<Byte>, from: nat, msgs: seq<Msg>, i: nat, j: nat)
    requires Faithful(stream, from, msgs) && i < j < |msgs| && msgs[i].Dropped?
    ensures Start(msgs[j]) > from + ByteCount(msgs[..j])
  {
    FaithfulLess(stream, from, msgs, j);
    CursorBounds(stream, from, msgs[..j]);
    assert msgs[..j][i].Dropped?;
  }

  lemma StartWithin(stream: seq<Byte>, from: nat, msgs: seq<Msg>, j: nat)
    requires Faithful(stream, from, msgs) && j < |msgs|
    ensures from <= Start(msgs[j]) <= Cursor(from, msgs)
  {
    var n := |msgs| - 1;
    FaithfulLess(stream, from, msgs, j);
    if j < n { InOrder(stream, from, msgs, j, n); }
    CursorBounds(stream, from, msgs[..j]);
  }

  lemma MiscountAt(stream: seq<Byte>, from: nat, msgs: seq<Msg>, i: nat, j: nat)
    requires Faithful(stream, from, msgs) && i < j < |msgs| && msgs[i].Dropped? && msgs[j].Piece?
    ensures from <= Start(msgs[j]) <= Cursor(from, msgs)
    ensures Unread(msgs, Start(msgs[j])) > InFlight(from, msgs, Start(msgs[j]))
  {
    StartWithin(stream, from, msgs, j);
    UnreadFrom(stream, from, msgs, j);
    AheadAfterDrop(stream, from, msgs, i, j);
    CountsGrow(msgs, j);
    FaithfulLess(stream, from, msgs, j);
  }

  lemma {:induction false} CountsGrow(msgs: seq<Msg>, j: nat)
    requires j < |msgs|
    ensures ByteCount(msgs) >= ByteCount(msgs[..j]) + if msgs[j].Piece? then |msgs[j].bytes| else 0
  {
    var n := |msgs| - 1;
    if j < n {
      CountsGrow(msgs[..n], j);
      assert msgs[..n][..j] == msgs[..j];
    }
  }

  /** So a window of 2 can leave 3 bytes unread: after a drop of [0,2) and two bytes, an
      acknowledgement of offset 3 is clamped to 2 and admits two more. */
  lemma WindowOverrun(x: Byte)
    ensures var msgs := [Dropped(0, 2), Piece(2, [x, x])];
      && Faithful([x, x, x, x, x, x], 0, msgs + [Piece(4, [x, x])])
      && InFlight(0, msgs, 3) + 2 <= 2
      && Unread(msgs + [Piece(4, [x, x])], 3) == 3
  {
    var msgs := [Dropped(0, 2), Piece(2, [x, x])];
    var all := msgs + [Piece(4, [x, x])];
    var stream := [x, x, x, x, x, x];
    FaithfulMore(stream, 0, [], Dropped(0, 2));
    assert [] + [Dropped(0, 2)] == [Dropped(0, 2)];
    FaithfulMore(stream, 0, [Dropped(0, 2)], Piece(2, [x, x]));
    FaithfulMore(stream, 0, msgs, Piece(4, [x, x]));
    assert all[..2] == msgs;
    assert stream[2..4] == [x, x] && stream[4..6] == [x, x];
    assert msgs[..1] == [Dropped(0, 2)] && msgs[..1][..0] == [];
    assert ByteCount(msgs[..1]) == 0;
    assert ByteCount(msgs) == 2;
    assert Unread(msgs[..1], 3) == 0 && Unread(msgs, 3) == 1;
  }

  // ---------------------------------------------------------------- input

  /** Keystrokes from one browser. `delivered` are the messages that reached the guest. */
  class InputPump {
    var last: nat
    ghost var delivered: seq<nat>

    ghost predicate Valid()
      reads this
    {
      && (forall i :: 0 <= i < |delivered| ==> 0 < delivered[i] <= last)
      && (forall i, j :: 0 <= i < j < |delivered| ==> delivered[i] < delivered[j])
    }

    constructor ()
      ensures Valid() && last == 0 && delivered == []
    {
      last, delivered := 0, [];
    }

    /** A message is delivered once at most and in order; one refused because the connection
        is read-only uses its number up, and no resend of it is ever delivered. */
    method HandleInput(number: nat, writable: bool)
      requires Valid()
      modifies this
      ensures Valid() && last == if number > old(last) then number else old(last)
      ensures delivered == if number > old(last) && writable then old(delivered) + [number] else old(delivered)
    {
      if number <= last { return; }
      last := number;
      if writable { delivered := delivered + [number]; }
    }
  }
}
