/** The guest's replay ring: the newest bytes of one terminal's output in a fixed buffer.
    Offsets are absolute positions in the stream; `stream` is everything ever written. */
module TerminalRing {
  import opened Wire

  type Byte = b: nat | b < 256

  datatype Range = Range(from: nat, to: nat)

  /** x mod n, for x at most one turn past n. */
  function Wrap(x: nat, n: nat): (r: nat)
    requires x < 2 * n
    ensures r < n
  {
    if x < n then x else x - n
  }

  /** The remainder the code takes is one subtraction at most. */
  function Mod(x: nat, n: nat): (r: nat)
    requires x < 2 * n
    ensures r == Wrap(x, n)
  {
    ModOnce(x, n);
    x % n
  }

  lemma ModOnce(x: nat, n: nat)
    requires x < 2 * n
    ensures x % n == if x < n then x else x - n
  {
    if x >= n { assert x == 1 * n + (x - n); }
  }

  /** How far past `end` the index `i` lies, going round. */
  function Past(end: nat, i: nat, n: nat): (d: nat)
    requires end < n && i < n
    ensures d < n
  {
    if i >= end then i - end else i + n - end
  }

  /** After `m` more bytes, of which the ring loses the `over` oldest, the k-th byte held is
      one of the new ones, or was the byte `over + k` before. */
  lemma HeldAt(start: nat, count: nat, m: nat, n: nat, over: nat, k: nat)
    requires start < n && count <= n && m < n && over == if count + m > n then count + m - n else 0
    requires k < count + m - over
    ensures over < n && k < n
    ensures var i := Wrap(Wrap(start + over, n) + k, n);
      var d := Past(Wrap(start + count, n), i, n);
      if over + k >= count then d == over + k - count else d >= m && i == Wrap(start + (over + k), n)
  {
  }

  /** `held` keeps the bytes of `window` in order, going round from `start`. */
  ghost predicate Holds(held: seq<Byte>, start: nat, window: seq<Byte>) {
    && start < |held| && |window| <= |held|
    && forall k :: 0 <= k < |window| ==> window[k] == held[Wrap(start + k, |held|)]
  }

  /** The buffer after `p` has been written going round from `end`. */
  ghost predicate Written(before: seq<Byte>, after: seq<Byte>, end: nat, p: seq<Byte>) {
    && |after| == |before| && end < |before|
    && forall i :: 0 <= i < |after| ==>
         after[i] == if Past(end, i, |after|) < |p| then p[Past(end, i, |after|)] else before[i]
  }

  lemma WrittenHolds(before: seq<Byte>, after: seq<Byte>, start: nat, window: seq<Byte>, p: seq<Byte>, over: nat)
    requires Holds(before, start, window) && |p| < |before|
    requires Written(before, after, Wrap(start + |window|, |before|), p)
    requires over == if |window| + |p| > |before| then |window| + |p| - |before| else 0
    ensures over <= |window| && Holds(after, Wrap(start + over, |after|), (window + p)[over..])
  {
    var n := |before|;
    var next := (window + p)[over..];
    forall k | 0 <= k < |next|
      ensures next[k] == after[Wrap(Wrap(start + over, n) + k, n)]
    {
      HeldAt(start, |window|, |p|, n, over, k);
      assert next[k] == (window + p)[over + k];
    }
  }

  lemma LaterWindow(stream: seq<Byte>, p: seq<Byte>, tail: nat, over: nat)
    requires tail + over <= |stream|
    ensures (stream[tail..] + p)[over..] == (stream + p)[tail + over..]
  {
  }

  /** How many of the oldest bytes give way to `m` more. */
  function Over(count: nat, m: nat, n: nat): nat { if count + m > n then count + m - n else 0 }

  lemma AppendedHolds(before: seq<Byte>, after: seq<Byte>, start: nat, count: nat, stream: seq<Byte>, p: seq<Byte>)
    requires count <= |stream| && Holds(before, start, stream[|stream| - count..]) && |p| < |before|
    requires Written(before, after, Wrap(start + count, |before|), p)
    ensures var over := Over(count, |p|, |before|);
      over <= count && Holds(after, Wrap(start + over, |after|), (stream + p)[|stream| - count + over..])
  {
    var tail := |stream| - count;
    WrittenHolds(before, after, start, stream[tail..], p, Over(count, |p|, |before|));
    LaterWindow(stream, p, tail, Over(count, |p|, |before|));
  }

  class Ring {
    const buf: array<Byte>
    var start: nat      // where the stream bytes kept begin
    var count: nat      // how many are kept
    var head: nat       // bytes appended so far
    ghost var stream: seq<Byte>

    ghost predicate Valid()
      reads this, buf
    {
      head == |stream| && count <= head && Holds(buf[..], start, stream[head - count..])
    }

    function Tail(): nat
      requires count <= head
      reads this
    {
      head - count
    }

    constructor (size: int)
      ensures Valid() && fresh(buf) && stream == [] && buf.Length == if size < 1 then 1 else size
    {
      buf := new Byte[if size < 1 then 1 else size];
      start, count, head, stream := 0, 0, 0, [];
    }

    /** Append names exactly the range of offsets that is gone. */
    method Append(p: seq<Byte>) returns (dropped: Option<Range>)
      requires Valid()
      modifies this, buf
      ensures Valid() && stream == old(stream) + p
      ensures count == if old(count) + |p| < buf.Length then old(count) + |p| else buf.Length
      ensures dropped == if Tail() > old(Tail()) then Some(Range(old(Tail()), Tail())) else None
    {
      if p == [] {
        assert stream + p == stream;
        return None;
      }
      var (before, n) := (Tail(), buf.Length);
      if |p| >= n {
        forall k | 0 <= k < n { buf[k] := p[|p| - n + k]; }
        start, count := 0, n;
        assert (stream + p)[head + |p| - count..] == buf[..];
      } else {
        AppendShort(p);
      }
      head := head + |p|;
      stream := stream + p;
      return if Tail() > before then Some(Range(before, Tail())) else None;
    }

    /** Fewer bytes than the buffer holds: written after the newest, the oldest give way. */
    method AppendShort(p: seq<Byte>)
      requires Valid() && 0 < |p| < buf.Length
      modifies buf, this`start, this`count
      ensures count == if old(count) + |p| < buf.Length then old(count) + |p| else buf.Length
      ensures Holds(buf[..], start, (stream + p)[head + |p| - count..])
    {
      ghost var before := buf[..];
      Overwrite(p);
      AppendedHolds(before, buf[..], start, count, stream, p);
      Advance(|p|);
    }

    /** `m` more bytes held, the oldest giving way when the buffer is full. */
    method Advance(m: nat)
      requires start < buf.Length && count <= buf.Length && m < buf.Length
      modifies this`start, this`count
      ensures start == Wrap(old(start) + Over(old(count), m, buf.Length), buf.Length)
      ensures count == old(count) + m - Over(old(count), m, buf.Length)
    {
      var n := buf.Length;
      if count + m > n {
        start := Mod(start + (count + m - n), n);
        count := n;
      } else {
        count := count + m;
      }
    }

    /** The two copies after the newest byte, the second from the start of the buffer. */
    method Overwrite(p: seq<Byte>)
      requires buf.Length > |p| && start < buf.Length && count <= buf.Length
      modifies buf
      ensures Written(old(buf[..]), buf[..], Wrap(start + count, buf.Length), p)
    {
      var size := buf.Length;
      var end := Mod(start + count, size);
      var n := if |p| < size - end then |p| else size - end;
      forall i | end <= i < end + n { buf[i] := p[i - end]; }
      forall i | 0 <= i < |p| - n { buf[i] := p[n + i]; }
    }

    /** Every byte held from `offset` on, resuming at the tail when it is older. */
    method ReadFrom(offset: nat) returns (b: seq<Byte>, next: nat, gap: bool)
      requires Valid()
      ensures gap <==> offset < Tail()
      ensures next == head && b == if offset < Tail() then stream[Tail()..] else if offset < head then stream[offset..] else []
    {
      var tail := Tail();
      var at := offset;
      gap := offset < tail;
      if gap { at := tail; }
      if at >= head { return [], head, gap; }
      ghost var window := stream[tail..];
      var out := new Byte[head - at];
      forall k | 0 <= k < out.Length { out[k] := buf[Wrap(start + (at - tail + k), buf.Length)]; }
      assert forall k :: 0 <= k < out.Length ==> out[k] == window[at - tail + k];
      assert out[..] == stream[at..];
      return out[..], head, gap;
    }
  }
}
