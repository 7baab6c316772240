/** Reading the text of /proc/<pid>/stat. */
module ProcText {

  /** unicode.IsSpace in Latin-1. */
  predicate IsSpace(c: char) {
    c == ' ' || '\t' <= c <= '\r' || c == '\U{85}' || c == '\U{a0}'
  }

  predicate AllSpace(s: string) { forall i :: 0 <= i < |s| ==> IsSpace(s[i]) }

  predicate Word(s: string) { s != "" && forall i :: 0 <= i < |s| ==> !IsSpace(s[i]) }

  predicate Lacks(s: string, c: char) { forall i :: 0 <= i < |s| ==> s[i] != c }

  /** strings.LastIndex of one character. */
  function LastIndex(s: string, c: char): (r: int)
    ensures -1 <= r < |s|
    ensures r >= 0 ==> s[r] == c
    ensures forall i :: r < i < |s| ==> s[i] != c
  {
    if s == "" then -1
    else if s[|s| - 1] == c then |s| - 1
    else LastIndex(s[..|s| - 1], c)
  }

  /** strings.Index of one character. */
  function Index(s: string, c: char): (r: int)
    ensures -1 <= r < |s|
    ensures r >= 0 ==> s[r] == c
    ensures forall i :: 0 <= i < (if r < 0 then |s| else r) ==> s[i] != c
  {
    if s == "" then -1
    else if s[0] == c then 0
    else
      var r := Index(s[1..], c);
      if r == -1 then -1 else r + 1
  }

  function TrimLeft(s: string): string {
    if s != "" && IsSpace(s[0]) then TrimLeft(s[1..]) else s
  }

  function TrimRight(s: string): string {
    if s != "" && IsSpace(s[|s| - 1]) then TrimRight(s[..|s| - 1]) else s
  }

  function TrimSpace(s: string): string { TrimRight(TrimLeft(s)) }

  /** strings.Fields, with `word` the part of a field already read. */
  function FieldsAfter(word: string, s: string): seq<string>
    decreases |s|
  {
    var done := if word == "" then [] else [word];
    if s == "" then done
    else if IsSpace(s[0]) then done + FieldsAfter("", s[1..])
    else FieldsAfter(word + [s[0]], s[1..])
  }

  function Fields(s: string): seq<string> { FieldsAfter("", s) }

  lemma {:induction false} WordIsRead(word: string, more: string, s: string)
    requires forall i :: 0 <= i < |more| ==> !IsSpace(more[i])
    ensures FieldsAfter(word, more + s) == FieldsAfter(word + more, s)
    decreases |more|
  {
    if more == "" {
      assert more + s == s && word + more == word;
    } else {
      WordIsRead(word + [more[0]], more[1..], s);
      assert (more + s)[1..] == more[1..] + s;
      assert word + more == word + [more[0]] + more[1..];
    }
  }

  lemma {:induction false} TrailingSpaceAt(word: string, s: string, c: char)
    requires IsSpace(c)
    ensures FieldsAfter(word, s + [c]) == FieldsAfter(word, s)
    decreases |s|
  {
    if s == "" {
      assert s + [c] == [c] && [c][1..] == "";
      assert FieldsAfter("", "") == [];
    } else {
      assert (s + [c])[1..] == s[1..] + [c];
      if IsSpace(s[0]) {
        TrailingSpaceAt("", s[1..], c);
      } else {
        TrailingSpaceAt(word + [s[0]], s[1..], c);
      }
    }
  }

  lemma {:induction false} TrimLeftKeepsFields(s: string)
    ensures Fields(TrimLeft(s)) == Fields(s)
  {
    if s != "" && IsSpace(s[0]) { TrimLeftKeepsFields(s[1..]); }
  }

  lemma {:induction false} TrimRightKeepsFields(s: string)
    ensures Fields(TrimRight(s)) == Fields(s)
  {
    if s != "" && IsSpace(s[|s| - 1]) {
      TrimRightKeepsFields(s[..|s| - 1]);
      TrailingSpaceAt("", s[..|s| - 1], s[|s| - 1]);
      assert s == s[..|s| - 1] + [s[|s| - 1]];
    }
  }

  /** The TrimSpace before Fields changes nothing. */
  lemma FieldsOfTrimmed(s: string)
    ensures Fields(TrimSpace(s)) == Fields(s)
  {
    TrimLeftKeepsFields(s);
    TrimRightKeepsFields(TrimLeft(s));
  }

  // ---------------------------------------------------------------- the stat line

  /** Field 22, counted from the last ')': comm may hold spaces and parentheses. */
  function ParseStartTime(line: string): string {
    var idx := LastIndex(line, ')');
    if idx < 0 then ""
    else
      var fields := Fields(TrimSpace(line[idx + 1..]));
      if |fields| < 20 then "" else fields[19]
  }

  /** Fields 3 onward. */
  function AfterComm(line: string): seq<string> { Fields(line[LastIndex(line, ')') + 1..]) }

  function ParseComm(line: string): string {
    var l := Index(line, '(');
    var r := LastIndex(line, ')');
    if l < 0 || r <= l then "" else line[l + 1..r]
  }

  function Spaced(fields: seq<string>): string {
    if fields == [] then "\n" else [' '] + fields[0] + Spaced(fields[1..])
  }

  /** What the kernel writes: pid, comm in parentheses, then fields 3 onward. */
  function StatLine(pid: string, comm: string, fields: seq<string>): string {
    pid + [' ', '('] + comm + [')'] + Spaced(fields)
  }

  ghost predicate StatFields(fields: seq<string>) {
    forall i :: 0 <= i < |fields| ==> Word(fields[i]) && Lacks(fields[i], ')')
  }

  lemma NextField(word: string, rest: string)
    requires Word(word) && rest != "" && IsSpace(rest[0])
    ensures Fields([' '] + word + rest) == [word] + Fields(rest)
  {
    assert ([' '] + word + rest)[1..] == word + rest;
    WordIsRead("", word, rest);
    assert "" + word == word;
  }

  lemma {:induction false} SpacedFields(fields: seq<string>)
    requires StatFields(fields)
    ensures Fields(Spaced(fields)) == fields
    ensures Spaced(fields) != "" && IsSpace(Spaced(fields)[0])
  {
    if fields == [] {
      assert FieldsAfter("", "\n"[1..]) == [];
    } else {
      SpacedFields(fields[1..]);
      assert Word(fields[0]);
      NextField(fields[0], Spaced(fields[1..]));
    }
  }

  lemma {:induction false} SpacedHasNoParen(fields: seq<string>)
    requires StatFields(fields)
    ensures Lacks(Spaced(fields), ')')
  {
    if fields != [] {
      SpacedHasNoParen(fields[1..]);
      assert Lacks(fields[0], ')');
    }
  }

  lemma LastIndexIs(s: string, c: char, k: nat)
    requires k < |s| && s[k] == c && forall i :: k < i < |s| ==> s[i] != c
    ensures LastIndex(s, c) == k
  {
  }

  lemma IndexIs(s: string, c: char, k: nat)
    requires k < |s| && s[k] == c && forall i :: 0 <= i < k ==> s[i] != c
    ensures Index(s, c) == k
  {
  }

  lemma StatLineParens(pid: string, comm: string, fields: seq<string>)
    requires Lacks(pid, '(') && StatFields(fields)
    ensures Index(StatLine(pid, comm, fields), '(') == |pid| + 1
    ensures LastIndex(StatLine(pid, comm, fields), ')') == |pid| + 2 + |comm|
  {
    SpacedHasNoParen(fields);
    IndexIs(StatLine(pid, comm, fields), '(', |pid| + 1);
    LastIndexIs(StatLine(pid, comm, fields), ')', |pid| + 2 + |comm|);
  }

  /** Any comm at all, parentheses, spaces and newlines included, leaves the start time and
      the comm readable. */
  lemma StatRoundTrip(pid: string, comm: string, fields: seq<string>)
    requires Lacks(pid, '(') && StatFields(fields)
    ensures ParseComm(StatLine(pid, comm, fields)) == comm
    ensures ParseStartTime(StatLine(pid, comm, fields)) == if |fields| < 20 then "" else fields[19]
    ensures AfterComm(StatLine(pid, comm, fields)) == fields
  {
    var line := StatLine(pid, comm, fields);
    StatLineParens(pid, comm, fields);
    assert line[|pid| + 2..|pid| + 2 + |comm|] == comm;
    assert line[|pid| + 3 + |comm|..] == Spaced(fields);
    SpacedFields(fields);
    FieldsOfTrimmed(Spaced(fields));
  }
}

/** Deciding whether the process a ledger entry records is alive, gone, or beyond what
    this daemon can observe. */
module ProcIdentity {
  import opened Wire
  import opened Ledger
  import opened Handlers
  import opened Privd
  import opened ProcText

  // ---------------------------------------------------------------- the gate

  /** Result of reading /proc/<pid>/stat. */
  datatype Stat = Missing | ReadFailed | Line(text: string)

  lemma ReadableHasState(text: string)
    requires ParseStartTime(text) != ""
    ensures |AfterComm(text)| >= 20
  {
    FieldsOfTrimmed(text[LastIndex(text, ')') + 1..]);
  }

  /** processAlive: only absence, another start time, or an exited process proves death. */
  function ProcessAlive(pid: int, startTime: string, stat: Stat): Gate {
    if pid <= 0 || !IsUint64(startTime) then Refused
    else
      match stat
      case Missing => Dead
      case ReadFailed => Refused
      case Line(text) =>
        var cur := ParseStartTime(text);
        if !IsUint64(cur) then Refused
        else if cur != startTime then Dead
        else
          ReadableHasState(text);
          var state := AfterComm(text)[0];
          if state != "Z" && state != "X" then Alive else Dead
  }

  predicate LowerHex(c: char) { '0' <= c <= '9' || 'a' <= c <= 'f' }

  predicate BootIdForm(s: string) {
    |s| == 36 && forall i :: 0 <= i < 36 ==> if i in {8, 13, 18, 23} then s[i] == '-' else LowerHex(s[i])
  }

  predicate NamespaceForm(s: string) {
    |s| > 6 && s[..5] == "pid:[" && s[|s| - 1] == ']' && forall i :: 5 <= i < |s| - 1 ==> IsDigit(s[i])
  }

  /** Boot id and PID namespace as read from the kernel, or a failed read. */
  datatype KernelId = Unread | KernelId(boot: string, ns: string)

  function EntryAlive(e: VMEntry, kernel: KernelId, stat: Stat): Gate {
    if e.pid == 0 then Dead
    else if !BootIdForm(e.bootId) || !NamespaceForm(e.ns) then Refused
    else if kernel.Unread? || !BootIdForm(kernel.boot) || !NamespaceForm(kernel.ns) then Refused
    else if e.bootId != kernel.boot then Dead
    else if e.ns != kernel.ns then Refused
    else ProcessAlive(e.pid, e.startTime, stat)
  }

  /** What a process that has not exited shows in /proc, when reading works. */
  ghost predicate Shows(p: Proc, stat: Stat) {
    stat.Line? ==> exists pid, comm, fields :: ShowsAs(p, stat.text, pid, comm, fields)
  }

  ghost predicate ShowsAs(p: Proc, text: string, pid: string, comm: string, fields: seq<string>) {
    && Lacks(pid, '(') && StatFields(fields) && |fields| >= 20
    && text == StatLine(pid, comm, fields)
    && fields[19] == p.startTime && fields[0] != "Z" && fields[0] != "X"
  }

  /** /proc tells the truth about the pid an entry records. */
  ghost predicate ProcTruthful(h: Host, f: Footprint, e: VMEntry, kernel: KernelId, stat: Stat) {
    && (kernel.KernelId? ==> kernel.boot == h.boot && kernel.ns == h.ns)
    && (forall p :: p in f.procs && p.pid == e.pid && p.ns == h.ns ==> !stat.Missing? && Shows(p, stat))
  }

  lemma LiveProcessIsNotDead(p: Proc, startTime: string, stat: Stat)
    requires !stat.Missing? && Shows(p, stat) && p.startTime == startTime
    ensures ProcessAlive(p.pid, startTime, stat) != Dead
    ensures p.pid > 0 && IsUint64(startTime) && stat.Line? ==> ProcessAlive(p.pid, startTime, stat) == Alive
  {
    if stat.Line? {
      var pid, comm, fields :| ShowsAs(p, stat.text, pid, comm, fields);
      StatRoundTrip(pid, comm, fields);
    }
  }

  /** The live-process gate never reports the recorded process dead while it runs, which is
      what privd's release_vm relies on before it removes a jail tree. */
  lemma GateIsTruthful(h: Host, f: Footprint, e: VMEntry, kernel: KernelId, stat: Stat)
    requires ProcTruthful(h, f, e, kernel, stat)
    ensures GateTruthful(h, e, f, EntryAlive(e, kernel, stat))
  {
    forall p | p in f.procs && p.pid == e.pid && p.startTime == e.startTime && p.ns == h.ns
      ensures ProcessAlive(e.pid, e.startTime, stat) != Dead
    {
      LiveProcessIsNotDead(p, e.startTime, stat);
    }
  }

  /** A process that exited, or was replaced under the same pid. */
  ghost predicate ShowsGone(startTime: string, stat: Stat) {
    || stat.Missing?
    || (stat.Line? && IsUint64(ParseStartTime(stat.text))
        && (ParseStartTime(stat.text) == startTime ==>
              AfterComm(stat.text) != [] && (AfterComm(stat.text)[0] == "Z" || AfterComm(stat.text)[0] == "X")))
  }

  lemma ProcessDeadExactly(pid: int, startTime: string, stat: Stat)
    ensures ProcessAlive(pid, startTime, stat) == Dead <==> pid > 0 && IsUint64(startTime) && ShowsGone(startTime, stat)
  {
    if stat.Line? && IsUint64(ParseStartTime(stat.text)) { ReadableHasState(stat.text); }
  }

  /** Death of a recorded process is concluded exactly from another boot, or, on this boot
      and in this namespace, from what /proc shows. */
  lemma DeadExactly(e: VMEntry, kernel: KernelId, stat: Stat)
    requires e.pid != 0
    ensures EntryAlive(e, kernel, stat) == Dead <==>
      && BootIdForm(e.bootId) && NamespaceForm(e.ns)
      && kernel.KernelId? && BootIdForm(kernel.boot) && NamespaceForm(kernel.ns)
      && (e.bootId == kernel.boot ==> e.ns == kernel.ns && e.pid > 0 && IsUint64(e.startTime) && ShowsGone(e.startTime, stat))
  {
    ProcessDeadExactly(e.pid, e.startTime, stat);
  }

  /** What cannot be observed is refused, never taken for dead. */
  lemma UnobservableIsRefused(e: VMEntry, kernel: KernelId, stat: Stat)
    requires e.pid != 0
    requires kernel.Unread? || (e.bootId == kernel.boot && (e.ns != kernel.ns || stat.ReadFailed?))
    ensures EntryAlive(e, kernel, stat) == Refused
  {
  }
}
