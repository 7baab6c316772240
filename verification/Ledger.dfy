/** The ledger's reading rules and the two scans that refuse a second claim on a
    subnet, a jail uid or a guest CID. */
module Ledger {
  import opened Wire

  /** Lowest vsock CID a guest may use; section 5.10.4 of VIRTIO 1.2 reserves 0, 1 and 2. */
  const MIN_GUEST_CID: nat := 3

  const UINT64_LIMIT: nat := 0x1_0000_0000_0000_0000

  predicate IsDigit(c: char) { '0' <= c <= '9' }

  function DecimalValue(s: string): nat
    requires forall i :: 0 <= i < |s| ==> IsDigit(s[i])
  {
    if s == "" then 0
    else
      assert IsDigit(s[|s| - 1]);
      DecimalValue(s[..|s| - 1]) * 10 + (s[|s| - 1] as int - '0' as int)
  }

  /** strconv.ParseUint(s, 10, 64) succeeds. */
  predicate IsUint64(s: string) {
    && s != ""
    && (forall i :: 0 <= i < |s| ==> IsDigit(s[i]))
    && DecimalValue(s) < UINT64_LIMIT
  }

  predicate NoProcessFields(e: VMEntry) {
    e.uid == 0 && e.gid == 0 && e.cid == 0 && e.startTime == "" && e.bootId == "" && e.ns == ""
  }

  /** What `get` accepts as the record of vm `v`. */
  predicate Readable(v: VmId, e: VMEntry) {
    && e.vmId == v
    && e.pid >= 0
    && if e.pid == 0 then NoProcessFields(e)
       else IsUint64(e.startTime) && e.cid >= MIN_GUEST_CID && e.uid >= 0 && e.gid >= 0
  }

  datatype Found = Absent | Unreadable | Present(entry: VMEntry)

  function Get(ledger: LedgerMap, v: VmId): (r: Found)
    ensures r.Absent? <==> v !in ledger
    ensures r.Present? ==> v in ledger && r.entry == ledger[v]
  {
    if v !in ledger then Absent
    else if Readable(v, ledger[v]) then Present(ledger[v])
    else Unreadable
  }

  /** Two VMs' entries claim no identity in common. Zero and "" are identities given back. */
  predicate Disjoint(e: VMEntry, f: VMEntry) {
    && (e.netCidr != "" ==> e.netCidr != f.netCidr)
    && (e.uid != 0 ==> e.uid != f.uid)
    && (e.cid != 0 ==> e.cid != f.cid)
  }

  datatype Scan = ScanFailed | Held | Free

  predicate AllReadable(ledger: LedgerMap) {
    forall v :: v in ledger ==> Readable(v, ledger[v])
  }

  /** Outcome of scanning for a holder of `cidr`. An unreadable entry may hold anything. */
  function SubnetScan(ledger: LedgerMap, cidr: string): (r: Scan)
  {
    if !AllReadable(ledger) then ScanFailed
    else if exists v :: v in ledger && ledger[v].netCidr == cidr then Held
    else Free
  }

  function IdentityScan(ledger: LedgerMap, uid: int, cid: nat): (r: Scan)
  {
    if !AllReadable(ledger) then ScanFailed
    else if exists v :: v in ledger && (ledger[v].uid == uid || ledger[v].cid == cid) then Held
    else Free
  }

  /** `all` reads file by file and stops at the first one it cannot read. */
  method All(ledger: LedgerMap) returns (failed: bool, entries: seq<VMEntry>)
    ensures failed <==> !AllReadable(ledger)
    ensures !failed ==> forall e :: e in entries <==> exists v :: v in ledger && ledger[v] == e
  {
    failed, entries := false, [];
    var left := ledger.Keys;
    while left != {}
      invariant left <= ledger.Keys
      invariant forall v :: v in ledger && v !in left ==> Readable(v, ledger[v])
      invariant forall e :: e in entries <==> exists v :: v in ledger && v !in left && ledger[v] == e
    {
      var v :| v in left;
      var found := Get(ledger, v);
      if !found.Present? {
        return true, [];
      }
      left := left - {v};
      entries := entries + [found.entry];
    }
  }

  method SubnetHolder(ledger: LedgerMap, cidr: string) returns (r: Scan)
    ensures r == SubnetScan(ledger, cidr)
  {
    var failed, entries := All(ledger);
    if failed { return ScanFailed; }
    for i := 0 to |entries|
      invariant forall j :: 0 <= j < i ==> entries[j].netCidr != cidr
    {
      assert entries[i] in entries;
      if entries[i].netCidr == cidr { return Held; }
    }
    forall v | v in ledger
      ensures ledger[v].netCidr != cidr
    {
      assert ledger[v] in entries;
    }
    return Free;
  }

  method IdentityHolder(ledger: LedgerMap, uid: int, cid: nat) returns (r: Scan)
    ensures r == IdentityScan(ledger, uid, cid)
  {
    var failed, entries := All(ledger);
    if failed { return ScanFailed; }
    for i := 0 to |entries|
      invariant forall j :: 0 <= j < i ==> entries[j].uid != uid && entries[j].cid != cid
    {
      assert entries[i] in entries;
      if entries[i].uid == uid { return Held; }
      if entries[i].cid == cid { return Held; }
    }
    forall v | v in ledger
      ensures ledger[v].uid != uid && ledger[v].cid != cid
    {
      assert ledger[v] in entries;
    }
    return Free;
  }
}
