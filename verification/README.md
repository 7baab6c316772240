# Observatory: a verified model of its ownership protocols

Observatory runs virtual machines under a root daemon, `privd`, that performs every host
mutation, and an unprivileged adapter that launches, stops and releases VMs. This project
models the parts whose correctness is hard to see by reading: who owns what on the host
when daemons crash, writes fail, replies get lost and power goes away.

- **privd** (`Wire`, `Ledger`, `Handlers`, `Privd`, `PrivdInvariant`, `PrivdJournal`,
  `PrivdLedger`, `PrivdHost`, `PrivdTheorems`, `PrivdAnswers`, `PrivdExecutions`,
  `PrivdLimits`, `PrivdServer`). A transition
  system whose steps are the daemon's critical sections, backend calls that may stop
  anywhere, crashes, restarts and power losses. The disk has two versions, the one readers
  see and the one a power loss could leave. `PrivdServer` is the same daemon as a class whose
  methods are proved to be steps of the machine.
- **Adapter** (`Adapter`, `AdapterInvariant`, `AdapterPrivdSteps`, `AdapterLink`, `AdapterStarts`,
  `AdapterNets`, `AdapterLeases`, `AdapterTheorems`, `AdapterPids`, `AdapterPaths`,
  `AdapterLimits`, `AdapterNetLimits`, `AdapterRuns`, `AdapterServer`). Launch, rollback,
  release and the resolution of lost start replies, composed with privd, with a socket that may
  hold a request back for any time, with the allocator's leases, and with manifests in two
  versions. A manifest holds a slot, from which uid and guest CID follow, a subnet, the op_id
  of a start and the VMM's pid. `AdapterServer` is the adapter as a class: its Launch,
  doRollback and doRelease, with whatever goes on around them, are proved to be runs of the
  machine.
- **Process identity** (`ProcText`, `ProcIdentity`), **durable files** (`FileTree`,
  `Durable`, and `DiskVersions`, which ties them to privd's two versions), **subnets**
  (`Prefixes`, `Alloc`; CIDR notation as in section 3.1 of RFC 4632; `Subnets` for their text),
  **slots** (`Slots`, `LaunchLock`), **terminal output** (`TerminalRing`, `TerminalStream`),
  **telemetry** (`TelemetrySpool`, `TelemetryLink`) and **disk headroom** (`DiskCapacity`).

How a system call, a write or a backend call goes is a parameter of the step or method, and
so are clocks and random identifiers; every property holds for all of their values. Payloads
are already-canonical JSON, so equality of payloads is the byte equality the daemon compares.

## Where the code promises less

Nine properties do not hold of the code without a condition. Each has a run or an input
that fails it and the exact condition under which it holds.

- A final receipt is not final merely by being visible (`OutcomePermanentIff`,
  `OutcomeCanBeLost`); one that a client was told is (`DefiniteAnswerPermanent`).
- `launch` overwrites an unresolved start op_id without asking about it, and a request
  unread in privd's socket is in no inventory; so a start can take effect after its VM's
  manifest is gone (`LaunchSafeIff`, `LateStart`). Asking first, with the resolveStartOutcome
  that doStop and doRelease call, is enough (`NoLateStartWhenChecked`).
- `launch` takes an allocate_network whose outcome is unknown for a failed one; so its network
  can appear after the rollback removed the manifest (`ReleaseSafeIff`, `LateNetwork`). It
  cannot where every allocate_network was answered definitely (`IdentityReuseSafe`), and where
  it does, no launch is given that subnet while privd's inventory names it
  (`SubnetFreeInInventory`).
- The sync of `vms/` before a slot is chosen settles removed directories, not a manifest
  unlinked from a directory that is still there (`LaunchDistinctIff`, `SlotGivenTwice`).
- `Remove` of an absent path takes no barrier (`Durable.FileSystem.Remove`,
  `AbsentButNotGone`).
- Pools of length 31 and 32 can yield prefixes with host bits (`SlotsAlignedIff`,
  `NarrowPoolOverlaps`).
- The terminal window's count skips dropped ranges while acknowledgements include them
  (`WindowExactIff`, `WindowOverrun`).
- The guest's telemetry cursor can skip an event when an acknowledgement, an overflow or a
  reconnection comes between a write and its `Advance` (`AdvanceSafeIff`, `RaceLosesEvent`). A
  ring of one cannot lose one that way (`OneSlotLosesNothing`).
- A started VM's entry with a negative gid cannot be read back
  (`StartLeavesLedgerReadableIff`, `NegativeGidAccepted`).

A comment in `internal/runner/telemetry.go:204-207` calls the refusal of a kind durable; the
append behind it may fail and its error is only printed. The model follows the code:
`SpoolPush` acknowledges in both cases.

## Model

| member | source | states |
|---|---|---|
| PrivdTheorems.OwnershipConserved | internal/privd/server.go:190-506 | In every state of every run, with crashes, restarts, failed writes, failed rollbacks and power losses, each network, jail tree and process of a VM is named by that VM's ledger entry or covered by one of its pending or unknown receipts; both in the disk readers see and in the disk a power loss would leave |
| PrivdTheorems.ClaimsExclusive | internal/privd/server.go:536-578 | No two VMs' entries, in either version of either file, share a subnet, a jail uid or a guest CID; a started VM's CID is at least 3 (section 5.10.4 of VIRTIO 1.2), and an entry without a pid holds neither uid nor CID |
| PrivdTheorems.AtMostOnce | internal/privd/operations.go:130-212 | Over all interleavings and restarts no op_id is executed twice, and every execution, the only one included, is of the journalled request, so a reused op_id with another verb or payload never is executed |
| PrivdTheorems.ExactReplay | internal/privd/operations.go:139-148 | A request whose op_id has an outcome gets exactly the stored response, or invalid_state when verb or payload differ, and nothing else changes |
| PrivdTheorems.FenceOverRuns | internal/privd/operations.go:149-190 | While an operation executes, no unknown receipt exists that it must wait for: none at all for allocate_network and start_vm, none about its VM otherwise, queued requests included |
| PrivdTheorems.SettledForever | internal/privd/operations.go:201-211 | An outcome whose write returned nil is the outcome in every later state of the run, in both versions of the disk |
| PrivdTheorems.PromotionSound | internal/privd/operations.go:261-288 | A receipt becomes succeeded by recovery only if that operation's own ledger write became visible; the recovered response is the one that execution was about to give; and once the promotion is visible its witness survives a power loss |
| PrivdTheorems.RecoveryComplete | internal/privd/operations.go:77-98 | A claim whose ledger write returned nil keeps its witness while its receipt is unresolved, and is recovered exactly when its VM id is valid and its entry readable |
| PrivdTheorems.AnswersAreTrue | internal/privd/server.go:190-506 | When an execution ends, its answer is so in both versions of the ledger: a claim granted is there with the subnet, or uid, gid and CID, asked for and the pid answered; a half released or not found is neither there nor on the host |
| PrivdAnswers.StartAnswersTrue | internal/privd/operations.go:101-148 | Every pid a client ever gets for an op_id, as a first reply, a replay or the answer to a query, is the one that op_id's execution wrote to the ledger |
| PrivdAnswers.StepKeepsStartsTrue | internal/privd/operations.go:101-212 | Each step keeps every stored, recovered and sent answer with a pid true to the ledger write |
| PrivdTheorems.InventoryExact | internal/privd/operations.go:214-247 | When the lease inventory answers, it is exactly the ledger's network halves, gives no subnet to two VMs, and omits no network on the host |
| PrivdTheorems.NoTreeRemovedUnderProcess | internal/privd/server.go:472-484 | No step of a run removes a jail tree while a process of that VM runs |
| PrivdTheorems.ExecedNeverFailed | internal/privd/server.go:409-415 | A start that reached the jailer exec is never journalled as failed |
| PrivdTheorems.RunKeepsInv | internal/privd/operations.go:49-247 | Every reachable state satisfies the whole invariant: journal, execution log, ledger and host |
| PrivdTheorems.StepKeepsInv | internal/privd/operations.go:49-247 | Each of the seventeen kinds of step keeps it |
| PrivdTheorems.StepKeepsSettled | internal/privd/operations.go:201-211 | No step rewrites a settled receipt or the request of a journalled one |
| PrivdTheorems.RecoveredFromWitness | internal/privd/operations.go:261-288 | What recovery rebuilds from a ledger entry is the answer of the operation the entry names |
| PrivdTheorems.TreeRemovalFindsNoProcess | internal/privd/server.go:455-506 | A step that takes a jail tree away finds no process in it |
| PrivdJournal.StepKeepsJournal | internal/privd/operations.go:130-212 | Each step keeps memory, visible journal and surviving journal in agreement, an admitted operation pending everywhere until its execution ends, and the fence around the one that runs |
| PrivdLedger.StepKeepsBooks | internal/privd/server.go:190-506 | Each step keeps entries well formed, claims exclusive across both versions, every claim signed by the operation that wrote it, and landed claims witnessed until settled |
| PrivdLedger.SavedReceipt | internal/privd/operations.go:191-207 | The receipt any step journals extends the journal and, when final, tells the truth about whether its claim reached the ledger and its start the jailer |
| PrivdLedger.PlanSound | internal/privd/server.go:190-250 | What a handler goes to the backend with respects every other VM's claims |
| PrivdLedger.AfterCallSound | internal/privd/server.go:373-429 | So does the entry it goes on to write when the backend has answered |
| PrivdLedger.WriteKeepsLanded | internal/privd/server.go:485-504 | A release rewrites a VM's entry only while no unresolved claim of that VM needs it as its witness |
| PrivdHost.StepConserves | internal/privd/server.go:190-506 | Each step keeps everything on the host owned, against both versions of the ledger |
| PrivdHost.StepKeepsFootprint | internal/privd/server.go:190-506 | Phase by phase, what the running operation's VM has on the host is what the handler assumes |
| PrivdHost.StepKeepsOrphans | internal/privd/operations.go:77-98 | An operation cut loose by a crash stays unresolved and unwitnessed for good, whatever its children still do |
| PrivdHost.StepKeepsOneOpen | internal/privd/operations.go:172-186 | At most one execution about a VM is ever unresolved |
| PrivdLimits.OutcomePermanentIff | internal/privd/operations.go:203-206 | A visible outcome is there after every power loss if and only if, since it became visible, some receipt of any operation was journalled with its sync, or a power loss let it stand |
| PrivdLimits.DefiniteAnswerPermanent | internal/privd/operations.go:191-211 | An execution answered with anything but outcome_unknown has exactly that answer journalled in every later state of the run, in both versions |
| PrivdLimits.OutcomeCanBeLost | internal/privd/operations.go:93-97 | The failing run: a final receipt whose directory sync failed is loaded and reported as failed after a restart, and a power loss makes it pending again |
| PrivdLimits.StartLeavesLedgerReadableIff | internal/privd/server.go:300-423 | The entry a start writes can be read back if and only if uid and gid are not negative and the start time is a number; the handler does not check the gid |
| PrivdLimits.NegativeGidAccepted | internal/privd/server.go:300-423 | The failing input: gid -1 is accepted, and the entry written for it cannot be read |
| PrivdServer.Server.Admit | internal/privd/operations.go:130-164 | The method is the machine's Arrive step; no reply means queued with a new op_id, a reply means nothing was queued |
| PrivdServer.Server.FindFence | internal/privd/operations.go:151-156 | The scan answers true exactly when an unknown receipt blocks the request |
| PrivdServer.Server.TakeMutex | internal/privd/operations.go:174-190 | Under the mutex the caller is refused exactly when the journal is broken or fenced, else its execution begins |
| PrivdServer.Server.FinishMutation | internal/privd/operations.go:191-211 | The method is the machine's Finish step; the caller gets the answer only if it is definite and its receipt was saved |
| PrivdServer.Server.QueryOperation | internal/privd/operations.go:101-128 | A promotion is the machine's Query step, otherwise nothing changes, and the answer is that of the state after it |
| PrivdServer.Server.LeaseInventory | internal/privd/operations.go:214-247 | Whatever the order of receipts and files, the answer is the ledger's network halves, or one of the refusals the state allows |
| PrivdServer.LoadOperations | internal/privd/operations.go:49-99 | The load is a path of machine steps; it fails exactly when some receipt is unreadable, invalid or cannot be rewritten, and otherwise holds each receipt as it was or settled on the ledger |
| PrivdServer.Decide | internal/privd/server.go:170-188 | The handlers up to their backend call compute the plan of the verb; what such a plan means over runs is ExecutionAnswered |
| PrivdExecutions.ExecutionAnswered | internal/privd/server.go:190-506 | Over runs, from the step an execution begins at: its answer follows from what it found and what its backend call, rollback and ledger write returned. Answered without a backend call exactly if the time is up, the request is malformed (a foreign file, another staging directory, a uid out of range), or the ledger cannot be read, has no entry, has the network already, or has a conflict, and each of these has its answer. A claim whose call failed is rolled back and answered with its cause, or is unknown if the rollback failed too. The ledger then holds what the answer says |
| PrivdExecutions.SignalAnswered | internal/privd/server.go:432-453 | Over runs signal_vm of a VM with an entry reaches the backend; ok only after that call succeeded, the cause of a call that failed, and not_found exactly when the VM had no entry |
| PrivdExecutions.ReleaseVmAnswered | internal/privd/server.go:455-506 | Over runs release_vm of a VM with an entry reaches the backend exactly when its process is dead, and is refused as an invalid state otherwise; answered ok, the call succeeded, the VM half of the entry is clear and the network half as it was |
| PrivdServer.DecideAllocate | internal/privd/server.go:190-220 | allocate_network's checks in their order, with the holder scan, compute its plan |
| PrivdServer.DecideStart | internal/privd/server.go:300-371 | start_vm's checks in their order, with the name loop and the holder scan, compute its plan |
| PrivdServer.HasForeignFile | internal/privd/server.go:336-340 | The loop finds a staged name privd does not know exactly when there is one |
| Ledger.Get | internal/privd/ledger.go:60-82 | Absent exactly for a VM without a file, and what is present is that file's record |
| Ledger.All | internal/privd/ledger.go:126-150 | All entries, each once found, or failure exactly when one cannot be read |
| Ledger.SubnetHolder | internal/privd/server.go:536-547 | Held exactly when some entry has the subnet; an unreadable entry fails the scan |
| Ledger.IdentityHolder | internal/privd/server.go:564-578 | Held exactly when some entry has the uid or the CID; an unreadable entry fails the scan |
| ProcText.StatRoundTrip | internal/privd/pid_linux.go:25-51 | For every comm, with parentheses, spaces or newlines in it, comm and start time are read back from the stat line |
| ProcText.FieldsOfTrimmed | internal/privd/pid_linux.go:32-33 | Trimming before splitting into fields changes nothing |
| ProcIdentity.GateIsTruthful | internal/privd/pid_linux.go:111-129 | If /proc tells the truth about the recorded pid, the gate reports death only of a process that is gone, which is the condition the machine's release relies on |
| ProcIdentity.LiveProcessIsNotDead | internal/privd/pid_linux.go:56-80 | A process that runs and can be read is reported alive, never dead |
| ProcIdentity.ProcessDeadExactly | internal/privd/pid_linux.go:56-80 | Death is concluded exactly from a missing pid, another start time, or state Z or X |
| ProcIdentity.DeadExactly | internal/privd/pid_linux.go:111-129 | For an entry: exactly from another boot, or on this boot and in this namespace from what /proc shows |
| ProcIdentity.UnobservableIsRefused | internal/privd/pid_linux.go:111-129 | An unread kernel identity, another PID namespace or an unreadable process is refused, never taken for dead |
| Durable.FileSystem.WriteFile | internal/durable/file.go:38-77 | After each system call, whichever one fails, every path reads, now and after a crash, as it did before or, if it may lead to the target, as the complete new content; on success the target reads as the new content in every crash image, if the way to its directory is settled |
| Durable.FileSystem.Replace | internal/durable/file.go:38-77 | The same for one directory: whatever is new under the target name is the complete, synced file |
| Durable.HarmlessOldOrNew | internal/durable/file.go:38-77 | A directory that gained only the complete new file under the target name makes every path read as before, or as the new content where it may lead to that directory |
| Durable.PublishedReads | internal/durable/file.go:70-76 | Once rename and sync are done, the published content is what every crash image reads |
| Durable.FileSystem.Remove | internal/durable/file.go:81-92 | The path is gone for readers; it is gone from every crash image if and only if it was visible when removed or already settled as absent: removing an absent path takes no barrier |
| Durable.AbsentButNotGone | internal/durable/file.go:81-86 | The failing case, for every file: a Remove whose sync fails and a second one that returns nil without a barrier; readers find nothing and a crash may bring the file back |
| Durable.FileSystem.RemoveAll | internal/durable/file.go:96-113 | The loop ends at the nearest ancestor that is there; removal never makes anything new readable; on success no crash brings the path back, if the way to that ancestor is settled |
| Durable.RemovedUpTo | internal/durable/file.go:96-113 | Syncing the nearest surviving ancestor settles the absence of the whole path |
| Durable.FileSystem.MkdirAll | internal/durable/file.go:118-134 | Succeeds if and only if no missing directory fails to be made, no file is in the way, and every ancestor syncs; then every ancestor is settled and the path leads to the same directory in every crash image; whatever could be read before reads the same |
| Durable.FileSystem.SyncAncestors | internal/durable/file.go:126-133 | Succeeds if and only if every sync does; it settles each ancestor up to the root and changes nothing a reader sees |
| Durable.FileSystem.SyncDir | internal/durable/file.go:138-148 | What is visible in the directory becomes all a crash can leave |
| Durable.FileSystem.SaveOperation | internal/privd/operations.go:37-47 | Succeeds if and only if its directory can be made and synced and the write meets no fault; a saved receipt is what every crash image reads, and once its directory is made durable every entry of the ledger directory above it is settled too |
| DiskVersions.SaveReceipt | internal/privd/operations.go:37-47 | What saveOperation does to the files is what the machine's Save does to its two versions, for the outcome it has, unless a write fails after it became visible over a receipt whose versions already differed; and which outcome that is, exactly |
| DiskVersions.ImagesArePicked | internal/durable/file.go:13-32 | Whatever a crash leaves, read as receipts and entries, is one of the pairs of maps the machine's power loss may pick |
| FileTree.SettledReach | internal/durable/file.go:13-32 | Along settled entries a crash changes nothing |
| FileTree.AbsentForGood | internal/durable/file.go:102-112 | Where the way is settled up to a directory that cannot hold the next name, no crash image has the path |
| Alloc.Allocator.Acquire | internal/network/alloc.go:173-201 | Own lease again, or the first free candidate, or exhaustion; the two maps stay inverse, leases stay aligned /30s when the pools are sound, and a fresh one meets no route the allocator was made with |
| Alloc.Allocator.Restore | internal/network/alloc.go:205-220 | Accepted exactly for an owner, an aligned IPv4 /30, no other holder and no other lease of that owner |
| Alloc.Allocator.Release | internal/network/alloc.go:223-230 | Forgets the owner's lease in both maps and nothing else |
| Alloc.Allocator.constructor | internal/network/alloc.go:154-160 | Starts with no lease and the usable pools |
| Alloc.FindFree | internal/network/alloc.go:182-200 | The nested loops compute the first candidate that is not occupied |
| Alloc.SearchPool | internal/network/alloc.go:183-198 | The inner loop, with its exits at the pool's end and at address overflow, computes the pool's first free /30 |
| Alloc.FirstFreeIs | internal/network/alloc.go:182-200 | First means all candidates before it are held; none means all are |
| Alloc.CandidatesExact | internal/network/alloc.go:182-200 | The candidates of sound pools are exactly the aligned /30s inside them |
| Alloc.SlotsWide | internal/network/alloc.go:183-198 | A pool of length 30 or less is searched in address order, every aligned /30 of it once |
| Alloc.ExhaustedExactly | internal/network/alloc.go:200-200 | Sound pools are exhausted if and only if every aligned /30 inside one of them is held |
| Alloc.SlotsAlignedIff | internal/network/alloc.go:183-186 | A pool yields aligned /30s only, if and only if its length is at most 30, or 31 with a base divisible by 4, or 32 with a base not 3 modulo 4 |
| Alloc.NarrowPoolOverlaps | internal/network/alloc.go:183-192 | The failing pool 10.0.0.2/31 yields 10.0.0.2/30, a different key than 10.0.0.0/30 for the same addresses |
| Alloc.OwnersDisjoint | internal/network/alloc.go:85-91 | Distinct owners hold disjoint address ranges |
| Alloc.SelectPools | internal/network/alloc.go:126-153 | The usable pools are the given ones in order less those that meet a route; a pool of another family is an error |
| Alloc.NewAllocator | internal/network/alloc.go:126-160 | No allocator exactly when a pool is not IPv4; otherwise one without leases whose pools are the given ones that meet no route, so that what it acquires meets none |
| Alloc.UsableAvoid | internal/network/alloc.go:136-152 | A pool is usable exactly when it meets no route but a default one |
| Alloc.FreshAvoidsRoutes | internal/network/alloc.go:136-152 | No address of a fresh lease lies in a host route other than the default route |
| Prefixes.OverlapExact | internal/network/alloc.go:234-236 | The two-sided containment test is true exactly when the prefixes share an address |
| Prefixes.AddUint32 | internal/network/alloc.go:250-256 | Exact sum, and overflow reported exactly when it leaves 32 bits |
| Prefixes.LeaseIsMasked | internal/network/alloc.go:208-208 | The demanded form, length 30 and masked, is alignment to four |
| Slots.AllocateSlot | internal/jailer/manifest.go:129-180 | A restart keeps its slot, an unreadable manifest met first refuses, otherwise the least slot below the limit that no manifest names, or exhaustion when all are named |
| Slots.NetworkLeases | internal/jailer/manifest.go:203-229 | Answers exactly when every manifest is readable, names its directory and holds a whole /30 that no other claims; the answer is then what the manifests say, one owner per /30 |
| Slots.RestoreNetworkLeases | internal/jailer/adapter.go:131-164 | Succeeds if and only if every claim of privd parses and manifests, claims and held leases are one assignment of subnets to owners; the allocator then holds their union; a failure takes nothing away |
| Subnets.AcquireText | internal/jailer/launch.go:95-100 | The text of what Acquire returns is a subnet the machine lets a launch take: the owner's, or nobody's; no text means no owner or exhaustion |
| Subnets.TextInjective | internal/jailer/launch.go:99-99 | No two prefixes have one text |
| Subnets.LeasedAddressesDisjoint | internal/network/alloc.go:85-91 | In every such run of the machine, two VMs whose manifests name leases have no address in common, whichever versions a power loss leaves |
| LaunchLock.OneWorker | internal/jailer/launch_budget.go:15-58 | At most one launch worker runs, and while one whose caller gave up still does, no call gets the lock |
| AdapterTheorems.IdentityReuseSafe | internal/jailer/stop.go:734-759 | Over every run in which launches first resolve the start their manifest names, every allocate_network was answered definitely and no directory lacks its manifest: a VM that was not there is given a slot and a subnet only when no other VM has either in a manifest, live request, ledger entry, process, chroot or network |
| AdapterTheorems.SlotGivenOnlyWhenFree | internal/jailer/stop.go:734-755 | When a slot is given to a VM that was not there, every other VM holds none of it: not in either version of its manifest, as uid or CID in either version of the ledger, in a start that may still take effect, nor, if its manifest is gone, any chroot or process at all |
| AdapterTheorems.SubnetGivenOnlyWhenFree | internal/jailer/stop.go:757-759 | The same for the subnet, over ledger, live allocations, networks and manifests |
| AdapterTheorems.SubnetFreeInInventory | internal/jailer/adapter.go:131-164 | In every run, with no condition: the subnet a launch chooses is none that another VM's manifest, ledger entry or network had when the leases were restored |
| AdapterTheorems.LeasesDistinct | internal/jailer/manifest.go:129-180 | No two VMs hold one slot or one subnet, whichever version of each manifest a power loss leaves, and a VM's versions agree on both |
| AdapterTheorems.RestartKeepsLease | internal/jailer/manifest.go:162-165 | A VM keeps slot and subnet over restarts, crashes and failed launches, for as long as its manifest is there |
| AdapterTheorems.NoLateStartWhenChecked | internal/jailer/outcomes.go:12-40 | Over adapter, lossy socket and privd: when a jail tree or a process of a VM appears, both versions of its manifest name a start that is still out; for runs whose launches first pass the resolveStartOutcome check |
| AdapterTheorems.NoLateStart | internal/jailer/launch.go:171-199 | The same under the weaker condition that no launch finds a start of its VM unread in the socket |
| AdapterTheorems.HoldingsHaveManifest | internal/jailer/stop.go:734-764 | A VM with a chroot, a process, or a uid and CID in privd's ledger has its manifest in both versions |
| AdapterTheorems.NetworksHaveManifest | internal/jailer/stop.go:734-764 | A VM with a network, on the host or in the ledger, has its manifest in both versions, and the ledger's subnet is the manifest's |
| AdapterNetLimits.NoLateNetwork | internal/jailer/launch.go:150-156 | When a network appears, both versions of its VM's manifest are there; for runs that ask for no release_network of a VM while an allocation of it may still take effect |
| AdapterLimits.LaunchSafeIff | internal/jailer/launch.go:63-118 | Whatever happens after a launch of a VM that is not running begins, no tree or process of it appears without its manifest, if and only if no start of it is unread in the socket; the other direction builds the continuation in which one appears |
| AdapterLimits.LateStartFollows | internal/jailer/launch.go:63-199 | From any world where a launch overtakes an unread start: it is rolled back, both halves are released, the manifest is removed, and then allocation and start are read and take effect |
| AdapterRuns.LateStart | internal/jailer/launch.go:63-199 | The failing run from the empty machine: the first launch gets its network and loses the start's reply, the second overtakes it |
| AdapterNetLimits.ReleaseSafeIff | internal/jailer/stop.go:717-755 | Whatever happens after the release_network of a VM that is not running is asked for, no network of it appears without its manifest, if and only if no allocate_network of it is unread in the socket |
| AdapterRuns.LateNetwork | internal/jailer/launch.go:150-153 | The failing run: a lost allocate_network is rolled back as failed, and takes effect after the manifest is gone |
| AdapterRuns.LaunchDistinctIff | internal/jailer/launch.go:63-110 | A reservation for a VM that was not there keeps slots and subnets distinct across power losses if and only if no directory without its manifest had held that slot or that subnet |
| AdapterRuns.SlotGivenTwice | internal/jailer/stop.go:747-755 | The failing run: a rollback unlinks a manifest and stops before removing its directory, the slot is given away, and a power loss brings the manifest back |
| AdapterPids.RecordedPidIsTrue | internal/jailer/outcomes.go:12-40 | In every run and in both versions of a manifest, a recorded VMM pid is the one privd's execution of the start that manifest names wrote to its ledger, however often the reply was lost |
| AdapterStarts.WorldStepKeepsInv | internal/jailer/launch.go:63-250 | Each step of adapter, socket, privd and power keeps every start that may still take effect owned by a manifest |
| AdapterStarts.SettledIsNotLive | internal/jailer/outcomes.go:12-40 | A start resolveStartOutcome lets go of can no longer take effect |
| AdapterStarts.CheckedIsCareful | internal/jailer/outcomes.go:12-40 | So a launch that passes the check finds no start of its VM unread |
| AdapterNets.NetStepKeepsInv | internal/jailer/launch.go:150-156 | Each step keeps every network and every allocation that may still take effect under a manifest |
| AdapterLeases.StepKeepsLeases | internal/jailer/launch.go:63-118 | Each step keeps slots and subnets distinct across both versions, in range, and counted by the allocator while a reservation is made |
| AdapterLeases.StepKeepsIds | internal/jailer/launch.go:150-180 | Each step keeps uid, CID and subnet in the ledger and in requests under way those of the VM's manifest, the gid the site's, and a start's files all the staged ones |
| AdapterLink.StepKeepsLink | internal/privd/client.go:47-99 | Each step keeps what socket, privd and client know of a request consistent: unread, pending, or answered once |
| AdapterLink.InventoryMeansNoLive | internal/jailer/adapter.go:131-164 | A lease inventory that answers means no request is queued, running or cut loose in privd |
| AdapterPrivdSteps.ReleaseReplyClears | internal/jailer/stop.go:706-724 | When privd answers a release with ok or not_found, that half of the VM is out of the ledger in both versions and off the host |
| AdapterPrivdSteps.StepKeepsQuiet | internal/jailer/stop.go:689-704 | A VM that holds nothing goes on holding nothing while no start of it can take effect |
| AdapterServer.Lifecycle.LaunchVm | internal/jailer/launch.go:63-250 | Launch, stage by stage, is a run of the machine. On success privd granted the manifest's subnet and answered start_vm under its op_id, with its slot's uid and CID, the site's gid, its own staging directory and all staged files; both versions of the manifest say so with the pid answered. It fails only if the leases would not let it begin or, in the stages of this VM's launch, a call or write failed, a reply that was due did not come, privd refused, or every slot was another's; so it succeeds when nothing of that happened. No other VM's manifest changes, and a durable manifest is gone only if a release withdrew it |
| AdapterServer.Lifecycle.DoRelease | internal/jailer/stop.go:706-764 | doRelease is a run of the machine. It succeeds by withdrawing the manifest, after both halves were released and the chroot seen absent. It fails only if, in the stages of this VM's release, a call or write failed, a reply that was due did not come, privd refused, the start's outcome was not settled or the chroot was still there; then a durable manifest is still durable |
| AdapterServer.Lifecycle.DoRollback | internal/jailer/launch.go:536-586 | The same of doRollback |
| AdapterServer.Lifecycle.ReleaseVmWhenDead | internal/jailer/stop.go:598-615 | The polling loop is a run of the machine that leaves the manifests alone and ends with the VM half released, unless a call failed, a due reply did not come, or privd's last answer was a refusal |
| AdapterServer.Lifecycle.ResolveStartOutcome | internal/jailer/outcomes.go:12-40 | A run of the machine that goes on to cleanup if and only if no start is open, or the query was answered and privd's receipt of it failed, or it succeeded with a pid and a start time and the pid could be written. Then both versions of the manifest hold that pid, and are unchanged after a failure. With privd down, its journal failed, or a receipt that is missing, open or malformed it stops and changes nothing; durable manifests stay durable and no other VM's changes |
| AdapterServer.Lifecycle.ReserveManifest | internal/jailer/launch.go:70-118 | Slot, subnet and manifest as a step of the machine: on success both versions of the manifest are there; it fails only if a call or write failed, no subnet was left, or the VM had no slot and every slot was another's; durable manifests stay durable and no other VM's changes |
| AdapterServer.Classify | internal/privd/client.go:47-99 | Unknown exactly for a lost reply, outcome_pending and outcome_unknown |
| AdapterServer.JudgeStart | internal/jailer/outcomes.go:12-40 | Settled exactly when no start is open or its receipt failed; the pid to record exactly when it succeeded and names a process; retained exactly when privd is down, its journal failed, or the receipt is missing, open or malformed |
| TerminalStream.ServeBrowser | internal/guest/terminal.go:238-279 | Guest and relay together: what arrives is contiguous with the session's stream, every piece at its true offset and no longer than the window; it is all that the session sent, with the same drops, none of them of bytes the ring still holds, unless the acknowledgements end with no room left; enough prompt acknowledgements make it all |
| TerminalStream.ServeAll | internal/guest/terminal.go:238-279 | After quiet turns enough to read the ring, the browser is at the head of the stream, or its acknowledgements ended with no room left |
| TerminalStream.QuietCatchesUp | internal/guest/terminal.go:243-263 | Whatever the shell wrote before, quiet turns worth the ring bring the reader to the head |
| TerminalStream.EveryByteAccounted | internal/guest/terminal.go:230-237 | Every offset passed was delivered with its own byte or lies in a reported drop |
| TerminalStream.InOrder | internal/api/terminal_stream.go:194-217 | No offset is passed twice |
| TerminalStream.StreamOut | internal/guest/terminal.go:238-279 | The frames are those of the session turn by turn: from the resume offset on, a chunk or up to the head each turn, a drop exactly where the ring was overwritten |
| TerminalStream.Turn | internal/guest/terminal.go:243-263 | Each turn moves the reader a chunk or to the head, past a drop that ends at the ring's tail, and the derived offset equals the attachment's own |
| TerminalStream.PumpGuest | internal/api/terminal_stream.go:164-192 | The relayed messages are faithful, fit the window and count exactly in it; all frames are relayed, with the same drops, or the acknowledgements ended with no room left |
| TerminalStream.SendOutput | internal/api/terminal_stream.go:197-217 | One run of output becomes pieces of at most the window, contiguous; all of it, or the acknowledgements ended with no room left |
| TerminalStream.Attachment.Read | internal/guest/pty/broker.go:552-584 | The bytes returned are the stream's at the attachment's offset, and what was overwritten before is exactly the recorded drop |
| TerminalStream.Window.Reserve | internal/terminal/window.go:30-41 | Room is claimed exactly when the sum stays within the limit |
| TerminalStream.Window.Ack | internal/terminal/window.go:47-57 | Stale offsets are ignored, offsets beyond what was sent are clamped, and the bound is kept |
| TerminalStream.AckLeaves | internal/terminal/window.go:43-57 | After any messages, a new acknowledgement leaves in the window exactly the count WindowExactIff is about |
| TerminalStream.WindowExactIff | internal/terminal/window.go:43-57 | The window counts what a browser has not consumed, for every acknowledged offset, if and only if no output followed a drop |
| TerminalStream.WindowOverrun | internal/terminal/window.go:43-57 | The failing case: after a drop a window of 2 leaves 3 bytes unread |
| TerminalStream.InputPump.HandleInput | internal/api/terminal_stream.go:303-322 | Keystrokes are delivered at most once and in order; one refused as read-only uses its number up |
| TerminalRing.Ring.Append | internal/guest/pty/ring.go:61-87 | The buffer goes on holding the newest bytes of the stream, and the answer names exactly the offsets lost |
| TerminalRing.Ring.ReadFrom | internal/guest/pty/ring.go:98-111 | The bytes of the stream from the offset or from the tail, whichever is later |
| TerminalRing.WrittenHolds | internal/guest/pty/ring.go:73-82 | Writing round the end of the buffer drops exactly the oldest bytes that no longer fit |
| TelemetrySpool.Spooler.SpoolPush | internal/runner/telemetry.go:187-227 | Per stream the spool is strictly increasing; a push is acknowledged exactly when decided before, refused by kind, or appended; the envelope appended is of this stream and this push, and stamped with this time or, where the append before was refused for the same push, with the time of that one; a refused kind is acknowledged even if its note could not be written |
| TelemetryLink.SpoolIncreases | internal/runner/telemetry.go:187-227 | Over any connections of this machine's guest, in order or not, each sequence is spooled at most once and in strictly increasing order; SpoolPush has the same for whatever a guest pushes |
| TelemetryLink.AcknowledgedIsSpooled | internal/runner/telemetry.go:95-136 | For a guest whose every Advance moves past the item written on its connection, past none, or past one already decided, every event it forgot without dropping it is in the spool or of a kind it may not report |
| TelemetryLink.RetriesAreIdentical | internal/runner/telemetry.go:233-270 | For such a guest all append attempts of one event carry one envelope, however often the spool refuses it |
| TelemetryLink.AdvanceSafeIff | internal/guest/telemetry/ring.go:159-165 | After such a run, over a ring of two or more, an Advance is followed only by such continuations that lose no event if and only if it moves past the item written on this connection, past the end, or past one already decided; in the other direction the losing continuation is built |
| TelemetryLink.PassedIsLost | internal/guest/telemetry/ring.go:112-165 | An event the cursor passed over undecided is lost on some continuation without any further Advance: the wire is read, the acknowledgements come in, and the next event's acknowledgement takes it along |
| TelemetryLink.OneSlotLosesNothing | internal/guest/telemetry/ring.go:112-165 | A ring of one loses no event in any run, whatever its Advances do |
| TelemetryLink.RaceLosesEvent | internal/guest/telemetry.go:150-175 | The failing run: an acknowledgement that comes in between a write and its Advance makes the next event be skipped and then forgotten, neither dropped nor spooled |
| TelemetryLink.StepKeeps | internal/guest/telemetry/ring.go:112-211 | Each in-order step of ring, connection and runner keeps every event accounted for |
| DiskCapacity.ObserveFilesystems | internal/jailer/disk_capacity.go:121-136 | Whatever the order, the result is one filesystem's free space and credit with the least sum of all; it fails exactly when one cannot be read |
| DiskCapacity.ObserveDisk | internal/jailer/disk_capacity.go:24-61 | Fails exactly when a filesystem cannot be read, or while nothing is under way an owner or image is refused; otherwise the least sum of free space and credit, the credit of that filesystem, and none while work is under way. That credit is at most what is promised and what the distinct files there hold, misses less than a MiB of it for each reservation while none holds more than it promised, and is the whole promise once all have reached theirs |
| DiskCapacity.CreditReservations | internal/jailer/disk_capacity.go:63-114 | Fails exactly when an owner or an image is refused; otherwise each filesystem gets, for every reservation, the most whole MiB of its promise that the files no earlier one has fill there |
| DiskCapacity.CreditBounded | internal/jailer/disk_capacity.go:63-112 | Credit on a filesystem is that sum of shares, with these bounds from both sides: the reservations and the blocks of the distinct files there |
| DiskCapacity.SharesBounded | internal/jailer/disk_capacity.go:109-111 | Shares sum to at most the promise and at most the bytes held, to less than a MiB a reservation below the bytes while no promise is exceeded, and to the promise when all are reached |
| DiskCapacity.OneCredit | internal/jailer/disk_capacity.go:63-112 | There is one such credit for given reservations and files |
| DiskCapacity.Account | internal/jailer/disk_capacity.go:71-108 | One image adds its bytes to its filesystem if its inode was not seen before |
| DiskCapacity.AddCredit | internal/jailer/disk_capacity.go:109-111 | Each filesystem gets once, whatever the order, the most whole MiB that are in its bytes and within the reservation |

## Left out

- Envelope and transport: protocol version, peer credentials, message framing and size bounds, error texts, timestamps.
- Corrupted files: a ledger file privd did not write, and a receipt that reads differently from what was written. A receipt the load cannot read is modelled as a failed load.
- Intermediate versions of a file written twice without a successful sync between: the model keeps the visible one and the settled one. For receipts every version in between is an unresolved receipt of the same request, which a load treats like the settled one.
- DiskVersions.SaveReceipt: leaves out that one case, for the same reason. Writing and removing a ledger entry are not repeated there.
- Jail trees on a power loss: a removed tree is taken to stay removed, although os.RemoveAll of a tree has no barrier.
- The backend's internals: namespaces, nftables, hard links, digests, the jailer's argv. Its contract is the predicates `Progress`, `Undo`, `Returned` and `Undone`; in particular a start that succeeds reports the pid of the only process it left.
- AdapterTheorems.NoLateStart: requires that only this adapter sends start_vm and allocate_network, that op_ids are new, and that a request is delivered at most once.
- AdapterLimits.LaunchSafeIff: for VMs without a process in privd's ledger, for a site whose uids and CIDs privd accepts, and with three unused op_ids; a launch of a running VM is refused by start_vm.
- AdapterNetLimits.ReleaseSafeIff: for VMs whose VM half is released, with an unused op_id.
- Requests unread in the socket outlive a crash of privd in the model, though the listening socket is privd's own. The failing runs have no such crash.
- The list of stages in a manifest: only its slot, subnet, op_id and pid are modelled. Subnets are text in the machine; `Subnets` ties the text to the allocator's prefixes.
- Staging, runner supervision and signals inside Launch and doRollback: each is something that works or fails.
- Stop and reconcile beyond the resolution of a lost start: which process to signal and when, and what to tell the manager.
- Liveness: an unknown receipt may stay unknown until an operator repairs it.
- Integer widths other than the 32-bit addresses of the allocator: offsets, sequences, inode and byte counts are unbounded.
- Durable.FileSystem.WriteFile: the mode bits of the file are not modelled.
- Concurrent telemetry connections: the machine has one at a time, plus the Advance of the one before it.
- Multiple guest epochs in one run of `TelemetryLink`: streams are independent there; `TelemetrySpool.Spooler.SpoolPush` keeps them apart.
- Route parsing, `ExcludeOwnedRoutes`, exclusion texts, lease and session registries, HTTP, WebSocket, CLI, SQLite, importer and evidence code: field mapping with easy properties.
