# The claim lifecycle of the AMD GPU DRA driver, in Dafny

This project models how the kubelet plugin of the AMD GPU driver prepares and unprepares resource
claims, and proves what the plugin guarantees over every sequence of calls, failures, reloads and
crashes. It covers three coupled layers:

- the **reservation ledger** (`cmd/gpu-kubeletplugin/partition.go`): which allocation shares hold
  which partition slots, the memory mode of the node, the compute mode of each GPU, redundant
  counters, taints, and the asynchronous reload that brings the hardware into a reserved mode;
- the **conversion ledger** (`cmd/gpu-kubeletplugin/vfio_conversions.go`,
  `cmd/gpu-kubeletplugin/vfio_manager.go`): write-ahead records of the GPUs that are rebound to
  vfio-pci for a claim;
- **Prepare, Unprepare and start-up** (`cmd/gpu-kubeletplugin/state.go`), which tie both layers to
  a checkpoint file, to the hardware, and to the published resource slice.

`dafny verify dfyconfig.toml` checks everything.

## How the model is built

| file | what it holds |
|---|---|
| `DeviceNames.dfy`, `ShareKeys.dfy` | printing and parsing device names and share keys |
| `Ledgers.dfy`, `Claims.dfy` | the ledger as a value: its updates, what its redundancy must agree on, and the claim-level calls over whole runs |
| `Recovery.dfy` | rebuilding the ledger from a checkpoint, with and without slots |
| `Naming.dfy`, `Sites.dfy` | the driver's own naming of shares, what it makes of every reachable ledger, and that the hypotheses of all theorems hold of it |
| `Worlds.dfy`, `Runs.dfy` | disk, hardware, bindings and slices; what a crash may find; what one step may do; theorems about runs |
| `Nodes.dfy` | class `Node`: every step the outside world can see, and the history of all of them |
| `Partitions.dfy` | class `PartitionState`: the loops and fields of the partition state, and the reload protocol |
| `Vfio.dfy` | class `VfioLedger`: binding drivers, recording, returning and recovering conversions |
| `Configs.dfy`, `Preparing.dfy` | which config governs a device, and which devices a claim is handed |
| `Coherence.dfy`, `Devices.dfy` | class `DeviceState`: Prepare, Unprepare and Start, and what ties memory to the world between them |
| `Witnesses.dfy`, `UnsoundStarts.dfy` | worlds, runs and states in which what should hold does not |
| `DeviceNodes.dfy`, `CdiNames.dfy` | device nodes of a partition, and names in CDI specs |
| `Wrappers.dfy` | optional values and picking from a set |

The classes follow the source's loops and field updates. Their methods are proved against
functions on values, and the lemmas prove what the source promises about those functions. The
bookkeeping of the ledger is proved for any way of reading names (`Ledgers.Catalog`), and
`Naming.DriverCatalog` is the driver's way.

A crash can happen between any two steps that the outside can see. `Worlds.Durable` says what a
crash must find, and each method of `Node` may be called only if the world right after it is
durable and the step is one `Worlds.StepOk` allows. `Node.Valid` therefore means that the history so
far, over all restarts, is a `Worlds.Run`, and because Prepare, Unprepare and Start keep it, the
theorems of `Runs.dfy` hold at every point between two steps of every call. Every write to the
disk, the hardware, a driver binding or the API server may fail, every read of a mode, a driver or
the checkpoint may fail, and every choice the model leaves open (map iteration order, deadlines,
what a failed write left behind) is nondeterministic. Deleting or writing a CDI spec, building container
edits, finding device nodes and checking a GPU for virtual functions are steps of their own (`Worlds.Action`).

`Node.faults` counts what stood in the way: reads and writes that failed, deadlines that passed, and GPUs that may
not be rebound because of active virtual functions. A contract that supposes the count unchanged says what a call
does when nothing stands in its way, and so that it cannot fail for any other reason than those it names.

A world keeps five facts that no code keeps, to say exactly when a guarantee holds:

- `misread`: a mode could not be read in the hardware phase under way;
- `spoiled`: claims whose modes were written to while they were in use;
- `lost`: claims whose Unprepare failed after it had released them;
- `sane`: the ledger in memory was read back, at the last start, as the one the disk was a snapshot of;
- `silent`: since the last slice was published, a slice could not be, or an Unprepare failed after its
  release (`Runs.SilentIff` says the same of the steps).

What the model says of the reservation ledger it says while the ledger is sane. What it says of the
conversions, and `DeviceState.Valid` itself, needs nothing of the kind: after a start from a
checkpoint that cannot be recovered from, every call still has its contract.

## What is assumed

- One writer: the lock of the device state serialises all calls, and nobody else changes modes or
  bindings.
- A checkpoint is written atomically or not at all.
- Discovery lists the same GPU indices after every restart. It lists each whole GPU that is on
  amdgpu under its name, no GPU that is on amdgpu also as a VFIO device, and only synthetic devices
  under names of partitions (`Vfio.FreshlyListed`; `DeviceNames.WholeGpuIsNoPartition` and
  `DeviceNames.VfioIsNoPartition` say so of the driver's other names).
- The plugin serves calls only after it published the recovered taints.
- The allocation of a claim does not change over retries; no two of its partition results agree
  in request, device and share ID; its partition results are of this node's pool (`Naming.WellAllocated`,
  `Preparing.AsPlanned`, `Worlds.Site.plan`, `Claims.PlanOk`). A claim prepared by an older driver is planned under its positional keys.
- Claim UIDs and request names of partition results contain no slash.
- A staged memory mode takes effect only in a reload. A reload that is asynchronous takes effect only
  while its marker is set, and only between two calls, never within one. A poll therefore sees the
  modes of all GPUs at one moment. The plugin accepts new claims after a poll found the deadline
  passed and dropped the marker (`cmd/gpu-kubeletplugin/partition.go:531-535`); a reload that comes
  even later is outside the model.
- A compute mode write that reports success took effect.
- The kernel gives every device node entry a card index of its own.
- The plugin runs in synthetic-partition mode; outside it the partition phases are skipped.

## What does not hold, and when it does

- **A claim in use is not safe from a mode that cannot be read.** A failed read counts as another
  mode. One failed read of a memory mode is enough to stage and reload under claims that are in use,
  and one of a compute mode to write it again. `Witnesses.MisreadDisturbs` gives such a run from every
  world with a claim in use. `Partitions.PartitionState.ApplyPartition` has the exact condition for one
  call: hardware that is in place is reported done without any write if and only if every mode could
  be read. (On a node that leaves reloads to an operator and has none, a failed read of a memory mode
  ends the call without a write, but not with success.)
- **Nor from a start that was not recovered from.** Even if every mode can be read, the driver can be
  reloaded under a claim in use. `UnsoundStarts.UnsoundStartDisturbs` gives the run: an Unprepare fails
  after its release, the next start recovers the claim under a key made from its position, the retry
  releases the claim's own key, and the start after that takes the claim for reserved because of the
  slot that was left. Another claim of another mode is then granted and in use. Preparing the first one
  is a repeated reservation: no conflict is looked for and no taints are published, and the hardware
  phase reloads the driver under the other claim, while the published slice taints the very device it
  is for. `UnsoundStarts.ClashIsNotSeen` is the ledger part, and `UnsoundStarts.TwoGpusCross` a node of
  the driver on which it happens.
- **These are the only two causes.** `Runs.FirstDisturbanceHasACause`: the first step that disturbs a
  claim comes either in a hardware phase in which a mode could not be read before it, or after a start
  from a checkpoint that could not be recovered from. `Runs.InUseIsUndisturbed` is what follows without
  either, and `Runs.InUseIsUndisturbedUnlessFailed` the same without any failed read and any Unprepare
  that fails after its release. For taints only the second cause matters (`Runs.TaintsPrecedeHardware`,
  `Runs.TaintsPrecedeHardwareUnlessFailed`).
- **Published taints can outlive their reason.** If an Unprepare fails after its release, its retry finds
  nothing to release and publishes nothing, so that the last slice goes on tainting every device of
  another mode although nothing is reserved (`Witnesses.TaintsOutliveTheRetry`). Between two calls the
  last slice shows the ledger's taints unless that happened since, or a slice could not be published
  (`Devices.DeviceState.TaintsArePublished`).
- **A reload need not converge.** Staging skips a GPU that reads the mode already, even if an earlier
  hardware phase that failed left another mode staged on it, and the reload then moves it away
  (`Partitions.StagedAwaySwaps`). `Partitions.FullReloadConvergesIff`: a reload that takes full effect
  converges if and only if no GPU in the mode has another one staged.
- **Recovery after a failed Unprepare.** Unprepare releases the ledger before it returns devices and
  deletes the CDI spec. If it fails there and another claim saves, the disk can hold a prepared
  claim but no slots, and start-up takes that for a checkpoint from before slots were persisted.
  `Witnesses.FailedUnprepareIsNotRecovered` gives such a run. `Recovery.RecoveryIsSoundIff` gives
  the exact condition, which start-up could test: a checkpoint of this driver is recovered soundly if
  and only if it has slots, or no prepared claim in it has a partition device. `Runs.EveryCrashRecovers`
  adds the checkpoints that really are of an older driver. `Runs.RecoverableUnlessFailed` shows that
  it always holds, at every point of every run in which no Unprepare fails after its release.
- **The mode of a reload marker need not be the active memory mode.** Releasing does not clear the
  marker. `Devices.DeviceState.MarkerIsActiveIff`: between any two calls, with a marker set, its mode is
  the active one if and only if some share is held; `Runs.MarkerOnDiskIsActiveIff` says so of the
  marker on disk at every point of every run in which every start so far could recover.
  `Witnesses.MarkerOutlivesItsClaim` gives the case: a claim that waits for a reload is unprepared, and
  its marker stays behind on the empty ledger, in memory and on disk. From then on every claim for partitions of another mode is turned away and leaves the marker
  (`Witnesses.OtherModesAreTurnedAway`, from the contract of Prepare): the marker is compared before
  its deadline is looked at (`cmd/gpu-kubeletplugin/partition.go:523-525`), Unprepare keeps it, and so
  does a restart. Only a claim of its own mode clears it.
- **A claim that is granted need not be reserved.** After a failed Unprepare the claim is still on
  disk as prepared, so preparing it again is answered from there. The contract of Prepare gives the
  exact condition: a claim that is granted is reserved, unless on entry it was on disk as prepared and
  not reserved. `Witnesses.GrantedWithoutReservation` builds a valid state of that kind.
- **Releasing twice.** Releasing a share lowers the counters even if it holds no slot, so retrying a
  partly failed release is not idempotent. `Claims.ReleaseIsValidIff`: the bookkeeping survives if
  and only if the share is held, or nothing is.
- **Reading keys back.** A request allocated through a sub-request is named `main/sub`, and its key then
  reads back as another device (`ShareKeys.SubRequestHidesTheDevice`); `ShareKeys.DecodesIffSlashFree`
  is the exact condition. Unprepare of a claim that waits for a reload releases it by the share read
  back, logs an error, and can report success: `Naming.ReadBackIsReleasedIff` shows that the claim is
  then reserved no longer if and only if its request was no sub-request, or the sub-request is named
  like a partition, and that its share is released as it should be if and only if the request was no
  sub-request, or the sub-request is named like a partition of the same GPU. Named like one of another
  GPU, it leaves the claim's slot behind and takes a share off the other GPU's counter.
- **A virtual function is not always unbound again.** Its driver of before is read at discovery and kept
  nowhere else, so a start while it is bound to vfio-pci takes it for one that was bound to begin with.
  `Vfio.VfLeavesVfioIff`: configured and unconfigured again, it ends off vfio-pci if and only if it was
  discovered so and the plugin was not started again in between, or discovery could not read its
  driver.
- **An unreadable checkpoint.** Start-up goes on with empty ledgers if the checkpoint cannot be read,
  and a later save would drop the conversion records. `Devices.UnreadableIsOkIff`: the conversion
  ledger is in order then if and only if every whole GPU is on amdgpu.
- A claim for which no device was prepared is not told apart from one that was never prepared
  (`Worlds.IsPrepared`).

## Model

| member | source | states |
|---|---|---|
| `DeviceNames.ParseIffPrinted` | cmd/gpu-kubeletplugin/deviceinfo.go:412-431 | a name is accepted as a partition if and only if it is the canonical name of what it is parsed to, for every GPU index and every supported pair of modes, so signs, zeros and spaces give no device a second name |
| `DeviceNames.SupportedPairs` | pkg/consts/consts.go:80-87 | the supported pairs of modes are these six, and no others |
| `DeviceNames.WholeGpuIsNoPartition` | cmd/gpu-kubeletplugin/deviceinfo.go:66-68 | the name of a whole GPU is never read as a partition |
| `DeviceNames.GpuNamesDiffer` | cmd/gpu-kubeletplugin/deviceinfo.go:66-68 | two whole GPUs have one name if and only if card and render index agree |
| `DeviceNames.VfioIsNoPartition` | cmd/gpu-kubeletplugin/deviceinfo.go:130-135 | nor is the name of a VFIO device |
| `ShareKeys.DecodesIffSlashFree` | cmd/gpu-kubeletplugin/partition.go:157-163 | a key splits back into claim, request, device and the text of the share ID if and only if claim, request and device have no slash |
| `ShareKeys.KeysAreInjective` | cmd/gpu-kubeletplugin/partition.go:149-163 | without slashes, two keys are equal if and only if claim, request, device and share ID are, except that an absent share ID equals an empty one |
| `ShareKeys.SubRequestHidesTheDevice` | cmd/gpu-kubeletplugin/partition.go:325-340 | a request named `main/sub` makes the key read back as the device `sub`, whatever the device was |
| `Ledgers.Determined` | cmd/gpu-kubeletplugin/partition.go:59-121 | a ledger whose redundancy agrees is fixed by its slots and claim markers alone |
| `Ledgers.SumOfCountsIsHeld` | cmd/gpu-kubeletplugin/partition.go:70-88 | the per-GPU counts add up to the number of held shares |
| `Ledgers.ReserveOne` | cmd/gpu-kubeletplugin/partition.go:353-398 | a share is refused exactly when it clashes with a held one; otherwise it is added, every held share keeps its slot, and the modes, counters and taints still agree |
| `Ledgers.ReleaseOne` | cmd/gpu-kubeletplugin/partition.go:574-612 | releasing a held share removes it and nothing else, and reports a taint change exactly when the node is empty |
| `Claims.ReserveClaimIsSound` | cmd/gpu-kubeletplugin/partition.go:244-271 | reserving is all or nothing: refused exactly when some two shares on the node would clash, and then every field is as before; a repeated call changes nothing |
| `Claims.ReleaseClaimIsSound` | cmd/gpu-kubeletplugin/partition.go:279-304 | releasing a reserved claim succeeds, frees exactly its shares, and gives the same ledger in whatever order they are listed |
| `Claims.ReleaseIsValidIff` | cmd/gpu-kubeletplugin/partition.go:583-593 | releasing a share keeps the bookkeeping exactly when the share is held or the ledger is empty |
| `Claims.EveryRunIsSound` | cmd/gpu-kubeletplugin/partition.go:244-304 | after any sequence of reserves and releases, retries included, the ledger holds exactly the shares of its claims, and is the initial one once they are gone |
| `Claims.SlotsStayBelowPeak` | cmd/gpu-kubeletplugin/partition.go:170-190 | if a GPU never has more than n shares at once, no share ever has slot n or above, in any order of releases |
| `Claims.DrainedIsEmpty` | cmd/gpu-kubeletplugin/partition.go:595-609 | the only sound ledger without claims has no memory mode, no taints and no counts |
| `Naming.ResultsAreShares` | cmd/gpu-kubeletplugin/state.go:359-398 | the shares read off an allocation name the claim and their device in their keys, and no two are alike |
| `Naming.SharesAreResults` | cmd/gpu-kubeletplugin/state.go:353-398 | the shares of an allocation are exactly the results of this driver and this pool for a partition, under the key of claim, request, device and share ID |
| `Naming.KeysApart` | cmd/gpu-kubeletplugin/partition.go:149-163 | two results of a claim that differ in request, device or share ID are reserved under different keys |
| `Naming.AllocationsArePlan` | cmd/gpu-kubeletplugin/state.go:353-398 | however many claims are allocated, beside however many of an older driver, no two of them ever want the same share |
| `Naming.PositionalAreShares` | cmd/gpu-kubeletplugin/state.go:509-525 | the positional keys of claims prepared by an older driver are keys of distinct shares of that claim |
| `Naming.EveryRunIsConsistent` | cmd/gpu-kubeletplugin/partition.go:362-397 | in every reachable ledger all shares on a GPU are of one device with slots of their own, all shares have the node's memory mode, a GPU has a compute mode exactly when its count is positive, and taints follow from the mode |
| `Naming.ReleasedIffParsed` | cmd/gpu-kubeletplugin/partition.go:279-304 | of any ledger: a release leaves the claim unreserved if and only if every listed device parses |
| `Naming.ReadBackIsReleasedIff` | cmd/gpu-kubeletplugin/state.go:478-496 | a claim is released by the share read back from its key if and only if its request was no sub-request or that is named like a partition, and otherwise nothing changes; the release is that of the planned share if and only if the request was no sub-request or that is named like a partition of the same GPU; with another GPU the slot stays and the other counter drops |
| `Sites.DriverSiteIsOk` | cmd/gpu-kubeletplugin/state.go:353-398 | what discovery and allocation give, with older claims beside newer ones, meets the hypotheses of every theorem and contract |
| `Sites.OlderClaimsDrain` | cmd/gpu-kubeletplugin/partition.go:685-714 | claims of an older driver and newer ones drain together to the initial ledger |
| `Recovery.RecoveryIsSoundIff` | cmd/gpu-kubeletplugin/partition.go:648-723 | reading back a snapshot gives the ledger it was taken of, exactly when it has slots or no prepared claim has a partition |
| `Recovery.LegacyRecovers` | cmd/gpu-kubeletplugin/partition.go:685-714 | a checkpoint without slots is recovered to a sound ledger that holds, for every prepared claim, the shares its Unprepare lists, in slots without gaps |
| `Recovery.LegacyDrains` | cmd/gpu-kubeletplugin/partition.go:685-714 | once all claims of such a checkpoint and all later ones are gone, in any order, the ledger is empty |
| `Runs.FirstDisturbanceHasACause` | cmd/gpu-kubeletplugin/partition.go:412-477 | the first step of any claim that stages, reloads, or writes the compute mode of a GPU a prepared claim uses comes after a failed read of a mode in the same hardware phase, and is then no late reload, or after a start from a checkpoint that could not be recovered from |
| `Runs.InUseIsUndisturbed` | cmd/gpu-kubeletplugin/partition.go:412-477 | while a prepared claim holds its reservation, modes can be read and every start found a checkpoint it could recover from, no step of any claim stages, reloads, or writes the compute mode of its GPUs, and its GPUs stay in the modes of its devices |
| `Runs.InUseIsUndisturbedUnlessFailed` | cmd/gpu-kubeletplugin/state.go:526-546 | the same, for every run without a failed read and without an Unprepare that fails after its release |
| `Witnesses.MisreadDisturbs` | cmd/gpu-kubeletplugin/partition.go:830-840 | with any claim in use, one failed read leads to a run that reloads under it and leaves its devices out of place |
| `Runs.TaintsPrecedeHardware` | cmd/gpu-kubeletplugin/state.go:264-303 | as long as every start found a checkpoint it could recover from, whenever Prepare enters its hardware phase or writes there, the last published slice taints exactly the devices of other memory modes, with the mode that is coming; failed reads do not matter |
| `Runs.TaintsPrecedeHardwareUnlessFailed` | cmd/gpu-kubeletplugin/state.go:264-303 | the same, for every run without an Unprepare that fails after its release |
| `UnsoundStarts.ClashIsNotSeen` | cmd/gpu-kubeletplugin/partition.go:244-250 | after two starts from checkpoints without modes and the release between them, a claim counts as reserved; a claim that clashes with it is reserved beside it, and reserving the first one then succeeds without any change and without a new slice |
| `UnsoundStarts.UnsoundStartDisturbs` | cmd/gpu-kubeletplugin/state.go:256-303 | a run in which every mode is read and that ends with a reload under a claim in use, begun while the published slice taints the very device it is for |
| `UnsoundStarts.TwoGpusCross` | cmd/gpu-kubeletplugin/partition.go:697-712 | a node of the driver with two GPUs and two claims on which that happens |
| `Runs.SilentIff` | cmd/gpu-kubeletplugin/state.go:541-566 | a run counts its last slice as possibly outdated exactly if, since it was published, a slice could not be, or an Unprepare failed after its release |
| `Devices.DeviceState.TaintsArePublished` | cmd/gpu-kubeletplugin/state.go:526-566 | between any two calls, the slice published last shows exactly the taints of the ledger, unless one of these happened since |
| `Witnesses.TaintsOutliveTheRetry` | cmd/gpu-kubeletplugin/state.go:502-566 | the retry of an Unprepare that failed after its release publishes nothing: with nothing reserved or prepared any more, every device of another mode stays tainted in the last slice |
| `Runs.ReloadsAreSeparated` | cmd/gpu-kubeletplugin/partition.go:632-637 | over all restarts, between two triggers, and before any staging, lies a poll that saw convergence or the deadline, or a start from a checkpoint in which the marker had not been saved; with any ledger |
| `Runs.EveryCrashRecovers` | cmd/gpu-kubeletplugin/state.go:180-203 | at every point of every run in which every start so far could recover, recovery gives the ledger the disk is a snapshot of, with every claim in use reserved and every reserved one in its own slots, and start-up a sane ledger again, exactly when the checkpoint can be recovered from |
| `Runs.RecoverableUnlessLost` | cmd/gpu-kubeletplugin/state.go:526-546 | a world with a sane ledger is recoverable unless a prepared claim in it was released by an Unprepare that failed |
| `Runs.RecoverableUnlessFailed` | cmd/gpu-kubeletplugin/state.go:526-546 | at every point of every run without an Unprepare that fails after its release, calls that are under way included, the ledger is sane and the checkpoint recoverable |
| `Runs.PreparedSlotsAreRecovered` | cmd/gpu-kubeletplugin/partition.go:648-683 | at every point of such a run, recovery has every prepared claim with shares reserved, and every prepared partition in the very slot that was written down for it |
| `Witnesses.FailedUnprepareIsNotRecovered` | cmd/gpu-kubeletplugin/partition.go:671-714 | from any world with one claim in use, a run of a failed Unprepare, a save and a restart that ends with a ledger that is not sane |
| `Runs.EveryConversionIsOnDisk` | cmd/gpu-kubeletplugin/state.go:671-679 | at every point of every run, with any reservation ledger, a GPU away from amdgpu has one record on disk, which names the device, what it was, and the claim |
| `Worlds.FreshIsDurable` | cmd/gpu-kubeletplugin/state.go:205-210 | a node with an empty checkpoint and all GPUs on amdgpu is a start of runs |
| `Witnesses.OneGpuIsUsable` | cmd/gpu-kubeletplugin/state.go:353-398 | there is such a site, with a claim that can be reserved: none of the theorems is about nothing |
| `Nodes.Node.WriteCheckpoint` | cmd/gpu-kubeletplugin/checkpoint.go:52-69 | a checkpoint is replaced as a whole or kept, and only by one that leaves the world durable |
| `Nodes.Node.Bind` | cmd/gpu-kubeletplugin/vfio_manager.go:178-229 | a driver file is written only when every GPU that is then away from amdgpu is recorded on disk; a write that fails may have taken effect |
| `Partitions.PartitionState.AssignSlot` | cmd/gpu-kubeletplugin/partition.go:170-190 | the search ends and gives the least free slot, or the slot the share holds |
| `Partitions.PartitionState.ReleaseSlot` | cmd/gpu-kubeletplugin/partition.go:194-203 | only the slot of this share is freed |
| `Partitions.PartitionState.ReservePartition` | cmd/gpu-kubeletplugin/partition.go:353-398 | updates all fields as `Ledgers.Reserve` says |
| `Partitions.PartitionState.ReleasePartition` | cmd/gpu-kubeletplugin/partition.go:574-612 | updates all fields as `Ledgers.Release` says |
| `Partitions.PartitionState.ReserveClaim` | cmd/gpu-kubeletplugin/partition.go:244-271 | the loop with its roll-back is `Ledgers.ReserveClaim`, field by field |
| `Partitions.PartitionState.ReleaseClaim` | cmd/gpu-kubeletplugin/partition.go:279-304 | the loop is `Ledgers.ReleaseClaim`, and a failed release keeps the claim marked |
| `Partitions.PartitionState.ApplyMemoryTaints` | cmd/gpu-kubeletplugin/partition.go:727-746 | afterwards exactly the devices of other memory modes are tainted |
| `Partitions.PartitionState.PartitionSharesFromAssignedSlots` | cmd/gpu-kubeletplugin/partition.go:325-340 | for a reserved claim, the shares read back from slot keys are exactly those it reserved, each once |
| `Partitions.PartitionState.RecoverFromCheckpoint` | cmd/gpu-kubeletplugin/partition.go:648-723 | rebuilds all fields as `Recovery.Recover` says, and the reload marker |
| `Partitions.PartitionState.ApplyPartition` | cmd/gpu-kubeletplugin/partition.go:412-477 | success means both modes in place and no marker; a marked reload is only polled; a marker for another mode is an error and stays; hardware in place is reported done without a write if and only if every mode could be read; with the memory mode in place and every mode readable, another compute mode on the GPU is written, and the call fails only if both ways of writing it fail; when nothing stands in the way the answer is settled by marker, modes and whether a reload can be triggered, and only GPUs in another mode are staged |
| `Partitions.FullReloadConvergesIff` | cmd/gpu-kubeletplugin/partition.go:442-457 | what was staged for a mode and a reload that takes full effect bring every GPU into it if and only if no GPU in the mode has another one staged |
| `Partitions.StagedAwaySwaps` | cmd/gpu-kubeletplugin/partition.go:442-453 | two GPUs in different modes that swap them, because the one that was skipped had the other mode staged |
| `Partitions.PartitionState.TriggerMemoryReload` | cmd/gpu-kubeletplugin/partition.go:491-515 | the marker is set exactly when the reload was triggered, and unless the trigger failed that is exactly when there is a way to reload |
| `Partitions.PartitionState.PollMemoryReload` | cmd/gpu-kubeletplugin/partition.go:520-538 | done only when every partitionable GPU is in the mode, and always then unless a mode could not be read; the marker goes on convergence or deadline, and on nothing else; nothing is written |
| `Partitions.PartitionState.MemoryConverged` | cmd/gpu-kubeletplugin/partition.go:542-549 | true only if every partitionable GPU is in the mode; false otherwise, or if a mode could not be read |
| `Vfio.RecordIffConverted` | cmd/gpu-kubeletplugin/vfio_conversions.go:30-40 | a device is recorded for exactly one claim if and only if its entry is VFIO converted from the recorded GPU; without a record it is on amdgpu under its name |
| `Vfio.VfioLedger.Configure` | cmd/gpu-kubeletplugin/vfio_manager.go:77-119 | success means bound to vfio-pci; nothing is rebound before a check found no active virtual functions; no other device is touched; needs the device's record on disk; it fails only if a read, a write or that check did |
| `Vfio.VfioLedger.Unconfigure` | cmd/gpu-kubeletplugin/vfio_manager.go:123-175 | success means back on the driver of before, left on vfio-pci, or left without a driver; a device that is back is not touched; it fails only if a read or a write did |
| `Vfio.VfLeavesVfioIff` | cmd/gpu-kubeletplugin/discovery.go:397-409 | a virtual function that is configured and unconfigured ends off vfio-pci if and only if it was discovered so and the plugin was not started again in between, or discovery could not read its driver |
| `Vfio.VfioLedger.ReturnToOriginalDriver` | cmd/gpu-kubeletplugin/vfio_conversions.go:79-91 | without a manager, nothing is rebound, and it succeeds only for a device that is back already; it fails only for want of a manager or because a read or a write failed |
| `Vfio.VfioLedger.RestoreFromVfio` | cmd/gpu-kubeletplugin/vfio_conversions.go:57-71 | drops exactly this record, and needs the device to be on amdgpu |
| `Vfio.VfioLedger.ReleaseClaimVfio` | cmd/gpu-kubeletplugin/vfio_conversions.go:97-116 | success leaves the claim no record; a failure leaves records only of listed devices; records of other claims stay; it fails only for want of a manager or because a read or a write failed |
| `Vfio.VfioLedger.ReleaseStrandedVfio` | cmd/gpu-kubeletplugin/vfio_conversions.go:121-132 | succeeds exactly when no record of the claim is left, and then lists the devices as the GPUs they were; if no read or write failed, that is exactly when there is a manager or every device is on the driver of before |
| `Vfio.VfioLedger.UnprepareDevices` | cmd/gpu-kubeletplugin/state.go:757-773 | success leaves no prepared device of the claim recorded; a device that cannot be returned keeps its record, and without a failed read or write there is no other |
| `Vfio.VfioLedger.RecoverVfioConversions` | cmd/gpu-kubeletplugin/vfio_conversions.go:173-240 | after a restart the ledger is in order again: a record is dropped only if its device is on amdgpu, and always then unless its driver could not be read; every other device is listed under its own name, once |
| `Configs.GetOpaqueDeviceConfigs` | cmd/gpu-kubeletplugin/state.go:1036-1089 | the driver's configs, those of classes before those of the claim, each in list order; an error exactly for an unknown source, missing parameters, or its own config that does not decode |
| `Configs.ChosenConfigGoverns` | cmd/gpu-kubeletplugin/state.go:588-669 | the config chosen for a device is for all requests or for this one, a VFIO config only with the feature on and a GPU or VFIO device, a GPU config never for a VFIO device; and it beats every other config of the driver of which all this holds; without one the default governs unless the device is VFIO |
| `Preparing.LastThatMayGovern` | cmd/gpu-kubeletplugin/state.go:609-669 | each result is governed by the last config whose requests, kind, feature gate and device type allow it, the device taken as it is listed by then, and by none only if there is none |
| `Preparing.EveryResultIsPrepared` | cmd/gpu-kubeletplugin/state.go:612-752 | every result of this driver is prepared exactly once, except that a VFIO device is prepared if and only if a config applies that is not for GPUs; results of other drivers never are |
| `Preparing.PreparedListShares` | cmd/gpu-kubeletplugin/state.go:723-752 | the shares Unprepare reads off the prepared devices are exactly the planned ones |
| `Preparing.PreparedNameSlots` | cmd/gpu-kubeletplugin/state.go:739-746 | every prepared partition is recorded with the slot its share holds |
| `Coherence.ReserveThenRelease` | cmd/gpu-kubeletplugin/state.go:428-446 | reserving a claim and rolling it back is releasing it |
| `Coherence.ReadyToApply` | cmd/gpu-kubeletplugin/state.go:281-285 | a reserved claim may be applied: its taints are out, and whoever runs as it was prepared is in its modes already |
| `Devices.DeviceState.MarkerIsActiveIff` | cmd/gpu-kubeletplugin/partition.go:595-609 | between any two calls with a sane ledger, a reload marker names the active memory mode if and only if some share is held |
| `Runs.MarkerOnDiskIsActiveIff` | cmd/gpu-kubeletplugin/state.go:478-496 | so does the marker on disk, at every point of every run in which every start so far could recover |
| `Witnesses.MarkerOutlivesItsClaim` | cmd/gpu-kubeletplugin/state.go:478-496 | unpreparing a claim that waits for a reload empties the ledger and leaves its marker, in memory and on disk |
| `Witnesses.OtherModesAreTurnedAway` | cmd/gpu-kubeletplugin/partition.go:520-525 | with a marker left behind, a claim with partitions of another mode is neither granted nor deferred, and the marker stays |
| `Devices.DeviceState.SelectConfigs` | cmd/gpu-kubeletplugin/state.go:609-669 | every result is governed by the last config that applies, a converted GPU counting as VFIO from then on; nothing is rebound; conversions are of devices that chose a VFIO config |
| `Devices.DeviceState.PrepareDevices` | cmd/gpu-kubeletplugin/state.go:572-755 | success: every result with a config is prepared exactly once and every VFIO device is bound; failure: only devices that could not be returned keep a record, and that is on disk; when nothing stands in the way, it succeeds if and only if the configs decode, the devices are listed and the governing configs can be applied |
| `Devices.DeviceState.PartitionSharesForClaim` | cmd/gpu-kubeletplugin/state.go:359-385 | one share for each result of this driver and pool that is a partition, in order |
| `Devices.DeviceState.RollBackPartitions` | cmd/gpu-kubeletplugin/state.go:433-446 | releases the claim, and publishes if and only if that emptied the node |
| `Devices.DeviceState.PreparePartitions` | cmd/gpu-kubeletplugin/state.go:256-303 | reserve, publish, apply: ends with the claim reserved and in place, reserved and waiting, refused with nothing changed, or withdrawn |
| `Devices.DeviceState.PersistAfterFailure` | cmd/gpu-kubeletplugin/state.go:789-799 | writes memory as it is, without the claim, if and only if the claim has records in memory or had on disk; if that write does not fail, the disk has the records memory has |
| `Devices.DeviceState.Prepare` | cmd/gpu-kubeletplugin/state.go:213-351 | from the reservation on, the claim is reserved on return if and only if it was granted or waits for a reload; a conflict leaves the ledger as it was, any other end the ledger of before without the claim; a granted claim is reserved unless it was found on disk and was not; a marker is dropped or waited for only for a claim of its mode; what is granted is what the configs select, each device once; a call that cannot return every stranded device of the claim ends there, with only old records left, and any other end past the checkpoint comes after all were returned; a claim that waits is written down: after the last poll or reload of the call its reservation, the marker and the conversions are saved, and are on disk unless that save failed; a granted claim has its CDI spec written; when nothing stands in the way the answer is settled by the ledger, the marker, the modes and the claim's configs, and every end that grants nothing leaves on disk exactly the records of the claim that memory has |
| `Witnesses.GrantedWithoutReservation` | cmd/gpu-kubeletplugin/state.go:220-227 | a valid state in which a claim is on disk as prepared and not reserved; Prepare leaves it so |
| `Devices.DeviceState.Unprepare` | cmd/gpu-kubeletplugin/state.go:448-566 | the ledger is as before or without the claim; success leaves no reservation and no record in memory, and if the claim was prepared or reserved then memory is what is on disk; a memory mode that was cleared is followed by a publish; the marker stays; a failure after the release counts the claim as lost; a claim that was prepared has its CDI spec deleted; when nothing stands in the way it fails only for want of a manager, with a device that is not on its driver of before |
| `Devices.DeviceState.Start` | cmd/gpu-kubeletplugin/state.go:107-211 | both ledgers are rebuilt from disk and published, the marker with them, and the plugin is in a valid state; its reservation ledger is sane exactly when the checkpoint was recoverable; with an unreadable checkpoint it goes on with empty ledgers; when nothing stands in the way it serves calls, from a readable checkpoint, and no device that is back on amdgpu keeps a record, in memory or on disk |
| `Devices.UnreadableIsOkIff` | cmd/gpu-kubeletplugin/state.go:180-185 | going on without the checkpoint leaves the conversion ledger in order if and only if every whole GPU is on amdgpu |
| `Devices.UnprepareAfterCrash` | cmd/gpu-kubeletplugin/vfio_conversions.go:134-240 | after any crash, whatever became of the reservation ledger, start-up and a successful Unprepare put a converted GPU back on amdgpu under its own name without a record; with a manager they succeed unless something stands in the way |
| `DeviceNodes.DiscoverPartitionDeviceNodes` | cmd/gpu-kubeletplugin/state.go:939-1023 | the nodes are those of an entry of the GPU's own address: in SPX mode of one that is whole, otherwise of the split one for which the share's slot is the number of split ones at the address with a lower card; none exactly when there is no slot or too few of them |
| `DeviceNodes.RankIsUnique` | cmd/gpu-kubeletplugin/state.go:998-1018 | the nodes do not depend on the order in which sysfs is enumerated |
| `DeviceNodes.SharesGetDistinctNodes` | cmd/gpu-kubeletplugin/state.go:1003-1018 | two shares on one split GPU never get the same nodes |
| `DeviceNodes.OtherGpusNodes` | cmd/gpu-kubeletplugin/state.go:960-1018 | shares on GPUs at different addresses never get the same nodes |
| `DeviceNodes.CountsOfModes` | pkg/consts/consts.go:80-87 | a GPU is split into 1, 2, 4 or 8 partitions in SPX, DPX, QPX and CPX mode |
| `DeviceNodes.SharesHaveOwnNodes` | cmd/gpu-kubeletplugin/state.go:960-1023 | after any calls, on a GPU that is split as its modes say and never had more shares than partitions since it was last empty, every held share finds nodes, and no other share finds the same: those of a sub-partition, or, in SPX mode, those of the whole GPU, which then has no other share |
| `CdiNames.SpecNamesDiffer` | cmd/gpu-kubeletplugin/cdi.go:114-119 | two names in the spec of a claim differ if and only if the devices do or are shares of a partition, for any number of shares of any partitions |
| `CdiNames.ClaimsNamesDiffer` | cmd/gpu-kubeletplugin/cdi.go:114-119 | two claims with UIDs of one length, as all UIDs are, share no name |
| `CdiNames.NotCommon` | cmd/gpu-kubeletplugin/cdi.go:45-119 | no device of a claim has the name of the common device |
| `CdiNames.VfioIsNotSlotted` | cmd/gpu-kubeletplugin/deviceinfo.go:130-135 | the name of a VFIO device is not one of a partition with a slot |
| `CdiNames.BothAgree` | cmd/gpu-kubeletplugin/cdi.go:121-170 | the names handed to kubelet are the common device and exactly the names in the spec |

## Left out

- The order of prepared devices and of configs being applied follows Go's map iteration; the model
  takes any order and proves nothing about a particular one.
- JSON, checksums and the fields of a conversion record other than address, card and render index.
- How claim UIDs are sorted in recovery from an old checkpoint: the model takes any fixed order.
- Upper and lower case of mode names in sysfs, and the reading and writing of sysfs, amd-smi and KMM:
  steps that succeed or fail.
- Wall-clock time: whether the deadline has passed is any answer at each poll.
- The IOMMU backend, IOMMUFD device names, container edits and device-node numbers.
- Attributes and capacities of published devices, slice chunking, and the feature-gate library; only
  name, memory mode and taints of a device are kept.
- Interleavings inside the ledger's own lock, which the lock of the device state rules out.
- `Devices.DeviceState.ApplyConfig`: finding the device nodes of a GPU config is one step that succeeds or fails;
  `DeviceNodes.DiscoverPartitionDeviceNodes` models the search itself.
- `CdiNames.SpecNamesDiffer`: supposes that a device that is no partition is not named like a partition
  with a slot, which holds for whole GPUs and VFIO devices (`CdiNames.GpuIsNotSlotted`,
  `CdiNames.VfioIsNotSlotted`).
- `Devices.DeviceState.Prepare`: says nothing about the reservation ledger once it is not sane, beyond
  what was reserved; there the source goes on with counters that need not agree with the slots.
- What an Unprepare or Prepare does after a start from an unreadable checkpoint, unless
  `Devices.UnreadableIsOkIff` puts the conversion ledger in order.
- Webhook, health check, command line, metrics, kube clients and logging.
