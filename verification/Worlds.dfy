/**
 What survives a crash of the plugin, and what each single step may do to it.

 A world is the checkpoint on disk, the hardware, the published resource slice and the claims
 whose containers run. `Durable` says what a crash right here would find; `StepOk` says what one
 step changes and when it may be taken. A run is a sequence of such steps, so a theorem about
 runs speaks of every point between two steps of every call.

 The conversion records never depend on the reservation ledger. What a crash finds of the ledger
 is promised as long as the ledger in memory was read back soundly when the plugin last started.
 */
module Worlds {
  import opened Wrappers
  import opened Ledgers
  import opened Claims
  import opened Recovery

  const AMDGPU := "amdgpu"
  const VFIO_PCI := "vfio-pci"

  datatype Gpu = Gpu(pci: string, card: int, render: int)

  /** Claim -> device name -> the GPU the device was before it was converted. */
  type Conversions = map<string, map<string, Gpu>>

  datatype Checkpoint = Checkpoint(prepared: PreparedClaims, fields: PartitionFields, vfio: Conversions)

  /** The modes of each GPU index, as sysfs reads them back, and the staged memory modes. */
  datatype Hardware = Hardware(memory: map<int, string>, staged: map<int, string>, compute: map<int, string>)

  datatype World = World(
    disk: Checkpoint,
    saved: Ledger,                    // the ledger whose snapshot the disk holds
    hw: Hardware,
    drivers: map<string, string>,     // PCI address -> bound driver, "" or absent when unbound
    published: map<string, string>,   // taints in the last slice that was published
    inUse: set<string>,               // prepared claims with shares, until their release starts
    reloading: bool,                  // a reload was triggered, or its marker read back, and not seen to end
    misread: bool,                    // a mode could not be read in the hardware phase under way
    spoiled: set<string>,             // claims whose modes were written to while they were in use
    lost: set<string>,                // claims whose Unprepare failed after it had released them
    sane: bool,                       // the last start read back the ledger the disk was a snapshot of
    silent: bool)                     // a publish, or an Unprepare after its release, failed since the last slice

  /** What does not change over a run. */
  datatype Site = Site(
    cat: Catalog,
    plan: string -> seq<Share>,       // the shares of each claim
    partitionable: seq<int>,          // the GPU indices that support partitioning
    fleet: map<string, Gpu>)          // the whole GPUs of the node, by device name

  ghost predicate SiteOk(site: Site) {
    && PlanOk(site.cat, site.plan) && OrderOk(site.cat)
    && (forall d :: site.cat.parse(d).Some? ==>
          site.cat.parse(d).value.memory != "" && site.cat.parse(d).value.compute != "")
    && (forall c, s :: s in site.plan(c) ==> s.device in site.cat.synth && GpuOf(site.cat, s) in site.partitionable)
    && site.cat.synth.Keys !! site.fleet.Keys && (forall n :: n in site.fleet ==> site.cat.parse(n).None?)
    && (forall a, b :: a in site.fleet && b in site.fleet && site.fleet[a].pci == site.fleet[b].pci ==> a == b)
  }

  // ---------- modes ----------

  function Read<K>(m: map<K, string>, k: K): string {
    if k in m then m[k] else ""
  }

  /** Every partitionable GPU reads back this memory mode. */
  predicate Converged(site: Site, memory: map<int, string>, mode: string) {
    forall i :: 0 <= i < |site.partitionable| ==> Read(memory, site.partitionable[i]) == mode
  }

  /** The node and the device's GPU are in the modes the device is named after. */
  predicate InPlace(site: Site, hw: Hardware, device: string) {
    && site.cat.parse(device).Some?
    && var d := site.cat.parse(device).value;
       Converged(site, hw.memory, d.memory) && Read(hw.compute, d.gpu) == d.compute
  }

  /** Once a device is in place, all that was written for it is its own compute mode. */
  ghost predicate Undisturbed(site: Site, a: Hardware, b: Hardware, device: string) {
    && site.cat.parse(device).Some?
    && var d := site.cat.parse(device).value;
       && b.memory == a.memory && Read(b.compute, d.gpu) == d.compute
       && forall g :: g != d.gpu ==> Read(b.compute, g) == Read(a.compute, g)
  }

  // ---------- conversions ----------

  predicate Records(conv: Conversions, claim: string, device: string) {
    claim in conv && device in conv[claim]
  }

  ghost predicate Recorded(conv: Conversions, device: string) {
    exists c :: Records(conv, c, device)
  }

  /** Records name GPUs of the node, and no GPU is recorded for two claims. */
  ghost predicate RecordsOk(site: Site, conv: Conversions) {
    && (forall c, n :: Records(conv, c, n) ==> n in site.fleet && conv[c][n] == site.fleet[n])
    && (forall c, d, n :: Records(conv, c, n) && Records(conv, d, n) ==> c == d)
  }

  predicate OnAmdgpu(site: Site, drivers: map<string, string>, device: string)
    requires device in site.fleet
  {
    Read(drivers, site.fleet[device].pci) == AMDGPU
  }

  /** Every GPU that is away from amdgpu is recorded. */
  ghost predicate Covered(site: Site, conv: Conversions, drivers: map<string, string>) {
    forall n :: n in site.fleet && !OnAmdgpu(site, drivers, n) ==> Recorded(conv, n)
  }

  predicate Names(devices: seq<PreparedDevice>, device: string) {
    exists i :: 0 <= i < |devices| && devices[i].device == device
  }

  /** A claim that was prepared without any device is not told from one that was not prepared. */
  predicate IsPrepared(prepared: PreparedClaims, claim: string) {
    claim in prepared && prepared[claim] != []
  }

  /** The records of a prepared claim are of devices it was prepared with. */
  ghost predicate Owned(prepared: PreparedClaims, conv: Conversions) {
    forall c, n :: IsPrepared(prepared, c) && Records(conv, c, n) ==> Names(prepared[c], n)
  }

  // ---------- what a crash may find ----------

  /** The disk holds a snapshot of the ledger `saved`, or an older driver's checkpoint of it. */
  ghost predicate Snapshot(site: Site, w: World) {
    && OrderOk(site.cat)
    && Sound(w.saved, site.cat, site.plan)
    && (|| w.disk.fields == Fields(w.saved, w.disk.fields.reload)
        || (Legacy(site.cat, site.plan, w.disk.fields, w.disk.prepared)
            && w.saved == Recover(site.cat, w.disk.fields, w.disk.prepared)))
  }

  /** The prepared devices of a claim list its shares, and no other device of theirs is named like
      a partition. */
  ghost predicate Lists(site: Site, claim: string, devices: seq<PreparedDevice>) {
    && NamesPartitions(site, devices)
    && var shares := SharesOfPrepared(site.cat, claim, devices, |devices|);
       SharesOf(site.cat, claim, shares) && Pairs(site.cat, shares) == Pairs(site.cat, site.plan(claim))
  }

  predicate NamesPartitions(site: Site, devices: seq<PreparedDevice>) {
    forall i :: 0 <= i < |devices| && site.cat.parse(devices[i].device).Some? ==> devices[i].device in site.cat.synth
  }

  /** A slot written down for a prepared device is the slot its share holds. */
  ghost predicate SlotsMatch(site: Site, claim: string, devices: seq<PreparedDevice>, slots: Slots) {
    forall i :: 0 <= i < |devices| && devices[i].slot.Some? ==> SlotMatches(site, claim, devices[i], slots)
  }

  ghost predicate SlotMatches(site: Site, claim: string, d: PreparedDevice, slots: Slots)
    requires d.slot.Some?
  {
    && site.cat.parse(d.device).Some?
    && var g := site.cat.parse(d.device).value.gpu;
       (g, d.key) in Pairs(site.cat, site.plan(claim)) && Holds(slots, g, d.key) && slots[g][d.key] == d.slot.value
  }

  /** Every prepared claim that is reserved holds the slots its prepared devices name. */
  ghost predicate SlotsKept(site: Site, prepared: PreparedClaims, l: Ledger) {
    forall c :: IsPrepared(prepared, c) && c in l.claims ==> SlotsMatch(site, c, prepared[c], l.slots)
  }

  /** Every prepared claim with shares is reserved, unless its Unprepare failed after the release. */
  ghost predicate NoneReleased(site: Site, prepared: PreparedClaims, lost: set<string>, l: Ledger) {
    forall c :: IsPrepared(prepared, c) && site.plan(c) != [] && c !in lost ==> c in l.claims
  }

  /** The marker names the active memory mode, or nothing is reserved any more. */
  predicate Matched(l: Ledger, marker: Option<string>) {
    marker.Some? ==> marker.value != "" && (l.slots == map[] || l.memoryMode == marker.value)
  }

  /** The last slice that was published shows the ledger's taints, or something failed since. */
  predicate Announced(l: Ledger, w: World) {
    w.published == l.taints || w.silent
  }

  /** A claim in use is on disk and reserved in the snapshot, and in place unless it was spoiled. */
  ghost predicate Backed(site: Site, w: World, claim: string) {
    && site.plan(claim) != []
    && IsPrepared(w.disk.prepared, claim)
    && claim in w.saved.claims
    && (claim !in w.spoiled ==> forall s :: s in site.plan(claim) ==> InPlace(site, w.hw, s.device))
  }

  /** What a crash finds of the reservation ledger. */
  ghost predicate LedgerDurable(site: Site, w: World) {
    && Snapshot(site, w)
    && (forall c :: IsPrepared(w.disk.prepared, c) ==> Lists(site, c, w.disk.prepared[c]))
    && SlotsKept(site, w.disk.prepared, w.saved) && NoneReleased(site, w.disk.prepared, w.lost, w.saved)
    && (forall c :: c in w.inUse ==> Backed(site, w, c))
    && (w.disk.fields.reload.Some? ==> w.inUse <= w.spoiled) && Matched(w.saved, w.disk.fields.reload)
  }

  /** What a crash finds of the conversions. It needs nothing of the ledger. */
  ghost predicate RecordsDurable(site: Site, w: World) {
    && RecordsOk(site, w.disk.vfio)
    && Covered(site, w.disk.vfio, w.drivers)
    && Owned(w.disk.prepared, w.disk.vfio)
  }

  ghost predicate Durable(site: Site, w: World) {
    && RecordsDurable(site, w)
    && (forall c :: c in w.inUse ==> IsPrepared(w.disk.prepared, c))
    && (w.sane ==> LedgerDurable(site, w))
  }

  /** A node without a checkpoint, all of whose GPUs are on amdgpu. */
  lemma FreshIsDurable(site: Site, w: World)
    requires SiteOk(site) && w.inUse == {} && w.saved == EMPTY_LEDGER
    requires w.disk == Checkpoint(map[], Fields(EMPTY_LEDGER, None), map[])
    requires forall n :: n in site.fleet ==> OnAmdgpu(site, w.drivers, n)
    ensures Durable(site, w)
  {
    DrainedIsEmpty(EMPTY_LEDGER, site.cat, site.plan);
  }

  // ---------- single steps ----------

  /** What the plugin does outside that no world shows, and that may fail. */
  datatype Action =
    | WriteSpec(claim: string) | DeleteSpec(claim: string)   // the CDI spec of a claim
    | Describe(device: string)                               // the container edits of a VFIO device
    | FindNodes(claim: string)                               // the device nodes a GPU config needs
    | FindNoFunctions(pci: string)                           // a GPU has no active virtual functions

  datatype Step =
    | Restart
    | Poll(done: bool)                                  // did it see convergence or the deadline
    | Save(ok: bool)                                    // a checkpoint was written, or could not be
    | Publish(ok: bool)                                 // a slice was published, or could not be
    | Apply(device: string)                             // the hardware phase of Prepare begins
    | Misread                                           // a mode could not be read
    | Stage(gpu: int, mode: string, ok: bool)
    | Reload(mode: string)
    | Settle                                            // an asynchronous reload takes effect
    | SetCompute(gpu: int, mode: string, memory: string, ok: bool)
    | Rebind(pci: string)
    | Take(claim: string)
    | Give(claim: string)
    | Fail(claim: string)                               // Unprepare fails after it released the claim
    | Act(action: Action, ok: bool)
  {
    /** The memory mode the step is taken for. */
    function Mode(cat: Catalog): string
      requires Apply? ==> cat.parse(device).Some?
    {
      match this
      case Apply(device) => cat.parse(device).value.memory
      case Stage(_, mode, _) => mode
      case Reload(mode) => mode
      case SetCompute(_, _, memory, _) => memory
      case _ => ""
    }

    predicate ForMode() {
      Apply? || Stage? || Reload? || SetCompute?
    }
  }

  /** A reload gives each GPU its staged memory mode, or leaves the one it had; it may reset
      compute modes. */
  ghost predicate ReloadEffect(a: Hardware, b: Hardware) {
    forall g :: Read(b.memory, g) == Read(a.memory, g) || Read(b.memory, g) == Read(a.staged, g)
  }

  /** A compute mode is written to one GPU, or the write changed nothing. */
  ghost predicate ComputeEffect(a: Hardware, b: Hardware, gpu: int, mode: string) {
    forall g :: Read(b.compute, g) == Read(a.compute, g) || (g == gpu && Read(b.compute, g) == mode)
  }

  predicate UsesGpu(site: Site, claim: string, gpu: int) {
    exists i :: 0 <= i < |site.plan(claim)| && GpuOf(site.cat, site.plan(claim)[i]) == gpu
  }

  /** The claims in use that have a share of the GPU. */
  function Users(site: Site, inUse: set<string>, gpu: int): set<string> {
    set c | c in inUse && UsesGpu(site, c, gpu)
  }

  /** The published slice keeps every device of another memory mode from being scheduled. */
  ghost predicate Protected(site: Site, published: map<string, string>, mode: string) {
    mode != "" && published == Stamped(site.cat.synth, mode)
  }

  /** The modes these claims run in may be written: none of them is as it was prepared any more, or
      a mode could not be read just now. */
  predicate Excused(w: World, claims: set<string>) {
    claims <= w.spoiled || w.misread
  }

  /** The node's memory mode may be changed: no reload is under way, nobody can be scheduled into
      another mode, and whoever still runs in the old one is no reason not to. */
  ghost predicate MayReload(site: Site, w: World, mode: string) {
    !w.reloading && (w.sane ==> Protected(site, w.published, mode) && Excused(w, w.inUse))
  }

  /** The world of a plugin that just started: what it reads back becomes its ledger, which is sane
      if this is what the disk holds a snapshot of, and a marker that was saved counts as a reload. */
  ghost function AfterRestart(site: Site, v: World): World
    requires OrderOk(site.cat)
  {
    var w := v.(reloading := v.disk.fields.reload.Some?, misread := false,
                saved := Recover(site.cat, v.disk.fields, v.disk.prepared));
    w.(sane := LedgerDurable(site, w))
  }

  /** What the step leaves as it was, and what it does to everything that has no choice. */
  ghost predicate Moves(site: Site, v: World, step: Step, w: World) {
    match step
    case Restart => OrderOk(site.cat) && w == AfterRestart(site, v)
    case Poll(done) => w == v.(reloading := v.reloading && !done)
    case Save(ok) => w == if ok then v.(disk := w.disk, saved := w.saved) else v
    case Publish(ok) => w == if ok then v.(published := w.published, silent := false) else v.(silent := true)
    case Apply(device) => w == v.(misread := false)
    case Misread => w == v.(misread := true)
    case Stage(gpu, mode, ok) => w == v.(hw := v.hw.(staged := w.hw.staged))
    case Reload(mode) => w == v.(hw := w.hw, reloading := w.reloading, spoiled := v.spoiled + v.inUse)
    case Settle => w == v.(hw := w.hw, spoiled := v.spoiled + v.inUse)
    case SetCompute(gpu, mode, memory, ok) =>
      w == v.(hw := v.hw.(compute := w.hw.compute), spoiled := v.spoiled + Users(site, v.inUse, gpu))
    case Rebind(pci) => w == v.(drivers := w.drivers)
    case Take(claim) => w == v.(inUse := v.inUse + {claim}, spoiled := v.spoiled - {claim}, lost := v.lost - {claim})
    case Give(claim) => w == v.(inUse := v.inUse - {claim})
    case Fail(claim) => w == v.(lost := v.lost + {claim}, silent := true)
    case Act(action, ok) => w == v
  }

  /** When the step may be taken, and what it may do to the hardware and the bindings. */
  ghost predicate Allowed(site: Site, v: World, step: Step, w: World) {
    match step
    case Apply(device) =>
      && site.cat.parse(device).Some?
      && (v.sane ==> Protected(site, v.published, site.cat.parse(device).value.memory))
    case Stage(gpu, mode, ok) =>
      && (ok ==> Read(w.hw.staged, gpu) == mode)
      && MayReload(site, v, mode)
      && (forall g :: Read(w.hw.staged, g) == Read(v.hw.staged, g) || (g == gpu && Read(w.hw.staged, g) == mode))
    case Reload(mode) => MayReload(site, v, mode) && ReloadEffect(v.hw, w.hw)
    case Settle => (v.sane ==> v.inUse <= v.spoiled) && ReloadEffect(v.hw, w.hw)
    case SetCompute(gpu, mode, memory, ok) =>
      && (ok ==> Read(w.hw.compute, gpu) == mode)
      && Converged(site, v.hw.memory, memory)
      && (v.sane ==> Protected(site, v.published, memory) && Excused(v, Users(site, v.inUse, gpu)))
      && ComputeEffect(v.hw, w.hw, gpu, mode)
    case Rebind(pci) => forall p :: p != pci ==> Read(w.drivers, p) == Read(v.drivers, p)
    case _ => true
  }

  ghost predicate StepOk(site: Site, v: World, step: Step, w: World) {
    Moves(site, v, step, w) && Allowed(site, v, step, w)
  }

  // ---------- runs ----------

  datatype Event = Event(step: Step, world: World)

  /** The action was taken since then, and worked. */
  ghost predicate Worked(before: seq<Event>, after: seq<Event>, action: Action) {
    before <= after && exists k :: |before| <= k < |after| && after[k].step == Act(action, true)
  }

  lemma WorkedWithin(a: seq<Event>, b: seq<Event>, c: seq<Event>, d: seq<Event>, action: Action)
    requires a <= b <= c <= d && Worked(b, c, action)
    ensures Worked(a, d, action)
  {
    var k :| |b| <= k < |c| && c[k].step == Act(action, true);
    assert d[k] == c[k];
  }

  function WorldAt(start: World, h: seq<Event>, i: nat): World
    requires i <= |h|
  {
    if i == 0 then start else h[i - 1].world
  }

  /** Every world of the run is durable, and every step was allowed. */
  ghost predicate Run(site: Site, start: World, h: seq<Event>) {
    && Durable(site, start)
    && (forall i :: 0 <= i < |h| ==>
          Durable(site, h[i].world) && StepOk(site, WorldAt(start, h, i), h[i].step, h[i].world))
  }

  lemma RunGrows(site: Site, start: World, h: seq<Event>, e: Event)
    requires Run(site, start, h) && Durable(site, e.world)
    requires StepOk(site, WorldAt(start, h, |h|), e.step, e.world)
    ensures Run(site, start, h + [e])
  {
    hide Durable, StepOk;
    var longer := h + [e];
    forall i | 0 <= i < |longer|
      ensures Durable(site, longer[i].world) && StepOk(site, WorldAt(start, longer, i), longer[i].step, longer[i].world)
    {
      if i == |h| {
        assert WorldAt(start, longer, i) == WorldAt(start, h, i);
      }
    }
  }
}
