/**
 Worlds and runs in which what should hold does not.

 Each is built from a claim that is prepared and in use, for any site that has a claim with shares;
 the last section gives such a site, so none of the theorems is about nothing.
 */
module Witnesses {
  import opened Wrappers
  import opened DeviceNames
  import opened ShareKeys
  import opened Ledgers
  import opened Claims
  import opened Recovery
  import opened Naming
  import opened Worlds
  import opened Nodes
  import opened Vfio
  import opened Preparing
  import opened Coherence
  import opened Runs
  import opened Devices
  import opened Sites
  import opened Partitions

  // ---------- one claim in use ----------

  /** The claim has shares and can be reserved on a node without any other claim. */
  ghost predicate Usable(site: Site, claim: string) {
    && SiteOk(site) && site.plan(claim) != [] && (forall s :: s in site.plan(claim) ==> s.key != "")
    && ReserveClaim(EMPTY_LEDGER, site.cat, claim, site.plan(claim)).ok
  }

  function Reserved(site: Site, claim: string): Ledger {
    ReserveClaim(EMPTY_LEDGER, site.cat, claim, site.plan(claim)).ledger
  }

  function SlotOf(slots: Slots, gpu: int, key: string): Option<nat> {
    if Holds(slots, gpu, key) then Some(slots[gpu][key]) else None
  }

  function DevicesOf(site: Site, claim: string, slots: Slots): seq<PreparedDevice> {
    var shares := site.plan(claim);
    seq(|shares|, i requires 0 <= i < |shares| =>
      PreparedDevice(shares[i].device, shares[i].key, SlotOf(slots, GpuOf(site.cat, shares[i]), shares[i].key)))
  }

  function InModes(site: Site, l: Ledger): Hardware {
    Hardware(map i | 0 <= i < |site.partitionable| :: site.partitionable[i] := l.memoryMode, map[], l.computeModes)
  }

  function OnDrivers(site: Site): map<string, string> {
    map n | n in site.fleet :: site.fleet[n].pci := AMDGPU
  }

  /** Exactly one claim is prepared, and it is in use. */
  function InUseWorld(site: Site, claim: string): World {
    var l := Reserved(site, claim);
    World(Checkpoint(map[claim := DevicesOf(site, claim, l.slots)], Fields(l, None), map[]), l,
          InModes(site, l), OnDrivers(site), l.taints, {claim}, false, false, {}, {}, true, false)
  }

  lemma ReservedIsSound(site: Site, claim: string)
    requires Usable(site, claim)
    ensures var l := Reserved(site, claim);
            && Sound(l, site.cat, site.plan) && l.claims == {claim} && l.slots != map[] && l.memoryMode != ""
            && Pairs(site.cat, site.plan(claim)) <= Held(l.slots)
  {
    DrainedIsEmpty(EMPTY_LEDGER, site.cat, site.plan);
    ReserveClaimIsSound(EMPTY_LEDGER, site.cat, site.plan, claim);
    HeldClaimIsHeld(Reserved(site, claim), site.cat, site.plan, claim);
  }

  lemma {:induction false} DevicesListShares(site: Site, claim: string, slots: Slots, n: nat)
    requires Usable(site, claim) && n <= |site.plan(claim)|
    ensures SharesOfPrepared(site.cat, claim, DevicesOf(site, claim, slots), n) == site.plan(claim)[..n]
  {
    hide SiteOk, ReserveClaim;
    if n > 0 {
      DevicesListShares(site, claim, slots, n - 1);
      var s := site.plan(claim)[n - 1];
      assert s in site.plan(claim);
      PlannedDevice(site, claim, s);
      assert site.plan(claim)[..n] == site.plan(claim)[..n - 1] + [s];
    }
  }

  lemma PlannedDevice(site: Site, claim: string, s: Share)
    requires SiteOk(site) && s in site.plan(claim)
    ensures s.device in site.cat.synth && GpuOf(site.cat, s) in site.partitionable
  {
  }

  lemma DevicesAreSound(site: Site, claim: string)
    requires Usable(site, claim)
    ensures var l := Reserved(site, claim);
            var devices := DevicesOf(site, claim, l.slots);
            Lists(site, claim, devices) && SlotsMatch(site, claim, devices, l.slots)
  {
    hide Sound, SharesOf, PlanOk, OrderOk, ReserveClaim;
    var l, shares := Reserved(site, claim), site.plan(claim);
    var devices := DevicesOf(site, claim, l.slots);
    ReservedIsSound(site, claim);
    PlannedShares(site, claim);
    DevicesListShares(site, claim, l.slots, |shares|);
    assert shares[..|shares|] == shares;
    forall i | 0 <= i < |devices|
      ensures devices[i].device in site.cat.synth
      ensures devices[i].slot.Some? ==> SlotMatches(site, claim, devices[i], l.slots)
    {
      assert shares[i] in shares;
      PlannedDevice(site, claim, shares[i]);
      assert PairOf(site.cat, shares[i]) in Pairs(site.cat, shares);
      KeyedParses(site, claim, i);
    }
  }

  lemma KeyedParses(site: Site, claim: string, i: nat)
    requires SiteOk(site) && i < |site.plan(claim)|
    ensures site.cat.parse(site.plan(claim)[i].device).Some?
  {
    assert SharesOf(site.cat, claim, site.plan(claim));
  }

  lemma SharesAreInPlace(site: Site, claim: string)
    requires Usable(site, claim)
    ensures forall s :: s in site.plan(claim) ==> InPlace(site, InModes(site, Reserved(site, claim)), s.device)
  {
    hide Sound, ReserveClaim;
    var l := Reserved(site, claim);
    ReservedIsSound(site, claim);
    forall s | s in site.plan(claim)
      ensures InPlace(site, InModes(site, l), s.device)
    {
      HeldShareMatches(l, site.cat, site.plan, claim, s);
    }
  }

  /** Such a world is durable, and the ledger of its one claim is in step with it. */
  lemma InUseWorldIsDurable(site: Site, claim: string)
    requires Usable(site, claim)
    ensures Durable(site, InUseWorld(site, claim))
    ensures InStep(site, Reserved(site, claim), None, InUseWorld(site, claim))
    ensures IsPrepared(InUseWorld(site, claim).disk.prepared, claim)
    ensures Protected(site, InUseWorld(site, claim).published, Reserved(site, claim).memoryMode)
  {
    hide Sound, SharesOf, PlanOk, ReserveClaim, Lists, SlotsMatch, InPlace, Legacy, DevicesOf, InModes, RecordsOk;
    hide Covered, OnDrivers, Protected;
    var l := Reserved(site, claim);
    ReservedIsSound(site, claim);
    DevicesAreSound(site, claim);
    SharesAreInPlace(site, claim);
    PublishedReserved(site, l);
    assert |DevicesOf(site, claim, l.slots)| == |site.plan(claim)| by {
      SameCount(site, claim, l.slots);
    }
    NothingRecorded(site);
  }

  lemma NothingRecorded(site: Site)
    ensures RecordsOk(site, map[]) && Covered(site, map[], OnDrivers(site))
    ensures forall n :: n in site.fleet ==> OnAmdgpu(site, OnDrivers(site), n)
  {
  }

  lemma PublishedReserved(site: Site, l: Ledger)
    requires Sound(l, site.cat, site.plan) && l.memoryMode != ""
    ensures Protected(site, l.taints, l.memoryMode)
  {
    PublishedTaints(l, site);
  }

  lemma SameCount(site: Site, claim: string, slots: Slots)
    ensures |DevicesOf(site, claim, slots)| == |site.plan(claim)|
  {
  }

  // ---------- a mode that cannot be read ----------

  /** One mode that cannot be read is enough: the next hardware phase for a claim of the active mode
      may go on to reload the driver under a claim that is in use, and leave its GPU in no compute
      mode at all. */
  lemma MisreadDisturbs(site: Site, start: World, claim: string, s: Share) returns (h: seq<Event>)
    requires SiteOk(site) && Durable(site, start) && start.sane && !start.reloading && !start.misread
    requires claim in start.inUse && claim !in start.spoiled && s in site.plan(claim)
    requires site.cat.parse(s.device).Some? && Protected(site, start.published, site.cat.parse(s.device).value.memory)
    ensures Run(site, start, h) && |h| == 3 && h[1].step == Misread && h[2].step.Reload?
    ensures Begins(start) && InUseThroughout(start, h, claim, 0, 3) && !UnsoundStart(site, start, h, 3)
    ensures Spares(site, claim, h[0].step) && Spares(site, claim, h[1].step) && !Spares(site, claim, h[2].step)
    ensures InPlace(site, start.hw, s.device) && !InPlace(site, h[2].world.hw, s.device)
  {
    hide Durable, Protected, Converged, PlanOk, OrderOk;
    var mode := site.cat.parse(s.device).value.memory;
    var blind := start.(misread := true);
    var after := blind.(hw := start.hw.(compute := map[]), reloading := true, spoiled := start.spoiled + start.inUse);
    h := [Event(Apply(s.device), start), Event(Misread, blind), Event(Reload(mode), after)];
    InUseIsInPlace(site, start, claim);
    DurableApart(site, start, blind);
    DurableApart(site, blind, after);
    assert ReloadEffect(blind.hw, after.hw);
    assert Run(site, start, h[..1]);
    RunOfTwo(site, start, h);
  }

  lemma RunOfTwo(site: Site, start: World, h: seq<Event>)
    requires |h| == 3 && Durable(site, start) && Durable(site, h[0].world) && Durable(site, h[1].world)
    requires Durable(site, h[2].world) && StepOk(site, start, h[0].step, h[0].world)
    requires StepOk(site, h[0].world, h[1].step, h[1].world) && StepOk(site, h[1].world, h[2].step, h[2].world)
    ensures Run(site, start, h)
  {
    hide Durable, StepOk;
  }

  // ---------- a failed Unprepare ----------

  /** The claim of the world above, once its Unprepare failed after releasing it. */
  function LostWorld(site: Site, claim: string): World {
    InUseWorld(site, claim).(inUse := {}, lost := {claim}, silent := true)
  }

  lemma LostWorldIsDurable(site: Site, claim: string)
    requires Usable(site, claim)
    ensures Durable(site, LostWorld(site, claim)) && InStep(site, EMPTY_LEDGER, None, LostWorld(site, claim))
    ensures NoneReleased(site, LostWorld(site, claim).disk.prepared, {claim}, EMPTY_LEDGER)
  {
    hide LedgerDurable, Usable, Reserved, SharesOf, PlanOk, Lists, SlotsMatch;
    InUseWorldIsDurable(site, claim);
    var w := InUseWorld(site, claim);
    DurableGiven(site, w, w.(inUse := {}));
    DurableLost(site, w.(inUse := {}), LostWorld(site, claim));
    DrainedIsEmpty(EMPTY_LEDGER, site.cat, site.plan);
  }

  /** The same, once some other claim saved an empty ledger beside it. */
  function EmptiedWorld(site: Site, claim: string): World {
    var w := LostWorld(site, claim);
    w.(disk := Checkpoint(w.disk.prepared, Fields(EMPTY_LEDGER, None), map[]), saved := EMPTY_LEDGER)
  }

  /** Unprepare fails after it released the claim, another claim saves, the plugin starts again. */
  ghost function FailedRun(site: Site, claim: string): seq<Event>
    requires OrderOk(site.cat)
  {
    [Event(Give(claim), InUseWorld(site, claim).(inUse := {})),
     Event(Fail(claim), LostWorld(site, claim)),
     Event(Save(true), EmptiedWorld(site, claim)),
     Event(Restart, AfterRestart(site, EmptiedWorld(site, claim)))]
  }

  /** A run that ends with a checkpoint that is not recovered soundly: the plugin goes on with a
      ledger that is not sane. */
  lemma FailedUnprepareIsNotRecovered(site: Site, claim: string)
    requires Usable(site, claim)
    ensures OrderOk(site.cat) && Run(site, InUseWorld(site, claim), FailedRun(site, claim))
    ensures var h := FailedRun(site, claim);
            h[2].world.sane && !Recoverable(site, h[2].world) && !h[3].world.sane
  {
    hide Durable, Usable, StepOk, Recoverable, InUseWorld, LostWorld, EmptiedWorld, AfterRestart, OrderOk, SiteOk;
    UsableInOrder(site, claim);
    var start, emptied, h := InUseWorld(site, claim), EmptiedWorld(site, claim), FailedRun(site, claim);
    InUseWorldIsDurable(site, claim);
    GivenIsDurable(site, claim);
    LostWorldIsDurable(site, claim);
    EmptiedIsDurable(site, claim);
    EmptiedIsNotRecoverable(site, claim);
    SaneAfterRestart(site, emptied);
    DurableRestarted(site, emptied);
    StepsOfFailure(site, claim);
    RunOfTwo(site, start, h[..3]);
    RunGrows(site, start, h[..3], h[3]);
    assert h == h[..3] + [h[3]];
  }

  lemma UsableInOrder(site: Site, claim: string)
    requires Usable(site, claim)
    ensures SiteOk(site) && OrderOk(site.cat)
  {
  }

  lemma GivenIsDurable(site: Site, claim: string)
    requires Usable(site, claim)
    ensures Durable(site, InUseWorld(site, claim).(inUse := {}))
  {
    hide Durable, Usable, InUseWorld;
    InUseWorldIsDurable(site, claim);
    DurableGiven(site, InUseWorld(site, claim), InUseWorld(site, claim).(inUse := {}));
  }

  lemma StepsOfFailure(site: Site, claim: string)
    requires OrderOk(site.cat)
    ensures var v := InUseWorld(site, claim);
            && StepOk(site, v, Give(claim), v.(inUse := {}))
            && StepOk(site, v.(inUse := {}), Fail(claim), LostWorld(site, claim))
    ensures var w := EmptiedWorld(site, claim);
            StepOk(site, LostWorld(site, claim), Save(true), w) && StepOk(site, w, Restart, AfterRestart(site, w))
  {
    hide AfterRestart, OrderOk, Reserved, DevicesOf, InModes, OnDrivers;
  }

  lemma EmptiedIsDurable(site: Site, claim: string)
    requires Usable(site, claim)
    ensures Durable(site, EmptiedWorld(site, claim))
  {
    hide Usable, LedgerDurable, Lists, SharesOf, PlanOk, NoneReleased, SlotsKept, InModes, DevicesOf;
    var w := LostWorld(site, claim);
    UsableInOrder(site, claim);
    LostWorldIsDurable(site, claim);
    LostLists(site, w);
    SnapshotIsDurable(site, w, EMPTY_LEDGER, None, w.disk.prepared, map[]);
  }

  lemma LostLists(site: Site, w: World)
    requires Durable(site, w) && w.sane
    ensures forall c :: IsPrepared(w.disk.prepared, c) ==> Lists(site, c, w.disk.prepared[c])
    ensures RecordsOk(site, w.disk.vfio) && Covered(site, w.disk.vfio, w.drivers)
    ensures SlotsKept(site, w.disk.prepared, EMPTY_LEDGER)
  {
  }

  lemma EmptiedIsNotRecoverable(site: Site, claim: string)
    requires Usable(site, claim)
    ensures EmptiedWorld(site, claim).sane && !Recoverable(site, EmptiedWorld(site, claim))
  {
    hide ReserveClaim, SlotOf;
    var w := EmptiedWorld(site, claim);
    var devices := w.disk.prepared[claim];
    var s := site.plan(claim)[0];
    KeyedParses(site, claim, 0);
    assert devices[0].device == s.device && devices[0].key == s.key;
    assert s in site.plan(claim);
    assert HasPartition(site.cat, w.disk.prepared[claim]);
  }

  /** The state in which the plugin is then: the claim is on disk as prepared but not reserved, and
      the slice that was published last is the one from before its release. */
  method LostState(site: Site, uid: string, discovered: Allocatable, nodeName: string) returns (s: DeviceState)
    requires Usable(site, uid) && FreshlyListed(site, discovered, OnDrivers(site))
    ensures fresh(s) && fresh(s.ps) && fresh(s.vfio) && fresh(s.node) && fresh(s.node.faults)
    ensures s.Valid() && s.node.sane && s.site == site && s.ps.View() == EMPTY_LEDGER
    ensures IsPrepared(s.node.disk.prepared, uid) && site.plan(uid) != []
    ensures Protected(site, s.node.published, Reserved(site, uid).memoryMode)
  {
    hide Run, SiteOk, Durable, InStep, LedgerOk, FreshlyListed, Usable, LostWorld, NoneReleased, Reserved;
    hide OnDrivers, Protected;
    var w := LostWorld(site, uid);
    LostWorldIsDurable(site, uid);
    LostWorldIs(site, uid);
    UnreadableIsOkIff(site, discovered, OnDrivers(site));
    var node := new Node(site, w);
    var ps := new PartitionState(site, false, false);
    var vfio := new VfioLedger(site, false, discovered);
    s := new DeviceState(node, ps, vfio, nodeName, false);
  }

  /** A state the plugin may be in between two calls, in which a claim is on disk as prepared but is
      not reserved. Prepare grants such a claim its devices again, without a reservation. */
  method GrantedWithoutReservation(site: Site, claim: ResourceClaim, discovered: Allocatable, nodeName: string)
    returns (s: DeviceState, r: Answer)
    requires Usable(site, claim.uid) && FreshlyListed(site, discovered, OnDrivers(site))
    ensures s.Valid() && claim.uid !in s.ps.reservedClaims && IsPrepared(s.node.disk.prepared, claim.uid)
    ensures s.node.sane && site.plan(claim.uid) != [] && (r.Refused? || r.Granted?)
  {
    hide Run, SiteOk, InStep, LedgerOk, FreshlyListed, Usable, NoneReleased, Reserved, OnDrivers, Protected;
    s := LostState(site, claim.uid, discovered, nodeName);
    r := s.Prepare(claim);
  }

  /** The retry of an Unprepare that failed after its release finds nothing to release and publishes
      nothing. Even if it succeeds, so that nothing is reserved or prepared any more, the slice that
      was published last goes on tainting every device of another memory mode. */
  method TaintsOutliveTheRetry(site: Site, uid: string, discovered: Allocatable, nodeName: string)
    returns (s: DeviceState, ok: bool, mode: string)
    requires Usable(site, uid) && FreshlyListed(site, discovered, OnDrivers(site))
    ensures s.Valid() && s.node.sane && s.ps.View() == EMPTY_LEDGER
    ensures ok ==> uid !in s.node.disk.prepared
    ensures mode != "" && s.node.published == Stamped(site.cat.synth, mode)
  {
    hide Run, SiteOk, InStep, LedgerOk, FreshlyListed, Usable, NoneReleased, Reserved, OnDrivers;
    s := LostState(site, uid, discovered, nodeName);
    mode := Reserved(site, uid).memoryMode;
    ok := s.Unprepare(uid);
    NothingToRelease(site.cat, uid, site.plan(uid));
  }

  lemma NothingToRelease(cat: Catalog, claim: string, shares: seq<Share>)
    ensures ReleaseClaim(EMPTY_LEDGER, cat, claim, shares).ledger == EMPTY_LEDGER
  {
  }

  lemma LostWorldIs(site: Site, claim: string)
    requires Usable(site, claim)
    ensures var w := LostWorld(site, claim);
            && SiteOk(site) && site.plan(claim) != [] && w.silent
            && Protected(site, w.published, Reserved(site, claim).memoryMode)
            && IsPrepared(w.disk.prepared, claim) && w.sane && w.lost == {claim} && w.disk.vfio == map[]
            && w.drivers == OnDrivers(site) && forall n :: n in site.fleet ==> OnAmdgpu(site, OnDrivers(site), n)
  {
    hide Durable, InStep, Protected, SiteOk, OnDrivers, OnAmdgpu;
    InUseWorldIsDurable(site, claim);
    NothingRecorded(site);
  }

  // ---------- a marker without its claim ----------

  /** A claim that waits for a reload to its mode. */
  function WaitingWorld(site: Site, claim: string): World {
    var l := Reserved(site, claim);
    World(Checkpoint(map[], Fields(l, Some(l.memoryMode)), map[]), l,
          Hardware(map[], map[], map[]), OnDrivers(site), l.taints, {}, true, false, {}, {}, true, false)
  }

  /** Unpreparing the claim empties the ledger and leaves the marker of its mode behind, in memory
      and, once it is saved, on disk. */
  lemma MarkerOutlivesItsClaim(site: Site, claim: string)
    requires Usable(site, claim)
    ensures var l, w := Reserved(site, claim), WaitingWorld(site, claim);
            var marker := Some(l.memoryMode);
            && Durable(site, w) && InStep(site, l, marker, w) && Matched(l, marker)
            && ReleaseClaim(l, site.cat, claim, site.plan(claim)).ledger == EMPTY_LEDGER
            && InStep(site, EMPTY_LEDGER, marker, w) && Matched(EMPTY_LEDGER, marker)
            && marker.value != EMPTY_LEDGER.memoryMode
            && Durable(site, w.(disk := Checkpoint(map[], Fields(EMPTY_LEDGER, marker), map[]), saved := EMPTY_LEDGER))
  {
    hide Durable, InStep, Usable, ReserveClaim, ReleaseClaim, SharesOf, PlanOk, Reserved, Matched, Sound, WaitingWorld;
    var l, w := Reserved(site, claim), WaitingWorld(site, claim);
    UsableInOrder(site, claim);
    ReservedIsSound(site, claim);
    WaitingIsDurable(site, claim);
    PlannedShares(site, claim);
    ReleaseClaimIsSound(l, site.cat, site.plan, claim, site.plan(claim));
    DrainedIsEmpty(ReleaseClaim(l, site.cat, claim, site.plan(claim)).ledger, site.cat, site.plan);
    ReleasedInStep(site, l, Some(l.memoryMode), w, claim, site.plan(claim));
    SnapshotIsDurable(site, w, EMPTY_LEDGER, Some(l.memoryMode), map[], map[]);
  }

  lemma WaitingIsDurable(site: Site, claim: string)
    requires Usable(site, claim)
    ensures var l, w := Reserved(site, claim), WaitingWorld(site, claim);
            && Durable(site, w) && InStep(site, l, Some(l.memoryMode), w) && Matched(l, Some(l.memoryMode))
            && w.sane && w.inUse == {} && w.disk.prepared == map[] && w.lost == {}
            && RecordsOk(site, map[]) && Covered(site, map[], w.drivers)
            && SlotsKept(site, map[], EMPTY_LEDGER) && NoneReleased(site, map[], {}, EMPTY_LEDGER)
  {
    hide Sound, Usable, ReserveClaim, SharesOf, PlanOk, Legacy, Reserved, RecordsOk, Covered, OnDrivers, Protected;
    UsableInOrder(site, claim);
    ReservedIsSound(site, claim);
    PublishedReserved(site, Reserved(site, claim));
    NothingRecorded(site);
  }

  /** With such a marker, every claim for partitions of another mode is turned away, and the marker
      stays: its deadline is not even looked at. */
  method OtherModesAreTurnedAway(s: DeviceState, claim: ResourceClaim) returns (r: Answer)
    requires s.Valid() && s.node.sane && s.ps.memoryReload.Some?
    requires !IsPrepared(s.node.disk.prepared, claim.uid) && AsPlanned(s.site, s.nodeName, claim)
    requires exists t :: t in s.site.plan(claim.uid) && !OfMode(s.site, [t], s.ps.memoryReload.value)
    modifies s.ps, s.vfio, s.node, s.node.faults
    ensures s.Valid() && s.node.sane && !r.Granted? && !r.Deferred? && s.ps.memoryReload == old(s.ps.memoryReload)
    ensures s.ps.View() == old(s.ps.View())
            || s.ps.View() == ReleaseClaim(old(s.ps.View()), s.site.cat, claim.uid, s.site.plan(claim.uid)).ledger
  {
    hide Run, SiteOk, InStep, LedgerOk, NoneReleased, AsPlanned, ReserveClaim, ReleaseClaim;
    r := s.Prepare(claim);
  }

  // ---------- a site ----------

  const DEVICE := "gpu-0-spx-nps1"
  const RESULTS := [Naming.Result(DRIVER_NAME, "node", DEVICE, "gpus", None)]

  ghost function Listing(s: set<string>): (r: seq<string>)
    ensures (forall c :: c in r <==> c in s) && forall i, j :: 0 <= i < j < |r| ==> r[i] != r[j]
    decreases |s|
  {
    if s == {} then []
    else
      var c := Pick(s);
      Listing(s - {c}) + [c]
  }

  ghost function OneGpu(): Site {
    var cat := DriverCatalog(map[DEVICE := "nps1"], s => Listing(s));
    Site(cat, PlanOf(cat, "node", map["uid" := RESULTS], map[]), [0], map[])
  }

  /** A node with one GPU and one claim for it is a site of the driver, and the claim can be used. */
  lemma OneGpuIsUsable()
    ensures DriverSite(OneGpu().cat, "node", map["uid" := RESULTS], map[], [0], map[])
    ensures Usable(OneGpu(), "uid")
  {
    hide DriverSite, SiteOk, ReserveClaim, ResultKey;
    var site := OneGpu();
    OneGpuIsSite();
    DriverSiteIsOk(site.cat, "node", map["uid" := RESULTS], map[], [0], map[]);
    OneShare(site.cat.synth, "uid", RESULTS[0]);
    assert RESULTS == [RESULTS[0]];
    KeyIsNotEmpty("uid", RESULTS[0]);
    SpxParses();
    ReservesOne(site.cat, "uid", site.plan("uid")[0]);
  }

  lemma OneGpuIsSite()
    ensures DriverSite(OneGpu().cat, "node", map["uid" := RESULTS], map[], [0], map[])
  {
    hide Parse, ResultKey;
    SpxParses();
    assert SlashFree("uid") && SlashFree("gpus");
    assert |RESULTS| == 1 && RESULTS[0].request == "gpus";
  }

  lemma ReservesOne(cat: Catalog, claim: string, share: Share)
    requires cat.parse(share.device).Some?
    ensures ReserveClaim(EMPTY_LEDGER, cat, claim, [share]).ok
  {
    assert ReserveUpTo(EMPTY_LEDGER, cat, [share], 0) == Outcome(true, EMPTY_LEDGER, false);
    assert Reserve(EMPTY_LEDGER, cat, share).ok;
  }

  lemma OneShare(synth: map<string, string>, claim: string, result: Naming.Result)
    requires IsShare(synth, "node", result)
    ensures SharesOfResults(synth, "node", claim, [result]) == [Share(result.device, ResultKey(claim, result))]
  {
    hide ResultKey, IsShare;
    assert [result][..0] == [];
    assert SharesOfResults(synth, "node", claim, []) == [];
  }
}
