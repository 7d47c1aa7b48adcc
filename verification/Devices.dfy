/**
 Preparing and unpreparing claims: the reservation ledger, the hardware, the conversions and the
 checkpoint, put together.
 */
module Devices {
  import opened Wrappers
  import opened Ledgers
  import opened Claims
  import opened Recovery
  import opened Naming
  import opened Worlds
  import opened Nodes
  import opened Partitions
  import opened Configs
  import opened Vfio
  import opened Preparing
  import opened Coherence
  import opened Runs

  /** How far the partition phases of Prepare got. */
  datatype Stage = Conflict | GaveUp | Reserved | Waiting

  /** How Prepare ended: devices granted, waiting for a reload, refused for want of a checkpoint, kept
      from starting by devices of an earlier attempt, in conflict with what is reserved, or aborted
      after the reservation. */
  datatype Answer = Granted(devices: seq<PreparedDevice>) | Deferred | Refused | Stranded | Conflicting | Aborted

  class DeviceState {
    const site: Site
    const node: Node
    const ps: PartitionState
    const vfio: VfioLedger
    const nodeName: string
    const passthrough: bool      // the VFIO passthrough feature

    /** What holds between two calls. Nothing here needs the reservation ledger to be sane; what is
        said of the ledger is said for the case that it is. */
    ghost predicate Valid()
      reads node, ps, vfio
    {
      Whole() && (node.sane ==> Announced(ps.View(), node.World()))
    }

    ghost predicate Whole()
      reads node, ps, vfio
    {
      Steady() && (node.sane ==> NoneReleased(site, node.disk.prepared, node.lost, ps.View()))
    }

    ghost predicate Steady()
      reads node, ps, vfio
    {
      && Linked() && ps.Tidy() && vfio.Valid(node)
      && Kept(vfio.conversions, node.disk.vfio)
      && InStep(site, ps.View(), ps.memoryReload, node.World())
      && (node.sane ==> Matched(ps.View(), ps.memoryReload))
    }

    /** What holds while a claim is unprepared that has been released already. */
    ghost predicate ValidBut(uid: string)
      reads node, ps, vfio
    {
      Steady() && (node.sane ==> NoneReleased(site, node.disk.prepared - {uid}, node.lost, ps.View()))
    }

    /** What is in memory is what the disk holds, beside the prepared claims. */
    ghost predicate MemoryOnDisk()
      reads node, ps, vfio
    {
      node.disk.fields == Fields(ps.View(), ps.memoryReload) && node.disk.vfio == vfio.conversions
    }

    ghost predicate Linked() {
      node.site == site && ps.site == site && vfio.site == site
    }

    /** Between any two calls, a reload marker names the active memory mode if and only if some share
        is held: releasing the last one leaves the marker behind. */
    lemma MarkerIsActiveIff()
      requires Valid() && node.sane && ps.memoryReload.Some?
      ensures ps.memoryReload.value == ps.activeMemoryMode <==> ps.assignedSlots != map[]
      ensures ps.activeMemoryMode == "" <==> ps.assignedSlots == map[]
    {
      hide Run, SiteOk, LedgerOk, SlotsKept, NoneReleased, Held;
      MatchedIsActiveIff(site, ps.View(), ps.memoryReload.value);
      NoneHeldIffEmpty(ps.assignedSlots);
    }

    /** Between any two calls, the slice that was published last shows exactly the ledger's taints,
        unless since then a slice could not be published, or an Unprepare failed after its release:
        its retry has nothing to release and publishes nothing. */
    lemma TaintsArePublished()
      requires Valid() && node.sane && !node.start.silent
      ensures node.published == ps.taints || SilencedBefore(node.history, |node.history|)
    {
      hide Durable, StepOk, SiteOk, LedgerOk, InStep, NoneReleased, SilencedBefore;
      SilentIff(site, node.start, node.history, |node.history|);
    }

    constructor (node: Node, ps: PartitionState, vfio: VfioLedger, nodeName: string, passthrough: bool)
      ensures this.node == node && this.ps == ps && this.vfio == vfio && this.site == node.site
      ensures this.nodeName == nodeName && this.passthrough == passthrough
    {
      this.site, this.node, this.ps, this.vfio := node.site, node, ps, vfio;
      this.nodeName, this.passthrough := nodeName, passthrough;
    }

    // ---------- choosing configs ----------

    /** Choose a config for every result of this driver. A GPU for which a VFIO config is chosen
        is recorded for the claim and listed as a VFIO device from here on; nothing is rebound. */
    method SelectConfigs(uid: string, results: seq<Result>, configs: seq<Config>) returns (ok: bool, chosen: Choice)
      requires Linked() && vfio.Valid(node) && forall n :: !Records(vfio.conversions, uid, n)
      modifies vfio
      ensures vfio.Valid(node)
      ensures SameOthers(old(vfio.conversions), vfio.conversions, uid)
      ensures Unmoved(site, vfio.conversions, node.drivers, uid)
      ensures AllTurned(vfio.conversions, uid, results, configs, chosen)
      ensures ok ==> |chosen| == |results|
                     && ChosenSoFar(old(vfio.allocatable), vfio.allocatable, results, configs, passthrough, chosen)
      ensures ok <==> AllKnown(results, old(vfio.allocatable))
    {
      hide LedgerOk, Run, Turned, OnAmdgpu, WellChosen, EntryAfter;
      ghost var start := vfio.allocatable;
      chosen := [];
      NoneChosen(start, results, configs, passthrough);
      while |chosen| < |results|
        invariant vfio.Valid(node) && SameOthers(old(vfio.conversions), vfio.conversions, uid)
        invariant Unmoved(site, vfio.conversions, node.drivers, uid)
        invariant AllTurned(vfio.conversions, uid, results, configs, chosen)
        invariant ChosenSoFar(start, vfio.allocatable, results, configs, passthrough, chosen)
        invariant AllKnown(results[..|chosen|], start) && start.Keys == vfio.allocatable.Keys
      {
        assert results[..|chosen| + 1] == results[..|chosen|] + [results[|chosen|]];
        var r := results[|chosen|];
        var choice: Option<nat> := None;
        if r.driver == DRIVER_NAME {
          if r.device !in vfio.allocatable {
            return false, chosen;
          }
          choice := SelectConfig(configs, Query(r.request, TargetOf(vfio.allocatable[r.device]), passthrough));
        }
        forall n {
          TurnedNext(results, configs, chosen, choice, n);
        }
        ghost var before := vfio.allocatable;
        if choice.Some? && configs[choice.value].parameters.kind == VfioKind && vfio.allocatable[r.device].GpuEntry? {
          ConvertForClaim(uid, r.device);
        }
        ChosenNext(start, before, vfio.allocatable, results, configs, passthrough, chosen, choice);
        chosen := chosen + [choice];
      }
      assert results[..|results|] == results;
      ok := true;
    }

    method ConvertForClaim(uid: string, device: string)
      requires Linked() && vfio.Valid(node) && device in vfio.allocatable && vfio.allocatable[device].GpuEntry?
      requires Unmoved(site, vfio.conversions, node.drivers, uid)
      modifies vfio
      ensures vfio.Valid(node) && Unmoved(site, vfio.conversions, node.drivers, uid)
      ensures vfio.allocatable == old(vfio.allocatable)[device := Converted(old(vfio.allocatable)[device].gpu)]
      ensures SameOthers(old(vfio.conversions), vfio.conversions, uid)
      ensures forall n :: Records(vfio.conversions, uid, n) <==> Records(old(vfio.conversions), uid, n) || n == device
    {
      hide LedgerOk, Run, With;
      ghost var before := vfio.conversions;
      ConvertedIsOk(site, vfio.allocatable, vfio.conversions, node.drivers, uid, device);
      vfio.Convert(node, uid, device);
      forall c, n
        ensures Records(vfio.conversions, c, n) <==> Records(before, c, n) || (c == uid && n == device)
      {
        RecordsWith(before, uid, device, site.fleet[device], c, n);
      }
    }

    // ---------- applying configs ----------

    /** Apply every chosen config to its results, in whatever order the configs come. The devices
        listed in `configured` may have left amdgpu; every other device of the claim has not. */
    method ApplyConfigs(uid: string, results: seq<Result>, configs: seq<Config>, chosen: Choice) returns (ok: bool,
                        configured: seq<string>)
      requires Linked() && vfio.Valid(node) && SiteOk(site) && Kept(vfio.conversions, node.disk.vfio)
      requires Unmoved(site, vfio.conversions, node.drivers, uid)
      requires |chosen| == |results| && forall i :: 0 <= i < |chosen| && chosen[i].Some? ==> chosen[i].value < |configs|
      modifies node`drivers, node`history, node.faults
      ensures vfio.Valid(node) && old(node.history) <= node.history && old(node.faults.count) <= node.faults.count
      ensures node.World() == old(node.World()).(drivers := node.drivers)
      ensures RestOnAmdgpu(site, vfio.conversions, node.drivers, uid, configured)
      ensures ok ==> AllFit(configs, chosen, vfio.hasManager)
      ensures ok ==> Bound(results, configs, chosen, vfio.allocatable, node.drivers)
      ensures node.faults.count == old(node.faults.count)
              && VfioAreListed(vfio.allocatable, results, configs, chosen) ==>
                (ok <==> AllFit(configs, chosen, vfio.hasManager))
    {
      hide LedgerOk, Run, SiteOk, OnAmdgpu, Kept, AllVfio, CanApply, AppliedBut, StaysBound, RestOnAmdgpu, Bound;
      hide AllFit, VfioAreListed;
      UnmovedAreRest(site, vfio.conversions, node.drivers, uid);
      NoneApplied(results, configs, chosen, vfio.allocatable, node.drivers, vfio.hasManager);
      configured := [];
      ok := false;
      var todo: set<nat> := set i | 0 <= i < |chosen| && chosen[i].Some? :: chosen[i].value;
      while todo != {}
        invariant vfio.Valid(node) && old(node.history) <= node.history && old(node.faults.count) <= node.faults.count
        invariant RestOnAmdgpu(site, vfio.conversions, node.drivers, uid, configured)
        invariant forall c :: c in todo ==> c < |configs| && Some(c) in chosen
        invariant AppliedBut(results, configs, chosen, vfio.allocatable, node.drivers, vfio.hasManager, todo)
        decreases |todo|
      {
        var c :| c in todo;
        VfioOfOne(vfio.allocatable, results, configs, chosen, c);
        NotAllFit(configs, chosen, c, vfio.hasManager);
        ghost var drivers := node.drivers;
        var applied;
        applied, configured := ApplyConfig(uid, results, configs, chosen, c, configured);
        if !applied {
          return;
        }
        AppliedOne(results, configs, chosen, vfio.allocatable, drivers, node.drivers, vfio.hasManager, todo, c);
        todo := todo - {c};
      }
      AllApplied(results, configs, chosen, vfio.allocatable, node.drivers, vfio.hasManager);
      ok := true;
    }

    /** Apply one config to the devices that chose it. */
    method ApplyConfig(uid: string, results: seq<Result>, configs: seq<Config>, chosen: Choice, c: nat,
                       before: seq<string>)
      returns (ok: bool, configured: seq<string>)
      requires Linked() && vfio.Valid(node) && SiteOk(site) && Kept(vfio.conversions, node.disk.vfio)
      requires |chosen| == |results| && RestOnAmdgpu(site, vfio.conversions, node.drivers, uid, before) && c < |configs|
      modifies node`drivers, node`history, node.faults
      ensures vfio.Valid(node) && old(node.history) <= node.history && old(node.faults.count) <= node.faults.count
      ensures node.World() == old(node.World()).(drivers := node.drivers)
      ensures RestOnAmdgpu(site, vfio.conversions, node.drivers, uid, configured)
      ensures ok && Some(c) in chosen ==> CanApply(configs[c].parameters, vfio.hasManager)
      ensures node.faults.count == old(node.faults.count) && CanApply(configs[c].parameters, vfio.hasManager) ==>
                ok || (configs[c].parameters.kind.VfioKind? && !AllVfio(vfio.allocatable, results, chosen, c))
      ensures ok ==> StaysBound(old(node.drivers), node.drivers)
      ensures ok && configs[c].parameters.kind.GpuKind? ==> Worked(old(node.history), node.history, FindNodes(uid))
      ensures ok && configs[c].parameters.kind.VfioKind? ==>
                BoundSoFar(vfio.allocatable, node.drivers, results, chosen, c, |results|, vfio.hasManager)
    {
      hide LedgerOk, Run, SiteOk, OnAmdgpu, Kept, RestOnAmdgpu, StaysBound, AllVfio, Worked;
      ok, configured := false, before;
      StaysBoundItself(node.drivers);
      match configs[c].parameters.kind {
        case OtherKind =>
        case GpuKind =>
          if configs[c].parameters.valid {
            ok := node.Do(FindNodes(uid));
          }
        case VfioKind =>
          if configs[c].parameters.valid {
            ok, configured := ApplyVfioConfig(uid, results, chosen, c, before);
          }
      }
    }

    /** Bind the devices of one VFIO config. A device is listed before it is touched. */
    method ApplyVfioConfig(uid: string, results: seq<Result>, chosen: Choice, c: nat, before: seq<string>)
      returns (ok: bool, configured: seq<string>)
      requires Linked() && vfio.Valid(node) && SiteOk(site) && Kept(vfio.conversions, node.disk.vfio)
      requires |chosen| == |results| && RestOnAmdgpu(site, vfio.conversions, node.drivers, uid, before)
      modifies node`drivers, node`history, node.faults
      ensures vfio.Valid(node) && old(node.history) <= node.history && old(node.faults.count) <= node.faults.count
      ensures node.World() == old(node.World()).(drivers := node.drivers)
      ensures RestOnAmdgpu(site, vfio.conversions, node.drivers, uid, configured)
      ensures ok ==> BoundSoFar(vfio.allocatable, node.drivers, results, chosen, c, |results|, vfio.hasManager)
      ensures ok ==> StaysBound(old(node.drivers), node.drivers)
      ensures node.faults.count == old(node.faults.count) && vfio.hasManager
              && AllVfio(vfio.allocatable, results, chosen, c) ==>
                ok
    {
      hide LedgerOk, Run, SiteOk, OnAmdgpu, BoundSoFar, StaysBound, RestOnAmdgpu, IsBound, AllVfio;
      StaysBoundItself(node.drivers);
      NoneBound(vfio.allocatable, node.drivers, results, chosen, c, vfio.hasManager);
      configured := before;
      var i := 0;
      while i < |results|
        invariant 0 <= i <= |results| && vfio.Valid(node) && old(node.history) <= node.history
        invariant old(node.faults.count) <= node.faults.count
        invariant BoundSoFar(vfio.allocatable, node.drivers, results, chosen, c, i, vfio.hasManager)
        invariant StaysBound(old(node.drivers), node.drivers)
        invariant RestOnAmdgpu(site, vfio.conversions, node.drivers, uid, configured)
      {
        ghost var drivers := node.drivers;
        ok, configured := BindResult(uid, results, chosen, c, i, configured);
        if !ok {
          return;
        }
        StaysBoundStill(old(node.drivers), drivers, node.drivers);
        i := i + 1;
      }
      ok := true;
    }

    /** Bind the device of the i-th result if it chose this config. */
    method BindResult(uid: string, results: seq<Result>, chosen: Choice, c: nat, i: nat, before: seq<string>)
      returns (ok: bool, configured: seq<string>)
      requires Linked() && vfio.Valid(node) && SiteOk(site) && Kept(vfio.conversions, node.disk.vfio)
      requires i < |chosen| == |results| && RestOnAmdgpu(site, vfio.conversions, node.drivers, uid, before)
      requires BoundSoFar(vfio.allocatable, node.drivers, results, chosen, c, i, vfio.hasManager)
      modifies node`drivers, node`history, node.faults
      ensures vfio.Valid(node) && old(node.history) <= node.history && old(node.faults.count) <= node.faults.count
      ensures node.World() == old(node.World()).(drivers := node.drivers)
      ensures RestOnAmdgpu(site, vfio.conversions, node.drivers, uid, configured)
      ensures ok ==> && BoundSoFar(vfio.allocatable, node.drivers, results, chosen, c, i + 1, vfio.hasManager)
                     && StaysBound(old(node.drivers), node.drivers)
      ensures node.faults.count == old(node.faults.count) && vfio.hasManager
              && AllVfio(vfio.allocatable, results, chosen, c) ==>
                ok
    {
      hide LedgerOk, Run, SiteOk, OnAmdgpu, BoundSoFar, StaysBound, RestOnAmdgpu, IsBound;
      ok, configured := true, before;
      StaysBoundItself(node.drivers);
      if chosen[i] == Some(c) {
        RestBesides(site, vfio.conversions, node.drivers, uid, configured, results[i].device);
        configured := configured + [results[i].device];
        ok := BindDevice(uid, results[i].device, configured);
      }
      if ok {
        OneMoreBound(vfio.allocatable, old(node.drivers), node.drivers, results, chosen, c, i, vfio.hasManager);
      }
    }

    method BindDevice(uid: string, name: string, configured: seq<string>) returns (ok: bool)
      requires Linked() && vfio.Valid(node) && SiteOk(site) && Kept(vfio.conversions, node.disk.vfio)
      requires RestOnAmdgpu(site, vfio.conversions, node.drivers, uid, configured) && name in configured
      modifies node`drivers, node`history, node.faults
      ensures vfio.Valid(node) && old(node.history) <= node.history && old(node.faults.count) <= node.faults.count
      ensures node.World() == old(node.World()).(drivers := node.drivers)
      ensures RestOnAmdgpu(site, vfio.conversions, node.drivers, uid, configured)
      ensures ok ==> IsBound(vfio.allocatable, node.drivers, name) && StaysBound(old(node.drivers), node.drivers)
      ensures ok ==> vfio.hasManager && Worked(old(node.history), node.history, Describe(name))
      ensures node.faults.count == old(node.faults.count) && name in vfio.allocatable ==>
                (vfio.allocatable[name].VfioEntry? ==> (ok <==> vfio.hasManager))
    {
      hide LedgerOk, Run, SiteOk, OnAmdgpu, Worked, IsBound, StaysBound, RestOnAmdgpu;
      if name !in vfio.allocatable || !vfio.allocatable[name].VfioEntry? {
        return false;
      }
      ok := BindEntry(uid, name, configured);
    }

    method BindEntry(uid: string, name: string, configured: seq<string>) returns (ok: bool)
      requires Linked() && vfio.Valid(node) && SiteOk(site) && Kept(vfio.conversions, node.disk.vfio)
      requires RestOnAmdgpu(site, vfio.conversions, node.drivers, uid, configured) && name in configured
      requires name in vfio.allocatable && vfio.allocatable[name].VfioEntry?
      modifies node`drivers, node`history, node.faults
      ensures vfio.Valid(node) && old(node.history) <= node.history && old(node.faults.count) <= node.faults.count
      ensures node.World() == old(node.World()).(drivers := node.drivers)
      ensures RestOnAmdgpu(site, vfio.conversions, node.drivers, uid, configured)
      ensures ok ==> IsBound(vfio.allocatable, node.drivers, name) && StaysBound(old(node.drivers), node.drivers)
      ensures ok ==> vfio.hasManager && Worked(old(node.history), node.history, Describe(name))
      ensures node.faults.count == old(node.faults.count) ==> (ok <==> vfio.hasManager)
    {
      hide LedgerOk, Run, SiteOk, OnAmdgpu, Worked, IsBound, StaysBound, RestOnAmdgpu, OthersStay, Elsewhere;
      ghost var drivers := node.drivers;
      ok := vfio.ConfigureDevice(node, name);
      RestStay(site, vfio.conversions, drivers, node.drivers, uid, configured, name);
      if ok {
        BoundNow(vfio.allocatable, drivers, node.drivers, name);
        ghost var since := node.history;
        ok := node.Do(Describe(name));
        if ok {
          WorkedWithin(old(node.history), since, node.history, node.history, Describe(name));
        }
      }
    }

    /** The devices to hand out: the results of one config after the other, the configs in
        whatever order they come this time. */
    method BuildPrepared(uid: string, results: seq<Result>, chosen: Choice) returns (prepared: seq<PreparedDevice>,
                         ghost at: seq<nat>)
      requires |chosen| == |results|
      ensures Prepares(ps.site, ps.assignedSlots, uid, results, chosen, prepared, at)
    {
      prepared, at := [], [];
      var todo: set<nat> := set i | 0 <= i < |chosen| && chosen[i].Some? :: chosen[i].value;
      while todo != {}
        invariant Handed(ps.site, ps.assignedSlots, uid, results, chosen, prepared, at)
        invariant forall i :: 0 <= i < |results| && chosen[i].Some? && chosen[i].value !in todo ==> i in at
        invariant forall i :: i in at ==> chosen[i].value !in todo
        decreases |todo|
      {
        ghost var some: nat := Pick(todo);
        assert some in todo;
        var c :| c in todo;
        todo := todo - {c};
        prepared, at := BuildGroup(uid, results, chosen, c, prepared, at);
      }
    }

    method BuildGroup(uid: string, results: seq<Result>, chosen: Choice, c: nat, before: seq<PreparedDevice>,
                      ghost from: seq<nat>)
      returns (prepared: seq<PreparedDevice>, ghost at: seq<nat>)
      requires |chosen| == |results| && Handed(ps.site, ps.assignedSlots, uid, results, chosen, before, from)
      requires forall i :: i in from ==> chosen[i] != Some(c)
      ensures Handed(ps.site, ps.assignedSlots, uid, results, chosen, prepared, at)
      ensures forall i :: i in at <==> i in from || (0 <= i < |results| && chosen[i] == Some(c))
    {
      hide DeviceFor;
      prepared, at := before, from;
      var i := 0;
      while i < |results|
        invariant 0 <= i <= |results| && Handed(ps.site, ps.assignedSlots, uid, results, chosen, prepared, at)
        invariant forall j :: j in at <==> j in from || (0 <= j < i && chosen[j] == Some(c))
      {
        if chosen[i] == Some(c) {
          prepared, at := prepared + [PreparedDeviceFor(uid, results[i])], at + [i];
        }
        i := i + 1;
      }
    }

    function PreparedDeviceFor(uid: string, r: Result): PreparedDevice
      reads ps
    {
      DeviceFor(ps.site, ps.assignedSlots, uid, r)
    }

    // ---------- all devices of a claim ----------

    /** Choose configs, write down what is about to be converted, and only then touch hardware. */
    method TryPrepareDevices(claim: ResourceClaim, onDisk: Checkpoint)
      returns (r: Option<seq<PreparedDevice>>, cp: Checkpoint, configured: seq<string>, ghost chosen: Choice,
               ghost at: seq<nat>)
      requires Linked() && vfio.Valid(node) && SiteOk(site) && Kept(vfio.conversions, node.disk.vfio)
      requires onDisk == node.disk && !IsPrepared(onDisk.prepared, claim.uid)
      requires forall n :: !Records(vfio.conversions, claim.uid, n)
      modifies vfio, node`disk, node`saved, node`drivers, node`history, node.faults
      ensures vfio.Valid(node) && old(node.history) <= node.history && old(node.faults.count) <= node.faults.count
      ensures node.World()
              == old(node.World()).(disk := old(node.disk).(vfio := node.disk.vfio), drivers := node.drivers)
      ensures cp == onDisk.(vfio := cp.vfio)
      ensures RestOnAmdgpu(site, vfio.conversions, node.drivers, claim.uid, configured)
      ensures Saved(vfio.conversions, node.disk.vfio, claim.uid, configured)
      ensures SameOthers(old(vfio.conversions), vfio.conversions, claim.uid)
      ensures r.Some? ==> Kept(vfio.conversions, node.disk.vfio)
                          && PreparesClaim(claim, old(vfio.allocatable), r.value, chosen, at)
      ensures node.faults.count == old(node.faults.count) ==>
                && cp.vfio == node.disk.vfio
                && (r.Some? <==> Grantable(claim, old(vfio.allocatable), passthrough, vfio.hasManager))
    {
      hide LedgerOk, Run, SiteOk, OnAmdgpu, Turned, ChosenSoFar, Handed, Ours, WellFormed, Bound, Prepares;
      hide IsPrepared, Names, AllFit, VfioAreListed, AllKnown, Grantable, PreparesClaim, RestOnAmdgpu, Kept;
      NotGrantable(claim, vfio.allocatable, passthrough, vfio.hasManager);
      NothingSaved(site, vfio.conversions, node.disk.vfio, node.drivers, claim.uid);
      r, cp, configured, chosen, at := None, onDisk, [], [], [];
      if claim.allocation.Some? {
        var configs := GetOpaqueDeviceConfigs(DRIVER_NAME, claim.allocation.value.configs);
        if configs.Some? {
          r, cp, configured, chosen, at := PrepareUnder(claim, [DEFAULT_CONFIG] + configs.value, onDisk);
        }
      }
    }

    /** The same, with the configs that may govern the devices. */
    method PrepareUnder(claim: ResourceClaim, configs: seq<Config>, onDisk: Checkpoint)
      returns (r: Option<seq<PreparedDevice>>, cp: Checkpoint, configured: seq<string>, ghost chosen: Choice,
               ghost at: seq<nat>)
      requires Linked() && vfio.Valid(node) && SiteOk(site) && Kept(vfio.conversions, node.disk.vfio)
      requires onDisk == node.disk && !IsPrepared(onDisk.prepared, claim.uid)
      requires forall n :: !Records(vfio.conversions, claim.uid, n)
      requires claim.allocation.Some? && WellFormed(DRIVER_NAME, claim.allocation.value.configs)
      requires configs == ConfigsFor(claim.allocation.value.configs)
      modifies vfio, node`disk, node`saved, node`drivers, node`history, node.faults
      ensures vfio.Valid(node) && old(node.history) <= node.history && old(node.faults.count) <= node.faults.count
      ensures node.World()
              == old(node.World()).(disk := old(node.disk).(vfio := node.disk.vfio), drivers := node.drivers)
      ensures cp == onDisk.(vfio := cp.vfio)
      ensures RestOnAmdgpu(site, vfio.conversions, node.drivers, claim.uid, configured)
      ensures Saved(vfio.conversions, node.disk.vfio, claim.uid, configured)
      ensures SameOthers(old(vfio.conversions), vfio.conversions, claim.uid)
      ensures r.Some? ==> Kept(vfio.conversions, node.disk.vfio)
                          && PreparesClaim(claim, old(vfio.allocatable), r.value, chosen, at)
      ensures node.faults.count == old(node.faults.count) ==>
                && cp.vfio == node.disk.vfio
                && (r.Some? <==> Grantable(claim, old(vfio.allocatable), passthrough, vfio.hasManager))
    {
      hide LedgerOk, Run, SiteOk, OnAmdgpu, Turned, ChosenSoFar, Handed, WellFormed, Bound, Prepares, Unmoved, Kept;
      hide IsPrepared, Names, AllFit, AllKnown, Grantable, AllTurned, PreparesClaim, RestOnAmdgpu, Saved;
      hide SameOthers;
      ghost var start := vfio.allocatable;
      NotGrantable(claim, start, passthrough, vfio.hasManager);
      r, configured, at := None, [], [];
      var declared: bool;
      var choice: Choice;
      declared, choice, cp := DeclareConversions(claim.uid, claim.allocation.value.results, configs, onDisk);
      chosen := choice;
      UnmovedAreRest(site, vfio.conversions, node.drivers, claim.uid);
      if declared {
        r, configured, at := GrantChosen(claim, configs, start, choice);
        KeptIsSaved(vfio.conversions, node.disk.vfio, claim.uid, configured);
      }
    }

    /** Give the claim its devices once their configs are chosen and its conversions are written down. */
    method GrantChosen(claim: ResourceClaim, configs: seq<Config>, ghost start: Allocatable, chosen: Choice)
      returns (r: Option<seq<PreparedDevice>>, configured: seq<string>, ghost at: seq<nat>)
      requires Linked() && vfio.Valid(node) && SiteOk(site) && Kept(vfio.conversions, node.disk.vfio)
      requires claim.allocation.Some? && WellFormed(DRIVER_NAME, claim.allocation.value.configs)
      requires configs == ConfigsFor(claim.allocation.value.configs)
      requires Unmoved(site, vfio.conversions, node.drivers, claim.uid)
      requires |chosen| == |claim.allocation.value.results|
      requires ChosenSoFar(start, vfio.allocatable, claim.allocation.value.results, configs, passthrough, chosen)
      requires AllTurned(vfio.conversions, claim.uid, claim.allocation.value.results, configs, chosen)
      modifies node`drivers, node`history, node.faults
      ensures vfio.Valid(node) && old(node.history) <= node.history && old(node.faults.count) <= node.faults.count
      ensures node.World() == old(node.World()).(drivers := node.drivers)
      ensures RestOnAmdgpu(site, vfio.conversions, node.drivers, claim.uid, configured)
      ensures r.Some? ==> PreparesClaim(claim, start, r.value, chosen, at)
      ensures node.faults.count == old(node.faults.count) && AllKnown(claim.allocation.value.results, start) ==>
                (r.Some? <==> Grantable(claim, start, passthrough, vfio.hasManager))
    {
      hide LedgerOk, Run, SiteOk, OnAmdgpu, Turned, ChosenSoFar, Handed, Ours, WellFormed, Bound, Prepares, Unmoved;
      hide IsPrepared, Names, AllFit, VfioAreListed, AllKnown, Grantable, AllTurned, Kept, RestOnAmdgpu;
      ghost var results := claim.allocation.value.results;
      ChoicesAreInRange(start, vfio.allocatable, results, configs, passthrough, chosen);
      ChosenAreListed(start, vfio.allocatable, results, configs, passthrough, chosen);
      if AllKnown(results, start) {
        GrantableIff(claim, start, vfio.allocatable, passthrough, vfio.hasManager, chosen);
      }
      r, configured, at := ApplyAndBuild(claim.uid, claim.allocation.value.results, configs, chosen);
    }

    /** Apply the chosen configs, and list what is prepared if that succeeds. */
    method ApplyAndBuild(uid: string, results: seq<Naming.Result>, configs: seq<Config>, chosen: Choice)
      returns (r: Option<seq<PreparedDevice>>, configured: seq<string>, ghost at: seq<nat>)
      requires Linked() && vfio.Valid(node) && SiteOk(site) && Kept(vfio.conversions, node.disk.vfio)
      requires Unmoved(site, vfio.conversions, node.drivers, uid)
      requires |chosen| == |results| && forall i :: 0 <= i < |chosen| && chosen[i].Some? ==> chosen[i].value < |configs|
      requires AllTurned(vfio.conversions, uid, results, configs, chosen)
      modifies node`drivers, node`history, node.faults
      ensures vfio.Valid(node) && old(node.history) <= node.history && old(node.faults.count) <= node.faults.count
      ensures node.World() == old(node.World()).(drivers := node.drivers)
      ensures RestOnAmdgpu(site, vfio.conversions, node.drivers, uid, configured)
      ensures r.Some? ==>
                && Prepares(ps.site, ps.assignedSlots, uid, results, chosen, r.value, at)
                && Bound(results, configs, chosen, vfio.allocatable, node.drivers)
                && AllFit(configs, chosen, vfio.hasManager)
                && forall n :: Records(vfio.conversions, uid, n) ==> Names(r.value, n)
      ensures node.faults.count == old(node.faults.count)
              && VfioAreListed(vfio.allocatable, results, configs, chosen) ==>
                (r.Some? <==> AllFit(configs, chosen, vfio.hasManager))
    {
      hide LedgerOk, Run, SiteOk, OnAmdgpu, AllTurned, Bound, Prepares, Names, Kept, RestOnAmdgpu, AllFit;
      hide VfioAreListed;
      r, at := None, [];
      var applied;
      applied, configured := ApplyConfigs(uid, results, configs, chosen);
      if applied {
        var prepared;
        prepared, at := BuildPrepared(uid, results, chosen);
        RecordedArePrepared(site, ps.assignedSlots, uid, results, configs, chosen, prepared, at, vfio.conversions);
        r := Some(prepared);
      }
    }

    /** Choose the configs and write down every conversion they ask for. */
    method DeclareConversions(uid: string, results: seq<Naming.Result>, configs: seq<Config>, onDisk: Checkpoint)
      returns (ok: bool, chosen: Choice, cp: Checkpoint)
      requires Linked() && vfio.Valid(node) && Kept(vfio.conversions, node.disk.vfio)
      requires onDisk == node.disk && !IsPrepared(onDisk.prepared, uid)
      requires forall n :: !Records(vfio.conversions, uid, n)
      modifies vfio, node`disk, node`saved, node`history, node.faults
      ensures vfio.Valid(node) && old(node.history) <= node.history && old(node.faults.count) <= node.faults.count
      ensures node.World() == old(node.World()).(disk := old(node.disk).(vfio := node.disk.vfio))
      ensures cp == onDisk.(vfio := cp.vfio)
      ensures Unmoved(site, vfio.conversions, node.drivers, uid)
      ensures SameOthers(old(vfio.conversions), vfio.conversions, uid)
      ensures Saved(vfio.conversions, node.disk.vfio, uid, [])
      ensures ok ==> Kept(vfio.conversions, node.disk.vfio) && |chosen| == |results|
                     && ChosenSoFar(old(vfio.allocatable), vfio.allocatable, results, configs, passthrough, chosen)
                     && AllTurned(vfio.conversions, uid, results, configs, chosen)
      ensures node.faults.count == old(node.faults.count) ==>
                (ok <==> AllKnown(results, old(vfio.allocatable))) && cp.vfio == node.disk.vfio
    {
      hide LedgerOk, Run, SiteOk, OnAmdgpu, AllTurned, ChosenSoFar, Durable, Covered, RecordsOk, Owned, AllKnown;
      hide Kept, Saved, SameOthers;
      cp := onDisk;
      ok, chosen := SelectConfigs(uid, results, configs);
      OthersKept(old(vfio.conversions), vfio.conversions, node.disk.vfio, uid);
      if ok && uid in vfio.conversions && vfio.conversions[uid] != map[] {
        ok, cp := SaveIntent(uid, onDisk, old(vfio.conversions));
        KeptItself(vfio.conversions);
        KeptIsSaved(vfio.conversions, vfio.conversions, uid, []);
      }
    }

    /** Persist the conversions before the first device is rebound. */
    method SaveIntent(uid: string, onDisk: Checkpoint, ghost before: Conversions) returns (ok: bool, cp: Checkpoint)
      requires Linked() && vfio.Valid(node) && onDisk == node.disk && !IsPrepared(onDisk.prepared, uid)
      requires Kept(before, node.disk.vfio) && SameOthers(before, vfio.conversions, uid)
      modifies node`disk, node`saved, node`history, node.faults
      ensures vfio.Valid(node) && node.history == old(node.history) + [Event(Save(ok), node.World())]
      ensures old(node.history) <= node.history
      ensures old(node.faults.count) <= node.faults.count && (node.faults.count == old(node.faults.count) ==> ok)
      ensures cp == onDisk.(vfio := vfio.conversions)
      ensures node.World() == if ok then old(node.World()).(disk := cp) else old(node.World())
    {
      hide Run, Durable, Covered, RecordsOk, Listed;
      cp := onDisk.(vfio := vfio.conversions);
      node.CurrentIsDurable();
      DiskIsOk(site, node.World());
      OwnedApart(onDisk.prepared, onDisk.vfio, before, vfio.conversions, uid);
      RecordsAreDurable(site, node.World(), vfio.conversions);
      ok := node.WriteCheckpoint(cp, node.saved);
    }

    /** Every result has its config, every VFIO device is bound, and every result with a config is
        prepared exactly once. */
    ghost predicate PreparesClaim(claim: ResourceClaim, start: Allocatable, prepared: seq<PreparedDevice>,
                                  chosen: Choice, at: seq<nat>)
      reads ps, vfio, node
    {
      && claim.allocation.Some?
      && WellFormed(DRIVER_NAME, claim.allocation.value.configs)
      && |chosen| == |claim.allocation.value.results|
      && ChosenSoFar(start, vfio.allocatable, claim.allocation.value.results,
                     ConfigsFor(claim.allocation.value.configs), passthrough, chosen)
      && Prepares(ps.site, ps.assignedSlots, claim.uid, claim.allocation.value.results, chosen, prepared, at)
      && Bound(claim.allocation.value.results, ConfigsFor(claim.allocation.value.configs), chosen, vfio.allocatable,
               node.drivers)
      && AllFit(ConfigsFor(claim.allocation.value.configs), chosen, vfio.hasManager)
      && (forall n :: Records(vfio.conversions, claim.uid, n) ==> Names(prepared, n))
    }

    /** Prepare the devices of a claim, or leave none of them converted: on any failure the devices
        that were bound are returned, and only one that cannot be returned keeps its record. */
    method PrepareDevices(claim: ResourceClaim, onDisk: Checkpoint)
      returns (r: Option<seq<PreparedDevice>>, cp: Checkpoint, ghost chosen: Choice, ghost at: seq<nat>)
      requires Linked() && vfio.Valid(node) && SiteOk(site) && Kept(vfio.conversions, node.disk.vfio)
      requires onDisk == node.disk && !IsPrepared(onDisk.prepared, claim.uid)
      requires forall n :: !Records(vfio.conversions, claim.uid, n)
      modifies vfio, node`disk, node`saved, node`drivers, node`history, node.faults
      ensures vfio.Valid(node) && old(node.history) <= node.history && old(node.faults.count) <= node.faults.count
      ensures node.World()
              == old(node.World()).(disk := old(node.disk).(vfio := node.disk.vfio), drivers := node.drivers)
      ensures cp == onDisk.(vfio := cp.vfio)
      ensures Kept(vfio.conversions, node.disk.vfio)
      ensures SameOthers(old(vfio.conversions), vfio.conversions, claim.uid)
      ensures r.Some? ==> PreparesClaim(claim, old(vfio.allocatable), r.value, chosen, at)
      ensures node.faults.count == old(node.faults.count) ==>
                && cp.vfio == node.disk.vfio
                && (r.Some? <==> Grantable(claim, old(vfio.allocatable), passthrough, vfio.hasManager))
                && (r.None? && vfio.hasManager ==> forall n :: !Records(vfio.conversions, claim.uid, n))
    {
      hide LedgerOk, Run, SiteOk, OnAmdgpu, Turned, ChosenSoFar, Handed, Grantable;
      var configured: seq<string>;
      r, cp, configured, chosen, at := TryPrepareDevices(claim, onDisk);
      if r.None? {
        ghost var before := vfio.conversions;
        SavedIsOnDisk(before, node.disk.vfio, claim.uid, configured);
        var _ := vfio.ReleaseClaimVfio(node, claim.uid, configured);
        KeptAfterRelease(before, vfio.conversions, node.disk.vfio, claim.uid, configured);
      }
    }

    // ---------- reserving, publishing, applying ----------

    method PartitionSharesForClaim(uid: string, results: seq<Result>) returns (shares: seq<Share>)
      requires Linked() && vfio.Valid(node)
      ensures shares == SharesOfResults(site.cat.synth, nodeName, uid, results)
    {
      hide LedgerOk, Run, ResultKey;
      OnlySynthetic(site, vfio.allocatable, vfio.conversions, node.drivers);
      shares := [];
      var i := 0;
      while i < |results|
        invariant 0 <= i <= |results| && shares == SharesOfResults(site.cat.synth, nodeName, uid, results[..i])
      {
        var r := results[i];
        assert results[..i + 1] == results[..i] + [r];
        if r.driver == DRIVER_NAME && r.pool == nodeName {
          if r.device in vfio.allocatable && vfio.allocatable[r.device] == SyntheticEntry {
            shares := shares + [Share(r.device, ResultKey(uid, r))];
          }
        }
        i := i + 1;
      }
      assert results[..|results|] == results;
    }

    method SharesOfClaim(claim: ResourceClaim) returns (shares: seq<Share>)
      requires Valid() && AsPlanned(site, nodeName, claim)
      ensures shares == site.plan(claim.uid) && (claim.allocation.None? ==> shares == [])
    {
      hide Run, LedgerOk, SharesOfResults;
      shares := [];
      if claim.allocation.Some? {
        shares := PartitionSharesForClaim(claim.uid, claim.allocation.value.results);
      }
    }

    /** Publish the taints as they are in memory. */
    method Republish() returns (ok: bool)
      requires Linked() && node.Valid() && InStep(site, ps.View(), ps.memoryReload, node.World())
      modifies node`published, node`silent, node`history, node.faults
      ensures node.Valid() && node.history == old(node.history) + [Event(Publish(ok), node.World())]
      ensures old(node.history) <= node.history
      ensures old(node.faults.count) <= node.faults.count && (node.faults.count == old(node.faults.count) ==> ok)
      ensures node.World() == if ok then old(node.World()).(published := ps.taints, silent := false)
                              else old(node.World()).(silent := true)
      ensures InStep(site, ps.View(), ps.memoryReload, node.World())
    {
      hide Run, LedgerInStep;
      RepublishedInStep(site, ps.View(), ps.memoryReload, node.World());
      ok := node.Publish(ps.taints);
    }

    /** Release the claim's reservation, and publish if that emptied the node. */
    method RollBackPartitions(uid: string, shares: seq<Share>)
      requires Linked() && ps.Tidy() && node.Valid() && InStep(site, ps.View(), ps.memoryReload, node.World())
      requires uid !in node.inUse && shares == site.plan(uid)
      modifies ps, node`published, node`silent, node`history, node.faults
      ensures ps.Tidy() && node.Valid()
      ensures old(node.history) <= node.history && old(node.faults.count) <= node.faults.count
      ensures if ReleaseClaim(old(ps.View()), site.cat, uid, shares).taintsChanged
              then Published(old(node.history), node.history) else node.history == old(node.history)
      ensures ps.memoryReload == old(ps.memoryReload)
      ensures node.World() == old(node.World()).(published := node.published, silent := node.silent)
      ensures ps.View() == ReleaseClaim(old(ps.View()), site.cat, uid, shares).ledger
      ensures InStep(site, ps.View(), ps.memoryReload, node.World())
      ensures node.sane ==> uid !in ps.reservedClaims
      ensures node.sane && old(Matched(ps.View(), ps.memoryReload)) ==> Matched(ps.View(), ps.memoryReload)
      ensures old(Announced(ps.View(), node.World())) ==> Announced(ps.View(), node.World())
    {
      hide Run, InStep, PlanOk, SharesOf, Matched, ReleaseClaim;
      PlannedShares(site, uid);
      SilentRelease(ps.View(), site.cat, uid, shares);
      ReleasedInStep(site, ps.View(), ps.memoryReload, node.World(), uid, shares);
      var released, changed := ps.ReleaseClaim(uid, shares);
      if changed {
        var _ := Republish();
      }
    }

    /** Reserve the claim and publish its taints, or leave the ledger without it. */
    method ReserveAndPublish(uid: string, shares: seq<Share>) returns (r: Stage)
      requires Linked() && ps.Tidy() && node.Valid() && InStep(site, ps.View(), ps.memoryReload, node.World())
      requires !IsPrepared(node.disk.prepared, uid) && uid !in node.inUse && shares == site.plan(uid)
      modifies ps, node`published, node`silent, node`history, node.faults
      ensures ps.Tidy() && node.Valid() && old(node.history) <= node.history
      ensures old(node.faults.count) <= node.faults.count
      ensures ps.memoryReload == old(ps.memoryReload)
      ensures node.World() == old(node.World()).(published := node.published, silent := node.silent)
      ensures InStep(site, ps.View(), ps.memoryReload, node.World())
      ensures r == Conflict || r == GaveUp || r == Reserved
      ensures r == Conflict <==> !ReserveClaim(old(ps.View()), site.cat, uid, shares).ok
      ensures r == Conflict && node.sane ==> ps.View() == old(ps.View()) && uid !in ps.reservedClaims
      ensures r == Reserved ==>
                uid in ps.reservedClaims && ps.View() == ReserveClaim(old(ps.View()), site.cat, uid, shares).ledger
      ensures r == GaveUp && node.sane ==>
                && Withdrawn(old(ps.View()), ps.View(), uid)
                && (old(Matched(ps.View(), ps.memoryReload)) ==> Matched(ps.View(), ps.memoryReload))
      ensures node.sane && old(Announced(ps.View(), node.World())) ==> Announced(ps.View(), node.World())
      ensures node.faults.count == old(node.faults.count) ==> r != GaveUp
      ensures r == GaveUp ==>
                var reserved := ReserveClaim(old(ps.View()), site.cat, uid, shares).ledger;
                && |node.history|
                   == |old(node.history)|
                      + (if ReleaseClaim(reserved, site.cat, uid, shares).taintsChanged then 2 else 1)
                && node.history[|node.history| - 1].step.Publish?
    {
      hide Run, InStep, PlanOk, Sound, ReleaseClaim, ReserveClaim, Matched;
      ghost var before := ps.View();
      ReservedInStep(site, before, ps.memoryReload, node.World(), uid);
      ReservedIsClaimed(before, site.cat, uid, shares);
      var reserved, changed := ps.ReserveClaim(uid, shares);
      if !reserved {
        return Conflict;
      }
      if changed {
        ReservedUnpublished(site, before, ps.memoryReload, node.World(), uid);
        var published := node.Publish(ps.taints);
        if !published {
          SilentRelease(ps.View(), site.cat, uid, shares);
          var released, emptied := ps.ReleaseClaim(uid, shares);
          if emptied {
            var _ := Republish();
          }
          return GaveUp;
        }
      }
      return Reserved;
    }

    method UniqueShareDevices(shares: seq<Share>) returns (names: seq<string>)
      ensures forall d :: d in names <==> exists i :: 0 <= i < |shares| && shares[i].device == d
      ensures forall i, j :: 0 <= i < j < |names| ==> names[i] != names[j]
      ensures shares != [] ==> names != [] && names[0] == shares[0].device
    {
      names := [];
      var i := 0;
      while i < |shares|
        invariant 0 <= i <= |shares|
        invariant forall d :: d in names <==> exists j :: 0 <= j < i && shares[j].device == d
        invariant forall j, k :: 0 <= j < k < |names| ==> names[j] != names[k]
        invariant if i == 0 then names == [] else names != [] && names[0] == shares[0].device
      {
        if shares[i].device !in names {
          names := names + [shares[i].device];
        }
        i := i + 1;
      }
    }

    /** The hardware phase for every device of the claim. When it is done, the node is in the modes
        of all of them at once. */
    method ApplyAll(uid: string, shares: seq<Share>) returns (r: Applied)
      requires Linked() && node.Valid() && InStep(site, ps.View(), ps.memoryReload, node.World())
      requires shares == site.plan(uid) && uid in ps.reservedClaims
      modifies ps`memoryReload, node`hw, node`reloading, node`misread, node`spoiled, node`history, node.faults
      ensures node.Valid() && old(node.history) <= node.history && Wrote(old(node.World()), node.World())
      ensures old(node.faults.count) <= node.faults.count
      ensures InStep(site, ps.View(), ps.memoryReload, node.World())
      ensures r.Pending? ==> ps.memoryReload.Some? && (node.sane ==> Matched(ps.View(), ps.memoryReload))
      ensures r.Done? ==> ps.memoryReload == if shares != [] then None else old(ps.memoryReload)
      ensures r.Failed? ==> ps.memoryReload.None? || ps.memoryReload == old(ps.memoryReload)
      ensures r.Done? && node.sane ==> forall s :: s in shares ==> InPlace(site, node.hw, s.device)
      ensures node.sane ==> FollowsMarker(site, shares, old(ps.memoryReload), ps.memoryReload, !r.Failed?)
      ensures node.faults.count == old(node.faults.count) && node.sane ==>
                r == UnhinderedAll(site, ps.CanReload(), old(ps.memoryReload), old(node.hw), shares)
    {
      hide Run, InStep, SiteOk, InPlace, Undisturbed, Matched, OfMode, AllInPlace, Unhindered;
      var names := UniqueShareDevices(shares);
      var i := 0;
      NoneInPlace(site, node.hw, names);
      while i < |names|
        invariant 0 <= i <= |names| && node.Valid() && old(node.history) <= node.history
        invariant old(node.faults.count) <= node.faults.count && old(node.spoiled) <= node.spoiled
        invariant InStep(site, ps.View(), ps.memoryReload, node.World())
        invariant ps.memoryReload == if i > 0 then None else old(ps.memoryReload)
        invariant node.sane && i > 0 && old(ps.memoryReload).Some? ==> OfMode(site, shares, old(ps.memoryReload).value)
        invariant node.sane ==> AllInPlace(site, node.hw, names[..i])
        invariant i == 0 ==> node.hw == old(node.hw)
        invariant node.faults.count == old(node.faults.count) && i > 0 ==>
                    Unhindered(site, ps.CanReload(), old(ps.memoryReload), old(node.hw), names[0]) == Done
      {
        ghost var v := node.World();
        assert names[i] in names;
        if node.sane && i > 0 {
          AlreadyDone(site, ps.View(), ps.memoryReload, v, uid, names, i, ps.CanReload());
        }
        r := ApplyOne(uid, shares, names[i]);
        if !r.Done? {
          return;
        }
        if node.sane {
          OneMoreInPlace(site, ps.View(), ps.memoryReload, node.World(), uid, names, i, v.hw);
        }
        i := i + 1;
      }
      r := Done;
      AllNamesInPlace(site, node.hw, shares, names);
    }

    method ApplyOne(uid: string, shares: seq<Share>, device: string) returns (r: Applied)
      requires Linked() && node.Valid() && InStep(site, ps.View(), ps.memoryReload, node.World())
      requires shares == site.plan(uid) && uid in ps.reservedClaims
      requires exists i :: 0 <= i < |shares| && shares[i].device == device
      modifies ps`memoryReload, node`hw, node`reloading, node`misread, node`spoiled, node`history, node.faults
      ensures node.Valid() && old(node.history) <= node.history && Wrote(old(node.World()), node.World())
      ensures old(node.faults.count) <= node.faults.count
      ensures InStep(site, ps.View(), ps.memoryReload, node.World())
      ensures r.Pending? ==> ps.memoryReload.Some? && (node.sane ==> Matched(ps.View(), ps.memoryReload))
      ensures r.Done? ==> ps.memoryReload.None? && InPlace(site, node.hw, device)
      ensures r.Done? && old(ps.memoryReload).None? ==> Undisturbed(site, old(node.hw), node.hw, device)
      ensures r.Failed? ==> ps.memoryReload.None? || ps.memoryReload == old(ps.memoryReload)
      ensures node.sane && old(ps.memoryReload).Some? && (!r.Failed? || ps.memoryReload != old(ps.memoryReload)) ==>
                OfMode(site, shares, old(ps.memoryReload).value)
      ensures node.faults.count == old(node.faults.count) ==>
                r == Unhindered(site, ps.CanReload(), old(ps.memoryReload), old(node.hw), device)
    {
      hide Run, SiteOk, Sound, Protected, Converged, Users, Undisturbed, Matched, OfMode, SlotsKept;
      var i :| 0 <= i < |shares| && shares[i].device == device;
      ghost var before, marker, l := node.World(), ps.memoryReload, ps.View();
      if node.sane {
        node.CurrentIsDurable();
        ReadyToApply(site, l, marker, before, uid, shares[i]);
      }
      r := ps.ApplyPartition(node, device);
      AppliedInStep(site, l, marker, ps.memoryReload, before, node.World());
      if node.sane {
        OneMode(site, l, uid, shares[i]);
        if r.Pending? {
          ReservedMatched(site, l, ps.memoryReload, node.World(), uid, shares[i]);
        }
      }
    }

    /** The partition phases of Prepare, in order: reserve, publish, apply. */
    method PreparePartitions(uid: string, shares: seq<Share>) returns (r: Stage)
      requires Linked() && ps.Tidy() && node.Valid() && InStep(site, ps.View(), ps.memoryReload, node.World())
      requires !IsPrepared(node.disk.prepared, uid) && uid !in node.inUse && shares == site.plan(uid)
      requires node.sane ==> Matched(ps.View(), ps.memoryReload) && Announced(ps.View(), node.World())
      modifies ps, node`published, node`silent, node`hw, node`reloading, node`misread, node`spoiled, node`history
      modifies node.faults
      ensures ps.Tidy() && node.Valid() && old(node.history) <= node.history
      ensures old(node.faults.count) <= node.faults.count
      ensures Wrote(old(node.World()).(published := node.published, silent := node.silent), node.World())
      ensures InStep(site, ps.View(), ps.memoryReload, node.World())
      ensures node.sane ==> Matched(ps.View(), ps.memoryReload) && Announced(ps.View(), node.World())
      ensures r == Conflict <==> !ReserveClaim(old(ps.View()), site.cat, uid, shares).ok
      ensures r == Conflict ==> ps.memoryReload == old(ps.memoryReload)
      ensures r == Conflict && node.sane ==> ps.View() == old(ps.View()) && uid !in ps.reservedClaims
      ensures r == GaveUp && node.sane ==> Withdrawn(old(ps.View()), ps.View(), uid)
      ensures r == Reserved || r == Waiting ==>
                uid in ps.reservedClaims && ps.View() == ReserveClaim(old(ps.View()), site.cat, uid, shares).ledger
      ensures r == Waiting ==> ps.memoryReload.Some?
      ensures r == Reserved && shares != [] ==> ps.memoryReload.None?
      ensures r == Reserved && node.sane ==> forall s :: s in shares ==> InPlace(site, node.hw, s.device)
      ensures node.sane ==>
                FollowsMarker(site, shares, old(ps.memoryReload), ps.memoryReload, r == Reserved || r == Waiting)
      ensures node.faults.count == old(node.faults.count) && node.sane ==>
                r == UnhinderedStage(site, ps.CanReload(), old(ps.View()), old(ps.memoryReload), old(node.hw), uid)
    {
      hide Run, InStep, SiteOk, ReleaseClaim, ReserveClaim, InPlace, Matched, OfMode, SharesOf;
      ghost var l, marker := ps.View(), ps.memoryReload;
      if node.sane {
        PlannedShares(site, uid);
        ReserveThenReleaseAt(site, l, marker, node.World(), uid);
        ReleasedInStep(site, l, marker, node.World(), uid, shares);
      }
      r := ReserveAndPublish(uid, shares);
      if r == Reserved {
        r := ApplyReserved(uid, shares, l);
      }
    }

    /** Apply the shares of a claim that was just reserved, and take the reservation back if that fails. */
    method ApplyReserved(uid: string, shares: seq<Share>, ghost l: Ledger) returns (r: Stage)
      requires Linked() && ps.Tidy() && node.Valid() && InStep(site, ps.View(), ps.memoryReload, node.World())
      requires uid !in node.inUse && shares == site.plan(uid) && uid in ps.reservedClaims
      requires ps.View() == ReserveClaim(l, site.cat, uid, shares).ledger
      requires node.sane ==>
                 && Matched(l, ps.memoryReload) && Announced(ps.View(), node.World())
                 && ReleaseClaim(ps.View(), site.cat, uid, shares).ledger
                    == ReleaseClaim(l, site.cat, uid, shares).ledger
                 && Matched(ReleaseClaim(l, site.cat, uid, shares).ledger, ps.memoryReload)
      modifies ps, node`published, node`silent, node`hw, node`reloading, node`misread, node`spoiled, node`history
      modifies node.faults
      ensures ps.Tidy() && node.Valid() && old(node.history) <= node.history && r != Conflict
      ensures old(node.faults.count) <= node.faults.count
      ensures Wrote(old(node.World()).(published := node.published, silent := node.silent), node.World())
      ensures InStep(site, ps.View(), ps.memoryReload, node.World())
      ensures node.sane ==> Matched(ps.View(), ps.memoryReload) && Announced(ps.View(), node.World())
      ensures r == GaveUp && node.sane ==> Withdrawn(l, ps.View(), uid)
      ensures r != GaveUp ==> ps.View() == old(ps.View())
      ensures r == Waiting ==> ps.memoryReload.Some?
      ensures r == Reserved && shares != [] ==> ps.memoryReload.None?
      ensures r == Reserved && node.sane ==> forall s :: s in shares ==> InPlace(site, node.hw, s.device)
      ensures node.sane ==> FollowsMarker(site, shares, old(ps.memoryReload), ps.memoryReload, r != GaveUp)
      ensures node.faults.count == old(node.faults.count) && node.sane ==>
                r == StageOf(UnhinderedAll(site, ps.CanReload(), old(ps.memoryReload), old(node.hw), shares))
    {
      hide Run, InStep, SiteOk, ReleaseClaim, ReserveClaim, InPlace, Matched, FollowsMarker, SharesOf, UnhinderedAll;
      ghost var marker := ps.memoryReload;
      var applied := ApplyAll(uid, shares);
      match applied {
        case Pending => r := Waiting;
        case Failed =>
          RollBackPartitions(uid, shares);
          MatchedOrGone(ps.View(), marker, ps.memoryReload);
          r := GaveUp;
        case Done =>
          DoneIsMatched(l, site.cat, uid, shares, marker, ps.memoryReload);
          r := Reserved;
      }
    }

    // ---------- finishing ----------

    /** Take back the claim's reservation, its devices being back. */
    method Withdraw(uid: string, shares: seq<Share>)
      requires Valid() && uid !in node.inUse && !IsPrepared(node.disk.prepared, uid) && shares == site.plan(uid)
      modifies ps, node`published, node`silent, node`history, node.faults
      ensures Valid() && old(node.history) <= node.history && old(node.faults.count) <= node.faults.count
      ensures ps.memoryReload == old(ps.memoryReload)
      ensures node.World() == old(node.World()).(published := node.published, silent := node.silent)
      ensures node.sane ==> Withdrawn(old(ps.View()), ps.View(), uid)
    {
      hide Run, InStep, SiteOk, LedgerOk, ReleaseClaim, NoneReleased, Matched;
      WithoutReservation(site, ps.View(), ps.memoryReload, node.World(), uid);
      RollBackPartitions(uid, shares);
    }

    /** Take back what was done for a claim: return its devices, then release its reservation. */
    method Undo(uid: string, names: seq<string>, shares: seq<Share>)
      requires Valid() && uid !in node.inUse && !IsPrepared(node.disk.prepared, uid) && shares == site.plan(uid)
      requires forall n :: Records(vfio.conversions, uid, n) ==> n in names
      modifies ps, vfio, node`drivers, node`published, node`silent, node`history, node.faults
      ensures Valid() && old(node.history) <= node.history && old(node.faults.count) <= node.faults.count
      ensures ps.memoryReload == old(ps.memoryReload)
      ensures node.World()
              == old(node.World()).(drivers := node.drivers, published := node.published, silent := node.silent)
      ensures node.sane ==> Withdrawn(old(ps.View()), ps.View(), uid)
      ensures SameOthers(old(vfio.conversions), vfio.conversions, uid)
      ensures node.faults.count == old(node.faults.count) && vfio.hasManager ==>
                forall n :: !Records(vfio.conversions, uid, n)
    {
      hide Run, InStep, SiteOk, LedgerOk, OnAmdgpu, ReleaseClaim, NoneReleased, Matched;
      ghost var before, l, w := vfio.conversions, ps.View(), node.World();
      AllRecordsOnDisk(before, node.disk.vfio, names);
      NamedMayMove(site, before, node.drivers, uid, names);
      var _ := vfio.ReleaseClaimVfio(node, uid, names);
      KeptWhenFewer(before, vfio.conversions, node.disk.vfio, uid);
      DriversInStep(site, l, ps.memoryReload, w, node.World());
      Withdraw(uid, shares);
    }

    /** Write the claim down as prepared, and count it as in use from then on. */
    method Record(claim: ResourceClaim, devices: seq<PreparedDevice>, onDisk: Checkpoint, ghost chosen: Choice,
                  ghost at: seq<nat>, ghost start: Allocatable)
      returns (ok: bool, cp: Checkpoint)
      requires Valid() && claim.uid in ps.reservedClaims && !IsPrepared(node.disk.prepared, claim.uid)
      requires onDisk.prepared == node.disk.prepared && AsPlanned(site, nodeName, claim)
      requires site.plan(claim.uid) != [] ==> ps.memoryReload.None? && devices != []
      requires node.sane ==> forall s :: s in site.plan(claim.uid) ==> InPlace(site, node.hw, s.device)
      requires PreparesClaim(claim, start, devices, chosen, at) && PartitionsNamed(site, start)
      modifies node`disk, node`saved, node`inUse, node`spoiled, node`lost, node`history, node.faults
      ensures Valid() && old(node.history) <= node.history && old(node.faults.count) <= node.faults.count
      ensures cp == Checkpoint(onDisk.prepared[claim.uid := devices], Fields(ps.View(), ps.memoryReload),
                               vfio.conversions)
      ensures (!ok ==> node.World() == old(node.World())) && (node.faults.count == old(node.faults.count) ==> ok)
      ensures ok ==> node.disk == cp && node.saved == ps.View()
                     && node.inUse == old(node.inUse) + (if site.plan(claim.uid) != [] then {claim.uid} else {})
                     && node.lost <= old(node.lost)
      ensures ok && node.sane ==>
                forall k :: 0 <= k < |devices| && devices[k].device in site.cat.synth ==> devices[k].slot.Some?
    {
      hide Run, InStep, SiteOk, LedgerOk, OnAmdgpu, Durable, ChosenSoFar, Prepares, WellFormed, SlotsMatch, Backed;
      hide Lists, Bound, AsPlanned, InPlace, NoneReleased, Matched, PartitionsNamed;
      cp := Checkpoint(onDisk.prepared[claim.uid := devices], Fields(ps.View(), ps.memoryReload), vfio.conversions);
      ghost var l, marker, w := ps.View(), ps.memoryReload, node.World();
      node.CurrentIsDurable();
      if node.sane {
        PreparedIsSound(site, nodeName, l, marker, w, claim, start, vfio.allocatable, passthrough, chosen, devices, at);
      }
      RecordIsDurable(site, w, l, marker, claim.uid, devices, vfio.allocatable, vfio.conversions);
      ok := node.WriteCheckpoint(cp, l);
      if ok {
        RecordInStep(site, l, marker, w, node.World());
        KeptItself(vfio.conversions);
        if site.plan(claim.uid) != [] {
          if node.sane {
            RecordedIsBacked(site, l, marker, node.World(), claim.uid, devices);
          }
          ghost var v := node.World();
          node.TakeClaim(claim.uid);
          TakenInStep(site, l, marker, v, node.World(), claim.uid);
          TakenIsReserved(site, node.disk.prepared, v.lost, node.lost, l, claim.uid);
        }
      }
    }

    // ---------- Prepare ----------

    /** Everything after the reservation: the devices, the CDI spec and the final checkpoint. */
    method Finish(claim: ResourceClaim, shares: seq<Share>, onDisk: Checkpoint)
      returns (r: Answer, cp: Checkpoint, ghost chosen: Choice, ghost at: seq<nat>)
      requires Valid() && onDisk == node.disk && !IsPrepared(onDisk.prepared, claim.uid)
      requires AsPlanned(site, nodeName, claim) && shares == site.plan(claim.uid)
      requires claim.allocation.Some? ==> claim.uid in ps.reservedClaims
      requires claim.uid !in node.inUse && forall n :: !Records(vfio.conversions, claim.uid, n)
      requires shares != [] ==> ps.memoryReload.None?
      requires node.sane ==> forall s :: s in shares ==> InPlace(site, node.hw, s.device)
      modifies ps, vfio, node`disk, node`saved, node`drivers, node`published, node`silent
      modifies node`inUse, node`spoiled, node`lost
      modifies node`history, node.faults
      ensures Valid() && old(node.history) <= node.history && old(node.faults.count) <= node.faults.count
      ensures cp.prepared - {claim.uid} == node.disk.prepared - {claim.uid}
      ensures r.Granted? || r.Aborted?
      ensures r.Aborted? ==> node.inUse == old(node.inUse) && node.lost == old(node.lost)
                             && node.disk.prepared == onDisk.prepared && node.saved == old(node.saved)
      ensures r.Aborted? && node.sane ==> Withdrawn(old(ps.View()), ps.View(), claim.uid)
      ensures r.Granted? ==> GrantedOk(claim.uid, r.devices)
      ensures r.Granted? ==> Worked(old(node.history), node.history, WriteSpec(claim.uid))
      ensures r.Granted? ==>
                && ps.View() == old(ps.View()) && claim.uid in ps.reservedClaims
                && node.disk == cp && node.saved == ps.View() && node.lost <= old(node.lost)
                && cp == Checkpoint(onDisk.prepared[claim.uid := r.devices], Fields(ps.View(), ps.memoryReload),
                                    vfio.conversions)
                && node.inUse == old(node.inUse) + (if shares != [] then {claim.uid} else {})
                && PreparesClaim(claim, old(vfio.allocatable), r.devices, chosen, at)
      ensures ps.memoryReload == old(ps.memoryReload)
      ensures SameOthers(old(vfio.conversions), vfio.conversions, claim.uid)
      ensures node.faults.count == old(node.faults.count) ==>
                && cp.vfio == node.disk.vfio
                && (r.Granted? <==> Grantable(claim, old(vfio.allocatable), passthrough, vfio.hasManager))
                && (r.Aborted? && vfio.hasManager ==> forall n :: !Records(vfio.conversions, claim.uid, n))
    {
      hide Grantable, IsPrepared, Worked, Records, Run, InStep, SiteOk, LedgerOk, ReleaseClaim, AsPlanned, InPlace;
      hide ChosenSoFar, Prepares, SameOthers, Kept, NoneReleased, Matched, PartitionsNamed, Bound, WellFormed;
      hide Withdrawn;
      ghost var start, l, marker, w := vfio.allocatable, ps.View(), ps.memoryReload, node.World();
      SyntheticListed(site, start, vfio.conversions, node.drivers);
      var prepared: Option<seq<PreparedDevice>>;
      prepared, cp, chosen, at := PrepareDevices(claim, onDisk);
      DriversInStep(site, l, marker, w, node.World());
      if prepared.None? {
        Withdraw(claim.uid, shares);
        return Aborted, cp, chosen, at;
      }
      ghost var converted, since := vfio.conversions, node.history;
      var granted: bool;
      granted, cp := GrantOrUndo(claim, shares, prepared.value, cp, chosen, at, start);
      if granted {
        WorkedWithin(old(node.history), since, node.history, node.history, WriteSpec(claim.uid));
      }
      SameOthersThrough(old(vfio.conversions), converted, vfio.conversions, claim.uid);
      r := if granted then Granted(prepared.value) else Aborted;
    }

    /** Write the CDI spec and the checkpoint, or take everything back. */
    method GrantOrUndo(claim: ResourceClaim, shares: seq<Share>, devices: seq<PreparedDevice>, onDisk: Checkpoint,
                       ghost chosen: Choice, ghost at: seq<nat>, ghost start: Allocatable)
      returns (granted: bool, cp: Checkpoint)
      requires Valid() && onDisk.prepared == node.disk.prepared && !IsPrepared(onDisk.prepared, claim.uid)
      requires AsPlanned(site, nodeName, claim) && shares == site.plan(claim.uid)
      requires claim.uid in ps.reservedClaims && claim.uid !in node.inUse
      requires shares != [] ==> ps.memoryReload.None?
      requires node.sane ==> forall s :: s in shares ==> InPlace(site, node.hw, s.device)
      requires PreparesClaim(claim, start, devices, chosen, at) && PartitionsNamed(site, start)
      modifies ps, vfio, node`disk, node`saved, node`drivers, node`published, node`silent
      modifies node`inUse, node`spoiled, node`lost
      modifies node`history, node.faults
      ensures Valid() && old(node.history) <= node.history && old(node.faults.count) <= node.faults.count
      ensures cp.prepared - {claim.uid} == node.disk.prepared - {claim.uid}
      ensures !granted ==> node.inUse == old(node.inUse) && node.lost == old(node.lost)
                           && node.disk == old(node.disk) && node.saved == old(node.saved)
      ensures !granted && node.sane ==> Withdrawn(old(ps.View()), ps.View(), claim.uid)
      ensures node.faults.count == old(node.faults.count) ==> granted
      ensures granted ==> Worked(old(node.history), node.history, WriteSpec(claim.uid))
                          && node.history[|old(node.history)|]
                             == Event(Act(WriteSpec(claim.uid), true), old(node.World()))
      ensures granted ==>
                && ps.View() == old(ps.View()) && vfio.conversions == old(vfio.conversions)
                && vfio.allocatable == old(vfio.allocatable) && node.drivers == old(node.drivers)
                && node.disk == cp && node.saved == ps.View() && node.lost <= old(node.lost)
                && cp == Checkpoint(onDisk.prepared[claim.uid := devices], Fields(ps.View(), ps.memoryReload),
                                    vfio.conversions)
                && node.inUse == old(node.inUse) + (if shares != [] then {claim.uid} else {})
                && (node.sane ==>
                      forall k :: 0 <= k < |devices| && devices[k].device in site.cat.synth ==> devices[k].slot.Some?)
      ensures ps.memoryReload == old(ps.memoryReload) && node.hw == old(node.hw)
      ensures SameOthers(old(vfio.conversions), vfio.conversions, claim.uid)
    {
      hide Run, InStep, SiteOk, LedgerOk, ReleaseClaim, AsPlanned, InPlace, ChosenSoFar, Prepares, NoneReleased;
      hide Worked, Matched, PartitionsNamed, Bound, WellFormed, Kept;
      cp, granted := onDisk, false;
      var specWritten := node.Do(WriteSpec(claim.uid));
      if specWritten {
        PartitionsArePrepared(site, nodeName, ps.assignedSlots, claim, start, vfio.allocatable, passthrough, chosen,
                              devices, at);
        ghost var since := node.history;
        granted, cp := Record(claim, devices, cp, chosen, at, start);
        WorkedWithin(old(node.history), old(node.history), since, node.history, WriteSpec(claim.uid));
      }
      if !granted {
        assert cp.prepared - {claim.uid} == onDisk.prepared - {claim.uid};
        UndoDevices(claim.uid, devices, shares);
      }
    }

    method UndoDevices(uid: string, devices: seq<PreparedDevice>, shares: seq<Share>)
      requires Valid() && uid !in node.inUse && !IsPrepared(node.disk.prepared, uid) && shares == site.plan(uid)
      requires forall n :: Records(vfio.conversions, uid, n) ==> Names(devices, n)
      modifies ps, vfio, node`drivers, node`published, node`silent, node`history, node.faults
      ensures Valid() && old(node.history) <= node.history && old(node.faults.count) <= node.faults.count
      ensures ps.memoryReload == old(ps.memoryReload)
      ensures node.World()
              == old(node.World()).(drivers := node.drivers, published := node.published, silent := node.silent)
      ensures node.sane ==> Withdrawn(old(ps.View()), ps.View(), uid)
      ensures SameOthers(old(vfio.conversions), vfio.conversions, uid)
      ensures node.faults.count == old(node.faults.count) && vfio.hasManager ==>
                forall n :: !Records(vfio.conversions, uid, n)
    {
      hide Run, InStep, SiteOk, LedgerOk, ReleaseClaim, NoneReleased, Matched;
      var names: seq<string> := [];
      var i := 0;
      while i < |devices|
        invariant 0 <= i <= |devices| && Valid() && node.World() == old(node.World())
        invariant node.history == old(node.history)
        invariant ps.View() == old(ps.View()) && ps.memoryReload == old(ps.memoryReload)
        invariant vfio.conversions == old(vfio.conversions)
        invariant forall j :: 0 <= j < i ==> devices[j].device in names
      {
        names := names + [devices[i].device];
        i := i + 1;
      }
      Undo(uid, names, shares);
    }

    /** The claim's reservation is gone, and nothing else of the ledger. */
    ghost predicate Withdrawn(before: Ledger, after: Ledger, uid: string) {
      after == ReleaseClaim(before, site.cat, uid, site.plan(uid)).ledger && uid !in after.claims
    }

    /** After a failed Prepare, write down the conversions that could not be undone. */
    method PersistAfterFailure(cp: Checkpoint, uid: string) returns (ok: bool)
      requires Valid() && uid !in node.inUse && cp.prepared - {uid} == node.disk.prepared - {uid}
      modifies node`disk, node`saved, node`history, node.faults
      ensures Valid() && old(node.history) <= node.history
      ensures old(node.faults.count) <= node.faults.count && (node.faults.count == old(node.faults.count) ==> ok)
      ensures node.history
              == old(node.history) + (if NoRecords(vfio.conversions, uid) && NoRecords(cp.vfio, uid) then []
                                      else [Event(Save(ok), node.World())])
      ensures node.faults.count == old(node.faults.count) && old(node.disk.vfio) == cp.vfio ==>
                forall n :: Records(node.disk.vfio, uid, n) <==> Records(vfio.conversions, uid, n)
      ensures old(MemoryOnDisk()) ==> MemoryOnDisk()
      ensures node.disk.prepared - {uid} == old(node.disk.prepared) - {uid}
      ensures (node.disk == old(node.disk) && node.saved == old(node.saved))
              || (node.disk == Checkpoint(cp.prepared - {uid}, Fields(ps.View(), ps.memoryReload), vfio.conversions)
                  && node.saved == ps.View())
    {
      hide Run, InStep, SiteOk, LedgerOk, Durable, Matched;
      if NoRecords(vfio.conversions, uid) && NoRecords(cp.vfio, uid) {
        NoneRecorded(vfio.conversions, uid);
        NoneRecorded(cp.vfio, uid);
        return true;
      }
      var failed := Checkpoint(cp.prepared - {uid}, Fields(ps.View(), ps.memoryReload), vfio.conversions);
      ghost var l, marker, w := ps.View(), ps.memoryReload, node.World();
      node.CurrentIsDurable();
      WithoutClaimIsDurable(site, w, l, marker, uid, vfio.allocatable, vfio.conversions);
      ok := node.WriteCheckpoint(failed, l);
      if ok {
        assert (cp.prepared - {uid}) - {uid} == cp.prepared - {uid};
        RecordInStep(site, l, marker, w, node.World());
        KeptItself(vfio.conversions);
      }
    }

    /** Prepare a claim.

        A claim that is on disk as prepared gets its devices again and nothing happens. Otherwise,
        from the reservation on, the claim is reserved on return exactly when it was granted its
        devices or has to wait for a reload; any other end leaves the ledger as it was before the
        call, without the claim. A claim that is granted is on disk, its devices are in place, and
        each of its partitions has its slot. A marked reload is given up or waited for only on
        behalf of a claim of its own mode: any other claim with shares goes away empty-handed. */
    method Prepare(claim: ResourceClaim) returns (r: Answer)
      requires Valid() && (!IsPrepared(node.disk.prepared, claim.uid) ==> AsPlanned(site, nodeName, claim))
      modifies ps, vfio, node, node.faults
      ensures Valid() && old(node.history) <= node.history && node.sane == old(node.sane)
      ensures old(node.faults.count) <= node.faults.count
      ensures old(IsPrepared(node.disk.prepared, claim.uid)) ==>
                && (r == Granted(old(node.disk.prepared)[claim.uid]) || r == Refused)
                && ps.View() == old(ps.View()) && ps.memoryReload == old(ps.memoryReload)
                && node.World() == old(node.World()) && node.history == old(node.history)
      ensures !old(IsPrepared(node.disk.prepared, claim.uid)) ==>
                && Ended(site, claim.uid, r, old(ps.View()), old(ps.memoryReload), ps.View(), ps.memoryReload,
                         node.sane)
                && (r.Refused? ==>
                      && node.World() == old(node.World()) && node.history == old(node.history)
                      && vfio.conversions == old(vfio.conversions))
                && (if r.Stranded? then StillStranded(old(vfio.conversions), vfio.conversions, claim.uid)
                    else r.Refused? || ReturnedSince(site, node.start, old(vfio.conversions), claim.uid,
                                                     old(node.history), node.history))
                && (r.Conflicting? ==> NoRecords(vfio.conversions, claim.uid))
                && (r.Granted? ==> GrantedOk(claim.uid, r.devices) && IsPreparedFor(claim, r.devices))
                && (r.Granted? ==> Worked(old(node.history), node.history, WriteSpec(claim.uid)))
                && node.inUse
                   == old(node.inUse) + (if r.Granted? && site.plan(claim.uid) != [] then {claim.uid} else {})
                && SameOthers(old(vfio.conversions), vfio.conversions, claim.uid)
      ensures r.Granted? ==>
                (claim.uid in ps.reservedClaims
                 <==> !(old(IsPrepared(node.disk.prepared, claim.uid)) && claim.uid !in old(ps.reservedClaims)))
      ensures node.lost <= old(node.lost)
      ensures r.Deferred? ==> WrittenDown(old(node.history), node.history, MemoryOnDisk())
      ensures node.faults.count == old(node.faults.count) ==> !r.Refused?
      ensures node.faults.count == old(node.faults.count) && !r.Granted? ==>
                && (forall n :: Records(node.disk.vfio, claim.uid, n) <==> Records(vfio.conversions, claim.uid, n))
                && (vfio.hasManager ==> NoRecords(vfio.conversions, claim.uid))
      ensures node.faults.count == old(node.faults.count) && !old(IsPrepared(node.disk.prepared, claim.uid)) ==>
                && (r.Stranded? <==> !vfio.hasManager && StuckFor(old(vfio.allocatable), old(vfio.conversions),
                                                                  old(node.drivers), claim.uid))
                && (node.sane && !r.Stranded? ==>
                      AnswersAs(r, claim, UnhinderedStage(site, ps.CanReload(), old(ps.View()), old(ps.memoryReload),
                                                          old(node.hw), claim.uid),
                                GivenBack(old(vfio.allocatable), old(vfio.conversions), claim.uid),
                                passthrough, vfio.hasManager))
    {
      hide Run, InStep, SiteOk, LedgerOk, AsPlanned, ReserveClaim, ReleaseClaim, InPlace, Durable, NoneReleased;
      hide NoRecords, MemoryOnDisk, Worked, Matched, OfMode, FollowsMarker, ReturnedSince, StillStranded, GrantedOk;
      hide PreparesClaim, WrittenDown, AnswersAs, UnhinderedStage, GivenBack, StuckFor;
      NothingEnded(site, claim.uid, ps.View(), ps.memoryReload, node.sane);
      var onDisk := node.ReadCheckpoint();
      if onDisk.None? {
        return Refused;
      }
      if IsPrepared(onDisk.value.prepared, claim.uid) {
        return Granted(onDisk.value.prepared[claim.uid]);
      }
      node.CurrentIsDurable();
      UnpreparedIsNotInUse(site, node.World(), claim.uid);
      var cp: Checkpoint;
      r, cp := PrepareAnew(claim, onDisk.value);
      if !r.Granted? {
        ghost var since := node.history;
        ghost var onDisk' := MemoryOnDisk();
        var _ := PersistAfterFailure(cp, claim.uid);
        StaysReturned(site, node.start, old(vfio.conversions), claim.uid, old(node.history), since, node.history);
        if r.Deferred? {
          StaysWritten(old(node.history), old(node.history), since, node.history, onDisk', MemoryOnDisk());
        }
      }
    }

    /** The claim is on disk; and if the ledger is sane, it is in place, and every partition it was
        given has its slot. */
    ghost predicate GrantedOk(uid: string, devices: seq<PreparedDevice>)
      reads node, ps, vfio
    {
      && uid in node.disk.prepared && node.disk.prepared[uid] == devices
      && node.disk.fields == Fields(ps.View(), ps.memoryReload) && node.disk.vfio == vfio.conversions
      && (site.plan(uid) != [] ==> ps.memoryReload.None?)
      && (node.sane ==> forall s :: s in site.plan(uid) ==> InPlace(site, node.hw, s.device))
      && (node.sane ==>
            forall k :: 0 <= k < |devices| && devices[k].device in site.cat.synth ==> devices[k].slot.Some?)
    }

    /** The devices are those the claim's configs select, each prepared exactly once. */
    ghost predicate IsPreparedFor(claim: ResourceClaim, devices: seq<PreparedDevice>)
      reads ps, vfio, node
    {
      exists start: Allocatable, chosen: Choice, at: seq<nat> :: PreparesClaim(claim, start, devices, chosen, at)
    }

    method PrepareAnew(claim: ResourceClaim, onDisk: Checkpoint) returns (r: Answer, cp: Checkpoint)
      requires Valid() && onDisk == node.disk && !IsPrepared(onDisk.prepared, claim.uid)
      requires AsPlanned(site, nodeName, claim) && claim.uid !in node.inUse
      modifies ps, vfio, node, node.faults
      ensures Valid() && old(node.history) <= node.history && node.sane == old(node.sane)
      ensures old(node.faults.count) <= node.faults.count
      ensures r.Granted? || cp.prepared - {claim.uid} == node.disk.prepared - {claim.uid}
      ensures Ended(site, claim.uid, r, old(ps.View()), old(ps.memoryReload), ps.View(), ps.memoryReload, node.sane)
      ensures !r.Refused?
      ensures if r.Stranded? then StillStranded(old(vfio.conversions), vfio.conversions, claim.uid)
              else ReturnedSince(site, node.start, old(vfio.conversions), claim.uid, old(node.history), node.history)
      ensures r.Conflicting? ==> NoRecords(vfio.conversions, claim.uid)
      ensures r.Deferred? ==> WrittenDown(old(node.history), node.history, MemoryOnDisk())
      ensures node.faults.count == old(node.faults.count) ==>
                && (!r.Granted? ==> cp.vfio == node.disk.vfio)
                && (!r.Granted? && vfio.hasManager ==> NoRecords(vfio.conversions, claim.uid))
                && (r.Stranded? <==> !vfio.hasManager && StuckFor(old(vfio.allocatable), old(vfio.conversions),
                                                                  old(node.drivers), claim.uid))
      ensures node.faults.count == old(node.faults.count) && node.sane && !r.Stranded? ==>
                AnswersAs(r, claim, UnhinderedStage(site, ps.CanReload(), old(ps.View()), old(ps.memoryReload),
                                                    old(node.hw), claim.uid),
                          GivenBack(old(vfio.allocatable), old(vfio.conversions), claim.uid),
                          passthrough, vfio.hasManager)
      ensures r.Granted? ==> GrantedOk(claim.uid, r.devices) && IsPreparedFor(claim, r.devices)
      ensures r.Granted? ==> Worked(old(node.history), node.history, WriteSpec(claim.uid))
      ensures node.inUse == old(node.inUse) + (if r.Granted? && site.plan(claim.uid) != [] then {claim.uid} else {})
      ensures node.lost <= old(node.lost)
      ensures SameOthers(old(vfio.conversions), vfio.conversions, claim.uid)
    {
      hide Run, InStep, SiteOk, LedgerOk, AsPlanned, Steady, NoneReleased, SameOthers, GrantedOk, PreparesClaim;
      hide Ended, Worked, ReturnedSince, WrittenDown, AnswersAs, UnhinderedStage, GivenBack;
      NothingEnded(site, claim.uid, ps.View(), ps.memoryReload, node.sane);
      var returned := ReturnStranded(claim.uid);
      if !returned {
        return Stranded, onDisk;
      }
      ghost var converted, since := vfio.conversions, node.history;
      NoneLeft(converted, claim.uid);
      r, cp := PrepareReturned(claim, onDisk);
      StaysReturned(site, node.start, old(vfio.conversions), claim.uid, old(node.history), since, node.history);
      SameOthersThrough(old(vfio.conversions), converted, vfio.conversions, claim.uid);
      if r.Granted? {
        WorkedWithin(old(node.history), since, node.history, node.history, WriteSpec(claim.uid));
      }
      if r.Deferred? {
        StaysWritten(old(node.history), since, node.history, node.history, MemoryOnDisk(), MemoryOnDisk());
      }
      if !r.Granted? && (forall n :: !Records(vfio.conversions, claim.uid, n)) {
        NoneLeft(vfio.conversions, claim.uid);
      }
    }

    /** Hold the claim's partitions and give it its devices; nothing is left of an earlier attempt. */
    method PrepareReturned(claim: ResourceClaim, onDisk: Checkpoint) returns (r: Answer, cp: Checkpoint)
      requires Valid() && onDisk == node.disk && !IsPrepared(onDisk.prepared, claim.uid)
      requires AsPlanned(site, nodeName, claim) && claim.uid !in node.inUse
      requires forall n :: !Records(vfio.conversions, claim.uid, n)
      modifies ps, vfio, node`disk, node`saved, node`hw, node`drivers, node`published
      modifies node`silent, node`inUse, node`reloading
      modifies node`misread, node`spoiled, node`lost, node`history, node.faults
      ensures Valid() && old(node.history) <= node.history && !r.Refused? && !r.Stranded?
      ensures old(node.faults.count) <= node.faults.count
      ensures r.Granted? || cp.prepared - {claim.uid} == node.disk.prepared - {claim.uid}
      ensures Ended(site, claim.uid, r, old(ps.View()), old(ps.memoryReload), ps.View(), ps.memoryReload, node.sane)
      ensures r.Conflicting? ==> vfio.conversions == old(vfio.conversions)
      ensures r.Deferred? ==> WrittenDown(old(node.history), node.history, MemoryOnDisk())
      ensures node.faults.count == old(node.faults.count) ==>
                && (!r.Granted? ==> cp.vfio == node.disk.vfio)
                && (!r.Granted? && vfio.hasManager ==> forall n :: !Records(vfio.conversions, claim.uid, n))
      ensures node.faults.count == old(node.faults.count) && node.sane ==>
                AnswersAs(r, claim, UnhinderedStage(site, ps.CanReload(), old(ps.View()), old(ps.memoryReload),
                                                    old(node.hw), claim.uid),
                          old(vfio.allocatable), passthrough, vfio.hasManager)
      ensures r.Granted? ==> GrantedOk(claim.uid, r.devices) && IsPreparedFor(claim, r.devices)
      ensures r.Granted? ==> Worked(old(node.history), node.history, WriteSpec(claim.uid))
      ensures node.inUse == old(node.inUse) + (if r.Granted? && site.plan(claim.uid) != [] then {claim.uid} else {})
      ensures node.lost <= old(node.lost)
      ensures SameOthers(old(vfio.conversions), vfio.conversions, claim.uid)
    {
      hide Run, InStep, SiteOk, LedgerOk, AsPlanned, ReserveClaim, ReleaseClaim, InPlace, Steady, NoneReleased;
      hide Announced, Worked, MemoryOnDisk, SharesOfResults, GrantedOk, SharesFor, PreparesClaim, FollowsMarker;
      hide Ended, HeldAs, Grantable, WrittenDown, UnhinderedStage;
      ghost var l, marker, w := ps.View(), ps.memoryReload, node.World();
      cp := onDisk;
      InOrder();
      var shares := SharesOfClaim(claim);
      if claim.allocation.Some? {
        var stage: Stage;
        stage, cp := HoldPartitions(claim.uid, shares, onDisk);
        if stage != Reserved {
          return AnswerTo(stage), cp;
        }
      }
      ghost var held, since := ps.View(), node.history;
      r, cp := GrantHeld(claim, shares, onDisk);
      if r.Granted? {
        WorkedWithin(old(node.history), since, node.history, node.history, WriteSpec(claim.uid));
      }
      FinishedIsEnded(site, l, marker, w, claim.uid, r, held, ps.View(), ps.memoryReload);
    }

    lemma InOrder()
      requires Valid()
      ensures SiteOk(site) && InStep(site, ps.View(), ps.memoryReload, node.World())
    {
    }

    /** Give the claim its devices, its reservation being held. */
    method GrantHeld(claim: ResourceClaim, shares: seq<Share>, onDisk: Checkpoint) returns (r: Answer, cp: Checkpoint)
      requires Valid() && onDisk == node.disk && !IsPrepared(onDisk.prepared, claim.uid)
      requires AsPlanned(site, nodeName, claim) && shares == site.plan(claim.uid)
      requires claim.allocation.Some? ==> claim.uid in ps.reservedClaims
      requires claim.uid !in node.inUse && forall n :: !Records(vfio.conversions, claim.uid, n)
      requires shares != [] ==> ps.memoryReload.None?
      requires node.sane ==> forall s :: s in shares ==> InPlace(site, node.hw, s.device)
      modifies ps, vfio, node`disk, node`saved, node`drivers, node`published, node`silent
      modifies node`inUse, node`spoiled, node`lost
      modifies node`history, node.faults
      ensures Valid() && old(node.history) <= node.history && old(node.faults.count) <= node.faults.count
      ensures cp.prepared - {claim.uid} == node.disk.prepared - {claim.uid}
      ensures r.Granted? || r.Aborted?
      ensures r.Aborted? && node.sane ==> Withdrawn(old(ps.View()), ps.View(), claim.uid)
      ensures r.Granted? ==>
                && ps.View() == old(ps.View()) && claim.uid in ps.reservedClaims && claim.allocation.Some?
                && GrantedOk(claim.uid, r.devices) && IsPreparedFor(claim, r.devices)
                && Worked(old(node.history), node.history, WriteSpec(claim.uid))
      ensures node.inUse == old(node.inUse) + (if r.Granted? && shares != [] then {claim.uid} else {})
      ensures ps.memoryReload == old(ps.memoryReload) && node.lost <= old(node.lost)
      ensures SameOthers(old(vfio.conversions), vfio.conversions, claim.uid)
      ensures node.faults.count == old(node.faults.count) ==>
                && cp.vfio == node.disk.vfio
                && (r.Granted? <==> Grantable(claim, old(vfio.allocatable), passthrough, vfio.hasManager))
                && (r.Aborted? && vfio.hasManager ==> forall n :: !Records(vfio.conversions, claim.uid, n))
    {
      hide Grantable, Worked, Run, InStep, SiteOk, LedgerOk, AsPlanned, ReserveClaim, ReleaseClaim, InPlace, Steady;
      hide NoneReleased, SameOthers, GrantedOk, SharesFor, ChosenSoFar, Prepares, Bound, WellFormed, Withdrawn;
      ghost var start := vfio.allocatable;
      ghost var chosen, at;
      r, cp, chosen, at := Finish(claim, shares, onDisk);
      if r.Granted? {
        assert PreparesClaim(claim, start, r.devices, chosen, at);
      }
    }

    /** The partition phases; a claim that has to wait for a reload is written down as waiting. */
    method HoldPartitions(uid: string, shares: seq<Share>, onDisk: Checkpoint) returns (r: Stage, cp: Checkpoint)
      requires Valid() && onDisk == node.disk && !IsPrepared(onDisk.prepared, uid) && uid !in node.inUse
      requires shares == site.plan(uid)
      modifies ps, node`published, node`silent, node`hw, node`reloading, node`misread, node`spoiled
      modifies node`disk, node`saved, node`history, node.faults
      ensures Valid() && old(node.history) <= node.history && old(node.faults.count) <= node.faults.count
      ensures r != Waiting ==> cp == onDisk && node.disk == onDisk && node.saved == old(node.saved)
      ensures r == Waiting ==> cp.prepared == onDisk.prepared == node.disk.prepared
      ensures if r == Reserved then
                HeldAs(site, uid, old(ps.View()), old(ps.memoryReload), ps.View(), ps.memoryReload, node.sane)
              else
                Ended(site, uid, AnswerTo(r), old(ps.View()), old(ps.memoryReload), ps.View(), ps.memoryReload,
                      node.sane)
      ensures r == Reserved ==> uid in ps.reservedClaims && (shares != [] ==> ps.memoryReload.None?)
      ensures r == Reserved && node.sane ==> forall s :: s in shares ==> InPlace(site, node.hw, s.device)
      ensures r == Waiting ==> WrittenDown(old(node.history), node.history, MemoryOnDisk())
      ensures node.faults.count == old(node.faults.count) ==> cp.vfio == node.disk.vfio
      ensures node.faults.count == old(node.faults.count) && node.sane ==>
                r == UnhinderedStage(site, ps.CanReload(), old(ps.View()), old(ps.memoryReload), old(node.hw), uid)
    {
      hide Run, InStep, SiteOk, LedgerOk, ReserveClaim, ReleaseClaim, InPlace, Kept, FollowsMarker, Matched;
      hide Announced, UnhinderedStage;
      ghost var l, marker, w := ps.View(), ps.memoryReload, node.World();
      if node.sane {
        ClaimsAfter(site, l, marker, w, uid);
      }
      cp := onDisk;
      r := PreparePartitions(uid, shares);
      if r == Waiting {
        ghost var since := node.history;
        var saved: bool;
        saved, cp := SaveWaiting(uid, onDisk);
        SavedNow(old(node.history), since, node.history, saved, MemoryOnDisk());
      }
    }

    /** A reload is under way: keep the reservation, and write it down with the marker. */
    method SaveWaiting(uid: string, onDisk: Checkpoint) returns (ok: bool, cp: Checkpoint)
      requires Valid() && onDisk == node.disk && uid !in node.inUse
      modifies node`disk, node`saved, node`history, node.faults
      ensures Valid() && node.history == old(node.history) + [Event(Save(ok), node.World())]
      ensures old(node.history) <= node.history
      ensures old(node.faults.count) <= node.faults.count && (node.faults.count == old(node.faults.count) ==> ok)
      ensures cp == Checkpoint(onDisk.prepared, Fields(ps.View(), ps.memoryReload), vfio.conversions)
      ensures if ok then node.disk == cp && node.saved == ps.View()
              else node.disk == onDisk && node.saved == old(node.saved)
    {
      hide Run, InStep, SiteOk, LedgerOk, Durable, NoneReleased, Matched;
      cp := Checkpoint(onDisk.prepared, Fields(ps.View(), ps.memoryReload), vfio.conversions);
      ghost var l, marker, w := ps.View(), ps.memoryReload, node.World();
      node.CurrentIsDurable();
      SameClaimsAreDurable(site, w, l, marker, vfio.allocatable, vfio.conversions);
      ok := node.WriteCheckpoint(cp, l);
      if ok {
        RecordInStep(site, l, marker, w, node.World());
        KeptItself(vfio.conversions);
      }
    }

    // ---------- Unprepare ----------

    /** Unprepare a claim.

        However it ends, the ledger is what it was, or what it was without the claim. When it
        succeeds the claim is reserved no longer and has no conversion record in memory; for a
        claim that was on disk as prepared it is gone from there as well, with all its records.
        When it fails after the release, the claim counts as lost. */
    method Unprepare(uid: string) returns (ok: bool)
      requires Valid()
      modifies ps, vfio, node, node.faults
      ensures Valid() && old(node.history) <= node.history && node.sane == old(node.sane)
      ensures old(node.faults.count) <= node.faults.count
      ensures node.sane ==> ps.View() == old(ps.View()) || Withdrawn(old(ps.View()), ps.View(), uid)
      ensures ok && node.sane ==> Withdrawn(old(ps.View()), ps.View(), uid)
      ensures ok ==> uid !in node.inUse && NoRecords(vfio.conversions, uid)
      ensures ok && old(IsPrepared(node.disk.prepared, uid)) ==>
                Worked(old(node.history), node.history, DeleteSpec(uid))
      ensures ok && old(IsPrepared(node.disk.prepared, uid)) ==>
                && node.disk.prepared == old(node.disk.prepared) - {uid}
                && node.disk.fields == Fields(ps.View(), ps.memoryReload) && node.disk.vfio == vfio.conversions
      ensures ok && uid in old(ps.reservedClaims) ==>
                node.disk.fields == Fields(ps.View(), ps.memoryReload) && node.disk.vfio == vfio.conversions
      ensures SameOthers(old(vfio.conversions), vfio.conversions, uid)
      ensures node.inUse == old(node.inUse) || node.inUse == old(node.inUse) - {uid}
      ensures ps.memoryReload == old(ps.memoryReload)
      ensures node.lost == old(node.lost)
              || (!ok && old(IsPrepared(node.disk.prepared, uid)) && node.lost == old(node.lost) + {uid})
      ensures ok && ps.activeMemoryMode != old(ps.activeMemoryMode) ==> Published(old(node.history), node.history)
      ensures uid !in old(ps.reservedClaims) ==> node.published == old(node.published)
      ensures node.faults.count == old(node.faults.count) ==>
                ok || (!vfio.hasManager && StuckOf(old(vfio.allocatable), old(vfio.conversions), old(node.drivers),
                                                   uid, old(node.disk.prepared)))
      ensures node.faults.count == old(node.faults.count)
              && (old(IsPrepared(node.disk.prepared, uid)) || uid in old(ps.reservedClaims)
                  || !NoRecords(old(vfio.conversions), uid)) ==>
                node.disk.vfio == vfio.conversions
    {
      hide Run, InStep, SiteOk, LedgerOk, ReleaseClaim, ReserveClaim, Durable, NoneReleased, Matched, Worked;
      var onDisk := node.ReadCheckpoint();
      if onDisk.None? {
        return false;
      }
      if IsPrepared(onDisk.value.prepared, uid) {
        ok := UnpreparePrepared(uid, onDisk.value);
      } else {
        node.CurrentIsDurable();
        UnpreparedIsNotInUse(site, node.World(), uid);
        ok := UnprepareReserved(uid, onDisk.value);
      }
    }

    /** The claim is not on disk as prepared, but may own conversions or a reservation. */
    method UnprepareReserved(uid: string, onDisk: Checkpoint) returns (ok: bool)
      requires Valid() && onDisk == node.disk && !IsPrepared(onDisk.prepared, uid) && uid !in node.inUse
      modifies ps, vfio, node`disk, node`saved, node`drivers, node`published, node`silent, node`history, node.faults
      ensures Valid() && old(node.history) <= node.history && old(node.faults.count) <= node.faults.count
      ensures node.sane ==> ps.View() == old(ps.View()) || Withdrawn(old(ps.View()), ps.View(), uid)
      ensures ok ==> NoRecords(vfio.conversions, uid)
      ensures ok && node.sane ==> Withdrawn(old(ps.View()), ps.View(), uid)
      ensures ok && uid in old(ps.reservedClaims) ==>
                node.disk.fields == Fields(ps.View(), ps.memoryReload) && node.disk.vfio == vfio.conversions
      ensures SameOthers(old(vfio.conversions), vfio.conversions, uid)
      ensures ps.memoryReload == old(ps.memoryReload)
      ensures ps.activeMemoryMode != old(ps.activeMemoryMode) ==> Published(old(node.history), node.history)
      ensures uid !in old(ps.reservedClaims) ==> node.published == old(node.published)
      ensures node.faults.count == old(node.faults.count) ==>
                ok || (!vfio.hasManager && StuckFor(old(vfio.allocatable), old(vfio.conversions), old(node.drivers),
                                                    uid))
      ensures node.faults.count == old(node.faults.count)
              && (uid in old(ps.reservedClaims) || !NoRecords(old(vfio.conversions), uid)) ==>
                node.disk.vfio == vfio.conversions
    {
      hide Run, InStep, SiteOk, LedgerOk, ReleaseClaim, Durable, NoneReleased, Matched;
      ghost var l := ps.View();
      NotReserved(l, site.cat, uid, site.plan(uid));
      var cp := onDisk;
      if !NoRecords(vfio.conversions, uid) {
        ok, cp := SaveReturned(uid, onDisk);
        if !ok {
          return false;
        }
      }
      if uid !in ps.reservedClaims {
        return true;
      }
      ghost var before := node.history;
      ReleaseReservation(uid);
      LeftOut(uid);
      ghost var after := node.history;
      ok := SaveWithout(uid, cp.prepared);
      StillValid(uid);
      PublishedWithin(old(node.history), before, after, node.history);
    }

    /** Return the claim's devices, and write down which ones are left. */
    method SaveReturned(uid: string, onDisk: Checkpoint) returns (ok: bool, cp: Checkpoint)
      requires Valid() && onDisk == node.disk
      modifies vfio, node`disk, node`saved, node`drivers, node`history, node.faults
      ensures Valid() && old(node.history) <= node.history && old(node.faults.count) <= node.faults.count
      ensures cp.prepared == onDisk.prepared == node.disk.prepared
      ensures ok ==> NoRecords(vfio.conversions, uid)
      ensures SameOthers(old(vfio.conversions), vfio.conversions, uid)
      ensures node.faults.count == old(node.faults.count) ==>
                && node.disk.vfio == vfio.conversions
                && (ok || (!vfio.hasManager && StuckFor(old(vfio.allocatable), old(vfio.conversions),
                                                        old(node.drivers), uid)))
    {
      hide Run, InStep, SiteOk, LedgerOk, NoneReleased, Matched, StuckFor;
      var returned := ReturnStranded(uid);
      ghost var w := node.World();
      ok, cp := SaveConversions(onDisk);
      DriversInStep(site, ps.View(), ps.memoryReload, w, node.World());
      if returned {
        NoneLeft(vfio.conversions, uid);
      }
      ok := ok && returned;
    }

    /** Release a claim that was never prepared, by the shares its slots stand for. */
    method ReleaseReservation(uid: string)
      requires Valid() && !IsPrepared(node.disk.prepared, uid) && uid in ps.reservedClaims && uid !in node.inUse
      modifies ps, node`published, node`silent, node`history, node.faults
      ensures Valid() && old(node.history) <= node.history && old(node.faults.count) <= node.faults.count
      ensures ps.memoryReload == old(ps.memoryReload)
      ensures node.World() == old(node.World()).(published := node.published, silent := node.silent)
      ensures node.sane ==> Withdrawn(old(ps.View()), ps.View(), uid)
      ensures ps.activeMemoryMode != old(ps.activeMemoryMode) ==> Published(old(node.history), node.history)
    {
      hide Run, InStep, SiteOk, ReleaseClaim, LedgerOk, Matched, NoneReleased, Sound;
      ghost var l, marker, w := ps.View(), ps.memoryReload, node.World();
      var shares := ps.PartitionSharesFromAssignedSlots(uid);
      if node.sane {
        ReservedShares(site, l, marker, w);
        WithoutReservation(site, l, marker, w, uid);
      }
      ReleasedInStep(site, l, marker, w, uid, shares);
      SilentRelease(l, site.cat, uid, shares);
      var released, changed := ps.ReleaseClaim(uid, shares);
      if changed {
        var _ := Republish();
      }
    }

    /** Return what an earlier, failed Prepare of the claim left converted. */
    method ReturnStranded(uid: string) returns (ok: bool)
      requires Valid()
      modifies vfio, node`drivers, node`history, node.faults
      ensures Valid() && old(node.history) <= node.history && old(node.faults.count) <= node.faults.count
      ensures node.World() == old(node.World()).(drivers := node.drivers)
      ensures Fewer(old(vfio.conversions), vfio.conversions, uid)
      ensures SameOthers(old(vfio.conversions), vfio.conversions, uid)
      ensures ok <==> forall n :: !Records(vfio.conversions, uid, n)
      ensures ok ==> vfio.allocatable == GivenBack(old(vfio.allocatable), old(vfio.conversions), uid)
      ensures node.faults.count == old(node.faults.count) ==>
                (ok <==> vfio.hasManager || !StuckFor(old(vfio.allocatable), old(vfio.conversions), old(node.drivers),
                                                      uid))
      ensures ok ==> ReturnedSince(site, node.start, old(vfio.conversions), uid, old(node.history), node.history)
    {
      hide Run, InStep, SiteOk, LedgerOk, NoneReleased, Matched, ReturnedSince;
      ghost var before, w := vfio.conversions, node.World();
      StartsOk(site, vfio.allocatable, before, node.drivers);
      ok := vfio.ReleaseStrandedVfio(node, uid);
      if ok {
        ReturnedNow(site, vfio.allocatable, before, vfio.conversions, node.start, old(node.history), node.history, w,
                    node.World(), uid);
      }
      KeptWhenFewer(before, vfio.conversions, node.disk.vfio, uid);
      DriversInStep(site, ps.View(), ps.memoryReload, w, node.World());
    }

    method UnpreparePrepared(uid: string, onDisk: Checkpoint) returns (ok: bool)
      requires Valid() && onDisk == node.disk && IsPrepared(onDisk.prepared, uid)
      modifies ps, vfio, node`disk, node`saved, node`drivers, node`published, node`silent, node`inUse, node`lost
      modifies node`history, node.faults
      ensures Valid() && old(node.history) <= node.history && old(node.faults.count) <= node.faults.count
      ensures node.sane ==> Withdrawn(old(ps.View()), ps.View(), uid)
      ensures ok ==> NoRecords(vfio.conversions, uid)
                     && node.disk == Checkpoint(onDisk.prepared - {uid}, Fields(ps.View(), ps.memoryReload),
                                                vfio.conversions)
                     && node.saved == ps.View()
      ensures SameOthers(old(vfio.conversions), vfio.conversions, uid)
      ensures node.inUse == old(node.inUse) - {uid} && (ok || node.silent)
      ensures ok ==> Worked(old(node.history), node.history, DeleteSpec(uid))
      ensures node.lost == old(node.lost) + (if ok then {} else {uid})
      ensures ps.memoryReload == old(ps.memoryReload)
      ensures ok && ps.activeMemoryMode != old(ps.activeMemoryMode) ==> Published(old(node.history), node.history)
      ensures uid !in old(ps.reservedClaims) ==> node.published == old(node.published)
      ensures node.faults.count == old(node.faults.count) ==>
                && node.disk.vfio == vfio.conversions
                && (ok || (!vfio.hasManager && exists n :: Names(onDisk.prepared[uid], n)
                                                           && Stuck(old(vfio.allocatable), old(node.drivers), n)))
    {
      hide Run, InStep, SiteOk, LedgerOk, ReleaseClaim, Durable, NoneReleased, Matched, SameOthers, Withdrawn, Worked;
      var devices := onDisk.prepared[uid];
      var changed := ReleasePrepared(uid, devices);
      ghost var since := node.history;
      ok := ForgetPrepared(uid, onDisk, devices);
      ghost var forgotten := node.history;
      if !ok {
        Lose(uid);
      } else {
        if changed {
          var _ := Republish();
        }
        WorkedWithin(old(node.history), since, forgotten, node.history, DeleteSpec(uid));
      }
    }

    /** Unprepare fails after the release. */
    ghost method Lose(uid: string)
      requires ValidBut(uid)
      modifies node`lost, node`silent, node`history
      ensures Valid() && old(node.history) <= node.history
      ensures node.World() == old(node.World()).(lost := old(node.lost) + {uid}, silent := true)
    {
      hide Run, InStep, SiteOk, LedgerOk, NoneReleased, Matched;
      ghost var w := node.World();
      node.FailClaim(uid);
      LostInStep(site, ps.View(), ps.memoryReload, w, node.World());
      LostIsExcused(site, node.disk.prepared, w.lost, ps.View(), uid);
    }

    /** Release the shares a prepared claim was given. */
    method ReleasePrepared(uid: string, devices: seq<PreparedDevice>) returns (changed: bool)
      requires Valid() && IsPrepared(node.disk.prepared, uid) && devices == node.disk.prepared[uid]
      modifies ps, node`inUse, node`history, node.faults
      ensures ValidBut(uid) && old(node.history) <= node.history && old(node.faults.count) <= node.faults.count
      ensures node.World() == old(node.World()).(inUse := old(node.inUse) - {uid})
      ensures node.sane ==> Withdrawn(old(ps.View()), ps.View(), uid)
      ensures ps.memoryReload == old(ps.memoryReload)
      ensures !changed ==> ps.taints == old(ps.taints) && ps.activeMemoryMode == old(ps.activeMemoryMode)
      ensures changed ==> uid in old(ps.reservedClaims)
    {
      hide Run, InStep, SiteOk, LedgerOk, ReleaseClaim, Durable, NoneReleased, Matched, SharesOf, Pairs;
      var shares := SharesOfDevices(uid, devices);
      ghost var l, marker, w := ps.View(), ps.memoryReload, node.World();
      node.CurrentIsDurable();
      if node.sane {
        ListedShares(site, w, uid);
        WithoutPrepared(site, l, marker, w, uid);
      }
      node.GiveClaim(uid);
      GivenInStep(site, l, marker, w, node.World(), uid);
      ReleasedInStep(site, l, marker, node.World(), uid, shares);
      SilentRelease(l, site.cat, uid, shares);
      var released: bool;
      released, changed := ps.ReleaseClaim(uid, shares);
    }

    /** Return the devices, delete the CDI spec, and take the claim off the disk. */
    method ForgetPrepared(uid: string, onDisk: Checkpoint, devices: seq<PreparedDevice>) returns (ok: bool)
      requires ValidBut(uid) && onDisk == node.disk && IsPrepared(onDisk.prepared, uid) && uid !in node.inUse
      requires devices == onDisk.prepared[uid]
      modifies vfio, node`disk, node`saved, node`drivers, node`history, node.faults
      ensures ValidBut(uid) && old(node.history) <= node.history && (ok ==> Whole())
      ensures old(node.faults.count) <= node.faults.count
      ensures ok ==> NoRecords(vfio.conversions, uid)
                     && node.disk == Checkpoint(onDisk.prepared - {uid}, Fields(ps.View(), ps.memoryReload),
                                                vfio.conversions)
                     && node.saved == ps.View()
      ensures SameOthers(old(vfio.conversions), vfio.conversions, uid)
      ensures node.faults.count == old(node.faults.count) ==>
                && node.disk.vfio == vfio.conversions
                && (ok || (!vfio.hasManager && exists n :: Names(devices, n)
                                                           && Stuck(old(vfio.allocatable), old(node.drivers), n)))
      ensures ok ==>
                && Worked(old(node.history), node.history, DeleteSpec(uid))
                && |node.history| >= 2 && node.history[|node.history| - 1].step == Save(true)
                && node.history[|node.history| - 2].step == Act(DeleteSpec(uid), true)
    {
      hide Run, InStep, SiteOk, LedgerOk, ReleaseClaim, Durable, NoneReleased, Matched, Worked, SameOthers;
      ghost var before, v := vfio.conversions, node.World();
      var returned := vfio.UnprepareDevices(node, uid, devices);
      KeptWhenFewer(before, vfio.conversions, node.disk.vfio, uid);
      DriversInStep(site, ps.View(), ps.memoryReload, v, node.World());
      if !returned {
        ghost var u := node.World();
        var _, _ := SaveConversions(onDisk);
        DriversInStep(site, ps.View(), ps.memoryReload, u, node.World());
        return false;
      }
      node.CurrentIsDurable();
      OwnedAreGone(site, node.World(), vfio.conversions, uid);
      ghost var since := node.history;
      var specDeleted := node.Do(DeleteSpec(uid));
      if !specDeleted {
        return false;
      }
      ghost var deleted := node.history;
      ok := SaveWithout(uid, onDisk.prepared - {uid});
      WorkedWithin(old(node.history), since, deleted, node.history, DeleteSpec(uid));
    }

    /** The shares of the prepared partitions, under the keys they were reserved by. */
    method SharesOfDevices(uid: string, devices: seq<PreparedDevice>) returns (shares: seq<Share>)
      requires Linked() && vfio.Valid(node)
      ensures shares == SharesOfPrepared(site.cat, uid, devices, |devices|)
    {
      hide LedgerOk, Run;
      OnlySynthetic(site, vfio.allocatable, vfio.conversions, node.drivers);
      shares := [];
      var i := 0;
      while i < |devices|
        invariant 0 <= i <= |devices| && shares == SharesOfPrepared(site.cat, uid, devices, i)
      {
        var d := devices[i];
        if d.device in vfio.allocatable && vfio.allocatable[d.device] == SyntheticEntry {
          var key := if d.key == "" then site.cat.positional(uid, i, d.device) else d.key;
          shares := shares + [Share(d.device, key)];
        }
        i := i + 1;
      }
    }

    /** Only the conversion records are written. */
    method SaveConversions(onDisk: Checkpoint) returns (ok: bool, cp: Checkpoint)
      requires Linked() && vfio.Valid(node) && Kept(vfio.conversions, node.disk.vfio) && onDisk == node.disk
      modifies node`disk, node`saved, node`history, node.faults
      ensures vfio.Valid(node) && node.history == old(node.history) + [Event(Save(ok), node.World())]
      ensures old(node.history) <= node.history
      ensures old(node.faults.count) <= node.faults.count && (node.faults.count == old(node.faults.count) ==> ok)
      ensures Kept(vfio.conversions, node.disk.vfio)
      ensures cp == onDisk.(vfio := vfio.conversions)
      ensures node.World() == if ok then old(node.World()).(disk := cp) else old(node.World())
    {
      hide Run, SiteOk, LedgerOk, Durable;
      cp := onDisk.(vfio := vfio.conversions);
      node.CurrentIsDurable();
      OwnRecordsAreDurable(site, node.World(), vfio.allocatable, vfio.conversions);
      ok := node.WriteCheckpoint(cp, node.saved);
      if ok {
        KeptItself(vfio.conversions);
      }
    }

    /** Save memory as it is, with these claims as the prepared ones. */
    method SaveWithout(uid: string, prepared: PreparedClaims) returns (ok: bool)
      requires ValidBut(uid) && uid !in node.inUse
      requires prepared == node.disk.prepared - {uid}
               || (prepared == node.disk.prepared && !IsPrepared(prepared, uid))
      modifies node`disk, node`saved, node`history, node.faults
      ensures ValidBut(uid) && node.history == old(node.history) + [Event(Save(ok), node.World())]
      ensures old(node.history) <= node.history
      ensures old(node.faults.count) <= node.faults.count && (node.faults.count == old(node.faults.count) ==> ok)
      ensures ok ==>
                && node.disk == Checkpoint(prepared, Fields(ps.View(), ps.memoryReload), vfio.conversions)
                && node.saved == ps.View() && Whole()
      ensures !ok ==> node.disk == old(node.disk) && node.saved == old(node.saved)
    {
      hide Run, InStep, SiteOk, LedgerOk, Durable, NoneReleased, Matched;
      ghost var l, marker, w := ps.View(), ps.memoryReload, node.World();
      node.CurrentIsDurable();
      if node.sane {
        NoneReleasedWithout(site, w.disk.prepared, prepared, w.lost, l, uid);
      }
      SavedIsDurable(site, w, l, marker, uid, prepared, vfio.allocatable, vfio.conversions);
      ok := node.WriteCheckpoint(Checkpoint(prepared, Fields(ps.View(), ps.memoryReload), vfio.conversions), l);
      if ok {
        RecordInStep(site, l, marker, w, node.World());
        KeptItself(vfio.conversions);
      }
    }

    lemma LeftOut(uid: string)
      requires Valid()
      ensures ValidBut(uid)
    {
    }

    /** For a claim that is not on disk as prepared nothing is left out. */
    lemma StillValid(uid: string)
      requires ValidBut(uid) && !IsPrepared(node.disk.prepared, uid)
      ensures Whole()
    {
    }

    // ---------- the environment and restarts ----------

    /** A marked reload takes effect. */
    method ReloadSettles()
      requires Valid() && ps.memoryReload.Some?
      modifies node`hw, node`spoiled, node`history, node.faults
      ensures Valid() && old(node.history) <= node.history && old(node.faults.count) <= node.faults.count
    {
      hide Run, SiteOk, LedgerOk, Sound, Protected, NoneReleased, Matched;
      ghost var w := node.World();
      node.Settle();
      AppliedInStep(site, ps.View(), ps.memoryReload, ps.memoryReload, w, node.World());
    }

    /** Start the plugin on a node, fresh or after a crash: read the checkpoint, rebuild both
        ledgers, and publish. `discovered` is what device discovery lists. A plugin that could read
        its checkpoint is in a valid state; its reservation ledger is sane exactly when the
        checkpoint could be recovered from. One that could not read it goes on with nothing. */
    static method Start(node: Node, discovered: Allocatable, hasManager: bool, kmmEnabled: bool, hasRecoverer: bool,
                        nodeName: string, passthrough: bool)
      returns (r: Option<DeviceState>, readable: bool)
      requires node.Valid() && FreshlyListed(node.site, discovered, node.drivers)
      modifies node, node.faults
      ensures node.Valid() && old(node.history) <= node.history && old(node.faults.count) <= node.faults.count
      ensures node.faults.count == old(node.faults.count) ==> r.Some? && readable
      ensures node.faults.count == old(node.faults.count) && r.Some? ==>
                && NoneStale(node.site, r.value.vfio.conversions, node.drivers)
                && SameRecords(node.disk.vfio, r.value.vfio.conversions)
      ensures node.disk == old(node.disk).(vfio := node.disk.vfio) && node.drivers == old(node.drivers)
      ensures node.inUse == old(node.inUse) && node.lost == old(node.lost) && node.spoiled == old(node.spoiled)
      ensures old(node.sane) ==> (node.sane <==> old(Recoverable(node.site, node.World())))
      ensures r.Some? ==> fresh(r.value) && fresh(r.value.ps) && fresh(r.value.vfio) && r.value.node == node
      ensures r.Some? ==> r.value.vfio.hasManager == hasManager
      ensures r.Some? && readable ==>
                && r.value.Valid() && r.value.RebuiltFrom(old(node.disk), node.drivers)
                && node.published == r.value.ps.taints && !node.silent
      ensures r.Some? && !readable ==>
                && node.disk == old(node.disk) && r.value.BuiltFromNothing(discovered)
                && (r.value.vfio.Valid(node)
                    <==> forall n :: n in node.site.fleet ==> OnAmdgpu(node.site, node.drivers, n))
    {
      hide Run, InStep, SiteOk, LedgerOk, Recover, Durable, OnAmdgpu, FreshlyListed, Recoverable, AfterRestart;
      hide Announced, Kept, LedgerDurable, NoneReleased, NoneStale, SameRecords, OnlyStaleDropped;
      hide DeviceState.RebuiltFrom;
      Reboot(node);
      var s := Assemble(node, discovered, hasManager, kmmEnabled, hasRecoverer, nodeName, passthrough);
      readable := s.ReadBack();
      UnreadableIsOkIff(node.site, discovered, node.drivers);
      var announced := s.Announce(readable);
      if announced {
        r := Some(s);
      } else {
        r := None;
      }
    }

    /** The plugin is a new process; whatever it reads back will be its ledger. */
    static ghost method Reboot(node: Node)
      requires node.Valid()
      modifies node`reloading, node`misread, node`saved, node`sane, node`history
      ensures node.Valid() && old(node.history) <= node.history && OrderOk(node.site.cat)
      ensures node.World() == old(node.World()).(reloading := node.disk.fields.reload.Some?, misread := false,
                                                 saved := node.saved, sane := node.sane)
      ensures node.saved == Recover(node.site.cat, node.disk.fields, node.disk.prepared)
      ensures old(node.sane) ==> (node.sane <==> old(Recoverable(node.site, node.World())))
    {
      hide Run, InStep, SiteOk, LedgerOk, Recover, Durable, OnAmdgpu, Recoverable, AfterRestart, LedgerDurable;
      ghost var before := node.World();
      node.CurrentIsDurable();
      SiteInOrder(node.site);
      node.Restarted();
      RestartedWorld(node.site, before);
    }

    /** Both ledgers are what this checkpoint gives: the reservation ledger and the marker as they were
        saved, and the conversions but for those of devices that are on amdgpu. */
    ghost predicate RebuiltFrom(disk: Checkpoint, drivers: map<string, string>)
      reads ps, vfio
    {
      && OrderOk(site.cat) && ps.View() == Recover(site.cat, disk.fields, disk.prepared)
      && ps.memoryReload == disk.fields.reload
      && Kept(vfio.conversions, disk.vfio) && OnlyStaleDropped(site, disk.vfio, vfio.conversions, drivers)
    }

    ghost predicate BuiltFromNothing(discovered: Allocatable)
      reads ps, vfio
    {
      && ps.View() == EMPTY_LEDGER && ps.memoryReload.None?
      && vfio.conversions == map[] && vfio.allocatable == discovered
    }

    static method Assemble(node: Node, discovered: Allocatable, hasManager: bool, kmmEnabled: bool, hasRecoverer: bool,
                           nodeName: string, passthrough: bool)
      returns (s: DeviceState)
      ensures fresh(s) && fresh(s.ps) && fresh(s.vfio) && s.node == node && s.Linked() && s.ps.Tidy()
      ensures s.ps.View() == EMPTY_LEDGER && s.ps.memoryReload.None?
      ensures s.ps.kmmEnabled == kmmEnabled && s.ps.hasRecoverer == hasRecoverer && s.vfio.hasManager == hasManager
      ensures s.nodeName == nodeName && s.passthrough == passthrough
      ensures s.vfio.conversions == map[] && s.vfio.allocatable == discovered
    {
      var ps := new PartitionState(node.site, kmmEnabled, hasRecoverer);
      var vfio := new VfioLedger(node.site, hasManager, discovered);
      s := new DeviceState(node, ps, vfio, nodeName, passthrough);
    }

    /** Rebuild both ledgers from the checkpoint, if it can be read. */
    method ReadBack() returns (readable: bool)
      requires Linked() && node.Valid() && OrderOk(site.cat)
      requires ps.View() == EMPTY_LEDGER && ps.memoryReload.None? && ps.Tidy() && vfio.conversions == map[]
      requires FreshlyListed(site, vfio.allocatable, node.drivers)
      modifies ps, vfio, node`disk, node`saved, node`history, node.faults
      ensures node.Valid() && old(node.history) <= node.history && ps.Tidy()
      ensures old(node.faults.count) <= node.faults.count
      ensures node.World() == old(node.World()).(disk := old(node.disk).(vfio := node.disk.vfio))
      ensures readable ==>
                && vfio.Valid(node) && Kept(vfio.conversions, node.disk.vfio)
                && ps.View() == Recover(site.cat, node.disk.fields, node.disk.prepared)
                && ps.memoryReload == node.disk.fields.reload && RebuiltFrom(old(node.disk), node.drivers)
      ensures !readable ==> node.World() == old(node.World()) && BuiltFromNothing(old(vfio.allocatable))
      ensures node.faults.count == old(node.faults.count) ==>
                && readable && NoneStale(site, vfio.conversions, node.drivers)
                && SameRecords(node.disk.vfio, vfio.conversions)
    {
      hide Run, SiteOk, LedgerOk, Recover, OnAmdgpu, FreshlyListed, OrderOk, Kept, NoneStale, SameRecords;
      hide OnlyStaleDropped;
      var onDisk := node.ReadCheckpoint();
      readable := onDisk.Some?;
      if readable {
        Rebuild(onDisk.value);
      }
    }

    method Rebuild(onDisk: Checkpoint)
      requires Linked() && node.Valid() && OrderOk(site.cat) && onDisk == node.disk
      requires ps.View() == EMPTY_LEDGER && ps.memoryReload.None? && ps.Tidy() && vfio.conversions == map[]
      requires FreshlyListed(site, vfio.allocatable, node.drivers)
      modifies ps, vfio, node`disk, node`saved, node`history, node.faults
      ensures vfio.Valid(node) && old(node.history) <= node.history && ps.Tidy()
      ensures old(node.faults.count) <= node.faults.count
      ensures node.World() == old(node.World()).(disk := onDisk.(vfio := node.disk.vfio))
      ensures Kept(vfio.conversions, node.disk.vfio) && Kept(vfio.conversions, onDisk.vfio)
      ensures ps.View() == Recover(site.cat, onDisk.fields, onDisk.prepared)
      ensures ps.memoryReload == onDisk.fields.reload
      ensures OnlyStaleDropped(site, onDisk.vfio, vfio.conversions, node.drivers)
      ensures node.faults.count == old(node.faults.count) ==>
                && NoneStale(site, vfio.conversions, node.drivers)
                && SameRecords(node.disk.vfio, vfio.conversions)
    {
      hide Run, SiteOk, LedgerOk, Recover, OnAmdgpu, FreshlyListed, OrderOk, Kept, NoneStale, SameRecords;
      hide OnlyStaleDropped;
      ps.RecoverFromCheckpoint(onDisk.fields, onDisk.prepared);
      RecoverConversions(onDisk);
    }

    /** Publish what was read back; from then on calls are served. */
    method Announce(readable: bool) returns (ok: bool)
      requires Linked() && node.Valid() && ps.Tidy()
      requires readable ==>
                 && vfio.Valid(node) && Kept(vfio.conversions, node.disk.vfio)
                 && node.saved == ps.View() && node.disk.fields.reload == ps.memoryReload
                 && (ps.memoryReload.None? ==> !node.reloading)
      modifies node`published, node`silent, node`history, node.faults
      ensures node.Valid() && old(node.history) <= node.history && old(node.faults.count) <= node.faults.count
      ensures node.World() == old(node.World()).(published := node.published, silent := node.silent)
      ensures ok ==> node.published == ps.taints && !node.silent
      ensures node.faults.count == old(node.faults.count) ==> ok
      ensures ok && readable ==> Valid()
    {
      hide Run, SiteOk, LedgerOk, InStep, Durable, Kept, NoneReleased, Matched;
      ok := node.Publish(ps.taints);
      if ok && readable {
        node.CurrentIsDurable();
        StartedInStep(site, node.World());
      }
    }

    /** Rebuild the conversion ledger, and drop the records of devices that are back. */
    method RecoverConversions(onDisk: Checkpoint)
      requires Linked() && node.Valid() && onDisk == node.disk && vfio.conversions == map[]
      requires FreshlyListed(site, vfio.allocatable, node.drivers)
      modifies vfio, node`disk, node`saved, node`history, node.faults
      ensures vfio.Valid(node) && old(node.history) <= node.history && Kept(vfio.conversions, node.disk.vfio)
      ensures old(node.faults.count) <= node.faults.count
      ensures node.World() == old(node.World()).(disk := onDisk.(vfio := node.disk.vfio))
      ensures Kept(vfio.conversions, onDisk.vfio)
      ensures OnlyStaleDropped(site, onDisk.vfio, vfio.conversions, node.drivers)
      ensures node.faults.count == old(node.faults.count) ==>
                && NoneStale(site, vfio.conversions, node.drivers)
                && SameRecords(node.disk.vfio, vfio.conversions)
    {
      hide Run, SiteOk, LedgerOk, OnAmdgpu, FreshlyListed, NoneStale;
      var changed := vfio.RecoverVfioConversions(node, onDisk.vfio);
      if changed {
        var _, _ := SaveConversions(onDisk);
      }
    }
  }

  /** A GPU that was away for a claim when the plugin crashed: once the plugin is started again and
      the claim is unprepared, the GPU is back on amdgpu, listed under its own name, and has no
      record left; nor does the disk have one for a claim that was prepared. This needs nothing of
      the reservation ledger. */
  method UnprepareAfterCrash(node: Node, discovered: Allocatable, hasManager: bool, kmmEnabled: bool,
                             hasRecoverer: bool,
                             nodeName: string, passthrough: bool, uid: string, device: string)
    returns (s: Option<DeviceState>, ok: bool)
    requires node.Valid() && FreshlyListed(node.site, discovered, node.drivers)
    requires Records(node.disk.vfio, uid, device)
    modifies node, node.faults
    ensures node.Valid() && old(node.history) <= node.history
    ensures node.faults.count == old(node.faults.count) && hasManager ==> ok
    ensures old(node.faults.count) <= node.faults.count
    ensures ok ==>
              && s.Some? && s.value.node == node && s.value.Valid()
              && device in node.site.fleet && OnAmdgpu(node.site, node.drivers, device)
              && device in s.value.vfio.allocatable
              && s.value.vfio.allocatable[device] == GpuEntry(node.site.fleet[device])
              && !Recorded(s.value.vfio.conversions, device)
              && (old(IsPrepared(node.disk.prepared, uid)) ==> !Recorded(node.disk.vfio, device))
  {
    hide Run, InStep, SiteOk, LedgerOk, Durable, OnAmdgpu, FreshlyListed, Recover, Recoverable, NoneReleased, Matched;
    ghost var records := node.disk.vfio;
    node.CurrentIsDurable();
    DiskIsOk(node.site, node.World());
    RecordedInFleet(node.site, records, uid, device);
    ok := false;
    var readable: bool;
    s, readable := DeviceState.Start(node, discovered, hasManager, kmmEnabled, hasRecoverer, nodeName, passthrough);
    if s.None? || !readable {
      return;
    }
    ghost var recovered := s.value.vfio.conversions;
    ok := s.value.Unprepare(uid);
    if ok {
      OnlyOwner(node.site, records, recovered, s.value.vfio.conversions, uid, device);
      RecordIffConverted(node.site, s.value.vfio.allocatable, s.value.vfio.conversions, node.drivers, device);
      UnrecordedIsListed(node.site, s.value.vfio.allocatable, s.value.vfio.conversions, node.drivers, device);
    }
  }

  /** A marker is given up, or its reload waited for, only on behalf of a claim of its own mode;
      `held` says whether the claim is left with its reservation. */
  ghost predicate FollowsMarker(site: Site, shares: seq<Share>, before: Option<string>, after: Option<string>,
                                held: bool) {
    && (after != before ==> shares != [])
    && (before.Some? && shares != [] && (after != before || held) ==> OfMode(site, shares, before.value))
  }

  ghost predicate OfMode(site: Site, shares: seq<Share>, mode: string) {
    forall s :: s in shares ==> site.cat.parse(s.device).Some? && site.cat.parse(s.device).value.memory == mode
  }

  /** How the hardware phase for all shares ends if nothing stands in its way: the first device
      decides, since all are of one memory mode. */
  function UnhinderedAll(site: Site, canReload: bool, marker: Option<string>, hw: Hardware, shares: seq<Share>):
    Applied
  {
    if shares == [] then Done else Unhindered(site, canReload, marker, hw, shares[0].device)
  }

  function StageOf(applied: Applied): Stage {
    match applied
    case Done => Reserved
    case Pending => Waiting
    case Failed => GaveUp
  }

  /** How the partition phases end if nothing stands in their way. */
  function UnhinderedStage(site: Site, canReload: bool, l: Ledger, marker: Option<string>, hw: Hardware, uid: string):
    Stage
  {
    if !ReserveClaim(l, site.cat, uid, site.plan(uid)).ok then Conflict
    else StageOf(UnhinderedAll(site, canReload, marker, hw, site.plan(uid)))
  }

  /** A checkpoint was written, or tried to be, after the last poll and the last reload since then,
      and what it was written for is on disk unless that failed. */
  ghost predicate WrittenDown(before: seq<Event>, after: seq<Event>, onDisk: bool) {
    exists k ::
      && |before| <= k < |after| && after[k].step.Save? && (after[k].step.ok ==> onDisk)
      && forall i :: k < i < |after| ==> !after[i].step.Poll? && !after[i].step.Reload?
  }

  lemma SavedNow(a: seq<Event>, b: seq<Event>, c: seq<Event>, ok: bool, onDisk: bool)
    requires a <= b && |c| == |b| + 1 && c[|b|].step == Save(ok) && (ok ==> onDisk)
    ensures WrittenDown(a, c, onDisk)
  {
  }

  lemma StaysWritten(a: seq<Event>, b: seq<Event>, c: seq<Event>, d: seq<Event>, before: bool, after: bool)
    requires a <= b && WrittenDown(b, c, before) && (before ==> after) && c <= d
    requires forall i :: |c| <= i < |d| ==> !d[i].step.Poll? && !d[i].step.Reload?
    ensures WrittenDown(a, d, after)
  {
    var k :| |b| <= k < |c| && c[k].step.Save? && (c[k].step.ok ==> before)
             && forall i :: k < i < |c| ==> !c[i].step.Poll? && !c[i].step.Reload?;
    assert d[k] == c[k];
  }

  /** Once the first device of a claim is in place, the memory phase of the others is done. */
  lemma AlreadyDone(site: Site, l: Ledger, marker: Option<string>, w: World, uid: string, names: seq<string>, i: nat,
                    canReload: bool)
    requires SiteOk(site) && InStep(site, l, marker, w) && w.sane && uid in l.claims && marker.None?
    requires 0 < i < |names| && AllInPlace(site, w.hw, names[..i])
    requires forall d :: d in names ==> exists j :: 0 <= j < |site.plan(uid)| && site.plan(uid)[j].device == d
    ensures Unhindered(site, canReload, marker, w.hw, names[i]) == Done
  {
    hide Sound, Protected, SlotsKept, Converged;
    assert names[i] in names && names[0] in names && names[..i][0] == names[0];
    var j :| 0 <= j < |site.plan(uid)| && site.plan(uid)[j].device == names[0];
    var k :| 0 <= k < |site.plan(uid)| && site.plan(uid)[k].device == names[i];
    DevicesAgree(l, site, uid, site.plan(uid)[j], site.plan(uid)[k]);
    DevicesAgree(l, site, uid, site.plan(uid)[k], site.plan(uid)[j]);
  }

  function AnswerTo(stage: Stage): Answer
    requires stage != Reserved
  {
    match stage
    case Conflict => Conflicting
    case Waiting => Deferred
    case GaveUp => Aborted
  }

  /** The ledger and the marker before and after a claim got its reservation. */
  ghost predicate HeldAs(site: Site, uid: string, l: Ledger, before: Option<string>, m: Ledger, after: Option<string>,
                       sane: bool) {
    && ReserveClaim(l, site.cat, uid, site.plan(uid)).ok && uid in m.claims
    && m == ReserveClaim(l, site.cat, uid, site.plan(uid)).ledger
    && (sane ==> FollowsMarker(site, site.plan(uid), before, after, true))
  }

  /** What each way for Prepare to end means for the ledger and the marker. */
  ghost predicate Ended(site: Site, uid: string, r: Answer, l: Ledger, before: Option<string>, m: Ledger,
                        after: Option<string>, sane: bool) {
    && (r.Refused? || r.Stranded? ==> m == l && after == before)
    && (r.Conflicting? ==> !ReserveClaim(l, site.cat, uid, site.plan(uid)).ok)
    && (r.Conflicting? && sane ==> m == l && uid !in m.claims && after == before)
    && (r.Aborted? && sane ==> m == ReleaseClaim(l, site.cat, uid, site.plan(uid)).ledger && uid !in m.claims)
    && (r.Granted? || r.Deferred? ==> HeldAs(site, uid, l, before, m, after, sane))
    && (r.Deferred? ==> after.Some?)
    && (r.Granted? && site.plan(uid) != [] ==> after.None?)
    && (sane ==> FollowsMarker(site, site.plan(uid), before, after, r.Granted? || r.Deferred?))
  }

  lemma NothingEnded(site: Site, uid: string, l: Ledger, marker: Option<string>, sane: bool)
    ensures Ended(site, uid, Refused, l, marker, l, marker, sane)
    ensures Ended(site, uid, Stranded, l, marker, l, marker, sane)
  {
  }

  /** Some device of an earlier attempt could not be returned, and none was converted since. */
  ghost predicate StillStranded(before: Conversions, after: Conversions, uid: string) {
    && (exists n :: Records(after, uid, n))
    && (forall n :: Records(after, uid, n) ==> Records(before, uid, n))
  }

  /** At some point since then, all devices that were recorded for the claim were on amdgpu. */
  ghost predicate ReturnedSince(site: Site, start: World, conversions: Conversions, uid: string, before: seq<Event>,
                                after: seq<Event>) {
    exists k :: |before| <= k <= |after| && Back(site, conversions, uid, WorldAt(start, after, k).drivers)
  }

  ghost predicate Back(site: Site, conversions: Conversions, uid: string, drivers: map<string, string>) {
    forall n :: Records(conversions, uid, n) && n in site.fleet ==> OnAmdgpu(site, drivers, n)
  }

  lemma StartsOk(site: Site, allocatable: Allocatable, conversions: Conversions, drivers: map<string, string>)
    requires LedgerOk(site, allocatable, conversions, drivers)
    ensures RecordsOk(site, conversions)
  {
  }

  lemma ReturnedNow(site: Site, allocatable: Allocatable, before: Conversions, after: Conversions, start: World,
                    a: seq<Event>, b: seq<Event>, v: World, w: World, uid: string)
    requires RecordsOk(site, before) && LedgerOk(site, allocatable, after, w.drivers)
    requires Fewer(before, after, uid) && forall n :: !Records(after, uid, n)
    requires a <= b && WorldAt(start, b, |b|) == w
    ensures ReturnedSince(site, start, before, uid, a, b)
  {
    hide Listed;
    forall n | Records(before, uid, n) && n in site.fleet
      ensures OnAmdgpu(site, w.drivers, n)
    {
      assert !Recorded(after, n);
    }
    assert Back(site, before, uid, WorldAt(start, b, |b|).drivers);
  }

  lemma StaysReturned(site: Site, start: World, conversions: Conversions, uid: string, a: seq<Event>, b: seq<Event>,
                      c: seq<Event>)
    requires a <= b <= c
    ensures ReturnedSince(site, start, conversions, uid, a, b) ==> ReturnedSince(site, start, conversions, uid, a, c)
  {
    hide Back;
    if ReturnedSince(site, start, conversions, uid, a, b) {
      var k :| |a| <= k <= |b| && Back(site, conversions, uid, WorldAt(start, b, k).drivers);
      assert WorldAt(start, c, k) == WorldAt(start, b, k);
    }
  }

  lemma FinishedIsEnded(site: Site, l: Ledger, before: Option<string>, w: World, uid: string, r: Answer, held: Ledger,
                        m: Ledger, after: Option<string>)
    requires SiteOk(site) && InStep(site, l, before, w)
    requires HeldAs(site, uid, l, before, held, after, w.sane) || (held == l && after == before && r.Aborted?)
    requires r.Granted? || r.Aborted?
    requires r.Granted? ==> m == held && (site.plan(uid) != [] ==> after.None?)
    requires r.Aborted? && w.sane ==>
               m == ReleaseClaim(held, site.cat, uid, site.plan(uid)).ledger && uid !in m.claims
    ensures Ended(site, uid, r, l, before, m, after, w.sane)
  {
    hide InStep, SiteOk, ReserveClaim, ReleaseClaim, OfMode;
    if w.sane {
      ReserveThenReleaseAt(site, l, before, w, uid);
    }
  }

  lemma OnlyOwner(site: Site, records: Conversions, recovered: Conversions, after: Conversions, uid: string,
                  device: string)
    requires RecordsOk(site, records) && Records(records, uid, device)
    requires Kept(recovered, records) && SameOthers(recovered, after, uid)
    requires NoRecords(after, uid)
    ensures !Recorded(after, device)
  {
  }

  lemma UnrecordedIsListed(site: Site, allocatable: Allocatable, conversions: Conversions, drivers: map<string, string>,
                           device: string)
    requires LedgerOk(site, allocatable, conversions, drivers) && device in site.fleet && !Recorded(conversions, device)
    ensures device in allocatable && allocatable[device] == GpuEntry(site.fleet[device])
    ensures OnAmdgpu(site, drivers, device)
  {
  }

  /** The slice was published, or at least tried to be, since then. */
  ghost predicate Published(before: seq<Event>, after: seq<Event>) {
    exists k :: |before| <= k < |after| && after[k].step.Publish?
  }

  lemma PublishedWithin(a: seq<Event>, b: seq<Event>, c: seq<Event>, d: seq<Event>)
    requires a <= b <= c <= d
    ensures Published(b, c) ==> Published(a, d)
  {
    if Published(b, c) {
      var k :| |b| <= k < |c| && c[k].step.Publish?;
      assert d[k] == c[k];
    }
  }

  /** Every device of this driver that was allocated is listed. */
  ghost predicate AllKnown(results: seq<Naming.Result>, allocatable: Allocatable) {
    forall r :: r in results && r.driver == DRIVER_NAME ==> r.device in allocatable
  }

  /** The parameters are valid, of a kind that can be applied, and do not need a missing manager. */
  predicate CanApply(p: Parameters, hasManager: bool) {
    p.valid && !p.kind.OtherKind? && (p.kind.VfioKind? ==> hasManager)
  }

  ghost predicate AllFit(configs: seq<Config>, chosen: Choice, hasManager: bool) {
    forall i :: 0 <= i < |chosen| && chosen[i].Some? && chosen[i].value < |configs| ==>
      CanApply(configs[chosen[i].value].parameters, hasManager)
  }

  /** The claim asks for nothing that cannot be had: it is allocated, its configs decode, its devices
      are listed, and the configs that govern them can be applied. */
  ghost predicate Grantable(claim: ResourceClaim, start: Allocatable, passthrough: bool, hasManager: bool) {
    && claim.allocation.Some? && WellFormed(DRIVER_NAME, claim.allocation.value.configs)
    && AllKnown(claim.allocation.value.results, start)
    && exists chosen: Choice, after: Allocatable ::
         && |chosen| == |claim.allocation.value.results|
         && ChosenSoFar(start, after, claim.allocation.value.results, ConfigsFor(claim.allocation.value.configs),
                        passthrough, chosen)
         && AllFit(ConfigsFor(claim.allocation.value.configs), chosen, hasManager)
  }

  lemma NotGrantable(claim: ResourceClaim, start: Allocatable, passthrough: bool, hasManager: bool)
    ensures Grantable(claim, start, passthrough, hasManager) ==>
              && claim.allocation.Some? && WellFormed(DRIVER_NAME, claim.allocation.value.configs)
              && AllKnown(claim.allocation.value.results, start)
  {
  }

  lemma GrantableIff(claim: ResourceClaim, start: Allocatable, after: Allocatable, passthrough: bool, hasManager: bool,
                     chosen: Choice)
    requires claim.allocation.Some? && WellFormed(DRIVER_NAME, claim.allocation.value.configs)
    requires AllKnown(claim.allocation.value.results, start) && |chosen| == |claim.allocation.value.results|
    requires ChosenSoFar(start, after, claim.allocation.value.results, ConfigsFor(claim.allocation.value.configs),
                         passthrough, chosen)
    ensures Grantable(claim, start, passthrough, hasManager)
            <==> AllFit(ConfigsFor(claim.allocation.value.configs), chosen, hasManager)
  {
    hide ChosenSoFar, AllFit, WellFormed, ConfigsFor, AllKnown;
    var results, configs := claim.allocation.value.results, ConfigsFor(claim.allocation.value.configs);
    if Grantable(claim, start, passthrough, hasManager) {
      var other: Choice, then': Allocatable :|
        && |other| == |results| && ChosenSoFar(start, then', results, configs, passthrough, other)
        && AllFit(configs, other, hasManager);
      ChoiceIsUnique(start, after, then', results, configs, passthrough, chosen, other, |chosen|);
      assert chosen[..|chosen|] == chosen && other[..|chosen|] == other;
    }
  }

  /** Which configs are chosen is settled by the devices as they are listed at first. */
  lemma {:induction false} ChoiceIsUnique(start: Allocatable, a: Allocatable, b: Allocatable,
                                          results: seq<Naming.Result>, configs: seq<Config>, passthrough: bool,
                                          chosen: Choice, other: Choice, n: nat)
    requires ChosenSoFar(start, a, results, configs, passthrough, chosen)
    requires ChosenSoFar(start, b, results, configs, passthrough, other)
    requires |chosen| == |other| == |results| && n <= |chosen|
    ensures chosen[..n] == other[..n]
  {
    hide Last, Turned;
    if n > 0 {
      ChoiceIsUnique(start, a, b, results, configs, passthrough, chosen, other, n - 1);
      assert WellChosen(start, results, configs, passthrough, chosen, n - 1);
      assert WellChosen(start, results, configs, passthrough, other, n - 1);
      TurnedAlike(results, configs, chosen, other, n - 1, results[n - 1].device);
    }
    assert n == |chosen| ==> chosen[..n] == chosen && other[..n] == other;
  }

  lemma TurnedAlike(results: seq<Naming.Result>, configs: seq<Config>, chosen: Choice, other: Choice, n: nat,
                    device: string)
    requires n <= |chosen| && n <= |other| && chosen[..n] == other[..n]
    ensures Turned(results, configs, chosen, n, device) <==> Turned(results, configs, other, n, device)
  {
    forall k | 0 <= k < n
      ensures chosen[k] == other[k]
    {
      assert chosen[k] == chosen[..n][k] && other[k] == other[..n][k];
    }
  }

  /** What Prepare answers, once the partitions are held or not. */
  ghost predicate AnswersAs(r: Answer, claim: ResourceClaim, stage: Stage, start: Allocatable, passthrough: bool,
                            hasManager: bool) {
    if claim.allocation.None? then r.Aborted?
    else if stage != Reserved then r == AnswerTo(stage)
    else if Grantable(claim, start, passthrough, hasManager) then r.Granted? else r.Aborted?
  }

  /** Some device that is recorded for the claim cannot be returned without a manager. */
  ghost predicate StuckFor(allocatable: Allocatable, conversions: Conversions, drivers: map<string, string>,
                           uid: string) {
    exists n :: Records(conversions, uid, n) && Stuck(allocatable, drivers, n)
  }

  /** Some device the claim is prepared with, or that is recorded for it, cannot be. */
  ghost predicate StuckOf(allocatable: Allocatable, conversions: Conversions, drivers: map<string, string>, uid: string,
                          prepared: PreparedClaims) {
    || StuckFor(allocatable, conversions, drivers, uid)
    || (IsPrepared(prepared, uid) && exists n :: Names(prepared[uid], n) && Stuck(allocatable, drivers, n))
  }

  lemma NoneRecorded(conversions: Conversions, uid: string)
    requires NoRecords(conversions, uid)
    ensures forall n :: !Records(conversions, uid, n)
  {
  }

  /** Every result that chose this config is a VFIO device. */
  ghost predicate AllVfio(allocatable: Allocatable, results: seq<Naming.Result>, chosen: Choice, c: nat) {
    forall i :: 0 <= i < |results| && i < |chosen| && chosen[i] == Some(c) ==>
      results[i].device in allocatable && allocatable[results[i].device].VfioEntry?
  }

  /** Every result that a VFIO config governs is a VFIO device by now. */
  ghost predicate VfioAreListed(allocatable: Allocatable, results: seq<Naming.Result>, configs: seq<Config>,
                                chosen: Choice) {
    forall i :: 0 <= i < |results| && i < |chosen| && ChoosesVfio(configs, chosen[i]) ==>
      results[i].device in allocatable && allocatable[results[i].device].VfioEntry?
  }

  lemma VfioOfOne(allocatable: Allocatable, results: seq<Naming.Result>, configs: seq<Config>, chosen: Choice, c: nat)
    requires c < |configs|
    ensures VfioAreListed(allocatable, results, configs, chosen) && configs[c].parameters.kind.VfioKind? ==>
              AllVfio(allocatable, results, chosen, c)
  {
  }

  lemma ChosenAreListed(start: Allocatable, allocatable: Allocatable, results: seq<Naming.Result>, configs: seq<Config>,
                        passthrough: bool, chosen: Choice)
    requires ChosenSoFar(start, allocatable, results, configs, passthrough, chosen) && |chosen| == |results|
    ensures VfioAreListed(allocatable, results, configs, chosen)
  {
    forall i | 0 <= i < |results| && ChoosesVfio(configs, chosen[i])
      ensures results[i].device in allocatable && allocatable[results[i].device].VfioEntry?
    {
      assert WellChosen(start, results, configs, passthrough, chosen, i);
      assert results[i].device in start;
      assert Turned(results, configs, chosen, |chosen|, results[i].device);
    }
  }

  predicate IsBound(allocatable: Allocatable, drivers: map<string, string>, device: string) {
    device in allocatable && allocatable[device].VfioEntry? && Read(drivers, allocatable[device].pci) == VFIO_PCI
  }

  /** Every device that a VFIO config governs is bound to vfio-pci. */
  ghost predicate Bound(results: seq<Naming.Result>, configs: seq<Config>, chosen: Choice, allocatable: Allocatable,
                        drivers: map<string, string>) {
    forall i :: 0 <= i < |results| && i < |chosen| && ChoosesVfio(configs, chosen[i]) ==>
      IsBound(allocatable, drivers, results[i].device)
  }

  ghost predicate StaysBound(a: map<string, string>, b: map<string, string>) {
    forall p :: Read(a, p) == VFIO_PCI ==> Read(b, p) == VFIO_PCI
  }

  /** Every record of the claim is of a device that a config turned. */
  ghost predicate AllTurned(conversions: Conversions, uid: string, results: seq<Naming.Result>, configs: seq<Config>,
                            chosen: Choice) {
    forall n :: Records(conversions, uid, n) ==> Turned(results, configs, chosen, |chosen|, n)
  }

  /** Every device that is recorded because a config turned it is prepared. */
  lemma RecordedArePrepared(site: Site, slots: Slots, uid: string, results: seq<Naming.Result>, configs: seq<Config>,
                            chosen: Choice, prepared: seq<PreparedDevice>, at: seq<nat>, conversions: Conversions)
    requires Prepares(site, slots, uid, results, chosen, prepared, at)
    requires AllTurned(conversions, uid, results, configs, chosen)
    ensures forall n :: Records(conversions, uid, n) ==> Names(prepared, n)
  {
    hide Prepares, Turned, Names, Records;
    forall n | Records(conversions, uid, n)
      ensures Names(prepared, n)
    {
      TurnedIsPrepared(site, slots, uid, results, configs, chosen, prepared, at, n);
    }
  }

  /** Of the first n results, those that chose this config are bound, which takes a manager. */
  ghost predicate BoundSoFar(allocatable: Allocatable, drivers: map<string, string>, results: seq<Naming.Result>,
                             chosen: Choice, c: nat, n: nat, hasManager: bool)
    requires n <= |results| == |chosen|
  {
    forall i :: 0 <= i < n && chosen[i] == Some(c) ==> hasManager && IsBound(allocatable, drivers, results[i].device)
  }

  /** The configs of all results but those still to do can be applied, and their devices are bound. */
  ghost predicate AppliedBut(results: seq<Naming.Result>, configs: seq<Config>, chosen: Choice,
                             allocatable: Allocatable, drivers: map<string, string>, hasManager: bool, todo: set<nat>) {
    && |results| == |chosen|
    && forall i :: 0 <= i < |chosen| && chosen[i].Some? && chosen[i].value < |configs| && chosen[i].value !in todo ==>
      && CanApply(configs[chosen[i].value].parameters, hasManager)
      && (ChoosesVfio(configs, chosen[i]) ==> IsBound(allocatable, drivers, results[i].device))
  }

  lemma NoneApplied(results: seq<Naming.Result>, configs: seq<Config>, chosen: Choice, allocatable: Allocatable,
                    drivers: map<string, string>, hasManager: bool)
    requires |results| == |chosen|
    ensures AppliedBut(results, configs, chosen, allocatable, drivers, hasManager,
                       set i | 0 <= i < |chosen| && chosen[i].Some? :: chosen[i].value)
  {
  }

  lemma AppliedOne(results: seq<Naming.Result>, configs: seq<Config>, chosen: Choice, allocatable: Allocatable,
                   before: map<string, string>, after: map<string, string>, hasManager: bool, todo: set<nat>, c: nat)
    requires AppliedBut(results, configs, chosen, allocatable, before, hasManager, todo) && c < |configs|
    requires StaysBound(before, after) && CanApply(configs[c].parameters, hasManager)
    requires configs[c].parameters.kind.VfioKind? ==>
               BoundSoFar(allocatable, after, results, chosen, c, |results|, hasManager)
    ensures AppliedBut(results, configs, chosen, allocatable, after, hasManager, todo - {c})
  {
    hide CanApply;
  }

  lemma AllApplied(results: seq<Naming.Result>, configs: seq<Config>, chosen: Choice, allocatable: Allocatable,
                   drivers: map<string, string>, hasManager: bool)
    requires AppliedBut(results, configs, chosen, allocatable, drivers, hasManager, {})
    ensures AllFit(configs, chosen, hasManager) && Bound(results, configs, chosen, allocatable, drivers)
  {
  }

  lemma NotAllFit(configs: seq<Config>, chosen: Choice, c: nat, hasManager: bool)
    requires c < |configs| && Some(c) in chosen
    ensures AllFit(configs, chosen, hasManager) ==> CanApply(configs[c].parameters, hasManager)
  {
  }

  lemma UnmovedAreRest(site: Site, conversions: Conversions, drivers: map<string, string>, claim: string)
    requires Unmoved(site, conversions, drivers, claim)
    ensures RestOnAmdgpu(site, conversions, drivers, claim, [])
  {
  }

  lemma NoneBound(allocatable: Allocatable, drivers: map<string, string>, results: seq<Naming.Result>, chosen: Choice,
                  c: nat, hasManager: bool)
    requires |results| == |chosen|
    ensures BoundSoFar(allocatable, drivers, results, chosen, c, 0, hasManager)
  {
  }

  lemma OneMoreBound(allocatable: Allocatable, before: map<string, string>, after: map<string, string>,
                     results: seq<Naming.Result>, chosen: Choice, c: nat, n: nat, hasManager: bool)
    requires n < |results| == |chosen| && StaysBound(before, after)
    requires BoundSoFar(allocatable, before, results, chosen, c, n, hasManager)
    requires chosen[n] == Some(c) ==> hasManager && IsBound(allocatable, after, results[n].device)
    ensures BoundSoFar(allocatable, after, results, chosen, c, n + 1, hasManager)
  {
  }

  lemma StaysBoundStill(a: map<string, string>, b: map<string, string>, c: map<string, string>)
    requires StaysBound(a, b) && StaysBound(b, c)
    ensures StaysBound(a, c)
  {
  }

  lemma RestBesides(site: Site, conversions: Conversions, drivers: map<string, string>, claim: string,
                   devices: seq<string>, device: string)
    requires RestOnAmdgpu(site, conversions, drivers, claim, devices)
    ensures RestOnAmdgpu(site, conversions, drivers, claim, devices + [device])
  {
  }

  lemma BoundNow(allocatable: Allocatable, before: map<string, string>, after: map<string, string>, device: string)
    requires device in allocatable && allocatable[device].VfioEntry?
    requires Elsewhere(before, after, allocatable[device].pci) && Read(after, allocatable[device].pci) == VFIO_PCI
    ensures IsBound(allocatable, after, device) && StaysBound(before, after)
  {
  }

  lemma StaysBoundItself(drivers: map<string, string>)
    ensures StaysBound(drivers, drivers)
  {
  }

  /** The claims have records of the same devices. */
  ghost predicate SameRecords(a: Conversions, b: Conversions) {
    forall c, n :: Records(a, c, n) <==> Records(b, c, n)
  }

  /** Every record that is gone was of a device that is on amdgpu. */
  ghost predicate OnlyStaleDropped(site: Site, before: Conversions, after: Conversions, drivers: map<string, string>) {
    forall c, n :: Records(before, c, n) && !Records(after, c, n) ==> n in site.fleet && OnAmdgpu(site, drivers, n)
  }

  /** The records of other claims are the same. */
  ghost predicate SameOthers(a: Conversions, b: Conversions, claim: string) {
    forall c, n :: c != claim ==> (Records(a, c, n) <==> Records(b, c, n))
  }

  /** Every device recorded for the claim is still on amdgpu. */
  ghost predicate Unmoved(site: Site, conversions: Conversions, drivers: map<string, string>, claim: string) {
    forall n :: Records(conversions, claim, n) && n in site.fleet ==> OnAmdgpu(site, drivers, n)
  }

  /** Every record is on disk, except for listed claim's devices that were never touched. */
  ghost predicate Saved(conversions: Conversions, disk: Conversions, claim: string, devices: seq<string>) {
    forall c, n :: Records(conversions, c, n) && (c != claim || n in devices) ==> Records(disk, c, n)
  }

  lemma OthersKept(before: Conversions, after: Conversions, disk: Conversions, claim: string)
    requires Kept(before, disk) && SameOthers(before, after, claim)
    ensures Saved(after, disk, claim, []) && (NoRecords(after, claim) ==> Kept(after, disk))
  {
  }

  lemma KeptIsSaved(conversions: Conversions, disk: Conversions, claim: string, devices: seq<string>)
    requires Kept(conversions, disk)
    ensures Saved(conversions, disk, claim, devices)
  {
  }

  lemma NothingSaved(site: Site, conversions: Conversions, disk: Conversions, drivers: map<string, string>,
                     claim: string)
    requires Kept(conversions, disk) && forall n :: !Records(conversions, claim, n)
    ensures RestOnAmdgpu(site, conversions, drivers, claim, []) && Saved(conversions, disk, claim, [])
    ensures SameOthers(conversions, conversions, claim)
  {
  }

  lemma SavedIsOnDisk(conversions: Conversions, disk: Conversions, claim: string, devices: seq<string>)
    requires Saved(conversions, disk, claim, devices)
    ensures OnDisk(conversions, disk, devices)
  {
    forall n | n in devices && Recorded(conversions, n)
      ensures Recorded(disk, n)
    {
      var c :| Records(conversions, c, n);
      assert Records(disk, c, n);
    }
  }

  lemma KeptAfterRelease(before: Conversions, after: Conversions, disk: Conversions, claim: string,
                         devices: seq<string>)
    requires Saved(before, disk, claim, devices) && Fewer(before, after, claim)
    requires forall n :: Records(after, claim, n) ==> n in devices
    ensures Kept(after, disk) && SameOthers(before, after, claim)
  {
  }

  lemma OwnedApart(prepared: PreparedClaims, disk: Conversions, before: Conversions, after: Conversions, claim: string)
    requires Owned(prepared, disk) && Kept(before, disk) && SameOthers(before, after, claim)
    requires !IsPrepared(prepared, claim)
    ensures Owned(prepared, after)
  {
  }

  lemma ChoicesAreInRange(start: Allocatable, allocatable: Allocatable, results: seq<Result>, configs: seq<Config>,
                          passthrough: bool, chosen: Choice)
    requires ChosenSoFar(start, allocatable, results, configs, passthrough, chosen)
    ensures forall i :: 0 <= i < |chosen| && chosen[i].Some? ==> chosen[i].value < |configs|
  {
    hide Turned;
    forall i | 0 <= i < |chosen| && chosen[i].Some?
      ensures chosen[i].value < |configs|
    {
      assert WellChosen(start, results, configs, passthrough, chosen, i);
    }
  }

  // ---------- lemmas for finishing ----------

  lemma AllRecordsOnDisk(conversions: Conversions, disk: Conversions, devices: seq<string>)
    requires Kept(conversions, disk)
    ensures OnDisk(conversions, disk, devices)
  {
    forall n | Recorded(conversions, n)
      ensures Recorded(disk, n)
    {
      var c :| Records(conversions, c, n);
      assert Records(disk, c, n);
    }
  }

  lemma NamedMayMove(site: Site, conversions: Conversions, drivers: map<string, string>, claim: string,
                     devices: seq<string>)
    requires forall n :: Records(conversions, claim, n) ==> n in devices
    ensures RestOnAmdgpu(site, conversions, drivers, claim, devices)
  {
  }

  lemma KeptWhenFewer(before: Conversions, after: Conversions, disk: Conversions, claim: string)
    requires Kept(before, disk) && Fewer(before, after, claim)
    ensures Kept(after, disk) && SameOthers(before, after, claim)
  {
  }

  lemma KeptItself(conversions: Conversions)
    ensures Kept(conversions, conversions)
  {
  }

  lemma DriversInStep(site: Site, l: Ledger, marker: Option<string>, v: World, w: World)
    requires InStep(site, l, marker, v) && w == v.(drivers := w.drivers, disk := v.disk.(vfio := w.disk.vfio))
    ensures InStep(site, l, marker, w)
  {
    hide SlotsKept;
    InStepElsewhere(site, l, marker, v, w);
  }

  /** The devices that were put together list the claim's shares and name their slots. */
  lemma PreparedIsSound(site: Site, node: string, l: Ledger, marker: Option<string>, w: World, claim: ResourceClaim,
                        start: Allocatable, allocatable: Allocatable, passthrough: bool, chosen: Choice,
                        devices: seq<PreparedDevice>, at: seq<nat>)
    requires SiteOk(site) && InStep(site, l, marker, w) && w.sane
    requires claim.uid in l.claims && AsPlanned(site, node, claim)
    requires claim.allocation.Some? && |chosen| == |claim.allocation.value.results|
    requires ChosenSoFar(start, allocatable, claim.allocation.value.results, ConfigsFor(claim.allocation.value.configs),
                         passthrough, chosen)
    requires Prepares(site, l.slots, claim.uid, claim.allocation.value.results, chosen, devices, at)
    requires PartitionsNamed(site, start)
    ensures Lists(site, claim.uid, devices) && SlotsMatch(site, claim.uid, devices, l.slots)
    ensures forall k :: 0 <= k < |devices| && devices[k].device in site.cat.synth ==> devices[k].slot.Some?
  {
    hide ChosenSoFar, Prepares, AsPlanned, Lists, SlotsMatch, Sound, SharesOf, PartitionsNamed, NamesPartitions;
    PlannedShares(site, claim.uid);
    var a := claim.allocation.value;
    PartitionsAreChosen(site, start, allocatable, a.results, ConfigsFor(a.configs), passthrough, chosen);
    PreparedAreNamed(site, l.slots, claim.uid, start, allocatable, a.results, ConfigsFor(a.configs), passthrough,
                     chosen, devices, at);
    PreparedListShares(site, node, l.slots, claim, chosen, devices, at);
    PreparedNameSlots(site, node, l, claim, chosen, devices, at);
  }

  /** A claim with shares is given at least one device. */
  lemma PartitionsArePrepared(site: Site, node: string, slots: Slots, claim: ResourceClaim, start: Allocatable,
                              allocatable: Allocatable, passthrough: bool, chosen: Choice,
                              devices: seq<PreparedDevice>, at: seq<nat>)
    requires AsPlanned(site, node, claim) && claim.allocation.Some?
    requires |chosen| == |claim.allocation.value.results| && PartitionsNamed(site, start)
    requires ChosenSoFar(start, allocatable, claim.allocation.value.results, ConfigsFor(claim.allocation.value.configs),
                         passthrough, chosen)
    requires Prepares(site, slots, claim.uid, claim.allocation.value.results, chosen, devices, at)
    ensures site.plan(claim.uid) != [] ==> devices != []
  {
    hide ChosenSoFar, PartitionsNamed, ResultKey;
    var a := claim.allocation.value;
    PartitionsAreChosen(site, start, allocatable, a.results, ConfigsFor(a.configs), passthrough, chosen);
    if site.plan(claim.uid) != [] {
      ShareFromResult(site.cat.synth, node, claim.uid, a.results, site.plan(claim.uid)[0]);
      var i :| 0 <= i < |a.results| && IsShare(site.cat.synth, node, a.results[i]);
      assert i in at;
    }
  }

  lemma RecordIsDurable(site: Site, w: World, l: Ledger, marker: Option<string>, uid: string,
                        devices: seq<PreparedDevice>, allocatable: Allocatable, conv: Conversions)
    requires SiteOk(site) && Durable(site, w) && InStep(site, l, marker, w) && !IsPrepared(w.disk.prepared, uid)
    requires w.sane ==>
               && Lists(site, uid, devices) && SlotsMatch(site, uid, devices, l.slots) && Matched(l, marker)
               && uid in l.claims && NoneReleased(site, w.disk.prepared, w.lost, l)
    requires LedgerOk(site, allocatable, conv, w.drivers) && Kept(conv, w.disk.vfio)
    requires forall n :: Records(conv, uid, n) ==> Names(devices, n)
    ensures Durable(site, w.(disk := Checkpoint(w.disk.prepared[uid := devices], Fields(l, marker), conv), saved := l))
    ensures w.sane ==>
              && SlotsKept(site, w.disk.prepared[uid := devices], l)
              && NoneReleased(site, w.disk.prepared[uid := devices], w.lost, l)
  {
    hide RecordsOk, Covered, Snapshot, Listed, Lists, InPlace, SlotsMatch, Sound, Protected, Matched, Backed;
    SnapshotIsDurable(site, w, l, marker, w.disk.prepared[uid := devices], conv);
  }

  lemma RecordInStep(site: Site, l: Ledger, marker: Option<string>, v: World, w: World)
    requires InStep(site, l, marker, v) && w == v.(disk := w.disk, saved := w.saved)
    requires w.sane ==> SlotsKept(site, w.disk.prepared, l)
    ensures InStep(site, l, marker, w)
  {
    hide SlotsKept;
    InStepElsewhere(site, l, marker, v, w);
  }

  lemma RecordedIsBacked(site: Site, l: Ledger, marker: Option<string>, w: World, uid: string,
                         devices: seq<PreparedDevice>)
    requires uid in l.claims && w.saved == l && site.plan(uid) != []
    requires uid in w.disk.prepared && w.disk.prepared[uid] == devices && devices != []
    requires forall s :: s in site.plan(uid) ==> InPlace(site, w.hw, s.device)
    ensures Backed(site, w, uid) && Backed(site, w.(spoiled := w.spoiled - {uid}), uid)
  {
  }

  lemma TakenInStep(site: Site, l: Ledger, marker: Option<string>, v: World, w: World, uid: string)
    requires InStep(site, l, marker, v) && uid in l.claims && marker.None?
    requires w == v.(inUse := v.inUse + {uid}, spoiled := v.spoiled - {uid}, lost := v.lost - {uid})
    ensures InStep(site, l, marker, w)
  {
    hide Sound, Protected, SlotsKept;
  }

  lemma TakenIsReserved(site: Site, prepared: PreparedClaims, before: set<string>, after: set<string>, l: Ledger,
                        uid: string)
    requires uid in l.claims && after == before - {uid}
    ensures NoneReleased(site, prepared, before, l) ==> NoneReleased(site, prepared, after, l)
  {
  }

  lemma SyntheticListed(site: Site, allocatable: Allocatable, conversions: Conversions, drivers: map<string, string>)
    requires LedgerOk(site, allocatable, conversions, drivers)
    ensures PartitionsNamed(site, allocatable)
  {
  }

  lemma OnlySynthetic(site: Site, allocatable: Allocatable, conversions: Conversions, drivers: map<string, string>)
    requires LedgerOk(site, allocatable, conversions, drivers)
    ensures forall n :: n in allocatable && allocatable[n] == SyntheticEntry <==> n in site.cat.synth
  {
  }

  lemma SameOthersThrough(a: Conversions, b: Conversions, c: Conversions, claim: string)
    requires SameOthers(a, b, claim) && SameOthers(b, c, claim)
    ensures SameOthers(a, c, claim)
  {
  }

  predicate NoRecords(conversions: Conversions, claim: string) {
    claim !in conversions || conversions[claim] == map[]
  }

  lemma NoneLeft(conversions: Conversions, claim: string)
    requires forall n :: !Records(conversions, claim, n)
    ensures NoRecords(conversions, claim)
  {
    if claim in conversions {
      forall n
        ensures n !in conversions[claim]
      {
        assert !Records(conversions, claim, n);
      }
      assert conversions[claim] == map[];
    }
  }

  lemma UnpreparedIsNotInUse(site: Site, w: World, uid: string)
    requires Durable(site, w) && !IsPrepared(w.disk.prepared, uid)
    ensures uid !in w.inUse
  {
  }

  lemma SiteInOrder(site: Site)
    requires SiteOk(site)
    ensures OrderOk(site.cat)
  {
  }

  lemma NotReserved(l: Ledger, cat: Catalog, uid: string, shares: seq<Share>)
    ensures uid !in l.claims ==> ReleaseClaim(l, cat, uid, shares).ledger == l
  {
  }

  lemma ReservedShares(site: Site, l: Ledger, marker: Option<string>, w: World)
    requires SiteOk(site) && InStep(site, l, marker, w) && w.sane
    ensures Sound(l, site.cat, site.plan) && PlanOk(site.cat, site.plan)
  {
  }

  lemma ReservedIsClaimed(l: Ledger, cat: Catalog, uid: string, shares: seq<Share>)
    ensures ReserveClaim(l, cat, uid, shares).ok ==> uid in ReserveClaim(l, cat, uid, shares).ledger.claims
  {
  }

  lemma ListedShares(site: Site, w: World, uid: string)
    requires Durable(site, w) && w.sane && IsPrepared(w.disk.prepared, uid)
    ensures var devices := w.disk.prepared[uid];
            var shares := SharesOfPrepared(site.cat, uid, devices, |devices|);
            SharesOf(site.cat, uid, shares) && Pairs(site.cat, shares) == Pairs(site.cat, site.plan(uid))
  {
    assert Lists(site, uid, w.disk.prepared[uid]);
  }

  lemma GivenInStep(site: Site, l: Ledger, marker: Option<string>, v: World, w: World, uid: string)
    requires InStep(site, l, marker, v) && w == v.(inUse := v.inUse - {uid})
    ensures InStep(site, l, marker, w)
  {
    hide Sound, Protected, SlotsKept;
  }

  // ---------- lemmas for the hardware phase ----------

  ghost predicate AllInPlace(site: Site, hw: Hardware, names: seq<string>) {
    forall i :: 0 <= i < |names| ==> InPlace(site, hw, names[i])
  }

  lemma NoneInPlace(site: Site, hw: Hardware, names: seq<string>)
    ensures AllInPlace(site, hw, names[..0])
  {
  }

  /** The devices that were in place stay so when the next one is brought in place. */
  lemma OneMoreInPlace(site: Site, l: Ledger, marker: Option<string>, w: World, uid: string, names: seq<string>, i: nat,
                       before: Hardware)
    requires SiteOk(site) && InStep(site, l, marker, w) && w.sane && uid in l.claims && i < |names|
    requires forall d :: d in names ==> exists j :: 0 <= j < |site.plan(uid)| && site.plan(uid)[j].device == d
    requires AllInPlace(site, before, names[..i]) && InPlace(site, w.hw, names[i])
    requires i > 0 ==> Undisturbed(site, before, w.hw, names[i])
    ensures AllInPlace(site, w.hw, names[..i + 1])
  {
    hide InStep, SiteOk, InPlace, Undisturbed, Sound;
    ReservedShares(site, l, marker, w);
    forall j | 0 <= j < i
      ensures InPlace(site, w.hw, names[j])
    {
      assert names[j] in names && names[i] in names && names[..i][j] == names[j];
      StaysInPlace(l, site, uid, names[j], names[i], before, w.hw);
    }
    assert forall j :: 0 <= j < i ==> names[..i + 1][j] == names[j];
  }

  lemma AllNamesInPlace(site: Site, hw: Hardware, shares: seq<Share>, names: seq<string>)
    requires forall d :: d in names <==> exists j :: 0 <= j < |shares| && shares[j].device == d
    ensures names[..|names|] == names && (names == [] <==> shares == [])
    ensures AllInPlace(site, hw, names) ==> forall s :: s in shares ==> InPlace(site, hw, s.device)
  {
    hide InPlace;
    assert names != [] ==> names[0] in names;
    assert shares != [] ==> shares[0].device in names;
    forall s | s in shares
      ensures exists i :: 0 <= i < |names| && names[i] == s.device
    {
      var k :| 0 <= k < |shares| && shares[k] == s;
      assert s.device in names;
    }
  }

  /** The shares of a reserved claim are all of one memory mode. */
  lemma OneMode(site: Site, l: Ledger, uid: string, s: Share)
    requires SiteOk(site) && Sound(l, site.cat, site.plan) && uid in l.claims && s in site.plan(uid)
    ensures site.cat.parse(s.device).Some? && OfMode(site, site.plan(uid), site.cat.parse(s.device).value.memory)
  {
    hide Sound;
    forall t | t in site.plan(uid)
      ensures site.cat.parse(t.device).Some? && site.cat.parse(t.device).value.memory == l.memoryMode
    {
      HeldShareMatches(l, site.cat, site.plan, uid, t);
    }
  }

  lemma MatchedOrGone(l: Ledger, before: Option<string>, after: Option<string>)
    requires after.None? || after == before
    ensures Matched(l, before) ==> Matched(l, after)
  {
  }

  /** A claim without shares is reserved without touching the modes. */
  lemma DoneIsMatched(l: Ledger, cat: Catalog, uid: string, shares: seq<Share>, before: Option<string>,
                      after: Option<string>)
    requires after == if shares != [] then None else before
    ensures Matched(l, before) ==> Matched(ReserveClaim(l, cat, uid, shares).ledger, after)
  {
  }

  // ---------- lemmas for claims that are released or lost ----------

  lemma WithoutReservation(site: Site, l: Ledger, marker: Option<string>, w: World, uid: string)
    requires SiteOk(site) && InStep(site, l, marker, w)
    ensures w.sane && !IsPrepared(w.disk.prepared, uid) && NoneReleased(site, w.disk.prepared, w.lost, l) ==>
              NoneReleased(site, w.disk.prepared, w.lost, ReleaseClaim(l, site.cat, uid, site.plan(uid)).ledger)
  {
    hide InStep, SiteOk, ReleaseClaim;
    if w.sane {
      ClaimsAfter(site, l, marker, w, uid);
    }
  }

  lemma WithoutPrepared(site: Site, l: Ledger, marker: Option<string>, w: World, uid: string)
    requires SiteOk(site) && InStep(site, l, marker, w) && w.sane && NoneReleased(site, w.disk.prepared, w.lost, l)
    ensures NoneReleased(site, w.disk.prepared - {uid}, w.lost,
                         ReleaseClaim(l, site.cat, uid, site.plan(uid)).ledger)
  {
    hide InStep, SiteOk, ReleaseClaim;
    ClaimsAfter(site, l, marker, w, uid);
  }

  lemma LostInStep(site: Site, l: Ledger, marker: Option<string>, v: World, w: World)
    requires InStep(site, l, marker, v) && w == v.(lost := w.lost, silent := w.silent)
    ensures InStep(site, l, marker, w)
  {
    hide Sound, Protected, SlotsKept;
  }

  /** A prepared claim that was released is told apart by being lost. */
  lemma LostIsExcused(site: Site, prepared: PreparedClaims, lost: set<string>, l: Ledger, uid: string)
    ensures NoneReleased(site, prepared - {uid}, lost, l) ==> NoneReleased(site, prepared, lost + {uid}, l)
  {
  }

  lemma NoneReleasedWithout(site: Site, before: PreparedClaims, after: PreparedClaims, lost: set<string>, l: Ledger,
                            uid: string)
    requires after == before - {uid} || (after == before && !IsPrepared(after, uid))
    requires NoneReleased(site, before - {uid}, lost, l)
    ensures NoneReleased(site, after, lost, l) && NoneReleased(site, after - {uid}, lost, l)
  {
  }

  lemma OwnedByKept(site: Site, w: World, conv: Conversions)
    requires Durable(site, w) && Kept(conv, w.disk.vfio)
    ensures Owned(w.disk.prepared, conv)
  {
  }

  /** Once the prepared devices are back, no record of the claim is left. */
  lemma OwnedAreGone(site: Site, w: World, conv: Conversions, uid: string)
    requires Durable(site, w) && Kept(conv, w.disk.vfio) && IsPrepared(w.disk.prepared, uid)
    requires forall n :: Names(w.disk.prepared[uid], n) ==> !Records(conv, uid, n)
    ensures NoRecords(conv, uid)
  {
    hide Durable, Names;
    OwnedByKept(site, w, conv);
    NoneLeft(conv, uid);
  }

  lemma OwnRecordsAreDurable(site: Site, w: World, allocatable: Allocatable, conv: Conversions)
    requires Durable(site, w) && LedgerOk(site, allocatable, conv, w.drivers) && Kept(conv, w.disk.vfio)
    ensures Durable(site, w.(disk := w.disk.(vfio := conv)))
  {
    hide Durable, Listed, RecordsOk, Covered, Owned, Kept;
    OwnedByKept(site, w, conv);
    RecordsAreDurable(site, w, conv);
  }

  lemma SameClaimsAreDurable(site: Site, w: World, l: Ledger, marker: Option<string>, allocatable: Allocatable,
                             conv: Conversions)
    requires SiteOk(site) && Durable(site, w) && InStep(site, l, marker, w)
    requires w.sane ==> Matched(l, marker) && NoneReleased(site, w.disk.prepared, w.lost, l)
    requires LedgerOk(site, allocatable, conv, w.drivers) && Kept(conv, w.disk.vfio)
    ensures Durable(site, w.(disk := Checkpoint(w.disk.prepared, Fields(l, marker), conv), saved := l))
    ensures w.sane ==> SlotsKept(site, w.disk.prepared, l)
  {
    hide RecordsOk, Covered, Snapshot, Listed, Lists, InPlace, SlotsKept, Owned, Kept, Sound, Protected, Matched;
    hide NoneReleased, Backed;
    OwnedByKept(site, w, conv);
    SnapshotIsDurable(site, w, l, marker, w.disk.prepared, conv);
  }

  lemma WithoutClaimIsDurable(site: Site, w: World, l: Ledger, marker: Option<string>, uid: string,
                              allocatable: Allocatable, conv: Conversions)
    requires SiteOk(site) && Durable(site, w) && InStep(site, l, marker, w) && uid !in w.inUse
    requires w.sane ==> Matched(l, marker) && NoneReleased(site, w.disk.prepared - {uid}, w.lost, l)
    requires LedgerOk(site, allocatable, conv, w.drivers) && Kept(conv, w.disk.vfio)
    ensures Durable(site, w.(disk := Checkpoint(w.disk.prepared - {uid}, Fields(l, marker), conv), saved := l))
    ensures w.sane ==> SlotsKept(site, w.disk.prepared - {uid}, l)
  {
    hide RecordsOk, Covered, Snapshot, Listed, Lists, InPlace, SlotsMatch, Kept, Sound, Protected, Matched;
    hide NoneReleased, Backed;
    OwnedByKept(site, w, conv);
    SnapshotIsDurable(site, w, l, marker, w.disk.prepared - {uid}, conv);
  }

  lemma SavedIsDurable(site: Site, w: World, l: Ledger, marker: Option<string>, uid: string, prepared: PreparedClaims,
                       allocatable: Allocatable, conv: Conversions)
    requires SiteOk(site) && Durable(site, w) && InStep(site, l, marker, w) && uid !in w.inUse
    requires w.sane ==> Matched(l, marker) && NoneReleased(site, prepared, w.lost, l)
    requires LedgerOk(site, allocatable, conv, w.drivers) && Kept(conv, w.disk.vfio)
    requires prepared == w.disk.prepared || prepared == w.disk.prepared - {uid}
    ensures Durable(site, w.(disk := Checkpoint(prepared, Fields(l, marker), conv), saved := l))
    ensures w.sane ==> SlotsKept(site, prepared, l)
  {
    hide Durable, InStep, LedgerOk, Kept, Matched, NoneReleased, SlotsKept;
    if prepared == w.disk.prepared {
      SameClaimsAreDurable(site, w, l, marker, allocatable, conv);
    } else {
      WithoutClaimIsDurable(site, w, l, marker, uid, allocatable, conv);
    }
  }

  /** What reserving and releasing do to the set of reserved claims. */
  lemma ClaimsAfter(site: Site, l: Ledger, marker: Option<string>, w: World, uid: string)
    requires SiteOk(site) && InStep(site, l, marker, w) && w.sane
    ensures l.claims <= ReserveClaim(l, site.cat, uid, site.plan(uid)).ledger.claims <= l.claims + {uid}
    ensures ReleaseClaim(l, site.cat, uid, site.plan(uid)).ledger.claims == l.claims - {uid}
  {
    hide Valid, Agree, SharesOf, Pairs, ReserveUpTo, ReleaseUpTo;
    PlannedShares(site, uid);
    ReserveClaimIsSound(l, site.cat, site.plan, uid);
    ReleaseClaimIsSound(l, site.cat, site.plan, uid, site.plan(uid));
  }

  // ---------- lemmas for starting ----------

  lemma RestartedWorld(site: Site, v: World)
    requires SiteOk(site) && Durable(site, v)
    ensures OrderOk(site.cat)
    ensures var w := AfterRestart(site, v);
            && w == v.(reloading := v.disk.fields.reload.Some?, misread := false, sane := w.sane,
                       saved := Recover(site.cat, v.disk.fields, v.disk.prepared))
            && (v.sane ==> (w.sane <==> Recoverable(site, v)))
  {
    hide Durable, LedgerDurable, Recoverable, Recover;
    if v.sane {
      SaneAfterRestart(site, v);
    }
  }

  /** What was read back is in step with the world, once it is published. */
  lemma StartedInStep(site: Site, w: World)
    requires Durable(site, w) && (w.disk.fields.reload.None? ==> !w.reloading) && w.published == w.saved.taints
    ensures InStep(site, w.saved, w.disk.fields.reload, w)
    ensures w.sane ==>
              Matched(w.saved, w.disk.fields.reload) && NoneReleased(site, w.disk.prepared, w.lost, w.saved)
  {
    hide Recover, Legacy, Valid, Protected, SlotsKept, RecordsDurable, Lists, InPlace, NoneReleased, Matched;
    if w.sane {
      forall c | c in w.inUse
        ensures c in w.saved.claims
      {
        assert Backed(site, w, c);
      }
      if w.saved.memoryMode != "" {
        PublishedTaints(w.saved, site);
      }
    }
  }

  /** Going on without the checkpoint is right exactly when there was nothing to record. */
  lemma UnreadableIsOkIff(site: Site, discovered: Allocatable, drivers: map<string, string>)
    requires FreshlyListed(site, discovered, drivers)
    ensures LedgerOk(site, discovered, map[], drivers) <==> forall n :: n in site.fleet ==> OnAmdgpu(site, drivers, n)
  {
    hide OnAmdgpu, PartitionsNamed;
    if LedgerOk(site, discovered, map[], drivers) {
      forall n | n in site.fleet
        ensures OnAmdgpu(site, drivers, n)
      {
        assert !Recorded(map[], n);
      }
    }
  }
}
