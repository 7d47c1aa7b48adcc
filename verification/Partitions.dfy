/**
 The partition state of the plugin: the reservation ledger with its entry points, and the
 asynchronous protocol that brings the hardware into the reserved modes.
 */
module Partitions {
  import opened Wrappers
  import opened DeviceNames
  import opened Ledgers
  import opened Claims
  import opened Recovery
  import opened Worlds
  import opened Nodes

  /** How the hardware phase for one device ended. */
  datatype Applied = Done | Pending | Failed

  predicate Hardwareless(step: Step) {
    !step.Stage? && !step.Reload? && !step.Settle? && !step.SetCompute?
  }

  /** None of the steps taken since then staged a memory mode or triggered a reload. */
  ghost predicate NoReloadSince(before: seq<Event>, after: seq<Event>) {
    before <= after && forall k :: |before| <= k < |after| ==> !after[k].step.Stage? && !after[k].step.Reload?
  }

  /** None of the steps taken since then wrote to the hardware at all. */
  ghost predicate NoWriteSince(before: seq<Event>, after: seq<Event>) {
    before <= after && forall k :: |before| <= k < |after| ==> Hardwareless(after[k].step)
  }

  /** Every partitionable GPU was in the mode before, or has it staged. A GPU that was in the mode is
      not staged again, and may have another mode staged from a hardware phase that failed earlier. */
  ghost predicate StagedFor(site: Site, before: Hardware, after: Hardware, mode: string) {
    StagedUpTo(site, before, after, mode, |site.partitionable|)
  }

  ghost predicate StagedUpTo(site: Site, before: Hardware, after: Hardware, mode: string, n: nat)
    requires n <= |site.partitionable|
  {
    forall i :: 0 <= i < n ==>
      Read(before.memory, site.partitionable[i]) == mode || Read(after.staged, site.partitionable[i]) == mode
  }

  /** A reload that takes full effect: every GPU that has a mode staged goes over to it. */
  ghost predicate FullEffect(a: Hardware, b: Hardware) {
    forall g :: Read(b.memory, g) == if Read(a.staged, g) != "" then Read(a.staged, g) else Read(a.memory, g)
  }

  /** No partitionable GPU in the mode has another one staged. */
  ghost predicate NoneStagedAway(site: Site, hw: Hardware, mode: string) {
    forall i :: 0 <= i < |site.partitionable| && Read(hw.memory, site.partitionable[i]) == mode ==>
      Read(hw.staged, site.partitionable[i]) in {"", mode}
  }

  /** Exactly when staging and a reload that takes full effect converge. */
  lemma FullReloadConvergesIff(site: Site, before: Hardware, staged: Hardware, after: Hardware, mode: string)
    requires StagedFor(site, before, staged, mode) && staged == before.(staged := staged.staged) && mode != ""
    requires FullEffect(staged, after)
    ensures Converged(site, after.memory, mode) <==> NoneStagedAway(site, staged, mode)
  {
    if Converged(site, after.memory, mode) {
      forall i | 0 <= i < |site.partitionable| && Read(staged.memory, site.partitionable[i]) == mode
        ensures Read(staged.staged, site.partitionable[i]) in {"", mode}
      {
        assert Read(after.memory, site.partitionable[i]) == mode;
      }
    } else {
      var i :| 0 <= i < |site.partitionable| && Read(after.memory, site.partitionable[i]) != mode;
      assert Read(staged.memory, site.partitionable[i]) == mode;
    }
  }

  /** Two GPUs in different modes: an earlier hardware phase staged the second one's mode on the first
      one and failed. Staging the first one's mode and reloading then swaps the two. */
  lemma StagedAwaySwaps(site: Site, mode: string, other: string)
    returns (before: Hardware, staged: Hardware, after: Hardware)
    requires site.partitionable == [0, 1] && mode != "" && other != "" && mode != other
    ensures StagedFor(site, before, staged, mode) && staged == before.(staged := staged.staged)
    ensures FullEffect(staged, after) && ReloadEffect(staged, after) && !Converged(site, after.memory, mode)
    ensures Read(after.memory, 0) == other && Read(after.memory, 1) == mode
  {
    before := Hardware(map[0 := mode, 1 := other], map[0 := other], map[]);
    staged := before.(staged := map[0 := other, 1 := mode]);
    after := staged.(memory := staged.staged);
    assert site.partitionable[0] == 0;
  }

  /** A write of the device's compute mode was tried since then, and reported success. */
  ghost predicate WrittenSince(before: seq<Event>, after: seq<Event>, d: PartitionName) {
    before <= after
    && exists k :: |before| <= k < |after| && after[k].step == SetCompute(d.gpu, d.compute, d.memory, true)
  }

  /** It was tried in both ways there are, and every write since then reported a failure. */
  ghost predicate RefusedSince(before: seq<Event>, after: seq<Event>, d: PartitionName) {
    && before <= after
    && (exists j, k :: |before| <= j < k < |after|
                       && after[j].step == after[k].step == SetCompute(d.gpu, d.compute, d.memory, false))
    && (forall i :: |before| <= i < |after| && after[i].step.SetCompute? ==> !after[i].step.ok)
  }

  /** How the hardware phase for a device ends if nothing stands in its way. */
  function Unhindered(site: Site, canReload: bool, marker: Option<string>, hw: Hardware, device: string): Applied {
    if site.cat.parse(device).None? then Failed
    else UnhinderedMemory(site, canReload, marker, hw, site.cat.parse(device).value.memory)
  }

  function UnhinderedMemory(site: Site, canReload: bool, marker: Option<string>, hw: Hardware, mode: string): Applied {
    if marker.Some? && marker.value != mode then Failed
    else if Converged(site, hw.memory, mode) then Done
    else if marker.Some? || canReload then Pending
    else Failed
  }

  /** Nothing was staged for a GPU that is in the mode already. */
  ghost predicate StagedOnly(site: Site, before: Hardware, after: Hardware, mode: string) {
    forall g :: Read(after.staged, g) != Read(before.staged, g) ==>
      g in site.partitionable && Read(before.memory, g) != mode
  }

  /** Only the hardware was touched, and spoiled claims stay spoiled. */
  ghost predicate Wrote(v: World, w: World) {
    && w == v.(hw := w.hw, reloading := w.reloading, misread := w.misread, spoiled := w.spoiled)
    && v.spoiled <= w.spoiled
  }

  class PartitionState {
    const site: Site
    const kmmEnabled: bool
    const hasRecoverer: bool
    var activeMemoryMode: string
    var gpuComputeModes: map<int, string>
    var gpuAllocCounts: map<int, nat>
    var assignedSlots: Slots
    var totalAllocCount: nat
    var reservedClaims: set<string>
    var taints: map<string, string>
    var memoryReload: Option<string>

    /** A driver reload can be triggered: by the plugin itself, or by the operator it has. */
    predicate CanReload() {
      !kmmEnabled || hasRecoverer
    }

    function View(): Ledger
      reads this
    {
      Ledger(activeMemoryMode, gpuComputeModes, gpuAllocCounts, assignedSlots, totalAllocCount, reservedClaims, taints)
    }

    /** Only synthetic devices carry taints. */
    predicate Tidy()
      reads this
    {
      taints.Keys <= site.cat.synth.Keys
    }

    constructor (site: Site, kmmEnabled: bool, hasRecoverer: bool)
      ensures View() == EMPTY_LEDGER && memoryReload.None? && this.site == site && Tidy()
      ensures this.kmmEnabled == kmmEnabled && this.hasRecoverer == hasRecoverer
    {
      this.site, this.kmmEnabled, this.hasRecoverer := site, kmmEnabled, hasRecoverer;
      activeMemoryMode, gpuComputeModes, gpuAllocCounts, assignedSlots := "", map[], map[], map[];
      totalAllocCount, reservedClaims, taints, memoryReload := 0, {}, map[], None;
    }

    // ---------- slots ----------

    /** Take the lowest free slot of the GPU, or keep the one the share holds. */
    method AssignSlot(gpu: int, key: string) returns (slot: nat)
      modifies `assignedSlots
      ensures assignedSlots == Ledgers.AssignSlot(old(assignedSlots), gpu, key)
      ensures Holds(assignedSlots, gpu, key) && slot == assignedSlots[gpu][key]
    {
      var slots := Inner(assignedSlots, gpu);
      if key in slots {
        return slots[key];
      }
      var taken := slots.Values;
      slot := 0;
      while slot in taken
        invariant assignedSlots == old(assignedSlots)
        invariant slot <= |taken| && forall s: nat :: s < slot ==> s in taken
        decreases |taken| - slot
      {
        slot := slot + 1;
        AllTakenBelow(taken, slot);
      }
      LeastIsUnique(taken, slot);
      assert slot == NextSlot(assignedSlots, gpu) && !Holds(assignedSlots, gpu, key);
      assignedSlots := assignedSlots[gpu := slots[key := slot]];
    }

    method ReleaseSlot(gpu: int, key: string)
      modifies `assignedSlots
      ensures assignedSlots == Ledgers.ReleaseSlot(old(assignedSlots), gpu, key)
    {
      if gpu !in assignedSlots {
        return;
      }
      var slots := assignedSlots[gpu] - {key};
      assignedSlots := assignedSlots[gpu := slots];
      if slots == map[] {
        assignedSlots := assignedSlots - {gpu};
      }
    }

    // ---------- taints ----------

    method ApplyMemoryTaints(mode: string)
      requires Tidy()
      modifies `taints
      ensures taints == Stamped(site.cat.synth, mode)
    {
      var synth := site.cat.synth;
      var todo := synth.Keys;
      while todo != {}
        invariant todo <= synth.Keys && taints.Keys <= synth.Keys
        invariant forall d :: d in synth.Keys - todo ==> (d in taints <==> synth[d] != mode)
        invariant forall d :: d in synth.Keys - todo && d in taints ==> taints[d] == mode
        decreases |todo|
      {
        var d :| d in todo;
        todo := todo - {d};
        taints := if synth[d] != mode then taints[d := mode] else taints - {d};
      }
    }

    method RemoveMemoryTaints()
      requires Tidy()
      modifies `taints
      ensures taints == map[]
    {
      var todo := site.cat.synth.Keys;
      while todo != {}
        invariant taints.Keys <= todo
        decreases |todo|
      {
        var d :| d in todo;
        todo := todo - {d};
        taints := taints - {d};
      }
    }

    // ---------- one share ----------

    method ReservePartition(share: Share) returns (ok: bool, taintsChanged: bool)
      requires Tidy()
      modifies this
      ensures Outcome(ok, View(), taintsChanged) == Reserve(old(View()), site.cat, share)
      ensures Tidy() && memoryReload == old(memoryReload)
    {
      hide Reserve, Ledgers.AssignSlot;
      ghost var r := Reserve(View(), site.cat, share);
      ReserveByFields(View(), site.cat, share);
      ok, taintsChanged := false, false;
      var parsed := site.cat.parse(share.device);
      if parsed.None? {
        return;
      }
      var d := parsed.value;
      if d.gpu in gpuComputeModes {
        if gpuComputeModes[d.gpu] != d.compute {
          return;
        }
      }
      if !IsCompatibleMemoryMode(activeMemoryMode, d.memory) {
        return;
      }
      gpuComputeModes := gpuComputeModes[d.gpu := d.compute];
      if activeMemoryMode == "" {
        activeMemoryMode := d.memory;
        ApplyMemoryTaints(d.memory);
        taintsChanged := true;
      }
      assert r.ok && r.taintsChanged == taintsChanged && r.ledger.taints == taints;
      assert r.ledger.memoryMode == activeMemoryMode && r.ledger.computeModes == gpuComputeModes;
      var slot := AssignSlot(d.gpu, share.key);
      gpuAllocCounts := gpuAllocCounts[d.gpu := (if d.gpu in gpuAllocCounts then gpuAllocCounts[d.gpu] else 0) + 1];
      totalAllocCount := totalAllocCount + 1;
      assert r.ledger.counts == gpuAllocCounts && r.ledger.slots == assignedSlots;
      ok := true;
    }

    method ReleasePartition(share: Share) returns (ok: bool, taintsChanged: bool)
      requires Tidy()
      modifies this
      ensures Outcome(ok, View(), taintsChanged) == Release(old(View()), site.cat, share)
      ensures Tidy() && memoryReload == old(memoryReload)
    {
      ok, taintsChanged := false, false;
      var parsed := site.cat.parse(share.device);
      if parsed.None? {
        return;
      }
      hide Ledgers.ReleaseSlot;
      var gpu := parsed.value.gpu;
      ghost var counts := gpuAllocCounts;
      ReleaseSlot(gpu, share.key);
      if gpu in gpuAllocCounts && gpuAllocCounts[gpu] > 0 {
        gpuAllocCounts := gpuAllocCounts[gpu := gpuAllocCounts[gpu] - 1];
      }
      assert gpuAllocCounts - {gpu} == counts - {gpu};
      if totalAllocCount > 0 {
        totalAllocCount := totalAllocCount - 1;
      }
      if gpu !in gpuAllocCounts || gpuAllocCounts[gpu] == 0 {
        gpuComputeModes := gpuComputeModes - {gpu};
        gpuAllocCounts := gpuAllocCounts - {gpu};
      }
      if totalAllocCount == 0 {
        activeMemoryMode := "";
        RemoveMemoryTaints();
        taintsChanged := true;
      }
      ok := true;
    }

    // ---------- claims ----------

    method ReserveClaim(claim: string, shares: seq<Share>) returns (ok: bool, taintsChanged: bool)
      requires Tidy()
      modifies this
      ensures Outcome(ok, View(), taintsChanged) == Ledgers.ReserveClaim(old(View()), site.cat, claim, shares)
      ensures Tidy() && memoryReload == old(memoryReload)
    {
      hide Reserve, Release;
      ok, taintsChanged := true, false;
      if claim in reservedClaims {
        return;
      }
      var i := 0;
      while i < |shares|
        invariant 0 <= i <= |shares| && Tidy() && memoryReload == old(memoryReload)
        invariant Outcome(true, View(), taintsChanged) == ReserveUpTo(old(View()), site.cat, shares, i)
      {
        var reserved, changed := ReservePartition(shares[i]);
        if !reserved {
          ghost var conflict := View();
          var j := 0;
          while j < i
            invariant 0 <= j <= i && Tidy() && memoryReload == old(memoryReload)
            invariant View() == RollBack(conflict, site.cat, shares, j)
          {
            var released, _ := ReleasePartition(shares[j]);
            j := j + 1;
          }
          ConflictStays(old(View()), site.cat, shares, i + 1, |shares|);
          return false, false;
        }
        taintsChanged := taintsChanged || changed;
        i := i + 1;
      }
      reservedClaims := reservedClaims + {claim};
    }

    method ReleaseClaim(claim: string, shares: seq<Share>) returns (ok: bool, taintsChanged: bool)
      requires Tidy()
      modifies this
      ensures Outcome(ok, View(), taintsChanged) == Ledgers.ReleaseClaim(old(View()), site.cat, claim, shares)
      ensures Tidy() && memoryReload == old(memoryReload)
    {
      hide Release;
      ok, taintsChanged := true, false;
      if claim !in reservedClaims {
        return;
      }
      var i := 0;
      while i < |shares|
        invariant 0 <= i <= |shares| && Tidy() && memoryReload == old(memoryReload)
        invariant Outcome(true, View(), taintsChanged) == ReleaseUpTo(old(View()), site.cat, shares, i)
      {
        var released, changed := ReleasePartition(shares[i]);
        taintsChanged := taintsChanged || changed;
        if !released {
          FailureStays(old(View()), site.cat, shares, i + 1, |shares|);
          return false, taintsChanged;
        }
        i := i + 1;
      }
      reservedClaims := reservedClaims - {claim};
    }

    /** The shares of a claim, read back from the keys of the slots it holds. For a reserved claim
        of a sound ledger these are the shares it reserved, each exactly once. */
    method PartitionSharesFromAssignedSlots(claim: string) returns (shares: seq<Share>)
      ensures Sound(View(), site.cat, site.plan) && PlanOk(site.cat, site.plan) && claim in reservedClaims ==>
                SharesOf(site.cat, claim, shares) && Pairs(site.cat, shares) == Pairs(site.cat, site.plan(claim))
    {
      hide Collected, Sound, PlanOk, SharesOf, Pairs;
      ghost var gpus;
      shares, gpus := CollectShares(claim);
      if Sound(View(), site.cat, site.plan) && PlanOk(site.cat, site.plan) && claim in reservedClaims {
        ListedAreReserved(View(), site.cat, site.plan, claim, shares, gpus);
      }
    }

    method CollectShares(claim: string) returns (shares: seq<Share>, ghost gpus: seq<int>)
      ensures Collected(site.cat, assignedSlots, claim, shares, gpus)
    {
      hide Collected;
      shares, gpus := [], [];
      var todo := assignedSlots.Keys;
      NothingLeft(assignedSlots);
      NothingCollected(site.cat, claim);
      while todo != {}
        invariant todo <= assignedSlots.Keys
        invariant Collected(site.cat, assignedSlots - todo, claim, shares, gpus)
        decreases |todo|
      {
        ghost var some: int := Pick(todo);
        assert some in todo;
        var g :| g in todo;
        OneGpuMore(assignedSlots, todo, g);
        shares, gpus := SharesOnGpu(claim, g, assignedSlots[g], assignedSlots - todo, shares, gpus);
        todo := todo - {g};
      }
    }

    method SharesOnGpu(claim: string, g: int, slots: map<string, nat>, ghost done: Slots, before: seq<Share>,
                       ghost at: seq<int>)
      returns (shares: seq<Share>, ghost gpus: seq<int>)
      requires g !in done && Collected(site.cat, done, claim, before, at)
      ensures Collected(site.cat, done[g := slots], claim, shares, gpus)
    {
      hide Collected, Put;
      shares, gpus := before, at;
      var keys := slots.Keys;
      NothingPut(site.cat, done, claim, shares, gpus, g);
      assert slots - keys == map[];
      while keys != {}
        invariant keys <= slots.Keys && Collected(site.cat, done[g := slots - keys], claim, shares, gpus)
        decreases |keys|
      {
        var key :| key in keys;
        ListedMore(site.cat, done[g := slots - keys], claim, shares, gpus, g, key, slots[key]);
        OneKeyMore(done, g, slots, keys, key);
        keys := keys - {key};
        var parts := site.cat.split(key);
        if parts.Some? && parts.value.claim == claim {
          shares, gpus := shares + [Share(parts.value.device, key)], gpus + [g];
        }
      }
      assert slots - {} == slots;
    }

    // ---------- recovery ----------

    /** Rebuild the ledger from a checkpoint. */
    method RecoverFromCheckpoint(f: PartitionFields, prepared: PreparedClaims)
      requires View() == EMPTY_LEDGER && memoryReload.None? && Tidy() && OrderOk(site.cat)
      modifies this
      ensures View() == Recover(site.cat, f, prepared)
      ensures memoryReload == f.reload && Tidy()
    {
      activeMemoryMode, memoryReload, gpuComputeModes := f.memoryMode, f.reload, f.computeModes;
      if f.slots != map[] {
        CountSlots(f.slots);
      } else {
        CountPreparedClaims(f, prepared);
      }
      if activeMemoryMode != "" {
        ApplyMemoryTaints(activeMemoryMode);
      }
    }

    method CountSlots(slots: Slots)
      requires gpuAllocCounts == map[] && assignedSlots == map[] && totalAllocCount == 0 && reservedClaims == {}
      modifies `gpuAllocCounts, `totalAllocCount, `reservedClaims, `assignedSlots
      ensures assignedSlots == slots && Tallied(site.cat, slots, gpuAllocCounts, totalAllocCount, reservedClaims)
    {
      hide Tallied;
      NothingTallied(site.cat);
      var todo := slots.Keys;
      assert slots - todo == map[];
      while todo != {}
        invariant todo <= slots.Keys && assignedSlots == slots - todo
        invariant Tallied(site.cat, assignedSlots, gpuAllocCounts, totalAllocCount, reservedClaims)
        decreases |todo|
      {
        ghost var some: int := Pick(todo);
        assert some in todo;
        var g :| g in todo;
        CountGpu(g, slots[g]);
        todo := todo - {g};
      }
      assert slots - {} == slots;
    }

    method CountGpu(g: int, slots: map<string, nat>)
      requires g !in assignedSlots && Tallied(site.cat, assignedSlots, gpuAllocCounts, totalAllocCount, reservedClaims)
      modifies `gpuAllocCounts, `totalAllocCount, `reservedClaims, `assignedSlots
      ensures assignedSlots == old(assignedSlots)[g := slots]
      ensures Tallied(site.cat, assignedSlots, gpuAllocCounts, totalAllocCount, reservedClaims)
    {
      hide Tallied, Put;
      var inner, keys := map[], slots.Keys;
      assert slots - keys == map[];
      TallyEmpty(site.cat, assignedSlots, gpuAllocCounts, totalAllocCount, reservedClaims, g);
      while keys != {}
        invariant keys <= slots.Keys && inner == slots - keys && assignedSlots == old(assignedSlots)
        invariant Tallied(site.cat, assignedSlots[g := inner], gpuAllocCounts, totalAllocCount, reservedClaims)
        decreases |keys|
      {
        var key :| key in keys;
        PutInner(assignedSlots, g, inner, key, slots[key]);
        OneSlotMore(slots, keys, key);
        CountKey(g, key, assignedSlots[g := inner], slots[key]);
        inner := inner[key := slots[key]];
        keys := keys - {key};
      }
      assert inner == slots;
      assignedSlots := assignedSlots[g := inner];
    }

    method CountKey(g: int, key: string, ghost slots: Slots, ghost slot: nat)
      requires g in slots && key !in slots[g]
      requires Tallied(site.cat, slots, gpuAllocCounts, totalAllocCount, reservedClaims)
      modifies `gpuAllocCounts, `totalAllocCount, `reservedClaims
      ensures Tallied(site.cat, Put(slots, g, key, slot), gpuAllocCounts, totalAllocCount, reservedClaims)
    {
      hide Tallied, Put;
      TallyMore(site.cat, slots, gpuAllocCounts, totalAllocCount, reservedClaims, g, key, slot);
      gpuAllocCounts := gpuAllocCounts[g := (if g in gpuAllocCounts then gpuAllocCounts[g] else 0) + 1];
      totalAllocCount := totalAllocCount + 1;
      var claim := site.cat.cut(key);
      if claim.Some? && claim.value != "" {
        reservedClaims := reservedClaims + {claim.value};
      }
    }

    method CountPreparedClaims(f: PartitionFields, prepared: PreparedClaims)
      requires View() == EMPTY_LEDGER.(memoryMode := f.memoryMode, computeModes := f.computeModes) && OrderOk(site.cat)
      modifies `gpuAllocCounts, `totalAllocCount, `reservedClaims, `assignedSlots
      ensures View().(taints := TaintsFor(site.cat.synth, f.memoryMode)) == FromPrepared(site.cat, f, prepared)
    {
      var order := site.cat.order(prepared.Keys);
      ghost var stamp := TaintsFor(site.cat.synth, f.memoryMode);
      var k := 0;
      while k < |order|
        invariant 0 <= k <= |order| && taints == map[]
        invariant View().(taints := stamp) == CountClaims(Uncounted(site.cat, f), site.cat, prepared, order[..k])
      {
        var claim := order[k];
        CountPreparedClaim(claim, prepared[claim], stamp);
        assert order[..k + 1] == order[..k] + [claim];
        k := k + 1;
      }
      assert order[..|order|] == order;
    }

    method CountShare(gpu: int, key: string, ghost stamp: map<string, string>)
      modifies `gpuAllocCounts, `totalAllocCount, `assignedSlots
      ensures View().(taints := stamp) == Count(old(View()).(taints := stamp), gpu, key)
    {
      hide Ledgers.AssignSlot;
      var slot := AssignSlot(gpu, key);
      gpuAllocCounts := gpuAllocCounts[gpu := (if gpu in gpuAllocCounts then gpuAllocCounts[gpu] else 0) + 1];
      totalAllocCount := totalAllocCount + 1;
    }

    method CountPreparedClaim(claim: string, devices: seq<PreparedDevice>, ghost stamp: map<string, string>)
      modifies `gpuAllocCounts, `totalAllocCount, `reservedClaims, `assignedSlots
      ensures View().(taints := stamp) == CountClaim(old(View()).(taints := stamp), site.cat, claim, devices)
    {
      hide Count;
      var has, i := false, 0;
      while i < |devices|
        invariant 0 <= i <= |devices| && (has <==> exists j :: 0 <= j < i && site.cat.parse(devices[j].device).Some?)
        invariant View().(taints := stamp) == CountDevices(old(View()).(taints := stamp), site.cat, claim, devices, i)
      {
        var parsed := site.cat.parse(devices[i].device);
        if parsed.Some? {
          CountShare(parsed.value.gpu, site.cat.positional(claim, i, devices[i].device), stamp);
          has := true;
        }
        i := i + 1;
      }
      CountingKeepsClaims(old(View()).(taints := stamp), site.cat, claim, devices, |devices|);
      if has {
        reservedClaims := reservedClaims + {claim};
      }
    }

    // ---------- hardware ----------

    /** What must hold before the hardware phase for a device: no reload is under way that is not
        marked. And, if the ledger is sane, its taints are published, whoever runs as it was
        prepared is in the modes it asks for, and nobody runs so while a reload is marked. */
    ghost predicate Ready(node: Node, device: string)
      reads this, node
    {
      && node.Valid() && node.site == site
      && (memoryReload.None? ==> !node.reloading)
      && (node.sane ==>
            && (memoryReload.Some? ==> node.inUse <= node.spoiled)
            && (site.cat.parse(device).Some? ==>
                  var d := site.cat.parse(device).value;
                  && Protected(site, node.published, d.memory)
                  && (node.inUse <= node.spoiled || Converged(site, node.hw.memory, d.memory))
                  && (|| Users(site, node.inUse, d.gpu) <= node.spoiled
                      || Read(node.hw.compute, d.gpu) == d.compute)))
    }

    /** Bring the hardware into the modes of a device.

        `Done` means both modes are in place and no reload is marked. A reload that is marked is
        polled and neither staged for nor triggered again; a marker for another mode is an error,
        and stays. Hardware that is in place is reported done without any write exactly if every mode
        could be read: `node.misread` says afterwards whether one could not. A failed read need not
        lead to a write: without a way to reload, the phase fails before. */
    method ApplyPartition(node: Node, device: string) returns (r: Applied)
      requires Ready(node, device)
      modifies `memoryReload, node`hw, node`reloading, node`misread, node`spoiled, node`history, node.faults
      ensures node.Valid() && old(node.history) <= node.history && Wrote(old(node.World()), node.World())
      ensures old(node.faults.count) <= node.faults.count
      ensures memoryReload.None? ==> !node.reloading
      ensures node.sane && memoryReload.Some? ==> node.inUse <= node.spoiled
      ensures site.cat.parse(device).None? ==> r.Failed? && memoryReload == old(memoryReload)
      ensures r.Done? ==> memoryReload.None? && InPlace(site, node.hw, device)
      ensures r.Done? && old(memoryReload).None? ==> Undisturbed(site, old(node.hw), node.hw, device)
      ensures r.Pending? ==>
                site.cat.parse(device).Some? && memoryReload == Some(site.cat.parse(device).value.memory)
      ensures old(memoryReload).None? && r.Pending? ==>
                node.reloading && StagedFor(site, old(node.hw), node.hw, memoryReload.value)
      ensures r.Failed? ==> memoryReload.None? || memoryReload == old(memoryReload)
      ensures old(memoryReload).None? && old(InPlace(site, node.hw, device)) ==>
                && (r.Done? && NoWriteSince(old(node.history), node.history) <==> !node.misread)
                && (!node.misread ==> node.hw == old(node.hw) && node.spoiled == old(node.spoiled))
      ensures old(memoryReload).Some? ==> NoReloadSince(old(node.history), node.history)
      ensures old(memoryReload).Some? && site.cat.parse(device).Some? ==>
                var marked := old(memoryReload).value;
                if marked != site.cat.parse(device).value.memory then
                  r.Failed? && memoryReload == old(memoryReload) && node.hw == old(node.hw)
                else
                  && (old(Converged(site, node.hw.memory, memoryReload.value)) && !node.misread ==>
                        memoryReload.None? && !r.Pending?)
                  && (!old(Converged(site, node.hw.memory, memoryReload.value)) ==>
                        && !r.Done? && node.hw == old(node.hw) && (r.Failed? <==> memoryReload.None?)
                        && |old(node.history)| < |node.history|
                        && node.history[|node.history| - 1].step == Poll(!r.Pending?))
      ensures site.cat.parse(device).Some? ==>
                var d := site.cat.parse(device).value;
                && (old(memoryReload).None? || old(memoryReload) == Some(d.memory))
                && old(Converged(site, node.hw.memory, d.memory))
                && old(Read(node.hw.compute, d.gpu)) != d.compute && !node.misread ==>
                  && !r.Pending?
                  && (if r.Done? then WrittenSince(old(node.history), node.history, d)
                      else RefusedSince(old(node.history), node.history, d))
      ensures r.Pending? && old(memoryReload).None? ==>
                node.history[|node.history| - 1].step == Reload(site.cat.parse(device).value.memory)
      ensures node.faults.count == old(node.faults.count) ==>
                r == Unhindered(site, CanReload(), old(memoryReload), old(node.hw), device)
      ensures node.faults.count == old(node.faults.count) && r.Pending? && old(memoryReload).None? ==>
                StagedOnly(site, old(node.hw), node.hw, memoryReload.value)
    {
      hide Run, SiteOk, Protected, Converged, Users, NoWriteSince, NoReloadSince, Undisturbed, StagedFor;
      hide StagedOnly, WrittenSince, RefusedSince;
      NothingSince(node.history);
      var parsed := site.cat.parse(device);
      if parsed.None? {
        return Failed;
      }
      var d := parsed.value;
      ModesHaveNames(site, device);
      node.BeginApply(device);
      ghost var begun := node.history;
      BegunApply(old(node.history), device, begun);
      r := ApplyMemory(node, d.memory);
      Between(old(node.history), begun, node.history);
      if !r.Done? {
        return;
      }
      ghost var ready, hw := node.history, node.hw;
      r := ApplyCompute(node, d);
      Between(old(node.history), ready, node.history);
      SinceEarlier(old(node.history), ready, node.history, d);
      if r.Done? {
        ComputeOnly(site, hw, node.hw, device);
      }
    }

    /** The memory mode of the node: poll a reload that is marked, or stage the mode and trigger one
        if the node is not in the mode. */
    method ApplyMemory(node: Node, mode: string) returns (r: Applied)
      requires node.Valid() && node.site == site && mode != "" && !node.misread
      requires memoryReload.None? ==> !node.reloading
      requires node.sane ==>
                 && (memoryReload.Some? ==> node.inUse <= node.spoiled) && Protected(site, node.published, mode)
                 && (node.inUse <= node.spoiled || Converged(site, node.hw.memory, mode))
      modifies `memoryReload, node`hw, node`reloading, node`misread, node`spoiled, node`history, node.faults
      ensures node.Valid() && old(node.history) <= node.history && Wrote(old(node.World()), node.World())
      ensures old(node.faults.count) <= node.faults.count
      ensures (memoryReload.None? ==> !node.reloading)
              && (node.sane && memoryReload.Some? ==> node.inUse <= node.spoiled)
      ensures r.Done? ==>
                && memoryReload.None? && Converged(site, node.hw.memory, mode) && !node.misread
                && NoWriteSince(old(node.history), node.history)
                && node.hw == old(node.hw) && node.spoiled == old(node.spoiled)
      ensures r.Pending? ==> memoryReload == Some(mode)
      ensures r.Failed? ==> memoryReload.None? || memoryReload == old(memoryReload)
      ensures old(memoryReload).None? && r.Pending? ==>
                && node.reloading && StagedFor(site, old(node.hw), node.hw, mode)
                && node.history[|node.history| - 1].step == Reload(mode)
                && (node.faults.count == old(node.faults.count) ==> StagedOnly(site, old(node.hw), node.hw, mode))
      ensures old(memoryReload).None? && old(Converged(site, node.hw.memory, mode)) ==> r.Done? || node.misread
      ensures old(memoryReload).Some? ==>
                && NoReloadSince(old(node.history), node.history) && node.hw == old(node.hw)
                && if old(memoryReload).value != mode then r.Failed? && memoryReload == old(memoryReload)
                   else
                     && (old(Converged(site, node.hw.memory, mode)) ==> r.Done? || node.misread)
                     && (r.Failed? <==> memoryReload.None? && !r.Done?)
                     && |old(node.history)| < |node.history|
                     && node.history[|node.history| - 1].step == Poll(!r.Pending?)
      ensures node.faults.count == old(node.faults.count) ==>
                r == UnhinderedMemory(site, CanReload(), old(memoryReload), old(node.hw), mode)
    {
      hide Run, SiteOk, Protected, Converged, Users, NoWriteSince, NoReloadSince, StagedFor, StagedOnly;
      NothingSince(node.history);
      if memoryReload.Some? {
        r := PollMemoryReload(node, mode);
        return;
      }
      var converged := MemoryConverged(node, mode);
      r := Done;
      if !converged {
        r := ReloadFor(node, mode);
      }
    }

    /** Every partitionable GPU reads back the mode. A mode that cannot be read is another mode. */
    method MemoryConverged(node: Node, mode: string) returns (converged: bool)
      requires node.Valid() && node.site == site && mode != ""
      modifies node`misread, node`history, node.faults
      ensures node.Valid() && Reading(old(node.history), node.history, old(node.World()), node.World())
      ensures converged ==>
                && Converged(site, node.hw.memory, mode) && node.World() == old(node.World())
                && node.history == old(node.history)
      ensures !converged ==> !Converged(site, node.hw.memory, mode) || node.misread
      ensures old(node.history) <= node.history
      ensures node.faults.count == old(node.faults.count) && !converged ==> !Converged(site, node.hw.memory, mode)
      ensures old(node.faults.count) <= node.faults.count
    {
      hide Run, SiteOk;
      var i := 0;
      while i < |site.partitionable|
        invariant 0 <= i <= |site.partitionable|
        invariant node.Valid() && node.World() == old(node.World()) && node.history == old(node.history)
        invariant old(node.history) <= node.history && old(node.faults.count) <= node.faults.count
        invariant forall j :: 0 <= j < i ==> Read(node.hw.memory, site.partitionable[j]) == mode
      {
        var current := node.ReadMemoryMode(site.partitionable[i]);
        if current != mode {
          return false;
        }
        i := i + 1;
      }
      return true;
    }

    /** Not converged: stage the mode and trigger the reload. */
    method ReloadFor(node: Node, mode: string) returns (r: Applied)
      requires node.Valid() && node.site == site && memoryReload.None? && mode != ""
      requires MayReload(site, node.World(), mode)
      modifies `memoryReload, node`hw, node`reloading, node`misread, node`spoiled, node`history, node.faults
      ensures node.Valid() && old(node.history) <= node.history && Wrote(old(node.World()), node.World())
      ensures old(node.faults.count) <= node.faults.count
      ensures memoryReload == (if r.Pending? then Some(mode) else None) && !r.Done? && node.reloading == r.Pending?
      ensures r.Pending? ==> node.inUse <= node.spoiled && StagedFor(site, old(node.hw), node.hw, mode)
      ensures r.Pending? ==> node.history[|node.history| - 1].step == Reload(mode)
      ensures old(node.misread) ==> node.misread
      ensures node.faults.count == old(node.faults.count) ==>
                (r.Pending? <==> CanReload()) && StagedOnly(site, old(node.hw), node.hw, mode)
    {
      hide Run, SiteOk, Protected, Excused;
      var staged := StageMemory(node, mode);
      if !staged {
        return Failed;
      }
      r := TriggerMemoryReload(node, mode);
    }

    /** Stage the mode on every partitionable GPU that is not in it; each write has a fallback. */
    method StageMemory(node: Node, mode: string) returns (ok: bool)
      requires node.Valid() && node.site == site && MayReload(site, node.World(), mode) && mode != ""
      modifies node`hw, node`misread, node`history, node.faults
      ensures node.Valid() && old(node.history) <= node.history && MayReload(site, node.World(), mode)
      ensures old(node.faults.count) <= node.faults.count
      ensures node.World() == old(node.World()).(hw := node.hw, misread := node.misread)
      ensures node.hw == old(node.hw).(staged := node.hw.staged) && (old(node.misread) ==> node.misread)
      ensures ok ==> StagedFor(site, old(node.hw), node.hw, mode)
      ensures node.faults.count == old(node.faults.count) ==> ok && StagedOnly(site, old(node.hw), node.hw, mode)
    {
      hide Run, SiteOk, Protected, StagedOnly, StagedUpTo, MayReload;
      NoneStaged(site, node.hw, mode);
      var i := 0;
      while i < |site.partitionable|
        invariant 0 <= i <= |site.partitionable| && node.Valid() && old(node.history) <= node.history
        invariant old(node.faults.count) <= node.faults.count
        invariant node.hw == old(node.hw).(staged := node.hw.staged) && (old(node.misread) ==> node.misread)
        invariant MayReload(site, node.World(), mode) && StagedUpTo(site, old(node.hw), node.hw, mode, i)
        invariant node.faults.count == old(node.faults.count) ==> StagedOnly(site, old(node.hw), node.hw, mode)
      {
        ghost var hw, v := node.hw, node.World();
        var current := node.ReadMemoryMode(site.partitionable[i]);
        StillMayReload(site, v, node.World(), mode);
        if current != mode {
          v := node.World();
          ok := StageGpu(node, site.partitionable[i], mode);
          StillMayReload(site, v, node.World(), mode);
          if !ok {
            return false;
          }
        }
        StagedMore(site, old(node.hw), hw, node.hw, mode, i);
        i := i + 1;
      }
      return true;
    }

    method StageGpu(node: Node, gpu: int, mode: string) returns (ok: bool)
      requires node.Valid() && node.site == site && MayReload(site, node.World(), mode)
      modifies node`hw, node`history, node.faults
      ensures node.Valid() && old(node.history) <= node.history && old(node.faults.count) <= node.faults.count
      ensures node.World() == old(node.World()).(hw := node.hw) && node.hw == old(node.hw).(staged := node.hw.staged)
      ensures (node.faults.count == old(node.faults.count) ==> ok) && (ok ==> Read(node.hw.staged, gpu) == mode)
      ensures forall g :: Read(node.hw.staged, g) == Read(old(node.hw).staged, g)
                          || (g == gpu && Read(node.hw.staged, g) == mode)
      ensures !ok ==>
                && |node.history| == |old(node.history)| + 2
                && node.history[|node.history| - 2].step == Stage(gpu, mode, false)
                && node.history[|node.history| - 1].step == Stage(gpu, mode, false)
    {
      hide Run, SiteOk, Protected;
      ok := node.StageMemoryMode(gpu, mode);
      if !ok {
        ok := node.StageMemoryMode(gpu, mode);
      }
    }

    method TriggerMemoryReload(node: Node, mode: string) returns (r: Applied)
      requires node.Valid() && node.site == site && MayReload(site, node.World(), mode) && memoryReload.None?
      modifies `memoryReload, node`hw, node`reloading, node`spoiled, node`history, node.faults
      ensures node.Valid() && old(node.history) <= node.history && Wrote(old(node.World()), node.World())
      ensures old(node.faults.count) <= node.faults.count
      ensures memoryReload == (if r.Pending? then Some(mode) else None) && !r.Done? && node.reloading == r.Pending?
      ensures r.Pending? ==> node.inUse <= node.spoiled && node.history[|node.history| - 1].step == Reload(mode)
      ensures node.hw.staged == old(node.hw.staged) && node.misread == old(node.misread)
      ensures node.faults.count == old(node.faults.count) ==> (r.Pending? <==> CanReload())
    {
      hide Run, SiteOk, Protected;
      if kmmEnabled && !hasRecoverer {
        return Failed;
      }
      var ok := node.ReloadDriver(mode);
      if !ok {
        return Failed;
      }
      memoryReload := Some(mode);
      return Pending;
    }

    /** Entered on a retry while a reload is marked. Never writes to the hardware. */
    method PollMemoryReload(node: Node, mode: string) returns (r: Applied)
      requires node.Valid() && node.site == site && memoryReload.Some? && mode != ""
      modifies `memoryReload, node`reloading, node`misread, node`history, node.faults
      ensures node.Valid() && old(node.history) <= node.history && old(node.faults.count) <= node.faults.count
      ensures NoWriteSince(old(node.history), node.history) && NoReloadSince(old(node.history), node.history)
      ensures node.World() == old(node.World()).(reloading := node.reloading, misread := node.misread)
      ensures memoryReload.None? ==> !node.reloading
      ensures old(memoryReload).value != mode ==> r.Failed? && memoryReload == old(memoryReload)
      ensures old(memoryReload).value == mode ==>
                && (r.Done? ==> Converged(site, node.hw.memory, mode) && node.misread == old(node.misread))
                && (Converged(site, node.hw.memory, mode) ==> r.Done? || node.misread)
                && memoryReload == (if r.Pending? then old(memoryReload) else None)
                && |old(node.history)| < |node.history|
                && node.history[|node.history| - 1].step == Poll(!r.Pending?)
                && (node.faults.count == old(node.faults.count) ==>
                      r == if Converged(site, node.hw.memory, mode) then Done else Pending)
    {
      hide Run, SiteOk, Converged;
      if memoryReload.value != mode {
        return Failed;
      }
      var converged := MemoryConverged(node, mode);
      var done := node.Polled(converged);
      if converged {
        memoryReload := None;
        return Done;
      }
      if done {
        memoryReload := None;
        return Failed;
      }
      return Pending;
    }

    method ApplyCompute(node: Node, d: PartitionName) returns (r: Applied)
      requires node.Valid() && node.site == site && Converged(site, node.hw.memory, d.memory) && d.compute != ""
      requires node.sane ==>
                 && Protected(site, node.published, d.memory)
                 && (Users(site, node.inUse, d.gpu) <= node.spoiled || Read(node.hw.compute, d.gpu) == d.compute)
      modifies node`hw, node`misread, node`spoiled, node`history, node.faults
      ensures node.Valid() && old(node.history) <= node.history && old(node.faults.count) <= node.faults.count
      ensures NoReloadSince(old(node.history), node.history)
      ensures node.World() == old(node.World()).(hw := node.hw, misread := node.misread, spoiled := node.spoiled)
      ensures old(node.spoiled) <= node.spoiled && node.hw.memory == old(node.hw.memory)
      ensures !r.Pending? && (r.Done? ==> Read(node.hw.compute, d.gpu) == d.compute)
      ensures forall g :: g != d.gpu ==> Read(node.hw.compute, g) == Read(old(node.hw.compute), g)
      ensures node.faults.count == old(node.faults.count) ==> r.Done?
      ensures r.Failed? ==> RefusedSince(old(node.history), node.history, d)
      ensures r.Done? && old(Read(node.hw.compute, d.gpu)) != d.compute ==>
                WrittenSince(old(node.history), node.history, d)
      ensures old(Read(node.hw.compute, d.gpu)) == d.compute && !old(node.misread) ==>
                && (r.Done? && NoWriteSince(old(node.history), node.history) <==> !node.misread)
                && (!node.misread ==> node.hw == old(node.hw) && node.spoiled == old(node.spoiled))
    {
      hide Run, SiteOk, Protected, Converged, Users;
      var current := node.ReadComputeMode(d.gpu);
      if current == d.compute {
        return Done;
      }
      ghost var read := node.history;
      var ok := SetCompute(node, d);
      assert !node.misread || (node.history[|read|].step.SetCompute? && |old(node.history)| <= |read|);
      r := if ok then Done else Failed;
    }

    method SetCompute(node: Node, d: PartitionName) returns (ok: bool)
      requires node.Valid() && node.site == site && Converged(site, node.hw.memory, d.memory)
      requires node.sane ==>
                 && Protected(site, node.published, d.memory)
                 && Excused(node.World(), Users(site, node.inUse, d.gpu))
      modifies node`hw, node`spoiled, node`history, node.faults
      ensures node.Valid() && NoReloadSince(old(node.history), node.history)
      ensures |node.history| > |old(node.history)| && node.history[|old(node.history)|].step.SetCompute?
      ensures node.World() == old(node.World()).(hw := node.hw, spoiled := node.spoiled)
      ensures old(node.spoiled) <= node.spoiled && node.hw.memory == old(node.hw.memory)
      ensures ok ==> Read(node.hw.compute, d.gpu) == d.compute
      ensures forall g :: g != d.gpu ==> Read(node.hw.compute, g) == Read(old(node.hw.compute), g)
      ensures old(node.history) <= node.history
      ensures old(node.faults.count) <= node.faults.count && (node.faults.count == old(node.faults.count) ==> ok)
      ensures if ok then WrittenSince(old(node.history), node.history, d)
              else RefusedSince(old(node.history), node.history, d)
    {
      hide Run, SiteOk, Protected, Converged, Users;
      ok := node.SetComputeMode(d.gpu, d.compute, d.memory);
      if !ok {
        ok := node.SetComputeMode(d.gpu, d.compute, d.memory);
      }
    }
  }

  lemma ModesHaveNames(site: Site, device: string)
    requires SiteOk(site) && site.cat.parse(device).Some?
    ensures site.cat.parse(device).value.memory != "" && site.cat.parse(device).value.compute != ""
  {
  }

  lemma NothingSince(a: seq<Event>)
    ensures NoWriteSince(a, a) && NoReloadSince(a, a)
  {
  }

  lemma BegunApply(a: seq<Event>, device: string, b: seq<Event>)
    requires a <= b && |b| == |a| + 1 && b[|a|].step == Apply(device)
    ensures NoWriteSince(a, b) && NoReloadSince(a, b)
  {
  }

  lemma Between(a: seq<Event>, b: seq<Event>, c: seq<Event>)
    requires a <= b <= c
    ensures NoWriteSince(a, c) <==> NoWriteSince(a, b) && NoWriteSince(b, c)
    ensures NoReloadSince(a, c) <==> NoReloadSince(a, b) && NoReloadSince(b, c)
  {
  }

  lemma NoneStaged(site: Site, hw: Hardware, mode: string)
    ensures StagedUpTo(site, hw, hw, mode, 0) && StagedOnly(site, hw, hw, mode)
  {
  }

  /** One GPU more is in the mode or has it staged. */
  lemma StagedMore(site: Site, start: Hardware, before: Hardware, after: Hardware, mode: string, i: nat)
    requires i < |site.partitionable| && StagedUpTo(site, start, before, mode, i)
    requires var gpu := site.partitionable[i];
             forall g :: Read(after.staged, g) == Read(before.staged, g) || (g == gpu && Read(after.staged, g) == mode)
    ensures var gpu := site.partitionable[i];
            Read(start.memory, gpu) == mode || Read(after.staged, gpu) == mode ==>
              StagedUpTo(site, start, after, mode, i + 1)
    ensures var gpu := site.partitionable[i];
            StagedOnly(site, start, before, mode)
            && (after.staged == before.staged || Read(start.memory, gpu) != mode) ==>
              StagedOnly(site, start, after, mode)
  {
    forall j | 0 <= j < i
      ensures Read(start.memory, site.partitionable[j]) == mode || Read(after.staged, site.partitionable[j]) == mode
    {
      var g := site.partitionable[j];
      assert Read(after.staged, g) == Read(before.staged, g) || Read(after.staged, g) == mode;
    }
  }

  lemma StillMayReload(site: Site, v: World, w: World, mode: string)
    requires w == v.(hw := w.hw, misread := w.misread) && (v.misread ==> w.misread)
    ensures MayReload(site, v, mode) ==> MayReload(site, w, mode)
  {
  }

  lemma SinceEarlier(a: seq<Event>, b: seq<Event>, c: seq<Event>, d: PartitionName)
    requires a <= b <= c && NoWriteSince(a, b)
    ensures WrittenSince(b, c, d) ==> WrittenSince(a, c, d)
    ensures RefusedSince(b, c, d) ==> RefusedSince(a, c, d)
  {
    if WrittenSince(b, c, d) {
      var k :| |b| <= k < |c| && c[k].step == SetCompute(d.gpu, d.compute, d.memory, true);
      assert |a| <= k < |c|;
    }
    assert forall i :: |a| <= i < |b| ==> c[i] == b[i] && Hardwareless(c[i].step);
  }

  lemma ComputeOnly(site: Site, a: Hardware, b: Hardware, device: string)
    requires site.cat.parse(device).Some? && b.memory == a.memory
    requires Read(b.compute, site.cat.parse(device).value.gpu) == site.cat.parse(device).value.compute
    requires forall g :: g != site.cat.parse(device).value.gpu ==> Read(b.compute, g) == Read(a.compute, g)
    ensures Undisturbed(site, a, b, device)
  {
  }

  // ---------- loops over slots ----------

  lemma ReserveByFields(l: Ledger, cat: Catalog, share: Share)
    ensures Reserve(l, cat, share) ==
            var d := cat.parse(share.device);
            if d.None? || (d.value.gpu in l.computeModes && l.computeModes[d.value.gpu] != d.value.compute)
               || !IsCompatibleMemoryMode(l.memoryMode, d.value.memory) then Outcome(false, l, false)
            else
              var g := d.value.gpu;
              Outcome(true,
                      Ledger(d.value.memory, l.computeModes[g := d.value.compute], l.counts[g := CountOf(l, g) + 1],
                             Ledgers.AssignSlot(l.slots, g, share.key), l.total + 1, l.claims,
                             if l.memoryMode == "" then Stamped(cat.synth, d.value.memory) else l.taints),
                      l.memoryMode == "")
  {
  }

  lemma LeastIsUnique(taken: set<nat>, slot: nat)
    requires slot !in taken && forall s: nat :: s < slot ==> s in taken
    ensures slot == LeastFree(taken)
  {
  }

  lemma {:induction false} ConflictStays(l: Ledger, cat: Catalog, shares: seq<Share>, n: nat, m: nat)
    requires n <= m <= |shares| && !ReserveUpTo(l, cat, shares, n).ok
    ensures ReserveUpTo(l, cat, shares, m) == ReserveUpTo(l, cat, shares, n)
  {
    if n < m {
      ConflictStays(l, cat, shares, n, m - 1);
    }
  }

  lemma {:induction false} FailureStays(l: Ledger, cat: Catalog, shares: seq<Share>, n: nat, m: nat)
    requires n <= m <= |shares| && !ReleaseUpTo(l, cat, shares, n).ok
    ensures ReleaseUpTo(l, cat, shares, m) == ReleaseUpTo(l, cat, shares, n)
  {
    if n < m {
      FailureStays(l, cat, shares, n, m - 1);
    }
  }

  predicate OfClaim(cat: Catalog, claim: string, key: string) {
    cat.split(key).Some? && cat.split(key).value.claim == claim
  }

  /** The list has one share for every held key of the claim. */
  ghost predicate Collected(cat: Catalog, slots: Slots, claim: string, shares: seq<Share>, gpus: seq<int>) {
    && |shares| == |gpus|
    && (forall i :: 0 <= i < |shares| ==>
          Holds(slots, gpus[i], shares[i].key) && OfClaim(cat, claim, shares[i].key)
          && shares[i].device == cat.DeviceOf(shares[i].key))
    && (forall i, j :: 0 <= i < j < |shares| ==> (gpus[i], shares[i].key) != (gpus[j], shares[j].key))
    && (forall g, k :: Holds(slots, g, k) && OfClaim(cat, claim, k) ==>
          exists i :: 0 <= i < |shares| && gpus[i] == g && shares[i].key == k)
  }

  lemma NothingCollected(cat: Catalog, claim: string)
    ensures Collected(cat, map[], claim, [], [])
  {
  }

  lemma NothingLeft(slots: Slots)
    ensures slots - slots.Keys == map[] && slots - {} == slots
  {
  }

  lemma OneGpuMore(slots: Slots, todo: set<int>, g: int)
    requires g in todo && todo <= slots.Keys
    ensures (slots - todo)[g := slots[g]] == slots - (todo - {g})
  {
  }

  lemma OneKeyMore(done: Slots, g: int, slots: map<string, nat>, keys: set<string>, key: string)
    requires key in keys && keys <= slots.Keys
    ensures Put(done[g := slots - keys], g, key, slots[key]) == done[g := slots - (keys - {key})]
  {
    assert (slots - keys)[key := slots[key]] == slots - (keys - {key});
  }

  lemma OneSlotMore(slots: map<string, nat>, keys: set<string>, key: string)
    requires key in keys && keys <= slots.Keys
    ensures (slots - keys)[key := slots[key]] == slots - (keys - {key}) && key !in slots - keys
  {
  }

  lemma PutInner(slots: Slots, g: int, inner: map<string, nat>, key: string, slot: nat)
    ensures Put(slots[g := inner], g, key, slot) == slots[g := inner[key := slot]]
  {
  }

  lemma NothingPut(cat: Catalog, slots: Slots, claim: string, shares: seq<Share>, gpus: seq<int>, g: int)
    requires Collected(cat, slots, claim, shares, gpus) && g !in slots
    ensures Collected(cat, slots[g := map[]], claim, shares, gpus)
  {
    var after: Slots := slots[g := map[]];
    forall h, k
      ensures Holds(after, h, k) <==> Holds(slots, h, k)
    {
    }
  }

  lemma ListedMore(cat: Catalog, slots: Slots, claim: string, shares: seq<Share>, gpus: seq<int>, g: int, key: string,
                   slot: nat)
    requires Collected(cat, slots, claim, shares, gpus) && !Holds(slots, g, key) && g in slots
    ensures var more := Put(slots, g, key, slot);
            if OfClaim(cat, claim, key)
            then Collected(cat, more, claim, shares + [Share(cat.DeviceOf(key), key)], gpus + [g])
            else Collected(cat, more, claim, shares, gpus)
  {
    var more := Put(slots, g, key, slot);
    forall h, k
      ensures Holds(more, h, k) <==> Holds(slots, h, k) || (h == g && k == key)
    {
    }
    if OfClaim(cat, claim, key) {
      var shares', gpus' := shares + [Share(cat.DeviceOf(key), key)], gpus + [g];
      forall h, k | Holds(more, h, k) && OfClaim(cat, claim, k)
        ensures exists i :: 0 <= i < |shares'| && gpus'[i] == h && shares'[i].key == k
      {
        if h == g && k == key {
          assert gpus'[|gpus|] == h && shares'[|gpus|].key == k;
        } else {
          var i :| 0 <= i < |shares| && gpus[i] == h && shares[i].key == k;
          assert gpus'[i] == h && shares'[i].key == k;
        }
      }
    }
  }

  lemma ListedAreReserved(l: Ledger, cat: Catalog, plan: string -> seq<Share>, claim: string, shares: seq<Share>,
                          gpus: seq<int>)
    requires Sound(l, cat, plan) && PlanOk(cat, plan) && claim in l.claims
    requires Collected(cat, l.slots, claim, shares, gpus)
    ensures SharesOf(cat, claim, shares) && Pairs(cat, shares) == Pairs(cat, plan(claim))
  {
    forall i | 0 <= i < |shares|
      ensures (gpus[i], shares[i].key) in Pairs(cat, plan(claim))
      ensures WellKeyed(cat, shares[i]) && KeyOf(cat, claim, shares[i].key)
      ensures PairOf(cat, shares[i]) == (gpus[i], shares[i].key)
    {
      HeldIff(l.slots, gpus[i], shares[i].key);
      HeldByOwner(l, cat, plan, claim, (gpus[i], shares[i].key));
    }
    forall p | p in Pairs(cat, plan(claim))
      ensures p in Pairs(cat, shares)
    {
      HeldClaimIsHeld(l, cat, plan, claim);
      HeldIff(l.slots, p.0, p.1);
      PlannedKey(cat, plan, claim, p);
      var i :| 0 <= i < |shares| && gpus[i] == p.0 && shares[i].key == p.1;
      assert PairOf(cat, shares[i]) == p && shares[i] in shares;
    }
    assert Pairs(cat, shares) == Pairs(cat, plan(claim));
  }

  lemma PlannedKey(cat: Catalog, plan: string -> seq<Share>, claim: string, p: (int, string))
    requires PlanOk(cat, plan) && p in Pairs(cat, plan(claim))
    ensures KeyOf(cat, claim, p.1) && OfClaim(cat, claim, p.1)
    ensures WellKeyed(cat, Share(cat.DeviceOf(p.1), p.1)) && PairOf(cat, Share(cat.DeviceOf(p.1), p.1)) == p
  {
    assert SharesOf(cat, claim, plan(claim));
    var s :| s in plan(claim) && PairOf(cat, s) == p;
  }

  lemma HeldByOwner(l: Ledger, cat: Catalog, plan: string -> seq<Share>, claim: string, p: (int, string))
    requires Sound(l, cat, plan) && PlanOk(cat, plan) && p in Held(l.slots) && OfClaim(cat, claim, p.1)
    ensures p in Pairs(cat, plan(claim)) && KeyOf(cat, claim, p.1)
    ensures WellKeyed(cat, Share(cat.DeviceOf(p.1), p.1)) && PairOf(cat, Share(cat.DeviceOf(p.1), p.1)) == p
  {
    hide Valid, Held, SharesOf, Pairs;
    var owner :| owner in l.claims && p in Pairs(cat, plan(owner));
    PlannedKey(cat, plan, owner, p);
  }

  // ---------- counting slots ----------

  /** The counters and the claim markers are those of the slots. */
  ghost predicate Tallied(cat: Catalog, slots: Slots, counts: map<int, nat>, total: nat, claims: set<string>) {
    counts == CountsOf(NonEmpty(slots)) && total == |Held(slots)| && claims == ClaimsIn(cat, slots)
  }

  lemma NothingTallied(cat: Catalog)
    ensures Tallied(cat, map[], map[], 0, {})
  {
    NothingHeldIn(map[]);
    assert NonEmpty(map[]) == map[];
  }

  lemma TallyEmpty(cat: Catalog, slots: Slots, counts: map<int, nat>, total: nat, claims: set<string>, g: int)
    requires Tallied(cat, slots, counts, total, claims) && g !in slots
    ensures Tallied(cat, slots[g := map[]], counts, total, claims)
  {
    var after: Slots := slots[g := map[]];
    forall p: (int, string)
      ensures p in Held(after) <==> p in Held(slots)
    {
      HeldIff(after, p.0, p.1);
      HeldIff(slots, p.0, p.1);
    }
    assert Held(after) == Held(slots);
    assert NonEmpty(after) == NonEmpty(slots);
  }

  lemma TallyMore(cat: Catalog, slots: Slots, counts: map<int, nat>, total: nat, claims: set<string>, g: int,
                  key: string, slot: nat)
    requires Tallied(cat, slots, counts, total, claims) && g in slots && key !in slots[g]
    ensures var more, claim := Put(slots, g, key, slot), cat.cut(key);
            Tallied(cat, more, counts[g := (if g in counts then counts[g] else 0) + 1], total + 1,
                    if claim.Some? && claim.value != "" then claims + {claim.value} else claims)
  {
    hide Held, CountsOf, NonEmpty;
    HeldAfterPut(slots, g, key, slot);
    CountMore(slots, g, key, slot);
    ClaimsMore(cat, slots, g, key, slot);
  }

  lemma ClaimsMore(cat: Catalog, slots: Slots, g: int, key: string, slot: nat)
    requires !Holds(slots, g, key)
    ensures ClaimsIn(cat, Put(slots, g, key, slot)) == ClaimsIn(cat, slots) + ({cat.ClaimOf(key)} - {""})
  {
    HeldAfterPut(slots, g, key, slot);
  }

  lemma CountMore(slots: Slots, g: int, key: string, slot: nat)
    requires g in slots && key !in slots[g]
    ensures var counts, more := CountsOf(NonEmpty(slots)), Put(slots, g, key, slot);
            CountsOf(NonEmpty(more)) == counts[g := (if g in counts then counts[g] else 0) + 1]
  {
    SizeAfterUpdate(slots[g], key, slot);
  }

  lemma {:induction false} CountingKeepsClaims(l: Ledger, cat: Catalog, claim: string, devices: seq<PreparedDevice>,
                                               n: nat)
    requires n <= |devices|
    ensures CountDevices(l, cat, claim, devices, n).claims == l.claims
  {
    if n > 0 {
      CountingKeepsClaims(l, cat, claim, devices, n - 1);
    }
  }
}
