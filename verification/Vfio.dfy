/**
 GPUs that are converted to VFIO for a claim.

 The ledger keeps, per claim, every device converted for it. A record outlives the rebinding: it
 goes only when the device is back on its driver. `LedgerOk` ties the records to the allocatable
 entries and to the driver bindings.
 */
module Vfio {
  import opened Wrappers
  import opened Recovery
  import opened Worlds
  import opened Nodes

  datatype Entry =
    | GpuEntry(gpu: Gpu)
    | PartitionEntry                                             // an existing hardware partition
    | SyntheticEntry
    | VfioEntry(pci: string, pre: string, from: Option<Gpu>)     // pre: the driver to return to

  type Allocatable = map<string, Entry>

  function Converted(gpu: Gpu): Entry {
    VfioEntry(gpu.pci, AMDGPU, Some(gpu))
  }

  predicate OfFleet(site: Site, pci: string) {
    exists n :: n in site.fleet && site.fleet[n].pci == pci
  }

  /** The synthetic partitions are listed, and no other device is named like one. */
  ghost predicate PartitionsNamed(site: Site, allocatable: Allocatable) {
    && (forall n :: n in site.cat.synth ==> n in allocatable && allocatable[n] == SyntheticEntry)
    && (forall n :: n in allocatable && allocatable[n] == SyntheticEntry ==> n in site.cat.synth)
    && (forall n :: n in allocatable && site.cat.parse(n).Some? ==> n in site.cat.synth)
  }

  /** Each whole GPU of the node keeps its name: it is listed as a GPU, or, exactly when some claim
      has a record of it, as the VFIO device it was converted to. No other entry is one of the
      node's GPUs under a second name. */
  ghost predicate Listed(site: Site, allocatable: Allocatable, conversions: Conversions) {
    && (forall n :: n in site.fleet ==>
          && n in allocatable
          && allocatable[n] == if Recorded(conversions, n) then Converted(site.fleet[n]) else GpuEntry(site.fleet[n]))
    && (forall n :: n in allocatable && n !in site.fleet ==>
          && !allocatable[n].GpuEntry?
          && (allocatable[n].VfioEntry? ==> allocatable[n].from.None? && !OfFleet(site, allocatable[n].pci)))
    && PartitionsNamed(site, allocatable)
  }

  ghost predicate LedgerOk(site: Site, allocatable: Allocatable, conversions: Conversions, drivers: map<string,
                           string>) {
    && RecordsOk(site, conversions)
    && Listed(site, allocatable, conversions)
    && Covered(site, conversions, drivers)
  }

  /** A conversion record belongs to one claim, and a device has one exactly when its entry is
      VFIO, converted from the recorded GPU; a device without one is on amdgpu. */
  lemma RecordIffConverted(site: Site, allocatable: Allocatable, conversions: Conversions, drivers: map<string, string>,
                           device: string)
    requires LedgerOk(site, allocatable, conversions, drivers)
    ensures (exists c :: && Records(conversions, c, device)
                         && device in allocatable && allocatable[device] == Converted(conversions[c][device])
                         && forall d :: Records(conversions, d, device) ==> d == c)
            <==> device in allocatable && allocatable[device].VfioEntry? && allocatable[device].from.Some?
    ensures device in site.fleet && !Recorded(conversions, device) ==>
              allocatable[device] == GpuEntry(site.fleet[device]) && OnAmdgpu(site, drivers, device)
  {
    if device in allocatable && allocatable[device].VfioEntry? && allocatable[device].from.Some? {
      assert Recorded(conversions, device);
      var c :| Records(conversions, c, device);
      assert device in allocatable && allocatable[device] == Converted(conversions[c][device]);
    }
  }

  /** Every GPU with this address has a record. */
  ghost predicate Movable(site: Site, conversions: Conversions, pci: string) {
    forall n :: n in site.fleet && site.fleet[n].pci == pci ==> Recorded(conversions, n)
  }

  ghost predicate Elsewhere(a: map<string, string>, b: map<string, string>, pci: string) {
    forall p :: p != pci ==> Read(a, p) == Read(b, p)
  }

  /** The device is where it was before it was configured. */
  predicate IsBack(drivers: map<string, string>, pci: string, pre: string) {
    if pre == VFIO_PCI then true else if pre == "" then Read(drivers, pci) != VFIO_PCI else Read(drivers, pci) == pre
  }

  /** Without a manager this device could not be returned: it is not on the driver of before. */
  predicate Stuck(allocatable: Allocatable, drivers: map<string, string>, device: string) {
    && device in allocatable && allocatable[device].VfioEntry?
    && Read(drivers, allocatable[device].pci) != allocatable[device].pre
  }

  /** The devices that were recorded for the claim are listed as the GPUs they were. */
  function GivenBack(allocatable: Allocatable, conversions: Conversions, claim: string): Allocatable {
    map n | n in allocatable ::
      if Records(conversions, claim, n) then GpuEntry(conversions[claim][n]) else allocatable[n]
  }

  /** The same, for those of them that have no record any more. */
  ghost predicate GivenBackFrom(a: Allocatable, before: Conversions, b: Allocatable, after: Conversions,
                                claim: string) {
    && b.Keys == a.Keys
    && forall n :: n in a ==>
         b[n] == if Records(before, claim, n) && !Records(after, claim, n) then GpuEntry(before[claim][n]) else a[n]
  }

  /** No device has become a VFIO device. */
  ghost predicate NoneTurned(before: Allocatable, after: Allocatable) {
    forall n :: n in after && after[n].VfioEntry? ==> n in before && before[n] == after[n]
  }

  /** None of the first n devices is stuck. */
  ghost predicate NoneStuck(allocatable: Allocatable, drivers: map<string, string>, devices: seq<string>, n: nat)
    requires n <= |devices|
  {
    forall i :: 0 <= i < n ==> !Stuck(allocatable, drivers, devices[i])
  }

  /** All records in memory are on disk. */
  ghost predicate Kept(conversions: Conversions, disk: Conversions) {
    forall c, n :: Records(conversions, c, n) ==> Records(disk, c, n)
  }

  lemma MovedIsCovered(site: Site, conversions: Conversions, a: map<string, string>, b: map<string, string>,
                       pci: string)
    requires Covered(site, conversions, a) && Movable(site, conversions, pci) && Elsewhere(a, b, pci)
    ensures Covered(site, conversions, b)
  {
  }

  function Without(conversions: Conversions, claim: string, device: string): Conversions {
    if claim !in conversions then conversions
    else if conversions[claim] - {device} == map[] then conversions - {claim}
    else conversions[claim := conversions[claim] - {device}]
  }

  lemma RecordsWithout(conversions: Conversions, claim: string, device: string, c: string, n: string)
    ensures Records(Without(conversions, claim, device), c, n)
            <==> Records(conversions, c, n) && !(c == claim && n == device)
    ensures Records(Without(conversions, claim, device), c, n) ==>
              Without(conversions, claim, device)[c][n] == conversions[c][n]
  {
    if Records(conversions, c, n) && c == claim && n != device {
      assert n in conversions[claim] - {device};
    }
  }

  /** No record was added or moved, and none of another claim was removed. */
  ghost predicate Fewer(before: Conversions, after: Conversions, claim: string) {
    && (forall c, n :: Records(after, c, n) ==> Records(before, c, n) && after[c][n] == before[c][n])
    && (forall c, n :: Records(before, c, n) && c != claim ==> Records(after, c, n))
  }

  lemma FewerByNone(conversions: Conversions, claim: string)
    ensures Fewer(conversions, conversions, claim)
  {
  }

  lemma FewerStill(a: Conversions, b: Conversions, c: Conversions, claim: string)
    requires Fewer(a, b, claim) && Fewer(b, c, claim)
    ensures Fewer(a, c, claim)
    ensures forall d, n :: Records(c, d, n) ==> Records(b, d, n)
  {
  }

  /** Apart from one device, the same devices are recorded. */
  ghost predicate SameBut(before: Conversions, after: Conversions, device: string) {
    forall n :: n != device ==> (Recorded(after, n) <==> Recorded(before, n))
  }

  lemma Relisted(site: Site, allocatable: Allocatable, before: Conversions, after: Conversions, device: string)
    requires Listed(site, allocatable, before) && SameBut(before, after, device) && device in site.fleet
    ensures var entry := if Recorded(after, device) then Converted(site.fleet[device])
                         else GpuEntry(site.fleet[device]);
            Listed(site, allocatable[device := entry], after)
  {
    hide Recorded, OfFleet, PartitionsNamed;
    NotSynthetic(site, allocatable, device);
    NamedWith(site, allocatable, device, if Recorded(after, device) then Converted(site.fleet[device])
                                         else GpuEntry(site.fleet[device]));
  }

  lemma NotSynthetic(site: Site, allocatable: Allocatable, device: string)
    requires PartitionsNamed(site, allocatable) && device in allocatable && allocatable[device] != SyntheticEntry
    ensures device !in site.cat.synth
  {
  }

  lemma NamedWith(site: Site, allocatable: Allocatable, device: string, entry: Entry)
    requires PartitionsNamed(site, allocatable) && device !in site.cat.synth && entry != SyntheticEntry
    requires device in allocatable || site.cat.parse(device).None?
    ensures PartitionsNamed(site, allocatable[device := entry])
  {
  }

  lemma StillCovered(site: Site, before: Conversions, after: Conversions, drivers: map<string, string>, device: string)
    requires Covered(site, before, drivers) && SameBut(before, after, device) && device in site.fleet
    requires OnAmdgpu(site, drivers, device) || Recorded(after, device)
    ensures Covered(site, after, drivers)
  {
    hide Recorded, OnAmdgpu;
  }

  lemma InFleetIsListed(site: Site, allocatable: Allocatable, conversions: Conversions, device: string)
    requires Listed(site, allocatable, conversions) && device in site.fleet
    ensures device in allocatable
    ensures allocatable[device]
            == if Recorded(conversions, device) then Converted(site.fleet[device]) else GpuEntry(site.fleet[device])
  {
  }

  lemma RestoredIsOk(site: Site, allocatable: Allocatable, conversions: Conversions, drivers: map<string, string>,
                     claim: string, device: string)
    requires LedgerOk(site, allocatable, conversions, drivers) && Records(conversions, claim, device)
    requires device in site.fleet && OnAmdgpu(site, drivers, device)
    ensures device in allocatable && conversions[claim][device] == site.fleet[device]
    ensures var after := Without(conversions, claim, device);
            && LedgerOk(site, allocatable[device := GpuEntry(site.fleet[device])], after, drivers)
            && Fewer(conversions, after, claim) && !Recorded(after, device) && SameBut(conversions, after, device)
  {
    hide Without, Listed, Covered;
    InFleetIsListed(site, allocatable, conversions, device);
    var after := Without(conversions, claim, device);
    forall c, n
      ensures Records(after, c, n) <==> Records(conversions, c, n) && !(c == claim && n == device)
      ensures Records(after, c, n) ==> after[c][n] == conversions[c][n]
    {
      RecordsWithout(conversions, claim, device, c, n);
    }
    forall n
      ensures Recorded(after, n) <==> Recorded(conversions, n) && n != device
    {
      if Recorded(conversions, n) && n != device {
        var c :| Records(conversions, c, n);
        assert Records(after, c, n);
      }
    }
    assert SameBut(conversions, after, device);
    Relisted(site, allocatable, conversions, after, device);
    StillCovered(site, conversions, after, drivers, device);
  }

  function With(conversions: Conversions, claim: string, device: string, gpu: Gpu): Conversions {
    conversions[claim := (if claim in conversions then conversions[claim] else map[])[device := gpu]]
  }

  lemma RecordsWith(conversions: Conversions, claim: string, device: string, gpu: Gpu, c: string, n: string)
    ensures Records(With(conversions, claim, device, gpu), c, n)
            <==> Records(conversions, c, n) || (c == claim && n == device)
    ensures Records(With(conversions, claim, device, gpu), c, n) ==>
              With(conversions, claim, device, gpu)[c][n]
              == if c == claim && n == device then gpu else conversions[c][n]
  {
  }

  /** Recording a device that no other claim has recorded. */
  lemma RecordedIsOk(site: Site, conversions: Conversions, claim: string, device: string)
    requires RecordsOk(site, conversions) && device in site.fleet
    requires forall c :: Records(conversions, c, device) ==> c == claim
    ensures var after := With(conversions, claim, device, site.fleet[device]);
            RecordsOk(site, after) && SameBut(conversions, after, device) && Recorded(after, device)
  {
    hide With;
    var after := With(conversions, claim, device, site.fleet[device]);
    forall c, n
      ensures Records(after, c, n) <==> Records(conversions, c, n) || (c == claim && n == device)
      ensures Records(after, c, n) ==>
                after[c][n] == if c == claim && n == device then site.fleet[device] else conversions[c][n]
    {
      RecordsWith(conversions, claim, device, site.fleet[device], c, n);
    }
    assert Records(after, claim, device);
    forall n | n != device
      ensures Recorded(after, n) <==> Recorded(conversions, n)
    {
      if Recorded(conversions, n) {
        var c :| Records(conversions, c, n);
        assert Records(after, c, n);
      }
    }
  }

  lemma ConvertedIsOk(site: Site, allocatable: Allocatable, conversions: Conversions, drivers: map<string, string>,
                      claim: string, device: string)
    requires LedgerOk(site, allocatable, conversions, drivers) && device in allocatable && allocatable[device].GpuEntry?
    ensures device in site.fleet && allocatable[device].gpu == site.fleet[device]
    ensures OnAmdgpu(site, drivers, device) && !Recorded(conversions, device)
    ensures var after := With(conversions, claim, device, site.fleet[device]);
            LedgerOk(site, allocatable[device := Converted(site.fleet[device])], after, drivers)
  {
    hide With, Covered, RecordsOk;
    assert device in site.fleet && !Recorded(conversions, device);
    NotRecorded(site, conversions, drivers, device);
    var after := With(conversions, claim, device, site.fleet[device]);
    RecordedIsOk(site, conversions, claim, device);
    Relisted(site, allocatable, conversions, after, device);
    StillCovered(site, conversions, after, drivers, device);
  }

  lemma NotRecorded(site: Site, conversions: Conversions, drivers: map<string, string>, device: string)
    requires Covered(site, conversions, drivers) && device in site.fleet && !Recorded(conversions, device)
    ensures OnAmdgpu(site, drivers, device)
  {
  }

  // ---------- returning devices ----------

  /** Devices of the claim that were never bound away may be left out of a list to be returned. */
  ghost predicate RestOnAmdgpu(site: Site, conversions: Conversions, drivers: map<string, string>, claim: string,
                               devices: seq<string>) {
    forall n :: Records(conversions, claim, n) && n in site.fleet && n !in devices ==> OnAmdgpu(site, drivers, n)
  }

  /** The listed devices that have a record have one on disk. */
  ghost predicate OnDisk(conversions: Conversions, disk: Conversions, devices: seq<string>) {
    forall n :: n in devices && Recorded(conversions, n) ==> Recorded(disk, n)
  }

  class VfioLedger {
    const site: Site
    const hasManager: bool
    var allocatable: Allocatable
    var conversions: Conversions

    ghost predicate Valid(node: Node)
      reads this, node
    {
      node.Valid() && node.site == site && LedgerOk(site, allocatable, conversions, node.drivers)
    }

    constructor (site: Site, hasManager: bool, allocatable: Allocatable)
      ensures this.site == site && this.hasManager == hasManager
      ensures this.allocatable == allocatable && conversions == map[]
    {
      this.site, this.hasManager, this.allocatable, this.conversions := site, hasManager, allocatable, map[];
    }

    // ---------- drivers ----------

    /** Bind the device to vfio-pci, so that a crash at any point in between finds its record. */
    method Configure(node: Node, pci: string) returns (ok: bool)
      requires node.Valid() && node.site == site && Movable(site, node.disk.vfio, pci)
      modifies node`drivers, node`history, node.faults
      ensures node.Valid() && old(node.history) <= node.history && old(node.faults.count) <= node.faults.count
      ensures node.World() == old(node.World()).(drivers := node.drivers)
      ensures Elsewhere(old(node.drivers), node.drivers, pci)
      ensures (node.faults.count == old(node.faults.count) ==> ok) && (ok ==> Read(node.drivers, pci) == VFIO_PCI)
      ensures node.drivers != old(node.drivers) ==> Worked(old(node.history), node.history, FindNoFunctions(pci))
    {
      hide Run, SiteOk, Movable, Elsewhere, Worked;
      SameElsewhere(node.drivers, pci);
      var current := node.CurrentDriver(pci);
      if current.None? {
        return false;
      }
      if current.value == VFIO_PCI {
        return true;
      }
      var noVirtualFunctions := node.Do(FindNoFunctions(pci));
      if !noVirtualFunctions {
        return false;
      }
      ghost var since := node.history;
      ok := MoveTo(node, pci, current.value, VFIO_PCI);
      WorkedWithin(old(node.history), old(node.history), since, node.history, FindNoFunctions(pci));
    }

    /** Unbind a device from the driver it has, if any, and bind it to another. */
    method MoveTo(node: Node, pci: string, current: string, driver: string) returns (ok: bool)
      requires node.Valid() && node.site == site && Movable(site, node.disk.vfio, pci)
      requires current == Read(node.drivers, pci)
      modifies node`drivers, node`history, node.faults
      ensures node.Valid() && old(node.history) <= node.history && old(node.faults.count) <= node.faults.count
      ensures node.World() == old(node.World()).(drivers := node.drivers)
      ensures Elsewhere(old(node.drivers), node.drivers, pci)
      ensures (node.faults.count == old(node.faults.count) ==> ok) && (ok ==> Read(node.drivers, pci) == driver)
    {
      hide Run, SiteOk, Movable;
      if current != "" {
        ok := Write(node, pci, "");
        if !ok {
          return;
        }
      }
      ok := Write(node, pci, driver);
    }

    method Write(node: Node, pci: string, driver: string) returns (ok: bool)
      requires node.Valid() && node.site == site && Movable(site, node.disk.vfio, pci)
      requires driver == "" || Read(node.drivers, pci) == ""
      modifies node`drivers, node`history, node.faults
      ensures node.Valid() && old(node.history) <= node.history && old(node.faults.count) <= node.faults.count
      ensures node.World() == old(node.World()).(drivers := node.drivers)
      ensures Elsewhere(old(node.drivers), node.drivers, pci)
      ensures (node.faults.count == old(node.faults.count) ==> ok) && (ok ==> Read(node.drivers, pci) == driver)
    {
      node.CurrentIsDurable();
      MovedIsCovered(site, node.disk.vfio, node.drivers, node.drivers[pci := driver], pci);
      ok := node.Bind(pci, driver);
    }

    /** Rebind a device to the driver it had before. One that was on vfio-pci already stays there,
        and one that had no driver is left without. */
    method Unconfigure(node: Node, pci: string, pre: string) returns (ok: bool)
      requires node.Valid() && node.site == site && Movable(site, node.disk.vfio, pci)
      modifies node`drivers, node`history, node.faults
      ensures node.Valid() && old(node.history) <= node.history && old(node.faults.count) <= node.faults.count
      ensures node.World() == old(node.World()).(drivers := node.drivers)
      ensures Elsewhere(old(node.drivers), node.drivers, pci)
      ensures pre == VFIO_PCI ==> ok
      ensures IsBack(old(node.drivers), pci, pre) ==> node.drivers == old(node.drivers)
      ensures (node.faults.count == old(node.faults.count) ==> ok) && (ok ==> IsBack(node.drivers, pci, pre))
    {
      hide Run, SiteOk, Movable, Elsewhere;
      SameElsewhere(node.drivers, pci);
      if pre == VFIO_PCI {
        return true;
      }
      var current := node.CurrentDriver(pci);
      if current.None? {
        return false;
      }
      if pre == "" {
        if current.value == VFIO_PCI {
          ok := Write(node, pci, "");
          return;
        }
        return true;
      }
      if current.value == pre {
        return true;
      }
      ok := MoveTo(node, pci, current.value, pre);
    }

    /** Without a manager nothing can be rebound; then this succeeds only for a device that is on
        its driver already. */
    method ReturnToOriginalDriver(node: Node, pci: string, pre: string) returns (ok: bool)
      requires node.Valid() && node.site == site && Movable(site, node.disk.vfio, pci)
      modifies node`drivers, node`history, node.faults
      ensures node.Valid() && old(node.history) <= node.history && old(node.faults.count) <= node.faults.count
      ensures node.World() == old(node.World()).(drivers := node.drivers)
      ensures Elsewhere(old(node.drivers), node.drivers, pci)
      ensures ok ==> IsBack(node.drivers, pci, pre)
      ensures !hasManager ==> node.World() == old(node.World()) && node.history == old(node.history)
      ensures ok && !hasManager ==> Read(node.drivers, pci) == pre
      ensures node.faults.count == old(node.faults.count) ==>
                (ok <==> hasManager || Read(old(node.drivers), pci) == pre)
    {
      hide Run, SiteOk, Movable, Elsewhere;
      if hasManager {
        ok := Unconfigure(node, pci, pre);
        return;
      }
      SameElsewhere(node.drivers, pci);
      var current := node.CurrentDriver(pci);
      ok := current.Some? && current.value == pre;
    }

    // ---------- records ----------

    /** Record the conversion of a GPU and swap its entry. */
    method Convert(node: Node, claim: string, device: string)
      requires Valid(node) && device in allocatable && allocatable[device].GpuEntry?
      modifies this
      ensures Valid(node) && device in site.fleet && OnAmdgpu(site, node.drivers, device)
      ensures allocatable == old(allocatable)[device := Converted(site.fleet[device])]
      ensures conversions == With(old(conversions), claim, device, site.fleet[device])
    {
      hide LedgerOk, With;
      ConvertedIsOk(site, allocatable, conversions, node.drivers, claim, device);
      RecordVfioConversion(claim, device, allocatable[device].gpu);
      allocatable := allocatable[device := Converted(allocatable[device].gpu)];
    }

    method RecordVfioConversion(claim: string, device: string, original: Gpu)
      modifies `conversions
      ensures conversions == With(old(conversions), claim, device, original)
    {
      if claim !in conversions {
        conversions := conversions[claim := map[]];
      }
      conversions := conversions[claim := conversions[claim][device := original]];
    }

    /** Swap a device back and drop its record; nothing happens when the claim has none. */
    method RestoreFromVfio(node: Node, claim: string, device: string)
      requires Valid(node)
      requires Records(conversions, claim, device) && device in site.fleet ==> OnAmdgpu(site, node.drivers, device)
      modifies this
      ensures Valid(node) && Fewer(old(conversions), conversions, claim)
      ensures forall n :: Records(conversions, claim, n) <==> Records(old(conversions), claim, n) && n != device
      ensures NoneTurned(old(allocatable), allocatable)
      ensures GivenBackFrom(old(allocatable), old(conversions), allocatable, conversions, claim)
    {
      hide LedgerOk, Without;
      if !Records(conversions, claim, device) {
        return;
      }
      RecordedIsConverted(site, allocatable, conversions, node.drivers, claim, device);
      RestoredIsOk(site, allocatable, conversions, node.drivers, claim, device);
      forall n
        ensures Records(Without(conversions, claim, device), claim, n)
                <==> Records(conversions, claim, n) && n != device
      {
        RecordsWithout(conversions, claim, device, claim, n);
      }
      DropRecord(claim, device);
    }

    method DropRecord(claim: string, device: string)
      requires Records(conversions, claim, device)
      modifies this
      ensures allocatable == if device in old(allocatable)
                             then old(allocatable)[device := GpuEntry(old(conversions)[claim][device])]
                             else old(allocatable)
      ensures conversions == Without(old(conversions), claim, device)
    {
      if device in allocatable {
        allocatable := allocatable[device := GpuEntry(conversions[claim][device])];
      }
      var left := conversions[claim] - {device};
      conversions := conversions[claim := left];
      if left == map[] {
        conversions := conversions - {claim};
      }
    }

    /** Bind the device behind a VFIO entry to vfio-pci. */
    method ConfigureDevice(node: Node, device: string) returns (ok: bool)
      requires Valid(node) && SiteOk(site) && device in allocatable && allocatable[device].VfioEntry?
      requires Recorded(conversions, device) ==> Recorded(node.disk.vfio, device)
      modifies node`drivers, node`history, node.faults
      ensures Valid(node) && old(node.history) <= node.history && old(node.faults.count) <= node.faults.count
      ensures node.World() == old(node.World()).(drivers := node.drivers)
      ensures OthersStay(site, old(node.drivers), node.drivers, device)
      ensures Elsewhere(old(node.drivers), node.drivers, allocatable[device].pci)
      ensures ok ==> Read(node.drivers, allocatable[device].pci) == VFIO_PCI
      ensures (ok ==> hasManager) && (node.faults.count == old(node.faults.count) ==> (ok <==> hasManager))
    {
      hide Run, SiteOk, Movable, Elsewhere, LedgerOk, Recorded;
      if !hasManager {
        SameElsewhere(node.drivers, allocatable[device].pci);
        EntryMoved(site, allocatable, conversions, node.drivers, node.drivers, device);
        return false;
      }
      EntryIsMovable(site, allocatable, conversions, node.disk.vfio, node.drivers, device);
      ok := Configure(node, allocatable[device].pci);
      EntryMoved(site, allocatable, conversions, old(node.drivers), node.drivers, device);
    }

    /** Rebind the device behind a VFIO entry. */
    method ReturnDevice(node: Node, device: string) returns (ok: bool)
      requires Valid(node) && SiteOk(site) && device in allocatable && allocatable[device].VfioEntry?
      requires Recorded(conversions, device) ==> Recorded(node.disk.vfio, device)
      modifies node`drivers, node`history, node.faults
      ensures Valid(node) && old(node.history) <= node.history && old(node.faults.count) <= node.faults.count
      ensures node.World() == old(node.World()).(drivers := node.drivers)
      ensures OthersStay(site, old(node.drivers), node.drivers, device)
      ensures ok && device in site.fleet ==> OnAmdgpu(site, node.drivers, device)
      ensures ok ==> IsBack(node.drivers, allocatable[device].pci, allocatable[device].pre)
      ensures !hasManager ==> node.drivers == old(node.drivers)
      ensures node.faults.count == old(node.faults.count) ==>
                (ok <==> hasManager || !Stuck(allocatable, old(node.drivers), device))
    {
      hide Run, SiteOk, Movable, Elsewhere, LedgerOk, Recorded;
      var e := allocatable[device];
      EntryIsMovable(site, allocatable, conversions, node.disk.vfio, node.drivers, device);
      ok := ReturnToOriginalDriver(node, e.pci, e.pre);
      EntryMoved(site, allocatable, conversions, old(node.drivers), node.drivers, device);
    }

    /** Return the listed VFIO devices, then restore every device of the claim that did not fail.
        Those that failed stay converted and recorded. */
    method ReleaseClaimVfio(node: Node, claim: string, devices: seq<string>) returns (ok: bool)
      requires Valid(node) && SiteOk(site) && OnDisk(conversions, node.disk.vfio, devices)
      requires RestOnAmdgpu(site, conversions, node.drivers, claim, devices)
      modifies this, node`drivers, node`history, node.faults
      ensures Valid(node) && old(node.history) <= node.history && old(node.faults.count) <= node.faults.count
      ensures node.World() == old(node.World()).(drivers := node.drivers)
      ensures Fewer(old(conversions), conversions, claim)
      ensures forall n :: Records(conversions, claim, n) ==> n in devices
      ensures ok ==> forall n :: !Records(conversions, claim, n)
      ensures (forall n :: n in devices ==> Records(old(conversions), claim, n)) && !ok ==>
                exists n :: Records(conversions, claim, n)
      ensures node.faults.count == old(node.faults.count) ==>
                && (ok <==> hasManager || forall n :: n in devices ==> !Stuck(old(allocatable), old(node.drivers), n))
                && (forall n :: Records(conversions, claim, n) ==>
                      !hasManager && Stuck(old(allocatable), old(node.drivers), n))
      ensures GivenBackFrom(old(allocatable), old(conversions), allocatable, conversions, claim)
    {
      hide LedgerOk, Run, SiteOk, OnAmdgpu, Recorded, Fewer, Returned, RestOnAmdgpu;
      NoneReturned(site, conversions, node.drivers, claim);
      assert devices[..0] == [];
      var failed: set<string> := {};
      var i := 0;
      while i < |devices|
        invariant 0 <= i <= |devices| && Valid(node) && old(node.history) <= node.history
        invariant old(node.faults.count) <= node.faults.count
        invariant conversions == old(conversions) && allocatable == old(allocatable)
        invariant RestOnAmdgpu(site, conversions, node.drivers, claim, devices)
        invariant Returned(site, conversions, node.drivers, claim, devices[..i], failed)
        invariant forall n :: n in failed ==> n in devices
        invariant !hasManager ==> node.drivers == old(node.drivers)
        invariant node.faults.count == old(node.faults.count) ==>
                    forall n :: n in failed ==> !hasManager && Stuck(allocatable, old(node.drivers), n)
        invariant node.faults.count == old(node.faults.count) ==>
                    (failed == {} <==> hasManager || NoneStuck(allocatable, old(node.drivers), devices, i))
      {
        assert devices[..i + 1] == devices[..i] + [devices[i]];
        var back := ReturnListed(node, claim, devices, i, failed);
        if !back {
          failed := failed + {devices[i]};
        }
        i := i + 1;
      }
      assert devices[..|devices|] == devices;
      ok := failed == {};
      AllReturned(site, conversions, node.drivers, claim, devices, failed);
      RestoreAll(node, claim, failed, devices);
      if !ok {
        var n :| n in failed;
      }
    }

    method ReturnListed(node: Node, claim: string, devices: seq<string>, i: nat, failed: set<string>) returns (ok: bool)
      requires Valid(node) && SiteOk(site) && OnDisk(conversions, node.disk.vfio, devices) && i < |devices|
      requires RestOnAmdgpu(site, conversions, node.drivers, claim, devices)
      requires Returned(site, conversions, node.drivers, claim, devices[..i], failed)
      modifies node`drivers, node`history, node.faults
      ensures Valid(node) && old(node.history) <= node.history && old(node.faults.count) <= node.faults.count
      ensures node.World() == old(node.World()).(drivers := node.drivers)
      ensures RestOnAmdgpu(site, conversions, node.drivers, claim, devices)
      ensures Returned(site, conversions, node.drivers, claim, devices[..i] + [devices[i]],
                       if ok then failed else failed + {devices[i]})
      ensures !hasManager ==> node.drivers == old(node.drivers)
      ensures node.faults.count == old(node.faults.count) ==>
                (ok <==> hasManager || !Stuck(allocatable, old(node.drivers), devices[i]))
    {
      hide LedgerOk, Run, SiteOk, OnAmdgpu, Recorded;
      var name := devices[i];
      if name !in allocatable || !allocatable[name].VfioEntry? {
        NotConverted(site, allocatable, conversions, node.drivers, claim, name);
        return true;
      }
      ghost var before := node.drivers;
      ok := ReturnDevice(node, name);
      RestStay(site, conversions, before, node.drivers, claim, devices, name);
      ReturnedMore(site, conversions, before, node.drivers, claim, devices[..i],
                   if ok then failed else failed + {name}, name, ok);
    }

    method RestoreAll(node: Node, claim: string, failed: set<string>, ghost devices: seq<string>)
      requires Valid(node)
      requires forall n :: Records(conversions, claim, n) && n in site.fleet && n !in failed ==>
                 OnAmdgpu(site, node.drivers, n)
      modifies this
      ensures Valid(node) && Fewer(old(conversions), conversions, claim)
      ensures forall n :: Records(conversions, claim, n) <==> Records(old(conversions), claim, n) && n in failed
      ensures GivenBackFrom(old(allocatable), old(conversions), allocatable, conversions, claim)
    {
      hide LedgerOk, Run, SiteOk, OnAmdgpu, Recorded;
      var todo := if claim in conversions then conversions[claim].Keys else {};
      while todo != {}
        invariant Valid(node) && Fewer(old(conversions), conversions, claim)
        invariant forall n :: n in todo ==> Records(old(conversions), claim, n)
        invariant forall n ::
                    Records(conversions, claim, n)
                    <==> Records(old(conversions), claim, n) && (n in failed || n in todo)
        invariant GivenBackFrom(old(allocatable), old(conversions), allocatable, conversions, claim)
        decreases |todo|
      {
        var name :| name in todo;
        todo := todo - {name};
        if name !in failed {
          RestoreFromVfio(node, claim, name);
        }
      }
    }

    /** Finish returning what an earlier, failed Prepare of the claim left converted. It succeeds
        exactly when no record of the claim is left. */
    method ReleaseStrandedVfio(node: Node, claim: string) returns (ok: bool)
      requires Valid(node) && SiteOk(site) && Kept(conversions, node.disk.vfio)
      modifies this, node`drivers, node`history, node.faults
      ensures Valid(node) && old(node.history) <= node.history && old(node.faults.count) <= node.faults.count
      ensures node.World() == old(node.World()).(drivers := node.drivers)
      ensures Fewer(old(conversions), conversions, claim)
      ensures ok <==> forall n :: !Records(conversions, claim, n)
      ensures node.faults.count == old(node.faults.count) ==>
                (ok <==> hasManager || forall n :: Records(old(conversions), claim, n) ==>
                                         !Stuck(old(allocatable), old(node.drivers), n))
      ensures GivenBackFrom(old(allocatable), old(conversions), allocatable, conversions, claim)
    {
      hide LedgerOk, Run, SiteOk, OnAmdgpu;
      var todo := if claim in conversions then conversions[claim].Keys else {};
      var names: seq<string> := [];
      while todo != {}
        invariant conversions == old(conversions) && Valid(node) && node.World() == old(node.World())
        invariant node.history == old(node.history)
        invariant forall n :: n in names || n in todo <==> Records(conversions, claim, n)
        decreases |todo|
      {
        var name :| name in todo;
        todo, names := todo - {name}, names + [name];
      }
      if names == [] {
        return true;
      }
      ok := ReleaseClaimVfio(node, claim, names);
    }

    /** Return the devices of a prepared claim. A device that cannot be returned keeps its record. */
    method UnprepareDevices(node: Node, claim: string, devices: seq<PreparedDevice>) returns (ok: bool)
      requires Valid(node) && SiteOk(site) && Kept(conversions, node.disk.vfio)
      modifies this, node`drivers, node`history, node.faults
      ensures Valid(node) && old(node.history) <= node.history && old(node.faults.count) <= node.faults.count
      ensures node.World() == old(node.World()).(drivers := node.drivers)
      ensures Fewer(old(conversions), conversions, claim)
      ensures ok ==> forall n :: Names(devices, n) ==> !Records(conversions, claim, n)
      ensures node.faults.count == old(node.faults.count) && hasManager ==> ok
      ensures node.faults.count == old(node.faults.count) ==>
                forall n :: Names(devices, n) && Records(conversions, claim, n) ==>
                  Stuck(old(allocatable), old(node.drivers), n)
      ensures node.faults.count == old(node.faults.count) && !ok ==>
                exists n :: Names(devices, n) && Stuck(old(allocatable), old(node.drivers), n)
    {
      hide LedgerOk, Run, SiteOk, OnAmdgpu, Kept, Fewer;
      FewerByNone(conversions, claim);
      ok := true;
      var i := 0;
      while i < |devices|
        invariant 0 <= i <= |devices| && Valid(node) && old(node.history) <= node.history
        invariant old(node.faults.count) <= node.faults.count
        invariant Fewer(old(conversions), conversions, claim) && Kept(conversions, node.disk.vfio)
        invariant ok ==> forall j :: 0 <= j < i ==> !Records(conversions, claim, devices[j].device)
        invariant NoneTurned(old(allocatable), allocatable) && (!hasManager ==> node.drivers == old(node.drivers))
        invariant node.faults.count == old(node.faults.count) && hasManager ==> ok
        invariant node.faults.count == old(node.faults.count) ==>
                    forall j :: 0 <= j < i && Records(conversions, claim, devices[j].device) ==>
                      Stuck(old(allocatable), old(node.drivers), devices[j].device)
        invariant node.faults.count == old(node.faults.count) && !ok ==> exists j ::
                    0 <= j < i && Stuck(old(allocatable), old(node.drivers), devices[j].device)
      {
        ghost var before := conversions;
        var back := UnprepareDevice(node, claim, devices[i].device);
        FewerStill(old(conversions), before, conversions, claim);
        ok := ok && back;
        i := i + 1;
      }
    }

    method UnprepareDevice(node: Node, claim: string, device: string) returns (ok: bool)
      requires Valid(node) && SiteOk(site) && Kept(conversions, node.disk.vfio)
      modifies this, node`drivers, node`history, node.faults
      ensures Valid(node) && old(node.history) <= node.history && old(node.faults.count) <= node.faults.count
      ensures node.World() == old(node.World()).(drivers := node.drivers)
      ensures Fewer(old(conversions), conversions, claim) && Kept(conversions, node.disk.vfio)
      ensures ok ==> !Records(conversions, claim, device)
      ensures NoneTurned(old(allocatable), allocatable) && (!hasManager ==> node.drivers == old(node.drivers))
      ensures node.faults.count == old(node.faults.count) ==>
                (ok <==> hasManager || !Stuck(old(allocatable), old(node.drivers), device))
    {
      hide LedgerOk, Run, SiteOk, OnAmdgpu, GivenBackFrom;
      if device !in allocatable || !allocatable[device].VfioEntry? {
        NotConverted(site, allocatable, conversions, node.drivers, claim, device);
        return true;
      }
      ok := ReturnDevice(node, device);
      if ok {
        RestoreFromVfio(node, claim, device);
      }
    }

    // ---------- recovery ----------

    /** Rebuild the ledger after a restart. Records of devices that never left amdgpu, or came
        back, are dropped; every other device is listed again under the name it was allocated
        by, and the VFIO device it was discovered as is not listed beside it. */
    method RecoverVfioConversions(node: Node, records: Conversions) returns (checkpointChanged: bool)
      requires node.Valid() && node.site == site && conversions == map[] && records == node.disk.vfio
      requires FreshlyListed(site, allocatable, node.drivers)
      modifies this, node.faults
      ensures Valid(node) && old(node.history) <= node.history && Kept(conversions, records)
      ensures old(node.faults.count) <= node.faults.count
      ensures forall c, n :: Records(records, c, n) && !Records(conversions, c, n) ==>
                n in site.fleet && OnAmdgpu(site, node.drivers, n)
      ensures node.faults.count == old(node.faults.count) ==> NoneStale(site, conversions, node.drivers)
      ensures !checkpointChanged ==> forall c, n :: Records(records, c, n) ==> Records(conversions, c, n)
    {
      hide Run, SiteOk, OnAmdgpu, Recovering, RecordsOk, LedgerOk, Covered;
      checkpointChanged := false;
      node.CurrentIsDurable();
      DiskIsOk(site, node.World());
      NothingRecovered(site, allocatable, node.drivers);
      var todo := records.Keys;
      while todo != {}
        invariant Recovering(site, allocatable, conversions, node.drivers) && Kept(conversions, records)
        invariant todo <= records.Keys
        invariant forall c, n :: Records(records, c, n) && c !in todo ==> Settled(site, conversions, node.drivers, c, n)
        invariant !checkpointChanged ==> forall c, n :: Records(records, c, n) && c !in todo ==>
                    Records(conversions, c, n)
        invariant old(node.history) <= node.history && old(node.faults.count) <= node.faults.count
        invariant forall c, n :: Records(conversions, c, n) ==> c !in todo
        invariant node.faults.count == old(node.faults.count) ==> NoneStale(site, conversions, node.drivers)
        decreases |todo|
      {
        var claim :| claim in todo;
        todo := todo - {claim};
        ghost var before := conversions;
        var changed := RecoverClaim(node, claim, records);
        forall c, n | Records(records, c, n) && c !in todo
          ensures Settled(site, conversions, node.drivers, c, n)
        {
          if c != claim {
            StaysSettled(site, before, conversions, node.drivers, c, n);
          }
        }
        checkpointChanged := checkpointChanged || changed;
      }
      AllRecovered(site, allocatable, conversions, records, node.drivers);
      forall c, n | Records(records, c, n) && !Records(conversions, c, n)
        ensures n in site.fleet && OnAmdgpu(site, node.drivers, n)
      {
        RecordedInFleet(site, records, c, n);
      }
    }

    method RecoverClaim(node: Node, claim: string, records: Conversions) returns (changed: bool)
      requires SiteOk(site) && node.site == site && claim in records && RecordsOk(site, records)
      requires Recovering(site, allocatable, conversions, node.drivers) && Kept(conversions, records)
      modifies this, node.faults
      ensures Recovering(site, allocatable, conversions, node.drivers) && Kept(conversions, records)
      ensures old(node.history) <= node.history
      ensures forall c, n :: Records(conversions, c, n) ==> Records(old(conversions), c, n) || c == claim
      ensures old(node.faults.count) <= node.faults.count
      ensures node.faults.count == old(node.faults.count) && NoneStale(site, old(conversions), node.drivers) ==>
                NoneStale(site, conversions, node.drivers)
      ensures forall n :: Records(records, claim, n) ==> Settled(site, conversions, node.drivers, claim, n)
      ensures !changed ==> forall n :: Records(records, claim, n) ==> Records(conversions, claim, n)
      ensures forall c, n :: Records(old(conversions), c, n) ==> Records(conversions, c, n)
    {
      hide Run, SiteOk, OnAmdgpu, Recovering, RecordsOk, With, NoneStale;
      var devices := records[claim];
      var todo := devices.Keys;
      var left := {};
      while todo != {}
        invariant Recovering(site, allocatable, conversions, node.drivers) && Kept(conversions, records)
        invariant todo <= devices.Keys
        invariant forall n :: n in devices && n !in todo ==> Settled(site, conversions, node.drivers, claim, n)
        invariant left <= devices.Keys - todo && forall n :: n in left ==> Records(conversions, claim, n)
        invariant forall c, n :: Records(old(conversions), c, n) ==> Records(conversions, c, n)
        invariant old(node.history) <= node.history && old(node.faults.count) <= node.faults.count && forall c, n ::
                    Records(conversions, c, n) ==> Records(old(conversions), c, n) || c == claim
        invariant node.faults.count == old(node.faults.count) && NoneStale(site, old(conversions), node.drivers) ==>
                    NoneStale(site, conversions, node.drivers)
        decreases |todo|
      {
        var name :| name in todo;
        todo := todo - {name};
        var away := RecoverDevice(node, claim, name, devices[name], records);
        if away {
          left := left + {name};
        }
      }
      changed := left != devices.Keys || left == {};
    }

    /** Record a device again, and list it under its name, unless it is on amdgpu. */
    method RecoverDevice(node: Node, claim: string, name: string, gpu: Gpu, ghost records: Conversions)
      returns (away: bool)
      requires SiteOk(site) && node.site == site && Records(records, claim, name) && gpu == records[claim][name]
      requires RecordsOk(site, records)
      requires Recovering(site, allocatable, conversions, node.drivers) && Kept(conversions, records)
      modifies this, node.faults
      ensures Recovering(site, allocatable, conversions, node.drivers) && Kept(conversions, records)
      ensures old(node.history) <= node.history && (away ==> Records(conversions, claim, name))
      ensures old(node.faults.count) <= node.faults.count
      ensures Settled(site, conversions, node.drivers, claim, name)
      ensures forall c, n :: Records(old(conversions), c, n) ==> Records(conversions, c, n)
      ensures forall c, n :: Records(conversions, c, n) ==> Records(old(conversions), c, n) || c == claim
      ensures node.faults.count == old(node.faults.count) && NoneStale(site, old(conversions), node.drivers) ==>
                NoneStale(site, conversions, node.drivers)
    {
      hide Run, SiteOk, OnAmdgpu, Recovering, RecordsOk, With, NoneStale;
      RecordedInFleet(site, records, claim, name);
      var current := node.CurrentDriver(gpu.pci);
      if current == Some(AMDGPU) {
        StaleRecord(site, node.drivers, conversions, claim, name);
        return false;
      }
      RecordRecovered(site, allocatable, conversions, records, node.drivers, claim, name);
      ReadsAmdgpu(site, node.drivers, name);
      NotStale(site, conversions, node.drivers, claim, name, gpu);
      OnlyOneMore(conversions, claim, name, gpu);
      DropDuplicates(name, gpu.pci);
      allocatable := allocatable[name := Converted(gpu)];
      RecordVfioConversion(claim, name, gpu);
      return true;
    }

    /** Discovery lists a converted GPU as a VFIO device of its own; forget that one. */
    method DropDuplicates(name: string, pci: string)
      modifies `allocatable
      ensures allocatable == WithoutDuplicates(old(allocatable), name, pci)
    {
      var todo := allocatable.Keys;
      while todo != {}
        invariant todo <= allocatable.Keys <= old(allocatable.Keys)
        invariant forall n :: n in old(allocatable) ==>
                    (n in allocatable <==> n in todo || !IsDuplicate(old(allocatable)[n], n, name, pci))
        invariant forall n :: n in allocatable ==> allocatable[n] == old(allocatable)[n]
        decreases |todo|
      {
        var other :| other in todo;
        todo := todo - {other};
        if other != name && allocatable[other].VfioEntry? && allocatable[other].pci == pci {
          allocatable := allocatable - {other};
        }
      }
    }
  }

  // ---------- lemmas for returning ----------

  ghost predicate OthersStay(site: Site, a: map<string, string>, b: map<string, string>, device: string) {
    forall n :: n in site.fleet && n != device ==> (OnAmdgpu(site, a, n) <==> OnAmdgpu(site, b, n))
  }

  /** All listed devices of the claim are on amdgpu, but for those that failed. */
  ghost predicate Returned(site: Site, conversions: Conversions, drivers: map<string, string>, claim: string,
                           devices: seq<string>, failed: set<string>) {
    forall n :: Records(conversions, claim, n) && n in site.fleet && n in devices && n !in failed ==>
        OnAmdgpu(site, drivers, n)
  }

  lemma NoneReturned(site: Site, conversions: Conversions, drivers: map<string, string>, claim: string)
    ensures Returned(site, conversions, drivers, claim, [], {})
  {
  }

  lemma AllReturned(site: Site, conversions: Conversions, drivers: map<string, string>, claim: string,
                    devices: seq<string>, failed: set<string>)
    requires Returned(site, conversions, drivers, claim, devices, failed)
    requires RestOnAmdgpu(site, conversions, drivers, claim, devices)
    ensures forall n :: Records(conversions, claim, n) && n in site.fleet && n !in failed ==> OnAmdgpu(site, drivers, n)
  {
  }

  lemma RestStay(site: Site, conversions: Conversions, a: map<string, string>, b: map<string, string>, claim: string,
                 devices: seq<string>, device: string)
    requires RestOnAmdgpu(site, conversions, a, claim, devices) && OthersStay(site, a, b, device) && device in devices
    ensures RestOnAmdgpu(site, conversions, b, claim, devices)
  {
  }

  lemma ReturnedMore(site: Site, conversions: Conversions, a: map<string, string>, b: map<string, string>,
                     claim: string,
                     devices: seq<string>, failed: set<string>, device: string, back: bool)
    requires Returned(site, conversions, a, claim, devices, failed) && OthersStay(site, a, b, device)
    requires if back then device in site.fleet ==> OnAmdgpu(site, b, device) else device in failed
    ensures Returned(site, conversions, b, claim, devices + [device], failed)
  {
  }

  lemma NotConverted(site: Site, allocatable: Allocatable, conversions: Conversions, drivers: map<string, string>,
                     claim: string, device: string)
    requires LedgerOk(site, allocatable, conversions, drivers)
    requires !(device in allocatable && allocatable[device].VfioEntry?)
    ensures !Records(conversions, claim, device) && !Recorded(conversions, device)
  {
    hide LedgerOk;
    forall c
      ensures !Records(conversions, c, device)
    {
      if Records(conversions, c, device) {
        RecordedIsConverted(site, allocatable, conversions, drivers, c, device);
      }
    }
  }

  lemma EntryIsMovable(site: Site, allocatable: Allocatable, conversions: Conversions, disk: Conversions,
                       drivers: map<string, string>, device: string)
    requires LedgerOk(site, allocatable, conversions, drivers) && SiteOk(site)
    requires device in allocatable && allocatable[device].VfioEntry?
    requires (Recorded(conversions, device) ==> Recorded(disk, device))
    ensures Movable(site, conversions, allocatable[device].pci) && Movable(site, disk, allocatable[device].pci)
  {
    hide Recorded, LedgerOk;
    forall n | n in site.fleet && site.fleet[n].pci == allocatable[device].pci
      ensures n == device && Recorded(conversions, n)
    {
      OneOwner(site, allocatable, conversions, drivers, device, n);
    }
  }

  lemma OneOwner(site: Site, allocatable: Allocatable, conversions: Conversions, drivers: map<string, string>,
                 device: string, n: string)
    requires LedgerOk(site, allocatable, conversions, drivers) && SiteOk(site)
    requires device in allocatable && allocatable[device].VfioEntry?
    requires n in site.fleet && site.fleet[n].pci == allocatable[device].pci
    ensures n == device && Recorded(conversions, n) && allocatable[device] == Converted(site.fleet[n])
  {
    hide Recorded, Covered, RecordsOk;
    assert OfFleet(site, allocatable[device].pci);
  }

  lemma EntryMoved(site: Site, allocatable: Allocatable, conversions: Conversions, a: map<string, string>,
                   b: map<string,
                   string>, device: string)
    requires LedgerOk(site, allocatable, conversions, a) && SiteOk(site)
    requires device in allocatable && allocatable[device].VfioEntry? && Elsewhere(a, b, allocatable[device].pci)
    ensures LedgerOk(site, allocatable, conversions, b) && OthersStay(site, a, b, device)
    ensures device in site.fleet ==> allocatable[device] == Converted(site.fleet[device])
  {
    EntryIsMovable(site, allocatable, conversions, conversions, a, device);
    MovedIsCovered(site, conversions, a, b, allocatable[device].pci);
    forall n | n in site.fleet && site.fleet[n].pci == allocatable[device].pci
      ensures n == device
    {
      OneOwner(site, allocatable, conversions, a, device, n);
    }
  }

  // ---------- lemmas for recovery ----------

  /** No record is of a device that is on amdgpu. */
  ghost predicate NoneStale(site: Site, conversions: Conversions, drivers: map<string, string>) {
    forall c, n :: Records(conversions, c, n) ==> n in site.fleet && !OnAmdgpu(site, drivers, n)
  }

  lemma ReadsAmdgpu(site: Site, drivers: map<string, string>, device: string)
    requires device in site.fleet
    ensures OnAmdgpu(site, drivers, device) <==> Read(drivers, site.fleet[device].pci) == AMDGPU
  {
  }

  lemma OnlyOneMore(conversions: Conversions, claim: string, device: string, gpu: Gpu)
    ensures forall c, n :: Records(conversions, c, n) ==> Records(With(conversions, claim, device, gpu), c, n)
    ensures forall c, n :: Records(With(conversions, claim, device, gpu), c, n) ==>
              Records(conversions, c, n) || c == claim
  {
    forall c, n
      ensures Records(With(conversions, claim, device, gpu), c, n)
              <==> Records(conversions, c, n) || (c == claim && n == device)
    {
      RecordsWith(conversions, claim, device, gpu, c, n);
    }
  }

  lemma NotStale(site: Site, conversions: Conversions, drivers: map<string, string>, claim: string, device: string,
                 gpu: Gpu)
    requires device in site.fleet
    ensures NoneStale(site, conversions, drivers) && !OnAmdgpu(site, drivers, device) ==>
              NoneStale(site, With(conversions, claim, device, gpu), drivers)
  {
    forall c, n
      ensures Records(With(conversions, claim, device, gpu), c, n)
              <==> Records(conversions, c, n) || (c == claim && n == device)
    {
      RecordsWith(conversions, claim, device, gpu, c, n);
    }
  }

  predicate IsDuplicate(e: Entry, other: string, name: string, pci: string) {
    other != name && e.VfioEntry? && e.pci == pci
  }

  function WithoutDuplicates(allocatable: Allocatable, name: string, pci: string): Allocatable {
    map n | n in allocatable && !IsDuplicate(allocatable[n], n, name, pci) :: allocatable[n]
  }

  /** What discovery lists after a restart: the GPUs that are on amdgpu, under their names, and
      VFIO devices, none of which is a GPU on amdgpu. */
  ghost predicate FreshlyListed(site: Site, allocatable: Allocatable, drivers: map<string, string>) {
    && (forall n :: n in site.fleet && OnAmdgpu(site, drivers, n) ==>
          n in allocatable && allocatable[n] == GpuEntry(site.fleet[n]))
    && (forall n :: n in allocatable && n !in site.fleet ==>
          && !allocatable[n].GpuEntry?
          && (allocatable[n].VfioEntry? ==>
                && allocatable[n].from.None?
                && forall m :: m in site.fleet && site.fleet[m].pci == allocatable[n].pci ==>
                    !OnAmdgpu(site, drivers, m)))
    && PartitionsNamed(site, allocatable)
  }

  /** As discovered, except for the devices recorded again so far. */
  ghost predicate Recovering(site: Site, allocatable: Allocatable, conversions: Conversions, drivers: map<string,
                             string>) {
    && RecordsOk(site, conversions)
    && (forall n :: n in site.fleet && Recorded(conversions, n) ==>
          n in allocatable && allocatable[n] == Converted(site.fleet[n]))
    && (forall n :: n in site.fleet && !Recorded(conversions, n) && OnAmdgpu(site, drivers, n) ==>
          n in allocatable && allocatable[n] == GpuEntry(site.fleet[n]))
    && (forall n :: n in allocatable && n !in site.fleet ==>
          && !allocatable[n].GpuEntry?
          && (allocatable[n].VfioEntry? ==>
                && allocatable[n].from.None?
                && forall m :: m in site.fleet && site.fleet[m].pci == allocatable[n].pci ==>
                     !OnAmdgpu(site, drivers, m) && !Recorded(conversions, m)))
    && PartitionsNamed(site, allocatable)
  }

  /** The record was restored, or its device is on amdgpu. */
  ghost predicate Settled(site: Site, conversions: Conversions, drivers: map<string, string>, claim: string,
                          device: string) {
    Records(conversions, claim, device) || (device in site.fleet && OnAmdgpu(site, drivers, device))
  }

  lemma StaysSettled(site: Site, a: Conversions, b: Conversions, drivers: map<string, string>, claim: string,
                     device: string)
    requires Settled(site, a, drivers, claim, device) && (Records(a, claim, device) ==> Records(b, claim, device))
    ensures Settled(site, b, drivers, claim, device)
  {
  }

  lemma DiskIsOk(site: Site, w: World)
    requires Durable(site, w)
    ensures RecordsOk(site, w.disk.vfio) && Covered(site, w.disk.vfio, w.drivers) && Owned(w.disk.prepared, w.disk.vfio)
  {
  }

  lemma NothingRecovered(site: Site, allocatable: Allocatable, drivers: map<string, string>)
    requires FreshlyListed(site, allocatable, drivers)
    ensures Recovering(site, allocatable, map[], drivers)
  {
  }

  lemma StaleRecord(site: Site, drivers: map<string, string>, conversions: Conversions, claim: string, device: string)
    requires device in site.fleet && Read(drivers, site.fleet[device].pci) == AMDGPU
    ensures Settled(site, conversions, drivers, claim, device)
  {
  }

  lemma RecordRecovered(site: Site, allocatable: Allocatable, conversions: Conversions, records: Conversions,
                        drivers: map<string, string>,
                        claim: string, device: string)
    requires SiteOk(site) && Recovering(site, allocatable, conversions, drivers) && Kept(conversions, records)
    requires RecordsOk(site, records) && Records(records, claim, device) && device in site.fleet
    ensures var gpu := site.fleet[device];
            var after := With(conversions, claim, device, gpu);
            && Recovering(site, WithoutDuplicates(allocatable, device, gpu.pci)[device := Converted(gpu)], after,
                          drivers)
            && Kept(after, records) && Records(after, claim, device)
            && (forall c, n :: Records(conversions, c, n) ==> Records(after, c, n))
  {
    hide With, OnAmdgpu, RecordsOk;
    var gpu := site.fleet[device];
    var after := With(conversions, claim, device, gpu);
    OnlyClaim(site, conversions, records, claim, device);
    RecordedIsOk(site, conversions, claim, device);
    forall c, n
      ensures Records(after, c, n) <==> Records(conversions, c, n) || (c == claim && n == device)
    {
      RecordsWith(conversions, claim, device, gpu, c, n);
    }
    Relists(site, allocatable, conversions, after, drivers, device);
  }

  lemma OnlyClaim(site: Site, conversions: Conversions, records: Conversions, claim: string, device: string)
    requires Kept(conversions, records) && RecordsOk(site, records) && Records(records, claim, device)
    ensures forall c :: Records(conversions, c, device) ==> c == claim
  {
  }

  lemma Relists(site: Site, allocatable: Allocatable, before: Conversions, after: Conversions, drivers: map<string,
                string>, device: string)
    requires SiteOk(site) && Recovering(site, allocatable, before, drivers) && RecordsOk(site, after)
    requires SameBut(before, after, device) && Recorded(after, device) && device in site.fleet
    ensures var gpu := site.fleet[device];
            Recovering(site, WithoutDuplicates(allocatable, device, gpu.pci)[device := Converted(gpu)], after, drivers)
  {
    hide Recorded, OnAmdgpu, RecordsOk, PartitionsNamed;
    var gpu := site.fleet[device];
    NamedWithout(site, allocatable, device, gpu.pci);
    NamedWith(site, WithoutDuplicates(allocatable, device, gpu.pci), device, Converted(gpu));
  }

  lemma NamedWithout(site: Site, allocatable: Allocatable, name: string, pci: string)
    requires PartitionsNamed(site, allocatable)
    ensures PartitionsNamed(site, WithoutDuplicates(allocatable, name, pci))
  {
  }

  lemma AllRecovered(site: Site, allocatable: Allocatable, conversions: Conversions, records: Conversions,
                     drivers: map<string, string>)
    requires Recovering(site, allocatable, conversions, drivers) && Covered(site, records, drivers)
    requires forall c, n :: Records(records, c, n) ==> Settled(site, conversions, drivers, c, n)
    ensures LedgerOk(site, allocatable, conversions, drivers)
  {
    hide RecordsOk, PartitionsNamed;
    forall n | n in site.fleet && !OnAmdgpu(site, drivers, n)
      ensures Recorded(conversions, n)
    {
      var c :| Records(records, c, n);
      assert Settled(site, conversions, drivers, c, n);
    }
  }

  /** The driver of a virtual function as discovery lists it: none if it could not be read. */
  method DiscoverDriver(node: Node, pci: string) returns (driver: string, read: bool)
    modifies node.faults
    ensures old(node.history) <= node.history
    ensures old(node.faults.count) <= node.faults.count && (node.faults.count == old(node.faults.count) ==> read)
    ensures driver == if read then Read(node.drivers, pci) else ""
  {
    var current := node.CurrentDriver(pci);
    read := current.Some?;
    driver := if read then current.value else "";
  }

  /** Exactly when a virtual function that is configured for a claim and unconfigured again ends
      off vfio-pci: if it was not on vfio-pci when it was discovered, and the plugin was not started
      again in between; or else if discovery could not `read` its driver. A second discovery takes
      the function's driver for the one of before: a virtual function has no conversion record. */
  method VfLeavesVfioIff(node: Node, first: VfioLedger, second: VfioLedger, pci: string, restarted: bool)
    returns (ok: bool, read: bool)
    requires node.Valid() && first.site == second.site == node.site && !OfFleet(node.site, pci)
    modifies node, node.faults
    ensures node.Valid() && old(node.history) <= node.history
    ensures old(node.faults.count) <= node.faults.count && (node.faults.count == old(node.faults.count) ==> ok && read)
    ensures Elsewhere(old(node.drivers), node.drivers, pci)
    ensures ok ==> (Read(node.drivers, pci) != VFIO_PCI
                    <==> !read || (old(Read(node.drivers, pci)) != VFIO_PCI && !restarted))
    ensures ok && read && !restarted && old(Read(node.drivers, pci)) != "" ==>
              Read(node.drivers, pci) == old(Read(node.drivers, pci))
  {
    hide Run, SiteOk, Durable, AfterRestart;
    var pre: string;
    pre, read := DiscoverDriver(node, pci);
    ok := first.Configure(node, pci);
    if !ok {
      return;
    }
    if restarted {
      node.Restarted();
      pre, read := DiscoverDriver(node, pci);
    }
    ok := second.Unconfigure(node, pci, pre);
  }

  lemma SameElsewhere(drivers: map<string, string>, pci: string)
    ensures Elsewhere(drivers, drivers, pci)
  {
  }

  lemma RecordedIsConverted(site: Site, allocatable: Allocatable, conversions: Conversions, drivers: map<string,
                            string>,
                            claim: string, device: string)
    requires LedgerOk(site, allocatable, conversions, drivers) && Records(conversions, claim, device)
    ensures device in site.fleet && conversions[claim][device] == site.fleet[device] && Recorded(conversions, device)
    ensures device in allocatable && allocatable[device] == Converted(site.fleet[device])
  {
    hide Listed, Covered;
    RecordedInFleet(site, conversions, claim, device);
    InFleetIsListed(site, allocatable, conversions, device);
  }

  lemma RecordedInFleet(site: Site, conversions: Conversions, claim: string, device: string)
    requires RecordsOk(site, conversions) && Records(conversions, claim, device)
    ensures device in site.fleet && Recorded(conversions, device) && conversions[claim][device] == site.fleet[device]
  {
  }
}
