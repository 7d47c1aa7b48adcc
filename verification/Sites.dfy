/**
 The driver's own site.

 Every theorem about runs and every contract of the device state supposes `SiteOk`. Here it is
 shown for the names the driver gives, for any claims that are allocated beside any claims an
 older driver prepared.
 */
module Sites {
  import opened Wrappers
  import opened DeviceNames
  import opened ShareKeys
  import opened Ledgers
  import opened Claims
  import opened Recovery
  import opened Naming
  import opened Worlds

  /** Whole GPUs are listed under their canonical names, each once. */
  ghost predicate FleetNamed(fleet: map<string, Gpu>) {
    && (forall n :: n in fleet ==> n == GpuName(fleet[n].card, fleet[n].render))
    && (forall a, b :: a in fleet && b in fleet && fleet[a].pci == fleet[b].pci ==> a == b)
  }

  /** What discovery and allocation give, taken together. */
  ghost predicate DriverSite(cat: Catalog, node: string, allocations: map<string, seq<Result>>, older: PreparedClaims,
                             gpus: seq<int>, fleet: map<string, Gpu>) {
    && cat == DriverCatalog(cat.synth, cat.order) && Discovered(cat.synth) && OrderOk(cat)
    && "" !in allocations && "" !in older
    && (forall c :: c in allocations ==> WellAllocated(cat.synth, node, c, allocations[c]))
    && (forall c :: c in older ==> SlashFree(c) && Keyless(older[c]))
    && (forall d :: d in cat.synth ==> Parse(d).value.gpu in gpus)
    && FleetNamed(fleet)
  }

  /** The hypotheses of every theorem hold of the driver. */
  lemma DriverSiteIsOk(cat: Catalog, node: string, allocations: map<string, seq<Result>>, older: PreparedClaims,
                       gpus: seq<int>, fleet: map<string, Gpu>)
    requires DriverSite(cat, node, allocations, older, gpus, fleet)
    ensures SiteOk(Site(cat, PlanOf(cat, node, allocations, older), gpus, fleet))
  {
    hide Parse, PlanOf, WellAllocated, OrderOk, PlanOk, Keyless, GpuName;
    var plan := PlanOf(cat, node, allocations, older);
    AllocationsArePlan(cat, node, allocations, older);
    forall c, s | s in plan(c)
      ensures s.device in cat.synth && GpuOf(cat, s) in gpus
    {
      PlannedDevices(cat, node, allocations, older, c, s);
    }
    forall n | n in fleet
      ensures cat.parse(n).None? && n !in cat.synth
    {
      WholeGpuIsNoPartition(fleet[n].card, fleet[n].render);
    }
  }

  /** An older driver's claims drain beside newer ones: its checkpoint is recovered under the keys
      made from positions, later claims come and go under the keys made from allocations, and once
      all are gone the ledger is the initial one. */
  lemma OlderClaimsDrain(cat: Catalog, node: string, allocations: map<string, seq<Result>>, older: PreparedClaims,
                         gpus: seq<int>, fleet: map<string, Gpu>, f: PartitionFields, calls: seq<Call>)
    requires DriverSite(cat, node, allocations, older, gpus, fleet)
    requires Legacy(cat, PlanOf(cat, node, allocations, older), f, older)
    requires forall i :: 0 <= i < |calls| ==> CallOk(cat, PlanOf(cat, node, allocations, older), calls[i])
    requires After(Recover(cat, f, older), cat, PlanOf(cat, node, allocations, older), calls).claims == {}
    ensures After(Recover(cat, f, older), cat, PlanOf(cat, node, allocations, older), calls) == EMPTY_LEDGER
  {
    hide Legacy, PlanOf, After, Recover, WellAllocated, Keyless, Parse;
    AllocationsArePlan(cat, node, allocations, older);
    LegacyDrains(cat, PlanOf(cat, node, allocations, older), f, older, calls);
  }
}
