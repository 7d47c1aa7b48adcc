/**
 What Prepare makes of an allocation: a config for every result, and the devices it hands out.
 */
module Preparing {
  import opened Wrappers
  import opened Ledgers
  import opened Claims
  import opened Recovery
  import opened Naming
  import opened Worlds
  import opened Configs
  import opened Vfio

  datatype Allocation = Allocation(results: seq<Result>, configs: seq<Possible>)

  datatype ResourceClaim = ResourceClaim(uid: string, allocation: Option<Allocation>)

  function SharesFor(site: Site, node: string, claim: ResourceClaim): seq<Share> {
    if claim.allocation.None? then []
    else SharesOfResults(site.cat.synth, node, claim.uid, claim.allocation.value.results)
  }

  ghost predicate PooledHere(site: Site, node: string, results: seq<Result>) {
    forall r :: r in results && r.driver == DRIVER_NAME && r.device in site.cat.synth ==> r.pool == node
  }

  /** The allocation is the planned one, and names this node's partitions by this node's pool. */
  ghost predicate AsPlanned(site: Site, node: string, claim: ResourceClaim) {
    && site.plan(claim.uid) == SharesFor(site, node, claim)
    && (claim.allocation.Some? ==> PooledHere(site, node, claim.allocation.value.results))
  }

  // ---------- a config for every result ----------

  function TargetOf(e: Entry): Target {
    match e
    case GpuEntry(_) => WholeGpu
    case VfioEntry(_, _, _) => VfioDevice
    case _ => OtherDevice
  }

  type Choice = seq<Option<nat>>

  predicate ChoosesVfio(configs: seq<Config>, choice: Option<nat>) {
    choice.Some? && choice.value < |configs| && configs[choice.value].parameters.kind == VfioKind
  }

  /** One of the first n results has made this device a VFIO device. */
  ghost predicate Turned(results: seq<Result>, configs: seq<Config>, chosen: Choice, n: nat, device: string) {
    exists k ::
      0 <= k < n && k < |results| && k < |chosen| && results[k].device == device && ChoosesVfio(configs, chosen[k])
  }

  /** The entry of a device once the first n results have their configs. */
  ghost function EntryAfter(start: Allocatable, results: seq<Result>, configs: seq<Config>, chosen: Choice, n: nat,
                            device: string): Entry
    requires device in start
  {
    if start[device].GpuEntry? && Turned(results, configs, chosen, n, device) then Converted(start[device].gpu)
    else start[device]
  }

  /** Result n is governed by the last config that applies to it, where a GPU that an earlier
      result of the claim converted counts as the VFIO device it has become. */
  ghost predicate WellChosen(start: Allocatable, results: seq<Result>, configs: seq<Config>, passthrough: bool,
                             chosen: Choice, n: nat)
    requires n < |results| && n < |chosen|
  {
    var r := results[n];
    if r.driver != DRIVER_NAME then chosen[n].None?
    else
      && r.device in start
      && var target := TargetOf(EntryAfter(start, results, configs, chosen, n, r.device));
         chosen[n] == Last(configs, Query(r.request, target, passthrough))
  }

  lemma NoneChosen(start: Allocatable, results: seq<Result>, configs: seq<Config>, passthrough: bool)
    ensures ChosenSoFar(start, start, results, configs, passthrough, [])
  {
  }

  lemma TurnedNext(results: seq<Result>, configs: seq<Config>, chosen: Choice, choice: Option<nat>, device: string)
    requires |chosen| < |results|
    ensures Turned(results, configs, chosen + [choice], |chosen| + 1, device)
            <==> || Turned(results, configs, chosen, |chosen|, device)
                 || (results[|chosen|].device == device && ChoosesVfio(configs, choice))
  {
    var n, more := |chosen|, chosen + [choice];
    if results[n].device == device && ChoosesVfio(configs, choice) {
      assert more[n] == choice;
    }
    if Turned(results, configs, chosen, n, device) {
      var k :| 0 <= k < n && results[k].device == device && ChoosesVfio(configs, chosen[k]);
      assert more[k] == chosen[k];
    }
  }

  lemma TurnedBefore(results: seq<Result>, configs: seq<Config>, chosen: Choice, choice: Option<nat>, n: nat,
                     device: string)
    requires n <= |chosen|
    ensures Turned(results, configs, chosen + [choice], n, device) <==> Turned(results, configs, chosen, n, device)
  {
    var more := chosen + [choice];
    forall k | 0 <= k < n
      ensures more[k] == chosen[k]
    {
    }
  }

  lemma StillWellChosen(start: Allocatable, results: seq<Result>, configs: seq<Config>, passthrough: bool,
                        chosen: Choice, choice: Option<nat>, n: nat)
    requires n < |chosen| && n < |results| && WellChosen(start, results, configs, passthrough, chosen, n)
    ensures WellChosen(start, results, configs, passthrough, chosen + [choice], n)
  {
    hide Turned;
    TurnedBefore(results, configs, chosen, choice, n, results[n].device);
  }

  /** The results so far are well chosen, and the entries are what they made of them. */
  ghost predicate ChosenSoFar(start: Allocatable, allocatable: Allocatable, results: seq<Result>, configs: seq<Config>,
                              passthrough: bool, chosen: Choice) {
    && |chosen| <= |results|
    && (forall i :: 0 <= i < |chosen| ==> WellChosen(start, results, configs, passthrough, chosen, i))
    && allocatable.Keys == start.Keys
    && (forall n :: n in start ==> allocatable[n] == EntryAfter(start, results, configs, chosen, |chosen|, n))
  }

  lemma ChosenNext(start: Allocatable, allocatable: Allocatable, after: Allocatable, results: seq<Result>,
                   configs: seq<Config>,
                   passthrough: bool, chosen: Choice, choice: Option<nat>)
    requires ChosenSoFar(start, allocatable, results, configs, passthrough, chosen) && |chosen| < |results|
    requires var r := results[|chosen|];
             if r.driver != DRIVER_NAME then choice.None?
             else && r.device in allocatable
                  && choice == Last(configs, Query(r.request, TargetOf(allocatable[r.device]), passthrough))
    requires var d := results[|chosen|].device;
             after == if ChoosesVfio(configs, choice) && d in allocatable && allocatable[d].GpuEntry?
                      then allocatable[d := Converted(allocatable[d].gpu)] else allocatable
    ensures ChosenSoFar(start, after, results, configs, passthrough, chosen + [choice])
  {
    hide Turned, Last;
    var more := chosen + [choice];
    forall i | 0 <= i < |chosen|
      ensures WellChosen(start, results, configs, passthrough, more, i)
    {
      StillWellChosen(start, results, configs, passthrough, chosen, choice, i);
    }
    TurnedBefore(results, configs, chosen, choice, |chosen|, results[|chosen|].device);
    forall n | n in start
      ensures after[n] == EntryAfter(start, results, configs, more, |more|, n)
    {
      TurnedNext(results, configs, chosen, choice, n);
    }
  }

  // ---------- the devices that are handed out ----------

  /** The slot is the one reserved for the share, and absent for a device that is no partition. */
  function DeviceFor(site: Site, slots: Slots, uid: string, r: Result): PreparedDevice {
    var key, parsed := ResultKey(uid, r), site.cat.parse(r.device);
    PreparedDevice(r.device, key,
                   if r.device in site.cat.synth && parsed.Some? && Holds(slots, parsed.value.gpu, key)
                   then Some(slots[parsed.value.gpu][key]) else None)
  }

  /** Some of the results with a config have been prepared, none of them twice; `at` says which. */
  ghost predicate Handed(site: Site, slots: Slots, uid: string, results: seq<Result>, chosen: Choice,
                         prepared: seq<PreparedDevice>, at: seq<nat>) {
    && |at| == |prepared| && |chosen| == |results|
    && (forall k :: 0 <= k < |at| ==>
          at[k] < |results| && chosen[at[k]].Some? && prepared[k] == DeviceFor(site, slots, uid, results[at[k]]))
    && (forall j, k :: 0 <= j < k < |at| ==> at[j] != at[k])
  }

  /** Every result with a config is prepared, and prepared exactly once, in some order. */
  ghost predicate Prepares(site: Site, slots: Slots, uid: string, results: seq<Result>, chosen: Choice,
                           prepared: seq<PreparedDevice>, at: seq<nat>) {
    && Handed(site, slots, uid, results, chosen, prepared, at)
    && (forall i :: 0 <= i < |results| && chosen[i].Some? ==> i in at)
  }

  /** No result of this driver for a partition goes without a config. */
  ghost predicate PartitionsChosen(synth: map<string, string>, results: seq<Result>, chosen: Choice) {
    && |chosen| == |results|
    && (forall i :: 0 <= i < |results| && results[i].driver == DRIVER_NAME && results[i].device in synth ==>
          chosen[i].Some?)
    && (forall i :: 0 <= i < |results| && chosen[i].Some? ==> results[i].driver == DRIVER_NAME)
  }

  lemma KeyIsNotEmpty(uid: string, r: Result)
    ensures ResultKey(uid, r) != ""
  {
  }

  /** The shares Unprepare will read off the prepared devices are those that are in the plan. */
  lemma {:induction false} SharesOfDevices(site: Site, slots: Slots, uid: string, results: seq<Result>, chosen: Choice,
                                          prepared: seq<PreparedDevice>, at: seq<nat>, n: nat, s: Share)
    requires Prepares(site, slots, uid, results, chosen, prepared, at) && n <= |prepared|
    ensures s in SharesOfPrepared(site.cat, uid, prepared, n)
            <==> exists k :: 0 <= k < n && results[at[k]].device in site.cat.synth
                             && s == Share(results[at[k]].device, ResultKey(uid, results[at[k]]))
  {
    if n > 0 {
      SharesOfDevices(site, slots, uid, results, chosen, prepared, at, n - 1, s);
      KeyIsNotEmpty(uid, results[at[n - 1]]);
    }
  }

  lemma SharesArePlanned(site: Site, node: string, slots: Slots, uid: string, results: seq<Result>, chosen: Choice,
                         prepared: seq<PreparedDevice>, at: seq<nat>, s: Share)
    requires Prepares(site, slots, uid, results, chosen, prepared, at)
    requires PartitionsChosen(site.cat.synth, results, chosen)
    requires PooledHere(site, node, results)
    ensures s in SharesOfPrepared(site.cat, uid, prepared, |prepared|)
            <==> s in SharesOfResults(site.cat.synth, node, uid, results)
  {
    hide ResultKey;
    SharesOfDevices(site, slots, uid, results, chosen, prepared, at, |prepared|, s);
    ShareFromResult(site.cat.synth, node, uid, results, s);
    if s in SharesOfResults(site.cat.synth, node, uid, results) {
      var i :| 0 <= i < |results| && IsShare(site.cat.synth, node, results[i])
               && s == Share(results[i].device, ResultKey(uid, results[i]));
      assert chosen[i].Some? && i in at;
      var k :| 0 <= k < |at| && at[k] == i;
      assert results[at[k]].device in site.cat.synth;
    }
    if k :| 0 <= k < |prepared| && results[at[k]].device in site.cat.synth
            && s == Share(results[at[k]].device, ResultKey(uid, results[at[k]])) {
      assert results[at[k]] in results && IsShare(site.cat.synth, node, results[at[k]]);
    }
  }

  lemma {:induction false} ResultKeysDiffer(site: Site, node: string, uid: string, results: seq<Result>, i: nat, j: nat)
    requires SharesOf(site.cat, uid, SharesOfResults(site.cat.synth, node, uid, results))
    requires i < j < |results| && IsShare(site.cat.synth, node, results[i]) && IsShare(site.cat.synth, node, results[j])
    ensures ResultKey(uid, results[i]) != ResultKey(uid, results[j])
  {
    hide ResultKey, WellKeyed, KeyOf;
    var n := |results| - 1;
    var before := SharesOfResults(site.cat.synth, node, uid, results[..n]);
    var all := SharesOfResults(site.cat.synth, node, uid, results);
    assert forall k :: 0 <= k < |before| ==> before[k] == all[k];
    if j < n {
      ResultKeysDiffer(site, node, uid, results[..n], i, j);
    } else {
      var s := Share(results[i].device, ResultKey(uid, results[i]));
      assert results[..n][i] == results[i];
      ShareFromResult(site.cat.synth, node, uid, results[..n], s);
      var k :| 0 <= k < |before| && before[k] == s;
      assert all[k].key != all[|before|].key;
    }
  }

  ghost predicate KeysDiffer(shares: seq<Share>) {
    forall i, j :: 0 <= i < j < |shares| ==> shares[i].key != shares[j].key
  }

  lemma {:induction false} PreparedKeysDiffer(site: Site, node: string, slots: Slots, uid: string, results: seq<Result>,
                                              chosen: Choice,
                                             prepared: seq<PreparedDevice>, at: seq<nat>, n: nat)
    requires Prepares(site, slots, uid, results, chosen, prepared, at)
    requires PartitionsChosen(site.cat.synth, results, chosen)
    requires PooledHere(site, node, results) && n <= |prepared|
    requires SharesOf(site.cat, uid, SharesOfResults(site.cat.synth, node, uid, results))
    ensures KeysDiffer(SharesOfPrepared(site.cat, uid, prepared, n))
  {
    hide ResultKey, SharesOf, IsShare;
    if n > 0 {
      PreparedKeysDiffer(site, node, slots, uid, results, chosen, prepared, at, n - 1);
      var before, r := SharesOfPrepared(site.cat, uid, prepared, n - 1), results[at[n - 1]];
      KeyIsNotEmpty(uid, r);
      assert SharesOfPrepared(site.cat, uid, prepared, n)
          == if r.device in site.cat.synth then before + [Share(r.device, ResultKey(uid, r))] else before;
      if r.device in site.cat.synth {
        forall i | 0 <= i < |before|
          ensures before[i].key != ResultKey(uid, r)
        {
          SharesOfDevices(site, slots, uid, results, chosen, prepared, at, n - 1, before[i]);
          var k :| 0 <= k < n - 1 && results[at[k]].device in site.cat.synth
                   && before[i] == Share(results[at[k]].device, ResultKey(uid, results[at[k]]));
          KeysAtDiffer(site, node, uid, results, chosen, at[k], at[n - 1]);
        }
      }
    }
  }

  lemma KeysAtDiffer(site: Site, node: string, uid: string, results: seq<Result>, chosen: Choice, i: nat, j: nat)
    requires PartitionsChosen(site.cat.synth, results, chosen) && PooledHere(site, node, results)
    requires SharesOf(site.cat, uid, SharesOfResults(site.cat.synth, node, uid, results))
    requires i < |results| && j < |results| && i != j && chosen[i].Some? && chosen[j].Some?
    requires results[i].device in site.cat.synth && results[j].device in site.cat.synth
    ensures ResultKey(uid, results[i]) != ResultKey(uid, results[j])
  {
    hide ResultKey, SharesOf;
    assert results[i] in results && results[j] in results;
    if i < j {
      ResultKeysDiffer(site, node, uid, results, i, j);
    } else {
      ResultKeysDiffer(site, node, uid, results, j, i);
    }
  }

  /** The prepared devices of a claim list exactly its planned shares. */
  lemma PreparedListShares(site: Site, node: string, slots: Slots, claim: ResourceClaim, chosen: Choice,
                           prepared: seq<PreparedDevice>, at: seq<nat>)
    requires AsPlanned(site, node, claim) && claim.allocation.Some?
    requires Prepares(site, slots, claim.uid, claim.allocation.value.results, chosen, prepared, at)
    requires PartitionsChosen(site.cat.synth, claim.allocation.value.results, chosen)
    requires SharesOf(site.cat, claim.uid, site.plan(claim.uid)) && NamesPartitions(site, prepared)
    ensures Lists(site, claim.uid, prepared)
  {
    hide WellKeyed, KeyOf, Prepares, PartitionsChosen, PooledHere, NamesPartitions;
    var results := claim.allocation.value.results;
    var shares := SharesOfPrepared(site.cat, claim.uid, prepared, |prepared|);
    forall s
      ensures s in shares <==> s in site.plan(claim.uid)
    {
      SharesArePlanned(site, node, slots, claim.uid, results, chosen, prepared, at, s);
    }
    PreparedKeysDiffer(site, node, slots, claim.uid, results, chosen, prepared, at, |prepared|);
    forall i | 0 <= i < |shares|
      ensures WellKeyed(site.cat, shares[i]) && KeyOf(site.cat, claim.uid, shares[i].key)
    {
      assert shares[i] in shares;
      var k :| 0 <= k < |site.plan(claim.uid)| && site.plan(claim.uid)[k] == shares[i];
    }
    assert Pairs(site.cat, shares) == Pairs(site.cat, site.plan(claim.uid));
    assert SharesOf(site.cat, claim.uid, shares);
  }

  /** Every prepared partition names the slot its share holds in the ledger. */
  lemma PreparedNameSlots(site: Site, node: string, l: Ledger, claim: ResourceClaim, chosen: Choice,
                          prepared: seq<PreparedDevice>, at: seq<nat>)
    requires AsPlanned(site, node, claim) && claim.allocation.Some? && SiteOk(site)
    requires Prepares(site, l.slots, claim.uid, claim.allocation.value.results, chosen, prepared, at)
    requires PartitionsChosen(site.cat.synth, claim.allocation.value.results, chosen)
    requires Sound(l, site.cat, site.plan) && claim.uid in l.claims
    ensures SlotsMatch(site, claim.uid, prepared, l.slots)
    ensures forall k :: 0 <= k < |prepared| && prepared[k].device in site.cat.synth ==> prepared[k].slot.Some?
  {
    hide Valid, Held, ResultKey;
    var results := claim.allocation.value.results;
    HeldClaimIsHeld(l, site.cat, site.plan, claim.uid);
    forall k | 0 <= k < |prepared| && prepared[k].device in site.cat.synth
      ensures prepared[k].slot.Some? && SlotMatches(site, claim.uid, prepared[k], l.slots)
    {
      var r := results[at[k]];
      var s := Share(r.device, ResultKey(claim.uid, r));
      assert r in results && IsShare(site.cat.synth, node, r);
      ShareFromResult(site.cat.synth, node, claim.uid, results, s);
      assert PairOf(site.cat, s) in Pairs(site.cat, site.plan(claim.uid));
      assert SharesOf(site.cat, claim.uid, site.plan(claim.uid));
      HeldIff(l.slots, GpuOf(site.cat, s), s.key);
    }
  }

  // ---------- from configs to devices ----------

  function ConfigsFor(possible: seq<Possible>): seq<Config> {
    [DEFAULT_CONFIG] + (Ours(DRIVER_NAME, possible, ClassSource) + Ours(DRIVER_NAME, possible, ClaimSource))
  }

  /** A device that is not VFIO always gets a config, and one that is VFIO gets one only if the
      feature is enabled and a config that is not a GPU config applies. */
  lemma ChosenUnlessVfio(configs: seq<Config>, q: Query)
    requires configs != [] && configs[0] == DEFAULT_CONFIG
    ensures !q.target.VfioDevice? ==> Last(configs, q).Some?
    ensures q.target.VfioDevice? && Last(configs, q).Some? ==> !configs[Last(configs, q).value].parameters.kind.GpuKind?
  {
    assert Applies(configs[0], q) <==> !q.target.VfioDevice?;
  }

  /** The config governs results for the request on a device that is listed like this. */
  predicate MayGovern(c: Config, request: string, e: Entry, passthrough: bool) {
    && (c.requests == [] || request in c.requests)
    && (c.parameters.kind == VfioKind ==> passthrough && (e.GpuEntry? || e.VfioEntry?))
    && (c.parameters.kind == GpuKind ==> !e.VfioEntry?)
  }

  /** Every result of this driver is governed by the last config that may govern its device as it is
      listed by then, and by none only if there is no such config. */
  lemma LastThatMayGovern(start: Allocatable, results: seq<Result>, configs: seq<Config>, passthrough: bool,
                          chosen: Choice, n: nat)
    requires n < |results| && n < |chosen| && WellChosen(start, results, configs, passthrough, chosen, n)
    requires results[n].driver == "gpu.amd.com"
    ensures results[n].device in start
    ensures var r := results[n];
            var e := EntryAfter(start, results, configs, chosen, n, r.device);
            match chosen[n]
            case Some(i) =>
              && i < |configs| && MayGovern(configs[i], r.request, e, passthrough)
              && forall j :: i < j < |configs| ==> !MayGovern(configs[j], r.request, e, passthrough)
            case None => forall j :: 0 <= j < |configs| ==> !MayGovern(configs[j], r.request, e, passthrough)
  {
    hide Turned;
    var r := results[n];
    var e := EntryAfter(start, results, configs, chosen, n, r.device);
    forall c
      ensures Applies(c, Query(r.request, TargetOf(e), passthrough)) <==> MayGovern(c, r.request, e, passthrough)
    {
    }
  }

  /** Every result of this driver is prepared exactly once, except that a VFIO device is prepared
      only if a config applies to it that is not for GPUs. Results of other drivers never are. */
  lemma EveryResultIsPrepared(site: Site, slots: Slots, uid: string, start: Allocatable, allocatable: Allocatable,
                              results: seq<Result>,
                              configs: seq<Config>, passthrough: bool, chosen: Choice, prepared: seq<PreparedDevice>,
                              at: seq<nat>, i: nat)
    requires ChosenSoFar(start, allocatable, results, configs, passthrough, chosen) && i < |results|
    requires configs != [] && configs[0] == DEFAULT_CONFIG
    requires Prepares(site, slots, uid, results, chosen, prepared, at)
    ensures (exists k :: 0 <= k < |at| && at[k] == i)
            <==> results[i].driver == DRIVER_NAME && results[i].device in start
                 && (EntryAfter(start, results, configs, chosen, i, results[i].device).VfioEntry? ==>
                       exists j ::
                         0 <= j < |configs| && Applies(configs[j], Query(results[i].request, VfioDevice, passthrough)))
    ensures forall j, k :: 0 <= j < k < |at| && at[j] == i ==> at[k] != i
  {
    hide Turned, Applies;
    assert WellChosen(start, results, configs, passthrough, chosen, i);
    if results[i].driver == DRIVER_NAME {
      var e := EntryAfter(start, results, configs, chosen, i, results[i].device);
      ChosenUnlessVfio(configs, Query(results[i].request, TargetOf(e), passthrough));
    }
    assert chosen[i].Some? <==> i in at;
  }

  /** No other device that is prepared is named like a partition. */
  lemma PreparedAreNamed(site: Site, slots: Slots, uid: string, start: Allocatable, allocatable: Allocatable,
                         results: seq<Result>, configs: seq<Config>, passthrough: bool, chosen: Choice,
                         prepared: seq<PreparedDevice>, at: seq<nat>)
    requires ChosenSoFar(start, allocatable, results, configs, passthrough, chosen) && PartitionsNamed(site, start)
    requires Prepares(site, slots, uid, results, chosen, prepared, at)
    ensures NamesPartitions(site, prepared)
  {
    hide Turned, Last, Applies, ResultKey;
    forall k | 0 <= k < |prepared| && site.cat.parse(prepared[k].device).Some?
      ensures prepared[k].device in site.cat.synth
    {
      assert WellChosen(start, results, configs, passthrough, chosen, at[k]);
    }
  }

  lemma PartitionsAreChosen(site: Site, start: Allocatable, allocatable: Allocatable, results: seq<Result>,
                            configs: seq<Config>,
                            passthrough: bool, chosen: Choice)
    requires ChosenSoFar(start, allocatable, results, configs, passthrough, chosen) && |chosen| == |results|
    requires configs != [] && configs[0] == DEFAULT_CONFIG
    requires PartitionsNamed(site, start)
    ensures PartitionsChosen(site.cat.synth, results, chosen)
  {
    hide Turned, Last, Applies;
    forall i | 0 <= i < |results|
      ensures results[i].driver == DRIVER_NAME && results[i].device in site.cat.synth ==> chosen[i].Some?
      ensures chosen[i].Some? ==> results[i].driver == DRIVER_NAME
    {
      assert WellChosen(start, results, configs, passthrough, chosen, i);
      ChosenUnlessVfio(configs, Query(results[i].request, OtherDevice, passthrough));
    }
  }

  /** A device that was turned into a VFIO device is among the prepared ones. */
  lemma TurnedIsPrepared(site: Site, slots: Slots, uid: string, results: seq<Result>, configs: seq<Config>,
                         chosen: Choice,
                         prepared: seq<PreparedDevice>, at: seq<nat>, device: string)
    requires Prepares(site, slots, uid, results, chosen, prepared, at)
    requires Turned(results, configs, chosen, |chosen|, device)
    ensures Names(prepared, device)
  {
    var i :| 0 <= i < |results| && results[i].device == device && ChoosesVfio(configs, chosen[i]);
    assert i in at;
    var k :| 0 <= k < |at| && at[k] == i;
    assert prepared[k].device == device;
  }
}
