/**
 The driver's own way of naming shares.

 The bookkeeping of the ledger is proved for any naming (`Ledgers.Catalog`); this module gives
 the naming the driver uses and shows that the shares it builds are the shares of a claim.
 */
module Naming {
  import opened Wrappers
  import opened DeviceNames
  import opened ShareKeys
  import opened Ledgers
  import opened Claims
  import opened Recovery

  const DRIVER_NAME := "gpu.amd.com"

  function PositionalKey(claim: string, i: nat, device: string): string {
    ShareKey(claim, Digits(i), device, None)
  }

  function ClaimPart(key: string): Option<string> {
    var parts :- Cut(key);
    Some(parts.0)
  }

  function DriverCatalog(synth: map<string, string>, order: set<string> -> seq<string>): Catalog {
    Catalog(synth, Parse, Parts, ClaimPart, PositionalKey, order)
  }

  /** Every synthetic device was discovered under its canonical name. */
  ghost predicate Discovered(synth: map<string, string>) {
    forall d :: d in synth ==> Parse(d).Some? && Parse(d).value.memory == synth[d]
  }

  lemma {:induction false} DigitsAreSlashFree(n: nat)
    ensures SlashFree(Digits(n))
  {
  }

  lemma CanonicalIsSlashFree(device: string)
    requires Parse(device).Some?
    ensures SlashFree(device)
  {
    hide Parse, Digits, Modes;
    var d := Parse(device).value;
    ParsedIsCanonical(device, d);
    DigitsAreSlashFree(if d.gpu < 0 then -d.gpu else d.gpu);
    ModesAreSlashFree(d);
    assert SlashFree("gpu-") && SlashFree("-");
  }

  lemma ModesAreSlashFree(d: PartitionName)
    requires d.Valid()
    ensures SlashFree(Modes(d.compute, d.memory))
  {
    var k :| 0 <= k < |VALID_PARTITION_CONFIGS| && d.Has(VALID_PARTITION_CONFIGS[k]);
    assert VALID_PARTITION_CONFIGS[k] in VALID_PARTITION_CONFIGS;
  }

  lemma KeyReadsBack(cat: Catalog, claim: string, request: string, device: string, shareID: Option<string>)
    requires cat == DriverCatalog(cat.synth, cat.order) && Discovered(cat.synth) && device in cat.synth
    requires SlashFree(claim) && SlashFree(request)
    ensures var share := Share(device, ShareKey(claim, request, device, shareID));
            WellKeyed(cat, share) && KeyOf(cat, claim, share.key)
  {
    CanonicalIsSlashFree(device);
    SlashFreeDecodes(claim, request, device, shareID);
  }

  // ---------- shares from allocation results ----------

  datatype Result = Result(driver: string, pool: string, device: string, request: string, shareID: Option<string>)

  function ResultKey(claim: string, result: Result): string {
    ShareKey(claim, result.request, result.device, result.shareID)
  }

  /** A result is for a partition of this node. */
  predicate IsShare(synth: map<string, string>, node: string, result: Result) {
    result.driver == DRIVER_NAME && result.pool == node && result.device in synth
  }

  /** One share for each result that is for a partition of this node, in allocation order. */
  function SharesOfResults(synth: map<string, string>, node: string, claim: string, results: seq<Result>): seq<Share> {
    if results == [] then []
    else
      var front, last := results[..|results| - 1], results[|results| - 1];
      SharesOfResults(synth, node, claim, front) +
      if IsShare(synth, node, last) then [Share(last.device, ResultKey(claim, last))] else []
  }

  /** Both results are for the same share of a device; no share ID is as good as an empty one. */
  predicate SameShare(a: Result, b: Result) {
    && a.request == b.request && a.device == b.device
    && (a.shareID == b.shareID || (a.shareID in {None, Some("")} && b.shareID in {None, Some("")}))
  }

  /** What the claim's allocation must look like: names without slashes, and no share twice. */
  ghost predicate WellAllocated(synth: map<string, string>, node: string, claim: string, results: seq<Result>) {
    && SlashFree(claim)
    && (forall i :: 0 <= i < |results| && IsShare(synth, node, results[i]) ==> SlashFree(results[i].request))
    && (forall i, j ::
          0 <= i < j < |results| && IsShare(synth, node, results[i]) && IsShare(synth, node, results[j]) ==>
          !SameShare(results[i], results[j]))
  }

  /** Different shares of a claim are reserved under different keys. */
  lemma KeysApart(synth: map<string, string>, node: string, claim: string, results: seq<Result>, i: nat, j: nat)
    requires Discovered(synth) && WellAllocated(synth, node, claim, results) && i < j < |results|
    requires IsShare(synth, node, results[i]) && IsShare(synth, node, results[j])
    ensures ResultKey(claim, results[i]) != ResultKey(claim, results[j])
  {
    hide Parse, ShareKey;
    var a, b := results[i], results[j];
    CanonicalIsSlashFree(a.device);
    CanonicalIsSlashFree(b.device);
    KeysAreInjective(claim, a.request, a.device, a.shareID, claim, b.request, b.device, b.shareID);
  }

  lemma {:induction false} ShareFromResult(synth: map<string, string>, node: string, claim: string,
                                           results: seq<Result>,
                                           s: Share)
    ensures s in SharesOfResults(synth, node, claim, results)
            <==> exists i :: 0 <= i < |results| && IsShare(synth, node, results[i])
                             && s == Share(results[i].device, ResultKey(claim, results[i]))
  {
    if results != [] {
      var n := |results| - 1;
      ShareFromResult(synth, node, claim, results[..n], s);
      assert forall i :: 0 <= i < n ==> results[..n][i] == results[i];
    }
  }

  /** Exactly the partitions this driver was allocated from this node's pool become shares, under keys
      of claim, request, device and share ID. */
  lemma SharesAreResults(synth: map<string, string>, node: string, claim: string, results: seq<Result>, s: Share)
    ensures s in SharesOfResults(synth, node, claim, results)
            <==> exists r :: r in results && r.driver == "gpu.amd.com" && r.pool == node && r.device in synth
                             && s == Share(r.device, ShareKey(claim, r.request, r.device, r.shareID))
  {
    ShareFromResult(synth, node, claim, results, s);
  }

  /** The shares read off an allocation are shares of the claim: their keys can be taken apart
      again, and no two are alike. */
  lemma {:induction false} ResultsAreShares(cat: Catalog, node: string, claim: string, results: seq<Result>)
    requires cat == DriverCatalog(cat.synth, cat.order) && Discovered(cat.synth)
    requires WellAllocated(cat.synth, node, claim, results)
    ensures SharesOf(cat, claim, SharesOfResults(cat.synth, node, claim, results))
  {
    hide Parse, Digits, ShareKey, WellKeyed, KeyOf, Parts, Discovered;
    if results != [] {
      var n := |results| - 1;
      var last := results[n];
      var before := SharesOfResults(cat.synth, node, claim, results[..n]);
      assert WellAllocated(cat.synth, node, claim, results[..n]);
      ResultsAreShares(cat, node, claim, results[..n]);
      if IsShare(cat.synth, node, last) {
        KeyReadsBack(cat, claim, last.request, last.device, last.shareID);
        forall s | s in before
          ensures s.key != ResultKey(claim, last)
        {
          ShareFromResult(cat.synth, node, claim, results[..n], s);
          var i :| 0 <= i < n && IsShare(cat.synth, node, results[..n][i])
                   && s == Share(results[..n][i].device, ResultKey(claim, results[..n][i]));
          KeysApart(cat.synth, node, claim, results, i, n);
        }
      }
    }
  }

  /** The plan of a node: a claim has the shares of its allocation, under the keys made from it; a
      claim that an older driver prepared has them under the keys made from their positions. */
  function PlanOf(cat: Catalog, node: string, allocations: map<string, seq<Result>>, older: PreparedClaims):
    string -> seq<Share>
  {
    (claim: string) =>
      if claim in older then SharesOfPrepared(cat, claim, older[claim], |older[claim]|)
      else if claim in allocations then SharesOfResults(cat.synth, node, claim, allocations[claim])
      else []
  }

  /** However many claims are allocated, beside however many older ones, what they reserve never
      meets: a key tells its claim. */
  lemma AllocationsArePlan(cat: Catalog, node: string, allocations: map<string, seq<Result>>, older: PreparedClaims)
    requires cat == DriverCatalog(cat.synth, cat.order) && Discovered(cat.synth)
    requires "" !in allocations && "" !in older
    requires forall c :: c in allocations ==> WellAllocated(cat.synth, node, c, allocations[c])
    requires forall c :: c in older ==> SlashFree(c) && Keyless(older[c])
    ensures PlanOk(cat, PlanOf(cat, node, allocations, older))
    ensures forall c, d :: c != d ==>
              var plan := PlanOf(cat, node, allocations, older); Pairs(cat, plan(c)) !! Pairs(cat, plan(d))
  {
    hide SharesOf, WellAllocated, SharesOfResults, SharesOfPrepared, Pairs, Keyless, DriverCatalog, Discovered;
    var plan := PlanOf(cat, node, allocations, older);
    forall c
      ensures SharesOf(cat, c, plan(c))
    {
      if c in older {
        PositionalAreShares(cat, c, older[c], |older[c]|);
      } else if c in allocations {
        ResultsAreShares(cat, node, c, allocations[c]);
      } else {
        NoShares(cat, c);
      }
    }
    forall c, d | c != d
      ensures Pairs(cat, plan(c)) !! Pairs(cat, plan(d))
    {
      PlansAreDisjoint(cat, plan, c, {d});
      OneClaimsPairs(cat, plan, d);
    }
  }

  /** The planned shares are of synthetic devices. */
  lemma PlannedDevices(cat: Catalog, node: string, allocations: map<string, seq<Result>>, older: PreparedClaims,
                       claim: string, s: Share)
    requires cat == DriverCatalog(cat.synth, cat.order) && forall c :: c in older ==> Keyless(older[c])
    requires s in PlanOf(cat, node, allocations, older)(claim)
    ensures s.device in cat.synth
  {
    hide SharesOfResults, SharesOfPrepared, ResultKey;
    if claim in older {
      PositionOfShare(cat, claim, older[claim], |older[claim]|, s);
    } else {
      ShareFromResult(cat.synth, node, claim, allocations[claim], s);
    }
  }

  lemma NoShares(cat: Catalog, claim: string)
    ensures SharesOf(cat, claim, [])
  {
  }

  lemma OneClaimsPairs(cat: Catalog, plan: string -> seq<Share>, claim: string)
    ensures AllPairs(cat, plan, {claim}) == Pairs(cat, plan(claim))
  {
  }

  // ---------- shares of claims prepared before keys were persisted ----------

  lemma PositionsAreDistinct(claim: string, i: nat, j: nat, a: string, b: string)
    requires SlashFree(claim) && SlashFree(a) && SlashFree(b) && i != j
    ensures PositionalKey(claim, i, a) != PositionalKey(claim, j, b)
  {
    DigitsAreSlashFree(i);
    DigitsAreSlashFree(j);
    KeysAreInjective(claim, Digits(i), a, None, claim, Digits(j), b, None);
    DigitsHaveTheirValue(i);
    DigitsHaveTheirValue(j);
  }

  ghost predicate Keyless(devices: seq<PreparedDevice>) {
    forall i :: 0 <= i < |devices| ==> devices[i].key == ""
  }

  lemma {:induction false} PositionOfShare(cat: Catalog, claim: string, devices: seq<PreparedDevice>, n: nat, s: Share)
    requires cat == DriverCatalog(cat.synth, cat.order) && n <= |devices| && Keyless(devices)
    requires s in SharesOfPrepared(cat, claim, devices, n)
    ensures s.device in cat.synth && exists i :: 0 <= i < n && s.key == PositionalKey(claim, i, s.device)
  {
    var d := devices[n - 1].device;
    if s !in SharesOfPrepared(cat, claim, devices, n - 1) {
      assert d in cat.synth && s == Share(d, cat.positional(claim, n - 1, d));
    } else {
      PositionOfShare(cat, claim, devices, n - 1, s);
    }
  }

  /** The positional keys of an older checkpoint's claim are shares of that claim too. */
  lemma {:induction false} PositionalAreShares(cat: Catalog, claim: string, devices: seq<PreparedDevice>, n: nat)
    requires cat == DriverCatalog(cat.synth, cat.order) && Discovered(cat.synth) && SlashFree(claim)
    requires n <= |devices| && Keyless(devices)
    ensures SharesOf(cat, claim, SharesOfPrepared(cat, claim, devices, n))
  {
    hide Parse, Digits, ShareKey, WellKeyed, KeyOf, Parts;
    if n > 0 {
      PositionalAreShares(cat, claim, devices, n - 1);
      var d := devices[n - 1].device;
      if d in cat.synth {
        DigitsAreSlashFree(n - 1);
        KeyReadsBack(cat, claim, Digits(n - 1), d, None);
        CanonicalIsSlashFree(d);
        forall s | s in SharesOfPrepared(cat, claim, devices, n - 1)
          ensures s.key != PositionalKey(claim, n - 1, d)
        {
          PositionOfShare(cat, claim, devices, n - 1, s);
          var i :| 0 <= i < n - 1 && s.key == PositionalKey(claim, i, s.device);
          CanonicalIsSlashFree(s.device);
          PositionsAreDistinct(claim, i, n - 1, s.device, d);
        }
      }
    }
  }

  // ---------- what every reachable ledger says ----------

  /** The modes, counters and taints say the same as the shares that are held. */
  ghost predicate Consistent(l: Ledger, cat: Catalog) {
    && (forall g, a, b :: Holds(l.slots, g, a) && Holds(l.slots, g, b) ==> cat.DeviceOf(a) == cat.DeviceOf(b))
    && (forall g, a, b :: Holds(l.slots, g, a) && Holds(l.slots, g, b) && a != b ==> l.slots[g][a] != l.slots[g][b])
    && (forall g, k :: Holds(l.slots, g, k) ==> NameOf(cat, k).Some? && NameOf(cat, k).value.memory == l.memoryMode)
    && (forall g :: g in l.computeModes <==> CountOf(l, g) > 0)
    && (l.memoryMode != "" <==> l.total > 0)
    && l.total == Sum(l.counts) == |Held(l.slots)|
    && l.taints == TaintsFor(cat.synth, l.memoryMode)
  }

  /** In every ledger that calls can reach, all shares held on one GPU are of the same device and
      have slots of their own, all shares are of one memory mode, and modes, counters and taints
      follow from the shares. */
  lemma EveryRunIsConsistent(start: Ledger, cat: Catalog, plan: string -> seq<Share>, calls: seq<Call>)
    requires cat == DriverCatalog(cat.synth, cat.order) && Sound(start, cat, plan) && PlanOk(cat, plan)
    requires forall i :: 0 <= i < |calls| ==> CallOk(cat, plan, calls[i])
    ensures Consistent(After(start, cat, plan, calls), cat)
  {
    EveryRunIsSound(start, cat, plan, calls);
    ValidIsConsistent(After(start, cat, plan, calls), cat);
  }

  lemma ValidIsConsistent(l: Ledger, cat: Catalog)
    requires cat == DriverCatalog(cat.synth, cat.order) && Valid(l, cat)
    ensures Consistent(l, cat)
  {
    hide Parse, Parts, Held, Sum, TaintsFor;
    SumOfCountsIsHeld(l.slots);
    NoneHeldIffEmpty(l.slots);
    forall g, a, b | Holds(l.slots, g, a) && Holds(l.slots, g, b)
      ensures cat.DeviceOf(a) == cat.DeviceOf(b)
    {
      var d := NameOf(cat, a).value;
      ParsedIsCanonical(cat.DeviceOf(a), d);
      ParsedIsCanonical(cat.DeviceOf(b), d);
    }
    forall g
      ensures g in l.computeModes <==> CountOf(l, g) > 0
    {
      if g in l.slots {
        var k := HeldKey(l.slots, g);
      }
    }
  }

  // ---------- shares that cannot be read back ----------

  /** A release succeeds exactly when every listed device parses; otherwise the claim stays
      reserved. This holds of any ledger and any list. */
  lemma ReleasedIffParsed(l: Ledger, cat: Catalog, claim: string, shares: seq<Share>)
    requires claim in l.claims
    ensures claim !in ReleaseClaim(l, cat, claim, shares).ledger.claims
            <==> forall i :: 0 <= i < |shares| ==> cat.parse(shares[i].device).Some?
  {
    ReleasesWhileParsed(l, cat, shares, |shares|);
  }

  lemma {:induction false} ReleasesWhileParsed(l: Ledger, cat: Catalog, shares: seq<Share>, n: nat)
    requires n <= |shares|
    ensures ReleaseUpTo(l, cat, shares, n).ok <==> forall i :: 0 <= i < n ==> cat.parse(shares[i].device).Some?
    ensures ReleaseUpTo(l, cat, shares, n).ledger.claims == l.claims
  {
    if n > 0 {
      ReleasesWhileParsed(l, cat, shares, n - 1);
    }
  }

  /** A request is named "main", or "main/sub" when it was allocated through a sub-request. */
  function RequestName(main: string, sub: Option<string>): string {
    if sub.None? then main else main + "/" + sub.value
  }

  /** A partition is released by its GPU and its key alone. */
  lemma ReleasedByGpu(cat: Catalog, l: Ledger, claim: string, a: string, b: string, key: string)
    requires cat.parse(a).Some? && cat.parse(b).Some? && cat.parse(a).value.gpu == cat.parse(b).value.gpu
    ensures ReleaseClaim(l, cat, claim, [Share(a, key)]) == ReleaseClaim(l, cat, claim, [Share(b, key)])
  {
    assert ReleaseUpTo(l, cat, [Share(a, key)], 0) == ReleaseUpTo(l, cat, [Share(b, key)], 0);
  }

  lemma ReleasedOne(cat: Catalog, l: Ledger, claim: string, s: Share)
    requires cat.parse(s.device).Some? && claim in l.claims
    ensures var g, m := cat.parse(s.device).value.gpu, ReleaseClaim(l, cat, claim, [s]).ledger;
            && m.slots == ReleaseSlot(l.slots, g, s.key)
            && CountOf(m, g) == (if CountOf(l, g) > 0 then CountOf(l, g) - 1 else 0)
            && forall h :: h != g ==> CountOf(m, h) == CountOf(l, h)
  {
    assert ReleaseUpTo(l, cat, [s], 0) == Outcome(true, l, false);
  }

  /** Exactly when a claim that waits for a reload and holds one share is unprepared as it should be,
      by the share its slot key is read back as: if its request was not a sub-request, or the
      sub-request happens to be named like a partition of the same GPU. If it is named like one of
      another GPU, the claim counts as released, but its slot stays and the other GPU's counter
      drops. If it is not named like a partition at all, the release fails and changes nothing, so
      that an Unprepare that reports success leaves the claim reserved. */
  lemma ReadBackIsReleasedIff(cat: Catalog, l: Ledger, claim: string, main: string, sub: Option<string>,
                              device: string, shareID: Option<string>)
    requires cat == DriverCatalog(cat.synth, cat.order) && claim in l.claims
    requires SlashFree(claim) && SlashFree(main) && (sub.Some? ==> SlashFree(sub.value)) && Parse(device).Some?
    ensures var key := ShareKey(claim, RequestName(main, sub), device, shareID);
            var r := ReleaseClaim(l, cat, claim, [Share(cat.DeviceOf(key), key)]);
            && (claim !in r.ledger.claims <==> sub.None? || Parse(sub.value).Some?)
            && (claim in r.ledger.claims ==> r.ledger == l)
    ensures var key := ShareKey(claim, RequestName(main, sub), device, shareID);
            var r := ReleaseClaim(l, cat, claim, [Share(cat.DeviceOf(key), key)]);
            var g := Parse(device).value.gpu;
            Holds(l.slots, g, key) ==>
              && (r.ledger == ReleaseClaim(l, cat, claim, [Share(device, key)]).ledger
                  <==> sub.None? || (Parse(sub.value).Some? && Parse(sub.value).value.gpu == g))
              && (sub.Some? && Parse(sub.value).Some? && Parse(sub.value).value.gpu != g ==>
                    var other := Parse(sub.value).value.gpu;
                    && Holds(r.ledger.slots, g, key) && CountOf(r.ledger, g) == CountOf(l, g)
                    && CountOf(r.ledger, other) == if CountOf(l, other) > 0 then CountOf(l, other) - 1 else 0)
  {
    hide Parse, Parts, ShareKey, Digits;
    var key := ShareKey(claim, RequestName(main, sub), device, shareID);
    var shares := [Share(cat.DeviceOf(key), key)];
    CanonicalIsSlashFree(device);
    if sub.None? {
      SlashFreeDecodes(claim, main, device, shareID);
    } else {
      SubRequestHidesTheDevice(claim, main, sub.value, device, shareID);
    }
    assert cat.DeviceOf(key) == if sub.None? then device else sub.value;
    ReleasedIffParsed(l, cat, claim, shares);
    assert ReleaseUpTo(l, cat, shares, 0) == Outcome(true, l, false);
    ReadBackSlot(cat, l, claim, if sub.None? then device else sub.value, device, key);
  }

  /** A share is released by another device name exactly as by its own if the GPU is the same. */
  lemma ReadBackSlot(cat: Catalog, l: Ledger, claim: string, readBack: string, device: string, key: string)
    requires claim in l.claims && cat.parse(device).Some?
    ensures var r := ReleaseClaim(l, cat, claim, [Share(readBack, key)]).ledger;
            var g, d := cat.parse(device).value.gpu, cat.parse(readBack);
            Holds(l.slots, g, key) ==>
              && (r == ReleaseClaim(l, cat, claim, [Share(device, key)]).ledger <==> d.Some? && d.value.gpu == g)
              && (d.Some? && d.value.gpu != g ==>
                    var n := CountOf(l, d.value.gpu);
                    && Holds(r.slots, g, key) && CountOf(r, g) == CountOf(l, g)
                    && CountOf(r, d.value.gpu) == if n > 0 then n - 1 else 0)
  {
    hide ReleaseClaim;
    var g, d := cat.parse(device).value.gpu, cat.parse(readBack);
    ReleasedOne(cat, l, claim, Share(device, key));
    HoldsAfterRelease(l.slots, g, key, g, key);
    if d.Some? {
      ReleasedOne(cat, l, claim, Share(readBack, key));
      HoldsAfterRelease(l.slots, d.value.gpu, key, g, key);
      if d.value.gpu == g {
        ReleasedByGpu(cat, l, claim, readBack, device, key);
      }
    } else {
      ReleasedNone(cat, l, claim, Share(readBack, key));
    }
  }

  lemma ReleasedNone(cat: Catalog, l: Ledger, claim: string, s: Share)
    requires cat.parse(s.device).None?
    ensures ReleaseClaim(l, cat, claim, [s]).ledger == l
  {
    assert ReleaseUpTo(l, cat, [s], 0) == Outcome(true, l, false);
  }

  lemma CpxParses()
    ensures Parse("gpu-1-cpx-nps4") == Some(PartitionName(1, "cpx", "nps4"))
  {
    hide Parse;
    var d := PartitionName(1, "cpx", "nps4");
    assert d.Has(VALID_PARTITION_CONFIGS[5]);
    assert Digits(1) == "1";
    assert d.Print() == "gpu-1-cpx-nps4";
    ParseIffPrinted("gpu-1-cpx-nps4", d);
  }

  lemma SpxParses()
    ensures Parse("gpu-0-spx-nps1") == Some(PartitionName(0, "spx", "nps1"))
  {
    hide Parse;
    var d := PartitionName(0, "spx", "nps1");
    assert d.Has(VALID_PARTITION_CONFIGS[0]);
    assert Digits(0) == "0";
    assert d.Print() == "gpu-0-spx-nps1";
    ParseIffPrinted("gpu-0-spx-nps1", d);
  }
}
