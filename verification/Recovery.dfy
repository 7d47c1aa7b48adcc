/**
 Rebuilding the ledger from a checkpoint.

 The checkpoint keeps the modes, the reload marker and the slots, but no counters and no claim
 markers. A checkpoint without slots is taken for one written before slots were persisted, and
 the ledger is then rebuilt from the prepared claims instead.
 */
module Recovery {
  import opened Wrappers
  import opened DeviceNames
  import opened Ledgers
  import opened Claims

  /** The partition part of a checkpoint. */
  datatype PartitionFields = PartitionFields(
    memoryMode: string, computeModes: map<int, string>, reload: Option<string>, slots: Slots)

  datatype PreparedDevice = PreparedDevice(device: string, key: string, slot: Option<nat>)

  type PreparedClaims = map<string, seq<PreparedDevice>>

  function Fields(l: Ledger, reload: Option<string>): PartitionFields {
    PartitionFields(l.memoryMode, l.computeModes, reload, l.slots)
  }

  // ---------- from slots ----------

  ghost function ClaimsIn(cat: Catalog, slots: Slots): set<string> {
    (set p | p in Held(slots) :: cat.ClaimOf(p.1)) - {""}
  }

  /** A GPU without shares gets no count. */
  function NonEmpty(slots: Slots): Slots {
    map g | g in slots && |slots[g]| > 0 :: slots[g]
  }

  ghost function FromSlots(cat: Catalog, f: PartitionFields): Ledger {
    Ledger(f.memoryMode, f.computeModes,
           CountsOf(NonEmpty(f.slots)),
           f.slots, |Held(f.slots)|, ClaimsIn(cat, f.slots),
           TaintsFor(cat.synth, f.memoryMode))
  }

  // ---------- from prepared claims ----------

  /** One share more, without any check of modes. */
  function Count(l: Ledger, gpu: int, key: string): Ledger {
    l.(counts := l.counts[gpu := CountOf(l, gpu) + 1],
       slots := AssignSlot(l.slots, gpu, key),
       total := l.total + 1)
  }

  function CountDevices(l: Ledger, cat: Catalog, claim: string, devices: seq<PreparedDevice>, n: nat): Ledger
    requires n <= |devices|
  {
    if n == 0 then l
    else
      var before := CountDevices(l, cat, claim, devices, n - 1);
      var device := devices[n - 1].device;
      match cat.parse(device)
      case None => before
      case Some(d) => Count(before, d.gpu, cat.positional(claim, n - 1, device))
  }

  predicate HasPartition(cat: Catalog, devices: seq<PreparedDevice>) {
    exists i :: 0 <= i < |devices| && cat.parse(devices[i].device).Some?
  }

  function CountClaim(l: Ledger, cat: Catalog, claim: string, devices: seq<PreparedDevice>): Ledger {
    var counted := CountDevices(l, cat, claim, devices, |devices|);
    if HasPartition(cat, devices) then counted.(claims := counted.claims + {claim}) else counted
  }

  function CountClaims(l: Ledger, cat: Catalog, prepared: PreparedClaims, order: seq<string>): Ledger
    requires forall c :: c in order ==> c in prepared
  {
    if order == [] then l
    else
      var last := order[|order| - 1];
      CountClaim(CountClaims(l, cat, prepared, order[..|order| - 1]), cat, last, prepared[last])
  }

  /** The listing visits every claim exactly once, always in the same order. */
  ghost predicate OrderOk(cat: Catalog) {
    forall s :: var listed := cat.order(s);
      && (forall c :: c in listed <==> c in s)
      && (forall i, j :: 0 <= i < j < |listed| ==> listed[i] != listed[j])
  }

  /** What recovery starts counting from when there are no slots. */
  function Uncounted(cat: Catalog, f: PartitionFields): Ledger {
    Ledger(f.memoryMode, f.computeModes, map[], map[], 0, {}, TaintsFor(cat.synth, f.memoryMode))
  }

  function FromPrepared(cat: Catalog, f: PartitionFields, prepared: PreparedClaims): Ledger
    requires forall c :: c in cat.order(prepared.Keys) ==> c in prepared
  {
    CountClaims(Uncounted(cat, f), cat, prepared, cat.order(prepared.Keys))
  }

  ghost function Recover(cat: Catalog, f: PartitionFields, prepared: PreparedClaims): Ledger
    requires OrderOk(cat)
  {
    if f.slots != map[] then FromSlots(cat, f) else FromPrepared(cat, f, prepared)
  }

  // ---------- a checkpoint the driver wrote ----------

  ghost predicate PreparedPartition(cat: Catalog, prepared: PreparedClaims) {
    exists c :: c in prepared && HasPartition(cat, prepared[c])
  }

  /** Claims without partition shares leave no trace in the slots. */
  ghost function Partitioned(plan: string -> seq<Share>, claims: set<string>): set<string> {
    set c | c in claims && plan(c) != []
  }

  lemma FromSlotsIsTheLedger(l: Ledger, cat: Catalog, plan: string -> seq<Share>, reload: Option<string>)
    requires Sound(l, cat, plan) && PlanOk(cat, plan)
    ensures FromSlots(cat, Fields(l, reload)) == l.(claims := Partitioned(plan, l.claims))
  {
    hide Held, KeysMatchModes, AllPairs, PlanOk, Partitioned, ClaimsIn, TaintsFor;
    forall c
      ensures c in ClaimsIn(cat, l.slots) <==> c in Partitioned(plan, l.claims)
    {
      ClaimInSlots(l, cat, plan, c);
    }
    assert ClaimsIn(cat, l.slots) == Partitioned(plan, l.claims);
    AllNonEmpty(l.slots);
  }

  lemma AllNonEmpty(slots: Slots)
    requires SlotsValid(slots)
    ensures NonEmpty(slots) == slots
  {
    forall g | g in slots
      ensures g in NonEmpty(slots)
    {
      var k := HeldKey(slots, g);
    }
  }

  lemma ClaimInSlots(l: Ledger, cat: Catalog, plan: string -> seq<Share>, c: string)
    requires Sound(l, cat, plan) && PlanOk(cat, plan)
    ensures c in ClaimsIn(cat, l.slots) <==> c in Partitioned(plan, l.claims)
  {
    hide Valid, Held, SharesOf;
    if c in ClaimsIn(cat, l.slots) {
      var p :| p in Held(l.slots) && cat.ClaimOf(p.1) == c;
      var owner :| owner in l.claims && p in Pairs(cat, plan(owner));
      ClaimOfPair(cat, plan, owner, p);
    }
    if c in Partitioned(plan, l.claims) {
      var p := PairOf(cat, plan(c)[0]);
      assert p in Pairs(cat, plan(c));
      ClaimOfPair(cat, plan, c, p);
    }
  }

  lemma SoundWithout(l: Ledger, cat: Catalog, plan: string -> seq<Share>)
    requires Sound(l, cat, plan)
    ensures Sound(l.(claims := Partitioned(plan, l.claims)), cat, plan)
  {
    hide Held;
    ClaimsAreSeparate(l, cat, Partitioned(plan, l.claims));
    assert AllPairs(cat, plan, Partitioned(plan, l.claims)) == AllPairs(cat, plan, l.claims);
  }

  /** Counting only adds, and a partition device always adds something. */
  lemma {:induction false} CountsDevice(l: Ledger, cat: Catalog, claim: string, devices: seq<PreparedDevice>, n: nat)
    requires n <= |devices|
    ensures var m := CountDevices(l, cat, claim, devices, n);
            && m.total >= l.total && m.memoryMode == l.memoryMode && m.computeModes == l.computeModes
            && m.taints == l.taints
    ensures (exists i :: 0 <= i < n && cat.parse(devices[i].device).Some?)
              <==> CountDevices(l, cat, claim, devices, n).total > l.total
    ensures CountDevices(l, cat, claim, devices, n).total == l.total ==> CountDevices(l, cat, claim, devices, n) == l
  {
    if n > 0 {
      CountsDevice(l, cat, claim, devices, n - 1);
    }
  }

  lemma {:induction false} CountsClaims(l: Ledger, cat: Catalog, prepared: PreparedClaims, order: seq<string>)
    requires forall c :: c in order ==> c in prepared
    ensures var m := CountClaims(l, cat, prepared, order);
            && m.total >= l.total && m.memoryMode == l.memoryMode && m.computeModes == l.computeModes
            && m.taints == l.taints
    ensures (exists c :: c in order && HasPartition(cat, prepared[c]))
              <==> CountClaims(l, cat, prepared, order).total > l.total
    ensures CountClaims(l, cat, prepared, order).total == l.total ==> CountClaims(l, cat, prepared, order) == l
  {
    if order != [] {
      var front, last := order[..|order| - 1], order[|order| - 1];
      CountsClaims(l, cat, prepared, front);
      var m := CountClaims(l, cat, prepared, front);
      CountsDevice(m, cat, last, prepared[last], |prepared[last]|);
      assert forall c :: c in order <==> c in front || c == last;
    }
  }

  /** Exactly when recovery is sound. A checkpoint holds a snapshot of some sound ledger beside
      the prepared claims. Reading it back gives that ledger again, except that a snapshot
      without slots is mistaken for an old checkpoint as soon as any prepared claim has a
      partition device. */
  lemma RecoveryIsSoundIff(l: Ledger, cat: Catalog, plan: string -> seq<Share>, reload: Option<string>,
                           prepared: PreparedClaims)
    requires Sound(l, cat, plan) && PlanOk(cat, plan) && OrderOk(cat)
    ensures var m := Recover(cat, Fields(l, reload), prepared);
            && (Sound(m, cat, plan) <==> l.slots != map[] || !PreparedPartition(cat, prepared))
            && (Sound(m, cat, plan) ==> m == l.(claims := Partitioned(plan, l.claims)))
  {
    if l.slots != map[] {
      FromSlotsIsTheLedger(l, cat, plan, reload);
      SoundWithout(l, cat, plan);
    } else {
      EmptySnapshot(l, cat, plan, reload, prepared);
    }
  }

  lemma EmptySnapshot(l: Ledger, cat: Catalog, plan: string -> seq<Share>, reload: Option<string>,
                      prepared: PreparedClaims)
    requires Sound(l, cat, plan) && PlanOk(cat, plan) && OrderOk(cat) && l.slots == map[]
    ensures var m := Recover(cat, Fields(l, reload), prepared);
            && (Sound(m, cat, plan) <==> !PreparedPartition(cat, prepared))
            && (Sound(m, cat, plan) ==> m == l.(claims := Partitioned(plan, l.claims)))
  {
    var f := Fields(l, reload);
    var order := cat.order(prepared.Keys);
    var start := Uncounted(cat, f);
    CountsClaims(start, cat, prepared, order);
    NothingHeldIn(l.slots);
    assert CountsOf(l.slots) == map[];
    assert l.computeModes == map[];
    assert Partitioned(plan, l.claims) == {} by {
      forall c | c in l.claims
        ensures plan(c) == []
      {
        HeldClaimIsHeld(l, cat, plan, c);
      }
    }
    assert start == l.(claims := {});
    SoundWithout(l, cat, plan);
    var m := Recover(cat, f, prepared);
    if Sound(m, cat, plan) {
      NoneHeldIffEmpty(m.slots);
    }
  }

  // ---------- a checkpoint from before slots were persisted ----------

  /** The shares Unprepare releases for the first n prepared devices of a claim. A device
      recorded without a share key gets the positional one. */
  function SharesOfPrepared(cat: Catalog, claim: string, devices: seq<PreparedDevice>, n: nat): seq<Share>
    requires n <= |devices|
  {
    if n == 0 then []
    else
      var before, d := SharesOfPrepared(cat, claim, devices, n - 1), devices[n - 1];
      if d.device !in cat.synth then before
      else before + [Share(d.device, if d.key == "" then cat.positional(claim, n - 1, d.device) else d.key)]
  }

  /** The modes in the checkpoint are those of the share's device. */
  predicate InMode(cat: Catalog, f: PartitionFields, share: Share) {
    && cat.parse(share.device).Some?
    && var d := cat.parse(share.device).value;
       d.gpu in f.computeModes && d == PartitionName(d.gpu, f.computeModes[d.gpu], f.memoryMode)
  }

  /** A checkpoint of an older driver: no slots, no share keys, and modes that belong to the
      prepared partition devices and to nothing else. */
  ghost predicate Legacy(cat: Catalog, plan: string -> seq<Share>, f: PartitionFields, prepared: PreparedClaims) {
    && f.slots == map[]
    && (forall c, i :: c in prepared && 0 <= i < |prepared[c]| ==>
          prepared[c][i].key == "" && (cat.parse(prepared[c][i].device).Some? <==> prepared[c][i].device in cat.synth))
    && (forall c :: c in prepared ==> plan(c) == SharesOfPrepared(cat, c, prepared[c], |prepared[c]|))
    && (forall c, s :: c in prepared && s in plan(c) ==> InMode(cat, f, s))
    && (forall g :: g in f.computeModes ==> exists c, s :: c in prepared && s in plan(c) && GpuOf(cat, s) == g)
    && (f.memoryMode == "" <==> f.computeModes == map[])
  }

  /** The counters agree with the slots, and the slots hold exactly these shares. */
  ghost predicate Counted(cat: Catalog, f: PartitionFields, l: Ledger, held: set<(int, string)>) {
    && SlotsValid(l.slots) && Held(l.slots) == held
    && l.counts == CountsOf(l.slots) && l.total == |Held(l.slots)|
    && l.memoryMode == f.memoryMode && l.computeModes == f.computeModes
    && l.taints == TaintsFor(cat.synth, f.memoryMode)
    && Dense(l.slots)
  }

  /** The slots of a GPU are the first ones: there are no gaps between them. */
  ghost predicate Dense(slots: Slots) {
    forall g :: Below(slots, g, |Inner(slots, g)|)
  }

  lemma StaysDense(slots: Slots, gpu: int, key: string)
    requires Dense(slots) && !Holds(slots, gpu, key)
    ensures Dense(Put(slots, gpu, key, NextSlot(slots, gpu)))
  {
    hide Below;
    var after := Put(slots, gpu, key, NextSlot(slots, gpu));
    SizeAfterUpdate(Inner(slots, gpu), key, NextSlot(slots, gpu));
    forall g
      ensures Below(after, g, |Inner(after, g)|)
    {
      assert Below(slots, g, |Inner(slots, g)|);
      AtLeast(slots, g, |Inner(slots, g)|, |Inner(after, g)|);
      PutBelow(slots, gpu, key, g, |Inner(after, g)|);
    }
  }

  lemma AtLeast(slots: Slots, gpu: int, n: nat, m: nat)
    requires Below(slots, gpu, n) && n <= m
    ensures Below(slots, gpu, m)
  {
  }

  lemma CountOne(cat: Catalog, f: PartitionFields, l: Ledger, held: set<(int, string)>, gpu: int, key: string)
    requires Counted(cat, f, l, held) && (gpu, key) !in held
    ensures Counted(cat, f, Count(l, gpu, key), held + {(gpu, key)})
  {
    hide Held, SlotsValid, CountsOf, Put, NextSlot, TaintsFor, Dense;
    HeldIff(l.slots, gpu, key);
    StaysDense(l.slots, gpu, key);
    HeldAfterPut(l.slots, gpu, key, NextSlot(l.slots, gpu));
    AssignKeepsSlotsValid(l.slots, gpu, key);
    PutCounts(l.slots, gpu, key, NextSlot(l.slots, gpu));
  }

  lemma {:induction false} PreparedPrefix(cat: Catalog, claim: string, devices: seq<PreparedDevice>, n: nat)
    requires n <= |devices|
    ensures var all, some := SharesOfPrepared(cat, claim, devices, |devices|), SharesOfPrepared(cat, claim, devices, n);
            |some| <= |all| && some == all[..|some|]
    decreases |devices| - n
  {
    if n < |devices| {
      PreparedPrefix(cat, claim, devices, n + 1);
    }
  }

  ghost predicate NoKeys(cat: Catalog, devices: seq<PreparedDevice>) {
    forall i :: 0 <= i < |devices| ==>
      devices[i].key == "" && (cat.parse(devices[i].device).Some? <==> devices[i].device in cat.synth)
  }

  lemma {:induction false} CountPrepared(cat: Catalog, f: PartitionFields, l: Ledger, held: set<(int, string)>,
                                        claim: string, devices: seq<PreparedDevice>, n: nat)
    requires n <= |devices| && NoKeys(cat, devices) && Counted(cat, f, l, held)
    requires SharesOf(cat, claim, SharesOfPrepared(cat, claim, devices, |devices|))
    requires Pairs(cat, SharesOfPrepared(cat, claim, devices, |devices|)) !! held
    ensures Counted(cat, f, CountDevices(l, cat, claim, devices, n),
              held + Pairs(cat, SharesOfPrepared(cat, claim, devices, n)))
    ensures CountDevices(l, cat, claim, devices, n).claims == l.claims
  {
    hide Counted, SharesOf, Pairs;
    if n == 0 {
      NoPairs(cat, []);
      assert held + {} == held;
    } else {
      CountPrepared(cat, f, l, held, claim, devices, n - 1);
      if devices[n - 1].device in cat.synth {
        CountNext(cat, f, CountDevices(l, cat, claim, devices, n - 1), held, claim, devices, n);
      }
    }
  }

  lemma CountNext(cat: Catalog, f: PartitionFields, m: Ledger, held: set<(int, string)>,
                  claim: string, devices: seq<PreparedDevice>, n: nat)
    requires 0 < n <= |devices| && NoKeys(cat, devices) && devices[n - 1].device in cat.synth
    requires SharesOf(cat, claim, SharesOfPrepared(cat, claim, devices, |devices|))
    requires Pairs(cat, SharesOfPrepared(cat, claim, devices, |devices|)) !! held
    requires Counted(cat, f, m, held + Pairs(cat, SharesOfPrepared(cat, claim, devices, n - 1)))
    ensures var d := devices[n - 1].device;
            && cat.parse(d).Some?
            && Counted(cat, f, Count(m, cat.parse(d).value.gpu, cat.positional(claim, n - 1, d)),
                       held + Pairs(cat, SharesOfPrepared(cat, claim, devices, n)))
  {
    hide Counted, SharesOf, Pairs, Count;
    var all, before := SharesOfPrepared(cat, claim, devices, |devices|), SharesOfPrepared(cat, claim, devices, n - 1);
    PreparedPrefix(cat, claim, devices, n);
    var k := |before|;
    assert all[..k + 1] == SharesOfPrepared(cat, claim, devices, n) && all[..k] == before;
    assert all[k] == SharesOfPrepared(cat, claim, devices, n)[k];
    PairsGrow(cat, all, k);
    PairIsNew(cat, claim, all, k);
    PairInAll(cat, all, k);
    CountOne(cat, f, m, held + Pairs(cat, before), GpuOf(cat, all[k]), all[k].key);
    assert held + Pairs(cat, before) + {PairOf(cat, all[k])} == held + Pairs(cat, all[..k + 1]);
  }

  lemma PairInAll(cat: Catalog, shares: seq<Share>, k: nat)
    requires k < |shares|
    ensures PairOf(cat, shares[k]) in Pairs(cat, shares)
  {
  }

  lemma {:induction false} PartitionGivesShare(cat: Catalog, claim: string, devices: seq<PreparedDevice>, n: nat)
    requires n <= |devices| && NoKeys(cat, devices)
    ensures SharesOfPrepared(cat, claim, devices, n) != []
            <==> exists i :: 0 <= i < n && cat.parse(devices[i].device).Some?
  {
    if n > 0 {
      PartitionGivesShare(cat, claim, devices, n - 1);
    }
  }

  lemma {:induction false} CountAllPrepared(cat: Catalog, plan: string -> seq<Share>, f: PartitionFields,
                                            prepared: PreparedClaims, order: seq<string>)
    requires PlanOk(cat, plan) && Legacy(cat, plan, f, prepared) && Counted(cat, f, Uncounted(cat, f), {})
    requires (forall c :: c in order ==> c in prepared) && forall i, j :: 0 <= i < j < |order| ==> order[i] != order[j]
    ensures var m, claims := CountClaims(Uncounted(cat, f), cat, prepared, order), set c | c in order;
            && Counted(cat, f, m, AllPairs(cat, plan, claims))
            && m.claims == Partitioned(plan, claims)
  {
    hide Counted, Legacy, PlanOk, CountClaim;
    if order == [] {
      assert (set c | c in order) == {};
      assert AllPairs(cat, plan, {}) == {} && Partitioned(plan, {}) == {};
    } else {
      var front, last := order[..|order| - 1], order[|order| - 1];
      CountAllPrepared(cat, plan, f, prepared, front);
      assert (set c | c in order) == (set c | c in front) + {last};
      CountNextClaim(cat, plan, f, prepared, (set c | c in front), last,
                     CountClaims(Uncounted(cat, f), cat, prepared, front));
    }
  }

  lemma CountNextClaim(cat: Catalog, plan: string -> seq<Share>, f: PartitionFields, prepared: PreparedClaims,
                       done: set<string>, claim: string, m: Ledger)
    requires PlanOk(cat, plan) && Legacy(cat, plan, f, prepared) && claim in prepared && claim !in done
    requires Counted(cat, f, m, AllPairs(cat, plan, done)) && m.claims == Partitioned(plan, done)
    ensures var r := CountClaim(m, cat, claim, prepared[claim]);
            && Counted(cat, f, r, AllPairs(cat, plan, done + {claim}))
            && r.claims == Partitioned(plan, done + {claim})
  {
    hide Counted, SharesOf, Pairs, AllPairs, CountDevices;
    var devices := prepared[claim];
    PlansAreDisjoint(cat, plan, claim, done);
    assert SharesOf(cat, claim, plan(claim));
    assert NoKeys(cat, devices);
    CountPrepared(cat, f, m, AllPairs(cat, plan, done), claim, devices, |devices|);
    PartitionGivesShare(cat, claim, devices, |devices|);
    MarkersDoNotCount(cat, f, CountDevices(m, cat, claim, devices, |devices|),
                      AllPairs(cat, plan, done + {claim}), m.claims + {claim});
  }

  lemma MarkersDoNotCount(cat: Catalog, f: PartitionFields, l: Ledger, held: set<(int, string)>, claims: set<string>)
    requires Counted(cat, f, l, held)
    ensures Counted(cat, f, l.(claims := claims), held)
  {
  }

  /** Recovery from an older checkpoint gives a sound ledger that holds, for every prepared
      claim, exactly the shares its Unprepare will list. The slots it makes up leave no gaps, so no
      slot of a GPU reaches the number of its shares. */
  lemma LegacyRecovers(cat: Catalog, plan: string -> seq<Share>, f: PartitionFields, prepared: PreparedClaims)
    requires PlanOk(cat, plan) && OrderOk(cat) && Legacy(cat, plan, f, prepared)
    ensures var m := Recover(cat, f, prepared);
            Sound(m, cat, plan) && m.claims == Partitioned(plan, prepared.Keys) && Dense(m.slots)
  {
    var order := cat.order(prepared.Keys);
    NothingHeldIn(map[]);
    assert Counted(cat, f, Uncounted(cat, f), {});
    CountAllPrepared(cat, plan, f, prepared, order);
    assert (set c | c in order) == prepared.Keys;
    assert AllPairs(cat, plan, prepared.Keys) == AllPairs(cat, plan, Partitioned(plan, prepared.Keys)) by {
      PartitionedHoldsAll(cat, plan, prepared.Keys);
    }
    CountedIsValid(cat, plan, f, prepared, Recover(cat, f, prepared));
  }

  /** Once every recovered claim has been unprepared, and every later claim too, in whatever
      order, nothing of the older checkpoint is left. */
  lemma LegacyDrains(cat: Catalog, plan: string -> seq<Share>, f: PartitionFields, prepared: PreparedClaims,
                     calls: seq<Call>)
    requires PlanOk(cat, plan) && OrderOk(cat) && Legacy(cat, plan, f, prepared)
    requires forall i :: 0 <= i < |calls| ==> CallOk(cat, plan, calls[i])
    requires After(Recover(cat, f, prepared), cat, plan, calls).claims == {}
    ensures After(Recover(cat, f, prepared), cat, plan, calls) == EMPTY_LEDGER
  {
    LegacyRecovers(cat, plan, f, prepared);
    EveryRunIsSound(Recover(cat, f, prepared), cat, plan, calls);
  }

  lemma PartitionedHoldsAll(cat: Catalog, plan: string -> seq<Share>, claims: set<string>)
    ensures AllPairs(cat, plan, Partitioned(plan, claims)) == AllPairs(cat, plan, claims)
  {
  }

  lemma CountedIsValid(cat: Catalog, plan: string -> seq<Share>, f: PartitionFields, prepared: PreparedClaims,
                       l: Ledger)
    requires PlanOk(cat, plan) && Legacy(cat, plan, f, prepared)
    requires Counted(cat, f, l, AllPairs(cat, plan, prepared.Keys))
    ensures Valid(l, cat)
  {
    forall g, k | Holds(l.slots, g, k)
      ensures g in f.computeModes && NameOf(cat, k) == Some(PartitionName(g, f.computeModes[g], f.memoryMode))
    {
      HeldIff(l.slots, g, k);
      HeldIsInMode(cat, plan, f, prepared, (g, k));
    }
    forall g | g in l.slots
      ensures g in f.computeModes
    {
      var k := HeldKey(l.slots, g);
    }
    forall g | g in f.computeModes
      ensures g in l.slots
    {
      var c, s :| c in prepared && s in plan(c) && GpuOf(cat, s) == g;
      assert PairOf(cat, s) in Pairs(cat, plan(c));
      HeldIff(l.slots, g, s.key);
    }
    assert l.slots.Keys == f.computeModes.Keys;
  }

  lemma HeldIsInMode(cat: Catalog, plan: string -> seq<Share>, f: PartitionFields, prepared: PreparedClaims,
                     p: (int, string))
    requires PlanOk(cat, plan) && Legacy(cat, plan, f, prepared) && p in AllPairs(cat, plan, prepared.Keys)
    ensures p.0 in f.computeModes && NameOf(cat, p.1) == Some(PartitionName(p.0, f.computeModes[p.0], f.memoryMode))
  {
    var c :| c in prepared.Keys && p in Pairs(cat, plan(c));
    var s :| s in plan(c) && PairOf(cat, s) == p;
    assert SharesOf(cat, c, plan(c));
    assert InMode(cat, f, s);
  }
}
