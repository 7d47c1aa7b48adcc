/**
 The reservation ledger, as a value.

 `Reserve` and `Release` are the source's two elementary updates with all their redundant
 bookkeeping. `Valid` says what the redundancy must agree on, and `Determined` that a valid
 ledger is fixed by its slots and its claims alone.
 */
module Ledgers {
  import opened Wrappers
  import opened DeviceNames
  import opened ShareKeys

  type Slots = map<int, map<string, nat>>

  datatype Share = Share(device: string, key: string)

  /** What the ledger knows about names. Its bookkeeping is proved for any way of reading them;
      module `Naming` supplies the driver's own. */
  datatype Catalog = Catalog(
    synth: map<string, string>,                    // synthetic device -> memory mode
    parse: string -> Option<PartitionName>,        // read a device name
    split: string -> Option<KeyParts>,             // read a share key
    cut: string -> Option<string>,                 // the part of a share key before its first slash
    positional: (string, nat, string) -> string,   // the key of a device recovered without one
    order: set<string> -> seq<string>)             // the order in which claims are recovered
  {
    function DeviceOf(key: string): string {
      if split(key).Some? then split(key).value.device else ""
    }

    function ClaimOf(key: string): string {
      if cut(key).Some? then cut(key).value else ""
    }
  }

  datatype Ledger = Ledger(
    memoryMode: string,            // "" when the node is unlocked
    computeModes: map<int, string>,
    counts: map<int, nat>,
    slots: Slots,
    total: nat,
    claims: set<string>,
    taints: map<string, string>)   // device -> taint value, absent when untainted

  const EMPTY_LEDGER := Ledger("", map[], map[], map[], 0, {}, map[])

  /** What an update reports, with the ledger it leaves. */
  datatype Outcome = Outcome(ok: bool, ledger: Ledger, taintsChanged: bool)

  /** Every device of another memory mode, tainted with the active one. */
  function Stamped(synth: map<string, string>, mode: string): map<string, string> {
    map d | d in synth && synth[d] != mode :: mode
  }

  function TaintsFor(synth: map<string, string>, mode: string): map<string, string> {
    if mode == "" then map[] else Stamped(synth, mode)
  }

  predicate IsCompatibleMemoryMode(active: string, requested: string) {
    active == "" || active == requested
  }

  // ---------- slots ----------

  predicate Holds(slots: Slots, gpu: int, key: string) {
    gpu in slots && key in slots[gpu]
  }

  function Inner(slots: Slots, gpu: int): map<string, nat> {
    if gpu in slots then slots[gpu] else map[]
  }

  /** The smallest number that is not taken. */
  function LeastFree(taken: set<nat>): (slot: nat)
    ensures slot !in taken && slot <= |taken|
    ensures forall s: nat :: s < slot ==> s in taken
  {
    FirstFree(taken, 0)
  }

  function FirstFree(taken: set<nat>, from: nat): (slot: nat)
    requires from <= |taken| && forall s: nat :: s < from ==> s in taken
    ensures slot !in taken && slot <= |taken|
    ensures forall s: nat :: s < slot ==> s in taken
    decreases |taken| - from
  {
    if from !in taken then from
    else
      assert from < |taken| by {
        AllTakenBelow(taken, from + 1);
      }
      FirstFree(taken, from + 1)
  }

  lemma AllTakenBelow(taken: set<nat>, n: nat)
    requires forall s: nat :: s < n ==> s in taken
    ensures n <= |taken|
  {
    if n > 0 {
      AllTakenBelow(taken - {n - 1}, n - 1);
    }
  }

  /** The slot the next share on this GPU is given. */
  function NextSlot(slots: Slots, gpu: int): nat {
    LeastFree(Inner(slots, gpu).Values)
  }

  function Put(slots: Slots, gpu: int, key: string, slot: nat): Slots {
    slots[gpu := Inner(slots, gpu)[key := slot]]
  }

  function AssignSlot(slots: Slots, gpu: int, key: string): Slots {
    if Holds(slots, gpu, key) then slots else Put(slots, gpu, key, NextSlot(slots, gpu))
  }

  function ReleaseSlot(slots: Slots, gpu: int, key: string): Slots {
    if gpu !in slots then slots
    else if slots[gpu] - {key} == map[] then slots - {gpu}
    else slots[gpu := slots[gpu] - {key}]
  }

  // ---------- elementary updates ----------

  function CountOf(l: Ledger, gpu: int): nat {
    if gpu in l.counts then l.counts[gpu] else 0
  }

  function Reserve(l: Ledger, cat: Catalog, share: Share): Outcome {
    match cat.parse(share.device)
    case None => Outcome(false, l, false)
    case Some(d) =>
      if d.gpu in l.computeModes && l.computeModes[d.gpu] != d.compute then Outcome(false, l, false)
      else if !IsCompatibleMemoryMode(l.memoryMode, d.memory) then Outcome(false, l, false)
      else
        var first := l.memoryMode == "";
        Outcome(true,
                l.(memoryMode := d.memory,
                   computeModes := l.computeModes[d.gpu := d.compute],
                   counts := l.counts[d.gpu := CountOf(l, d.gpu) + 1],
                   slots := AssignSlot(l.slots, d.gpu, share.key),
                   total := l.total + 1,
                   taints := if first then Stamped(cat.synth, d.memory) else l.taints),
                first)
  }

  function Release(l: Ledger, cat: Catalog, share: Share): Outcome {
    match cat.parse(share.device)
    case None => Outcome(false, l, false)
    case Some(d) =>
      var count := if CountOf(l, d.gpu) > 0 then CountOf(l, d.gpu) - 1 else 0;
      var total := if l.total > 0 then l.total - 1 else 0;
      Outcome(true,
              l.(memoryMode := if total == 0 then "" else l.memoryMode,
                 computeModes := if count == 0 then l.computeModes - {d.gpu} else l.computeModes,
                 counts := if count == 0 then l.counts - {d.gpu} else l.counts[d.gpu := count],
                 slots := ReleaseSlot(l.slots, d.gpu, share.key),
                 total := total,
                 taints := if total == 0 then map[] else l.taints),
              total == 0)
  }

  // ---------- claims ----------

  /** Reserve the first n shares; a conflict releases the ones before it again. */
  function ReserveUpTo(l: Ledger, cat: Catalog, shares: seq<Share>, n: nat): Outcome
    requires n <= |shares|
  {
    if n == 0 then Outcome(true, l, false)
    else
      var before := ReserveUpTo(l, cat, shares, n - 1);
      if !before.ok then before
      else
        var r := Reserve(before.ledger, cat, shares[n - 1]);
        if r.ok then r.(taintsChanged := before.taintsChanged || r.taintsChanged)
        else Outcome(false, RollBack(r.ledger, cat, shares, n - 1), false)
  }

  /** Release the first n shares, going on after a release that fails. */
  function RollBack(l: Ledger, cat: Catalog, shares: seq<Share>, n: nat): Ledger
    requires n <= |shares|
  {
    if n == 0 then l else Release(RollBack(l, cat, shares, n - 1), cat, shares[n - 1]).ledger
  }

  /** Release the first n shares, stopping at a release that fails. */
  function ReleaseUpTo(l: Ledger, cat: Catalog, shares: seq<Share>, n: nat): Outcome
    requires n <= |shares|
  {
    if n == 0 then Outcome(true, l, false)
    else
      var before := ReleaseUpTo(l, cat, shares, n - 1);
      if !before.ok then before
      else
        var r := Release(before.ledger, cat, shares[n - 1]);
        r.(taintsChanged := before.taintsChanged || r.taintsChanged)
  }

  function ReserveClaim(l: Ledger, cat: Catalog, claim: string, shares: seq<Share>): Outcome {
    if claim in l.claims then Outcome(true, l, false)
    else
      var r := ReserveUpTo(l, cat, shares, |shares|);
      if r.ok then r.(ledger := r.ledger.(claims := r.ledger.claims + {claim})) else r
  }

  function ReleaseClaim(l: Ledger, cat: Catalog, claim: string, shares: seq<Share>): Outcome {
    if claim !in l.claims then Outcome(true, l, false)
    else
      var r := ReleaseUpTo(l, cat, shares, |shares|);
      if r.ok then r.(ledger := r.ledger.(claims := r.ledger.claims - {claim})) else r
  }

  // ---------- what the bookkeeping must agree on ----------

  function NameOf(cat: Catalog, key: string): Option<PartitionName> {
    cat.parse(cat.DeviceOf(key))
  }

  /** The share's key names the device it is a share of. */
  predicate WellKeyed(cat: Catalog, share: Share) {
    && cat.parse(share.device).Some? && cat.parse(share.device).value.memory != ""
    && cat.DeviceOf(share.key) == share.device
  }

  function GpuOf(cat: Catalog, share: Share): int {
    if cat.parse(share.device).Some? then cat.parse(share.device).value.gpu else 0
  }

  function PairOf(cat: Catalog, share: Share): (int, string) {
    (GpuOf(cat, share), share.key)
  }

  ghost function Pairs(cat: Catalog, shares: seq<Share>): set<(int, string)> {
    set s | s in shares :: PairOf(cat, s)
  }

  ghost predicate Injective(m: map<string, nat>) {
    forall a, b :: a in m && b in m && a != b ==> m[a] != m[b]
  }

  ghost predicate SlotsValid(slots: Slots) {
    && (forall g :: g in slots ==> slots[g] != map[])
    && (forall g :: g in slots ==> Injective(slots[g]))
  }

  ghost predicate KeysMatchModes(cat: Catalog, slots: Slots, computeModes: map<int, string>, memoryMode: string) {
    && computeModes.Keys == slots.Keys
    && forall g, k :: Holds(slots, g, k) ==> NameOf(cat, k) == Some(PartitionName(g, computeModes[g], memoryMode))
  }

  function CountsOf(slots: Slots): map<int, nat> {
    map g | g in slots :: |slots[g]|
  }

  ghost function Held(slots: Slots): set<(int, string)> {
    set g, k | g in slots && k in slots[g] :: (g, k)
  }

  ghost predicate Valid(l: Ledger, cat: Catalog) {
    && SlotsValid(l.slots)
    && KeysMatchModes(cat, l.slots, l.computeModes, l.memoryMode)
    && (l.memoryMode == "" <==> l.slots == map[])
    && l.counts == CountsOf(l.slots)
    && l.total == |Held(l.slots)|
    && l.taints == TaintsFor(cat.synth, l.memoryMode)
  }

  lemma HeldKey(slots: Slots, g: int) returns (k: string)
    requires g in slots && slots[g] != map[]
    ensures Holds(slots, g, k)
  {
    assert slots[g].Keys != {};
    k := Pick(slots[g].Keys);
  }

  lemma HeldShare(slots: Slots) returns (g: int, k: string)
    requires slots != map[] && SlotsValid(slots)
    ensures Holds(slots, g, k)
  {
    assert slots.Keys != {};
    g := Pick(slots.Keys);
    k := HeldKey(slots, g);
  }

  /** The shares both hold have the same slot in both. */
  ghost predicate Agree(a: Slots, b: Slots) {
    forall g, k :: Holds(a, g, k) && Holds(b, g, k) ==> a[g][k] == b[g][k]
  }

  lemma SameSlots(a: Slots, b: Slots)
    requires SlotsValid(a) && SlotsValid(b) && Held(a) == Held(b) && Agree(a, b)
    ensures a == b
  {
    forall g, k
      ensures Holds(a, g, k) <==> Holds(b, g, k)
    {
      HeldIff(a, g, k);
      HeldIff(b, g, k);
    }
    forall g | g in a
      ensures g in b
    {
      var k := HeldKey(a, g);
    }
    forall g | g in b
      ensures g in a
    {
      var k := HeldKey(b, g);
    }
    forall g | g in a
      ensures a[g] == b[g]
    {
      assert forall k :: k in a[g] <==> Holds(a, g, k);
      assert forall k :: k in b[g] <==> Holds(b, g, k);
    }
  }

  /** Two valid ledgers with the same slots and claims are the same ledger: modes, counters and
      taints carry no information of their own. */
  lemma Determined(a: Ledger, b: Ledger, cat: Catalog)
    requires Valid(a, cat) && Valid(b, cat) && a.slots == b.slots && a.claims == b.claims
    ensures a == b
  {
    forall g | g in a.slots
      ensures a.computeModes[g] == b.computeModes[g]
    {
      var k := HeldKey(a.slots, g);
    }
    if a.slots != map[] {
      var g, k := HeldShare(a.slots);
    }
  }

  // ---------- counting held shares ----------

  lemma HeldIff(slots: Slots, g: int, k: string)
    ensures (g, k) in Held(slots) <==> Holds(slots, g, k)
  {
  }

  lemma HoldsAfterPut(slots: Slots, gpu: int, key: string, slot: nat, g: int, k: string)
    ensures Holds(Put(slots, gpu, key, slot), g, k) <==> Holds(slots, g, k) || (g == gpu && k == key)
  {
  }

  lemma HoldsAfterRelease(slots: Slots, gpu: int, key: string, g: int, k: string)
    ensures Holds(ReleaseSlot(slots, gpu, key), g, k) <==> Holds(slots, g, k) && !(g == gpu && k == key)
    ensures Holds(ReleaseSlot(slots, gpu, key), g, k) ==> ReleaseSlot(slots, gpu, key)[g][k] == slots[g][k]
  {
    if Holds(slots, g, k) && g == gpu && k != key {
      assert k in slots[gpu] - {key};
    }
  }

  lemma HeldAfterPut(slots: Slots, gpu: int, key: string, slot: nat)
    requires !Holds(slots, gpu, key)
    ensures Held(Put(slots, gpu, key, slot)) == Held(slots) + {(gpu, key)}
    ensures |Held(Put(slots, gpu, key, slot))| == |Held(slots)| + 1
    ensures Agree(slots, Put(slots, gpu, key, slot))
  {
    var after := Put(slots, gpu, key, slot);
    forall p: (int, string)
      ensures p in Held(after) <==> p in Held(slots) + {(gpu, key)}
    {
      HeldIff(after, p.0, p.1);
      HeldIff(slots, p.0, p.1);
      HoldsAfterPut(slots, gpu, key, slot, p.0, p.1);
    }
    HeldIff(slots, gpu, key);
  }

  lemma HeldAfterRelease(slots: Slots, gpu: int, key: string)
    requires Holds(slots, gpu, key)
    ensures Held(ReleaseSlot(slots, gpu, key)) == Held(slots) - {(gpu, key)}
    ensures |Held(ReleaseSlot(slots, gpu, key))| == |Held(slots)| - 1
    ensures Agree(slots, ReleaseSlot(slots, gpu, key))
  {
    var after := ReleaseSlot(slots, gpu, key);
    forall p: (int, string)
      ensures p in Held(after) <==> p in Held(slots) - {(gpu, key)}
    {
      HeldIff(after, p.0, p.1);
      HeldIff(slots, p.0, p.1);
      HoldsAfterRelease(slots, gpu, key, p.0, p.1);
    }
    HeldIff(slots, gpu, key);
  }

  /** The total is also the sum of the per-GPU counts. */
  ghost function Sum(counts: map<int, nat>): nat
    decreases counts.Keys
  {
    if counts.Keys == {} then 0
    else
      var g := Pick(counts.Keys);
      counts[g] + Sum(counts - {g})
  }

  lemma {:induction false} SumOfCountsIsHeld(slots: Slots)
    ensures Sum(CountsOf(slots)) == |Held(slots)|
    decreases slots.Keys
  {
    var counts := CountsOf(slots);
    if counts.Keys == {} {
      assert slots.Keys == counts.Keys;
      assert Held(slots) == {};
    } else {
      var g := Pick(counts.Keys);
      SumOfCountsIsHeld(slots - {g});
      assert counts - {g} == CountsOf(slots - {g});
      HeldBesides(slots, g);
    }
  }

  lemma HeldBesides(slots: Slots, g: int)
    requires g in slots
    ensures |Held(slots)| == |slots[g]| + |Held(slots - {g})|
  {
    var rest, mine := Held(slots - {g}), set k | k in slots[g].Keys :: (g, k);
    PairsWith(g, slots[g].Keys);
    forall p: (int, string)
      ensures p in Held(slots) <==> p in rest + mine
    {
      HeldIff(slots, p.0, p.1);
      HeldIff(slots - {g}, p.0, p.1);
    }
    assert Held(slots) == rest + mine && rest !! mine;
  }

  lemma PairsWith(g: int, keys: set<string>)
    ensures |set k | k in keys :: (g, k)| == |keys|
    decreases keys
  {
    var pairs := set k | k in keys :: (g, k);
    if keys != {} {
      var key :| key in keys;
      PairsWith(g, keys - {key});
      assert pairs == (set k | k in keys - {key} :: (g, k)) + {(g, key)};
    }
  }

  // ---------- one share ----------

  /** Two partitions that cannot exist on the node at once. */
  predicate Clash(a: PartitionName, b: PartitionName) {
    a.memory != b.memory || (a.gpu == b.gpu && a.compute != b.compute)
  }

  /** A device can be reserved beside the held shares. */
  ghost predicate Fits(cat: Catalog, slots: Slots, d: PartitionName) {
    forall g, k :: Holds(slots, g, k) ==> NameOf(cat, k).Some? && !Clash(NameOf(cat, k).value, d)
  }

  lemma ReserveOne(l: Ledger, cat: Catalog, share: Share)
    requires Valid(l, cat) && WellKeyed(cat, share) && PairOf(cat, share) !in Held(l.slots)
    ensures var r := Reserve(l, cat, share);
            && (r.ok <==> Fits(cat, l.slots, cat.parse(share.device).value))
            && (!r.ok ==> r.ledger == l)
            && (r.ok ==>
                  && Valid(r.ledger, cat)
                  && r.ledger.slots == Put(l.slots, GpuOf(cat, share), share.key, NextSlot(l.slots, GpuOf(cat, share)))
                  && Held(r.ledger.slots) == Held(l.slots) + {PairOf(cat, share)}
                  && Agree(l.slots, r.ledger.slots)
                  && r.ledger.claims == l.claims
                  && (r.taintsChanged <==> l.slots == map[]))
  {
    var d := cat.parse(share.device).value;
    HeldIff(l.slots, d.gpu, share.key);
    ReserveUnfolds(l, cat, share, d);
    if Fits(cat, l.slots, d) {
      HeldAfterPut(l.slots, d.gpu, share.key, NextSlot(l.slots, d.gpu));
      PutIsValid(l, cat, d, share.key);
    }
  }

  /** The ledger after one more share: the redundant fields are updated, not recomputed. */
  function Taken(l: Ledger, cat: Catalog, d: PartitionName, key: string): Ledger {
    l.(memoryMode := d.memory,
       computeModes := l.computeModes[d.gpu := d.compute],
       counts := l.counts[d.gpu := CountOf(l, d.gpu) + 1],
       slots := Put(l.slots, d.gpu, key, NextSlot(l.slots, d.gpu)),
       total := l.total + 1,
       taints := TaintsFor(cat.synth, d.memory))
  }

  lemma PutIsValid(l: Ledger, cat: Catalog, d: PartitionName, key: string)
    requires Valid(l, cat) && Fits(cat, l.slots, d) && NameOf(cat, key) == Some(d) && !Holds(l.slots, d.gpu, key)
    requires d.memory != ""
    ensures Valid(Taken(l, cat, d, key), cat)
  {
    hide Held, SlotsValid, KeysMatchModes, CountsOf, Fits, Put, NextSlot, TaintsFor, Inner;
    var slot := NextSlot(l.slots, d.gpu);
    HeldAfterPut(l.slots, d.gpu, key, slot);
    AssignKeepsSlotsValid(l.slots, d.gpu, key);
    PutCounts(l.slots, d.gpu, key, slot);
    PutMatchesModes(l, cat, d, key, slot);
    OneMore(l, d.gpu);
  }

  lemma OneMore(l: Ledger, gpu: int)
    requires l.counts == CountsOf(l.slots)
    ensures l.counts[gpu := CountOf(l, gpu) + 1] == CountsOf(l.slots)[gpu := |Inner(l.slots, gpu)| + 1]
  {
  }

  lemma ReserveUnfolds(l: Ledger, cat: Catalog, share: Share, d: PartitionName)
    requires Valid(l, cat) && cat.parse(share.device) == Some(d) && d.memory != "" && !Holds(l.slots, d.gpu, share.key)
    ensures Reserve(l, cat, share) ==
            if Fits(cat, l.slots, d) then Outcome(true, Taken(l, cat, d, share.key), l.slots == map[])
            else Outcome(false, l, false)
  {
    ReserveChecksFit(l, cat, d);
  }

  lemma PutMatchesModes(l: Ledger, cat: Catalog, d: PartitionName, key: string, slot: nat)
    requires Valid(l, cat) && Fits(cat, l.slots, d) && NameOf(cat, key) == Some(d)
    ensures KeysMatchModes(cat, Put(l.slots, d.gpu, key, slot), l.computeModes[d.gpu := d.compute], d.memory)
  {
    forall g, k | Holds(Put(l.slots, d.gpu, key, slot), g, k)
      ensures NameOf(cat, k) == Some(PartitionName(g, l.computeModes[d.gpu := d.compute][g], d.memory))
    {
      HoldsAfterPut(l.slots, d.gpu, key, slot, g, k);
    }
  }

  lemma ReserveChecksFit(l: Ledger, cat: Catalog, d: PartitionName)
    requires Valid(l, cat)
    ensures Fits(cat, l.slots, d) <==>
            && !(d.gpu in l.computeModes && l.computeModes[d.gpu] != d.compute)
            && IsCompatibleMemoryMode(l.memoryMode, d.memory)
  {
    if d.gpu in l.slots {
      var k := HeldKey(l.slots, d.gpu);
    }
    if l.slots != map[] {
      var g, k := HeldShare(l.slots);
    }
  }

  lemma AssignKeepsSlotsValid(slots: Slots, gpu: int, key: string)
    requires SlotsValid(slots) && !Holds(slots, gpu, key)
    ensures SlotsValid(Put(slots, gpu, key, NextSlot(slots, gpu)))
  {
    var inner, slot := Inner(slots, gpu), NextSlot(slots, gpu);
    assert forall a :: a in inner ==> inner[a] in inner.Values;
    assert Injective(inner[key := slot]);
    assert key in inner[key := slot];
  }

  lemma PutCounts(slots: Slots, gpu: int, key: string, slot: nat)
    requires !Holds(slots, gpu, key)
    ensures CountsOf(Put(slots, gpu, key, slot)) == CountsOf(slots)[gpu := |Inner(slots, gpu)| + 1]
    ensures Put(slots, gpu, key, slot) != map[]
    ensures |Inner(slots, gpu)| == if gpu in CountsOf(slots) then CountsOf(slots)[gpu] else 0
  {
    var after := Put(slots, gpu, key, slot);
    SizeAfterUpdate(Inner(slots, gpu), key, slot);
    assert gpu in after;
    forall g
      ensures g in CountsOf(after) <==> g in CountsOf(slots)[gpu := |Inner(slots, gpu)| + 1]
      ensures g in after ==> CountsOf(after)[g] == CountsOf(slots)[gpu := |Inner(slots, gpu)| + 1][g]
    {
    }
  }

  lemma SizeAfterUpdate(m: map<string, nat>, key: string, slot: nat)
    requires key !in m
    ensures |m[key := slot]| == |m| + 1
  {
    assert m[key := slot].Keys == m.Keys + {key};
    assert |m[key := slot]| == |m[key := slot].Keys| && |m| == |m.Keys|;
  }

  lemma ReleaseOne(l: Ledger, cat: Catalog, share: Share)
    requires Valid(l, cat) && WellKeyed(cat, share) && PairOf(cat, share) in Held(l.slots)
    ensures var r := Release(l, cat, share);
            && r.ok && Valid(r.ledger, cat)
            && Held(r.ledger.slots) == Held(l.slots) - {PairOf(cat, share)}
            && Agree(l.slots, r.ledger.slots)
            && r.ledger.claims == l.claims
            && (r.taintsChanged <==> r.ledger.slots == map[])
  {
    hide Held, CountsOf, SlotsValid, KeysMatchModes, Agree;
    var d := cat.parse(share.device).value;
    var slots := ReleaseSlot(l.slots, d.gpu, share.key);
    HeldIff(l.slots, d.gpu, share.key);
    HeldAfterRelease(l.slots, d.gpu, share.key);
    ReleaseKeepsSlotsValid(l.slots, d.gpu, share.key);
    ReleaseCounts(l.slots, d.gpu, share.key);
    ReleaseMatchesModes(l, cat, d.gpu, share.key);
    NoneHeldIffEmpty(slots);
    if slots == map[] {
      NothingHeld(cat, slots, Release(l, cat, share).ledger.computeModes, l.memoryMode, "");
    }
  }

  lemma ReleaseMatchesModes(l: Ledger, cat: Catalog, gpu: int, key: string)
    requires Valid(l, cat) && Holds(l.slots, gpu, key)
    ensures var modes := if |l.slots[gpu]| == 1 then l.computeModes - {gpu} else l.computeModes;
            KeysMatchModes(cat, ReleaseSlot(l.slots, gpu, key), modes, l.memoryMode)
  {
    var inner := l.slots[gpu];
    assert (inner - {key}).Keys == inner.Keys - {key};
    assert inner - {key} == map[] <==> |inner - {key}| == 0;
    forall g, k | Holds(ReleaseSlot(l.slots, gpu, key), g, k)
      ensures NameOf(cat, k) == Some(PartitionName(g, l.computeModes[g], l.memoryMode))
    {
      HoldsAfterRelease(l.slots, gpu, key, g, k);
    }
  }

  lemma NothingHeld(cat: Catalog, slots: Slots, computeModes: map<int, string>, a: string, b: string)
    requires KeysMatchModes(cat, slots, computeModes, a) && slots == map[]
    ensures KeysMatchModes(cat, slots, computeModes, b)
  {
  }

  lemma NoneHeldIffEmpty(slots: Slots)
    requires SlotsValid(slots)
    ensures |Held(slots)| == 0 <==> slots == map[]
  {
    if slots != map[] {
      var g, k := HeldShare(slots);
      HeldIff(slots, g, k);
    }
  }

  lemma ReleaseKeepsSlotsValid(slots: Slots, gpu: int, key: string)
    requires SlotsValid(slots)
    ensures SlotsValid(ReleaseSlot(slots, gpu, key))
  {
  }

  lemma ReleaseCounts(slots: Slots, gpu: int, key: string)
    requires SlotsValid(slots) && Holds(slots, gpu, key)
    ensures gpu in CountsOf(slots) && CountsOf(slots)[gpu] == |slots[gpu]| > 0
    ensures var left := |slots[gpu]| - 1;
            CountsOf(ReleaseSlot(slots, gpu, key))
            == if left == 0 then CountsOf(slots) - {gpu} else CountsOf(slots)[gpu := left]
  {
    var inner := slots[gpu];
    assert (inner - {key}).Keys == inner.Keys - {key};
    assert |inner - {key}| == |inner| - 1;
    assert inner - {key} == map[] <==> |inner - {key}| == 0;
  }
}
