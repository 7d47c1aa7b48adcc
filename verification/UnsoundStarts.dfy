/**
 A run without any failed read in which the driver is reloaded under a claim that is in use.

 The plugin starts twice from checkpoints that could not be recovered from. The first start
 recovers a claim under a key made from its position; its Unprepare then releases another key, so
 that the slot of the first one stays, and the second start takes the claim for reserved because
 of it. Preparing the claim from there on neither meets a conflict nor publishes any taints.
 */
module UnsoundStarts {
  import opened Wrappers
  import opened DeviceNames
  import opened ShareKeys
  import opened Ledgers
  import opened Claims
  import opened Recovery
  import opened Naming
  import opened Worlds
  import opened Nodes
  import opened Preparing
  import opened Coherence
  import opened Runs
  import opened Sites
  import opened Witnesses

  // ---------- the ledger ----------

  /** The ledger that is recovered for one prepared device of a claim and no slots, or for one slot
      without modes. */
  function Orphaned(claim: string, gpu: int, key: string): Ledger {
    Ledger("", map[], map[gpu := 1], map[gpu := map[key := 0]], 1, {claim}, map[])
  }

  /** The same ledger, once the claim was released by another key. */
  function Leaked(gpu: int, key: string): Ledger {
    Ledger("", map[], map[], map[gpu := map[key := 0]], 0, {}, map[])
  }

  /** Beside the orphaned slot, another claim holds the first slot of another GPU. */
  function Beside(cat: Catalog, claim: string, gpu: int, key: string, other: string, d: PartitionName, t: Share):
    Ledger
  {
    Ledger(d.memory, map[d.gpu := d.compute], map[gpu := 1, d.gpu := 1],
           map[gpu := map[key := 0], d.gpu := map[t.key := 0]], 2, {claim, other}, Stamped(cat.synth, d.memory))
  }

  lemma RecoveredByPosition(cat: Catalog, claim: string, d: PreparedDevice)
    requires OrderOk(cat) && cat.parse(d.device).Some?
    ensures Recover(cat, Fields(EMPTY_LEDGER, None), map[claim := [d]])
            == Orphaned(claim, cat.parse(d.device).value.gpu, cat.positional(claim, 0, d.device))
  {
    var prepared: PreparedClaims := map[claim := [d]];
    var f := Fields(EMPTY_LEDGER, None);
    OneClaim(cat, claim);
    assert prepared.Keys == {claim};
    var l := Uncounted(cat, f);
    var gpu, key := cat.parse(d.device).value.gpu, cat.positional(claim, 0, d.device);
    FirstSlotOf(map[], gpu, key);
    assert CountDevices(l, cat, claim, [d], 0) == l;
    assert HasPartition(cat, [d]) by {
      assert [d][0] == d;
    }
    assert CountClaims(l, cat, prepared, []) == l;
  }

  lemma OneClaim(cat: Catalog, claim: string)
    requires OrderOk(cat)
    ensures cat.order({claim}) == [claim]
  {
    var listed := cat.order({claim});
    assert claim in listed;
    FirstTwo(listed);
    forall i | 0 <= i < |listed|
      ensures listed[i] == claim
    {
      assert listed[i] in listed;
    }
  }

  lemma FirstTwo(s: seq<string>)
    requires forall i, j :: 0 <= i < j < |s| ==> s[i] != s[j]
    ensures |s| > 1 ==> s[0] != s[1]
  {
  }

  lemma FirstSlotOf(slots: Slots, gpu: int, key: string)
    requires gpu !in slots
    ensures Ledgers.AssignSlot(slots, gpu, key) == slots[gpu := map[key := 0]]
  {
  }

  lemma RecoveredFromSlot(cat: Catalog, claim: string, gpu: int, key: string)
    requires OrderOk(cat) && cat.cut(key) == Some(claim) && claim != ""
    ensures Recover(cat, Fields(Leaked(gpu, key), None), map[]) == Orphaned(claim, gpu, key)
  {
    var slots: Slots := map[gpu := map[key := 0]];
    HeldAfterPut(map[], gpu, key, 0);
    NothingHeldIn(map[]);
    assert Put(map[], gpu, key, 0) == slots;
    assert Held(slots) == {(gpu, key)};
    OneSlot(cat, claim, gpu, key);
  }

  lemma OneSlot(cat: Catalog, claim: string, gpu: int, key: string)
    requires cat.cut(key) == Some(claim) && claim != "" && Held(map[gpu := map[key := 0]]) == {(gpu, key)}
    ensures var slots: Slots := map[gpu := map[key := 0]];
            CountsOf(NonEmpty(slots)) == map[gpu := 1] && ClaimsIn(cat, slots) == {claim} && slots != map[]
  {
    hide Held;
    var slots: Slots := map[gpu := map[key := 0]];
    assert gpu in slots && NonEmpty(slots) == slots;
  }

  /** The release of the real key takes the counters and the claim away, and leaves the slot. */
  lemma ReleasesAnotherKey(cat: Catalog, claim: string, s: Share, key: string)
    requires cat.parse(s.device).Some? && s.key != key
    ensures var gpu := cat.parse(s.device).value.gpu;
            ReleaseClaim(Orphaned(claim, gpu, key), cat, claim, [s]) == Outcome(true, Leaked(gpu, key), true)
  {
    var gpu := cat.parse(s.device).value.gpu;
    var l := Orphaned(claim, gpu, key);
    assert ReleaseUpTo(l, cat, [s], 0) == Outcome(true, l, false);
    var inner: map<string, nat> := map[key := 0];
    assert key in inner && l.slots[gpu] == inner && inner - {s.key} == inner;
    assert ReleaseSlot(l.slots, gpu, s.key) == l.slots;
    assert l.counts - {gpu} == map[] && l.computeModes - {gpu} == map[];
    assert Release(l, cat, s) == Outcome(true, Leaked(gpu, key).(claims := {claim}), true);
    assert {claim} - {claim} == {};
  }

  lemma ReservesBeside(cat: Catalog, claim: string, gpu: int, key: string, other: string, t: Share)
    requires cat.parse(t.device).Some? && cat.parse(t.device).value.gpu != gpu && other != claim
    ensures ReserveClaim(Orphaned(claim, gpu, key), cat, other, [t])
            == Outcome(true, Beside(cat, claim, gpu, key, other, cat.parse(t.device).value, t), true)
  {
    hide Reserve;
    var l := Orphaned(claim, gpu, key);
    assert ReserveUpTo(l, cat, [t], 0) == Outcome(true, l, false);
    ReservesShareBeside(cat, claim, gpu, key, other, t);
    assert {claim} + {other} == {claim, other};
  }

  lemma ReservesShareBeside(cat: Catalog, claim: string, gpu: int, key: string, other: string, t: Share)
    requires cat.parse(t.device).Some? && cat.parse(t.device).value.gpu != gpu
    ensures Reserve(Orphaned(claim, gpu, key), cat, t)
            == Outcome(true,
                       Beside(cat, claim, gpu, key, other, cat.parse(t.device).value, t).(claims := {claim}),
                       true)
  {
    hide AssignSlot, Stamped;
    FirstSlotOf(Orphaned(claim, gpu, key).slots, cat.parse(t.device).value.gpu, t.key);
  }

  // ---------- two claims that clash ----------

  /** Two claims for one partition each, of different memory modes, on the two GPUs of a node. The
      key that the first claim is given by its position is not its own, but it names the claim. */
  ghost predicate Crossed(site: Site, claim: string, other: string) {
    && Usable(site, claim) && Usable(site, other) && claim != other && claim != ""
    && |site.plan(claim)| == 1 && |site.plan(other)| == 1
    && var s, t := site.plan(claim)[0], site.plan(other)[0];
       var d, e := site.cat.parse(s.device), site.cat.parse(t.device);
       && d.Some? && e.Some? && d.value.memory != e.value.memory && d.value.gpu != e.value.gpu
       && site.partitionable == [d.value.gpu, e.value.gpu]
       && s.device in site.cat.synth && site.cat.synth[s.device] == d.value.memory
       && site.cat.positional(claim, 0, s.device) != s.key
       && site.cat.cut(site.cat.positional(claim, 0, s.device)) == Some(claim)
  }

  function KeyByPosition(site: Site, claim: string): string
    requires |site.plan(claim)| == 1
  {
    site.cat.positional(claim, 0, site.plan(claim)[0].device)
  }

  /** The ledger part: after the two starts and the release between them the claim counts as
      reserved, another claim that clashes with it is reserved beside it, and reserving the first
      one again is then granted without a look at the modes and without a change of taints. */
  lemma ClashIsNotSeen(site: Site, claim: string, other: string)
    requires Crossed(site, claim, other)
    ensures OrderOk(site.cat)
    ensures var s, t := site.plan(claim)[0], site.plan(other)[0];
            var disk := EmptiedWorld(site, claim).disk;
            var first := Recover(site.cat, disk.fields, disk.prepared);
            var released := ReleaseClaim(first, site.cat, claim, [s]);
            var second := Recover(site.cat, Fields(released.ledger, None), map[]);
            var reserved := ReserveClaim(second, site.cat, other, [t]);
            && claim in first.claims && released.ok && released.ledger.claims == {} && claim in second.claims
            && reserved.ok && reserved.taintsChanged && claim in reserved.ledger.claims
            && ReserveClaim(reserved.ledger, site.cat, claim, [s]) == Outcome(true, reserved.ledger, false)
            && Clash(site.cat.parse(s.device).value, site.cat.parse(t.device).value)
  {
    hide Recover, ReleaseClaim, Usable;
    UsableInOrder(site, claim);
    EmptiedDisk(site, claim);
    var s, key := site.plan(claim)[0], KeyByPosition(site, claim);
    var gpu := site.cat.parse(s.device).value.gpu;
    RecoveredByPosition(site.cat, claim, EmptiedWorld(site, claim).disk.prepared[claim][0]);
    ReleasesAnotherKey(site.cat, claim, s, key);
    RecoveredFromSlot(site.cat, claim, gpu, key);
    ReservesBeside(site.cat, claim, gpu, key, other, site.plan(other)[0]);
  }

  lemma EmptiedDisk(site: Site, claim: string)
    requires |site.plan(claim)| == 1
    ensures var disk := EmptiedWorld(site, claim).disk;
            && disk.fields == Fields(EMPTY_LEDGER, None) && disk.vfio == map[]
            && claim in disk.prepared && disk.prepared[claim] != []
            && disk.prepared == map[claim := [disk.prepared[claim][0]]]
            && disk.prepared[claim][0].device == site.plan(claim)[0].device
  {
    hide Reserved;
    var devices := DevicesOf(site, claim, Reserved(site, claim).slots);
    assert EmptiedWorld(site, claim).disk.prepared == map[claim := devices];
    assert devices == [devices[0]] && devices[0].device == site.plan(claim)[0].device;
  }

  // ---------- the run ----------

  /** Both starts give this world, up to what the disk holds; nothing is said of its ledger. */
  ghost predicate Started(site: Site, claim: string, w: World) {
    && |site.plan(claim)| == 1
    && w.saved == Orphaned(claim, GpuOf(site.cat, site.plan(claim)[0]), KeyByPosition(site, claim))
    && !w.sane && !w.reloading && !w.misread && w.inUse == {} && w.spoiled == {}
    && w.disk.vfio == map[] && w.drivers == OnDrivers(site)
  }

  /** Without a sane ledger, all that a crash needs are the records of the conversions. */
  lemma InsaneIsDurable(site: Site, w: World)
    requires !w.sane && w.disk.vfio == map[] && w.drivers == OnDrivers(site)
    requires forall c :: c in w.inUse ==> IsPrepared(w.disk.prepared, c)
    ensures Durable(site, w)
  {
    hide LedgerDurable;
    NothingRecorded(site);
  }

  lemma RunsJoin(site: Site, start: World, h: seq<Event>, more: seq<Event>)
    requires Run(site, start, h) && Run(site, WorldAt(start, h, |h|), more)
    ensures Run(site, start, h + more)
    ensures forall i :: 0 <= i <= |more| ==>
              WorldAt(start, h + more, |h| + i) == WorldAt(WorldAt(start, h, |h|), more, i)
  {
    hide Durable, StepOk;
    var all := h + more;
    forall i | 0 <= i < |all|
      ensures Durable(site, all[i].world) && StepOk(site, WorldAt(start, all, i), all[i].step, all[i].world)
    {
      if i >= |h| {
        assert WorldAt(start, all, i) == WorldAt(WorldAt(start, h, |h|), more, i - |h|);
        assert all[i] == more[i - |h|];
      } else {
        assert WorldAt(start, all, i) == WorldAt(start, h, i) && all[i] == h[i];
      }
    }
  }

  // the claim is unprepared after all, and the plugin starts again

  function Cleared(w: World): World {
    w.(published := map[], silent := false)
  }

  function Forgotten(site: Site, claim: string, w: World): World
    requires |site.plan(claim)| == 1
  {
    var l := Leaked(GpuOf(site.cat, site.plan(claim)[0]), KeyByPosition(site, claim));
    Cleared(w).(disk := Checkpoint(map[], Fields(l, None), map[]), saved := l)
  }

  ghost function RetriedRun(site: Site, claim: string, w: World): seq<Event>
    requires OrderOk(site.cat) && |site.plan(claim)| == 1
  {
    var a, b := Cleared(w), Forgotten(site, claim, w);
    [Event(Publish(true), a), Event(Give(claim), a), Event(Publish(true), a), Event(Save(true), b),
     Event(Restart, AfterRestart(site, b)), Event(Publish(true), Cleared(AfterRestart(site, b)))]
  }

  lemma StartedAgain(site: Site, claim: string, other: string, w: World)
    requires Crossed(site, claim, other) && Started(site, claim, w)
    ensures OrderOk(site.cat)
    ensures Started(site, claim, AfterRestart(site, Forgotten(site, claim, w)))
    ensures AfterRestart(site, Forgotten(site, claim, w)).disk == Forgotten(site, claim, w).disk
  {
    hide Usable, Recover;
    UsableInOrder(site, claim);
    var gpu, key := GpuOf(site.cat, site.plan(claim)[0]), KeyByPosition(site, claim);
    RecoveredFromSlot(site.cat, claim, gpu, key);
    OrphanedIsNotSound(site, claim, gpu, key);
  }

  lemma OrphanedIsNotSound(site: Site, claim: string, gpu: int, key: string)
    ensures !Sound(Orphaned(claim, gpu, key), site.cat, site.plan)
  {
    var slots: Slots := map[gpu := map[key := 0]];
    assert slots != map[] by {
      assert gpu in slots;
    }
  }

  lemma RetriedIsRun(site: Site, claim: string, other: string, w: World)
    requires Crossed(site, claim, other) && Started(site, claim, w)
    ensures OrderOk(site.cat) && Run(site, w, RetriedRun(site, claim, w))
  {
    hide Crossed, Durable, AfterRestart, Leaked, KeyByPosition, OrderOk, StepOk;
    var a, b := Cleared(w), Forgotten(site, claim, w);
    StartedAgain(site, claim, other, w);
    var d := AfterRestart(site, b);
    InsaneIsDurable(site, w);
    InsaneIsDurable(site, a);
    InsaneIsDurable(site, b);
    InsaneIsDurable(site, d);
    InsaneIsDurable(site, Cleared(d));
    PublishSteps(site, w);
    PublishSteps(site, d);
    RetriedSteps(site, claim, w);
  }

  lemma PublishSteps(site: Site, w: World)
    ensures StepOk(site, w, Publish(true), Cleared(w)) && StepOk(site, Cleared(w), Publish(true), Cleared(w))
  {
  }

  lemma RetriedSteps(site: Site, claim: string, w: World)
    requires OrderOk(site.cat) && |site.plan(claim)| == 1 && w.inUse == {}
    ensures StepOk(site, Cleared(w), Give(claim), Cleared(w))
    ensures StepOk(site, Cleared(w), Save(true), Forgotten(site, claim, w))
    ensures var b := Forgotten(site, claim, w); StepOk(site, b, Restart, AfterRestart(site, b))
  {
    hide AfterRestart, OrderOk, Leaked, KeyByPosition;
    assert Cleared(w).inUse - {claim} == Cleared(w).inUse;
  }

  // a claim of another mode reloads the driver

  function WithStaged(w: World, gpu: int, mode: string): World {
    w.(hw := w.hw.(staged := w.hw.staged[gpu := mode]))
  }

  /** All that is staged takes effect, and no GPU is in a compute mode any more. */
  function Reloaded(w: World): World {
    w.(hw := Hardware(w.hw.staged, w.hw.staged, map[]), reloading := true, spoiled := w.spoiled + w.inUse)
  }

  function ReloadRun(w: World, device: string, a: int, b: int, mode: string): seq<Event> {
    var staged := WithStaged(WithStaged(w, a, mode), b, mode);
    [Event(Apply(device), w), Event(Stage(a, mode, true), WithStaged(w, a, mode)), Event(Stage(b, mode, true), staged),
     Event(Reload(mode), Reloaded(staged))]
  }

  lemma ReloadIsRun(site: Site, w: World, device: string, a: int, b: int, mode: string)
    requires !w.sane && !w.reloading && !w.misread && site.cat.parse(device).Some?
    requires w.disk.vfio == map[] && w.drivers == OnDrivers(site)
    requires forall c :: c in w.inUse ==> IsPrepared(w.disk.prepared, c)
    ensures Run(site, w, ReloadRun(w, device, a, b, mode))
  {
    hide Durable, StepOk;
    var staged := WithStaged(WithStaged(w, a, mode), b, mode);
    InsaneIsDurable(site, w);
    InsaneIsDurable(site, WithStaged(w, a, mode));
    InsaneIsDurable(site, staged);
    InsaneIsDurable(site, Reloaded(staged));
    StageStep(site, w, a, mode);
    StageStep(site, WithStaged(w, a, mode), b, mode);
    ReloadSteps(site, w, staged, device, mode);
  }

  lemma StageStep(site: Site, w: World, gpu: int, mode: string)
    requires !w.sane && !w.reloading
    ensures StepOk(site, w, Stage(gpu, mode, true), WithStaged(w, gpu, mode))
  {
  }

  lemma ReloadSteps(site: Site, w: World, staged: World, device: string, mode: string)
    requires !w.sane && !w.misread && site.cat.parse(device).Some? && !staged.sane && !staged.reloading
    ensures StepOk(site, w, Apply(device), w) && StepOk(site, staged, Reload(mode), Reloaded(staged))
  {
    assert ReloadEffect(staged.hw, Reloaded(staged).hw);
  }

  // the reload is waited for, and the claim is granted its device

  function Waiting(w: World, l: Ledger, mode: string): World {
    w.(disk := Checkpoint(map[], Fields(l, Some(mode)), map[]), saved := l)
  }

  function Split(w: World, d: PartitionName): World {
    w.(hw := w.hw.(compute := w.hw.compute[d.gpu := d.compute]))
  }

  function Prepared(site: Site, w: World, l: Ledger, other: string): World {
    w.(disk := Checkpoint(map[other := DevicesOf(site, other, l.slots)], Fields(l, None), map[]), saved := l)
  }

  function GrantRun(site: Site, w: World, l: Ledger, other: string, device: string, d: PartitionName): seq<Event> {
    var a := Waiting(w, l, d.memory);
    var b := a.(reloading := false);
    var c := Split(b, d);
    var e := Prepared(site, c, l, other);
    [Event(Save(true), a), Event(Apply(device), a), Event(Poll(true), b),
     Event(SetCompute(d.gpu, d.compute, d.memory, true), c), Event(Save(true), e),
     Event(Take(other), e.(inUse := e.inUse + {other}))]
  }

  lemma GrantIsRun(site: Site, w: World, l: Ledger, other: string, device: string, d: PartitionName)
    requires !w.sane && !w.misread && w.inUse == w.spoiled == {} && other !in w.lost
    requires w.disk.vfio == map[] && w.drivers == OnDrivers(site)
    requires site.cat.parse(device).Some? && Converged(site, w.hw.memory, d.memory) && site.plan(other) != []
    ensures Run(site, w, GrantRun(site, w, l, other, device, d))
  {
    hide Durable, StepOk, Converged, DevicesOf;
    var a := Waiting(w, l, d.memory);
    var b := a.(reloading := false);
    var c := Split(b, d);
    var e := Prepared(site, c, l, other);
    InsaneIsDurable(site, w);
    InsaneIsDurable(site, a);
    InsaneIsDurable(site, b);
    InsaneIsDurable(site, c);
    InsaneIsDurable(site, e);
    SameCount(site, other, l.slots);
    InsaneIsDurable(site, e.(inUse := e.inUse + {other}));
    WaitSteps(site, w, l, device, d);
    GrantSteps(site, b, l, other, d);
  }

  lemma WaitSteps(site: Site, w: World, l: Ledger, device: string, d: PartitionName)
    requires !w.sane && !w.misread && site.cat.parse(device).Some?
    ensures var a := Waiting(w, l, d.memory);
            && StepOk(site, w, Save(true), a) && StepOk(site, a, Apply(device), a)
            && StepOk(site, a, Poll(true), a.(reloading := false))
  {
  }

  lemma GrantSteps(site: Site, b: World, l: Ledger, other: string, d: PartitionName)
    requires !b.sane && b.inUse == b.spoiled == {} && other !in b.lost && Converged(site, b.hw.memory, d.memory)
    ensures var c := Split(b, d);
            var e := Prepared(site, c, l, other);
            && StepOk(site, b, SetCompute(d.gpu, d.compute, d.memory, true), c)
            && StepOk(site, c, Save(true), e) && StepOk(site, e, Take(other), e.(inUse := e.inUse + {other}))
  {
    hide Converged, DevicesOf;
    assert b.spoiled + Users(site, b.inUse, d.gpu) == b.spoiled;
    assert ComputeEffect(b.hw, Split(b, d).hw, d.gpu, d.compute);
  }

  // the whole run

  ghost predicate EveryModeIsRead(h: seq<Event>) {
    forall i :: 0 <= i < |h| ==> h[i].step != Misread
  }

  lemma ReadInBoth(h: seq<Event>, more: seq<Event>)
    requires EveryModeIsRead(h) && EveryModeIsRead(more)
    ensures EveryModeIsRead(h + more)
  {
  }

  lemma BothStarts(site: Site, claim: string, other: string) returns (h: seq<Event>)
    requires Crossed(site, claim, other)
    ensures Run(site, InUseWorld(site, claim), h) && EveryModeIsRead(h)
    ensures var w := WorldAt(InUseWorld(site, claim), h, |h|); Started(site, claim, w) && w.lost == {claim}
  {
    hide Usable, Run, InUseWorld, Recover, Started, Orphaned, RetriedRun;
    UsableInOrder(site, claim);
    FailedUnprepareIsNotRecovered(site, claim);
    var failed := FailedRun(site, claim);
    FirstStart(site, claim, other);
    var w := failed[3].world;
    RetriedIsRun(site, claim, other, w);
    RetriedEnds(site, claim, other, w);
    RunsJoin(site, InUseWorld(site, claim), failed, RetriedRun(site, claim, w));
    h := failed + RetriedRun(site, claim, w);
    ReadInBoth(failed, RetriedRun(site, claim, w));
  }

  lemma FirstStart(site: Site, claim: string, other: string)
    requires Crossed(site, claim, other) && OrderOk(site.cat) && !AfterRestart(site, EmptiedWorld(site, claim)).sane
    ensures var w := AfterRestart(site, EmptiedWorld(site, claim)); Started(site, claim, w) && w.lost == {claim}
  {
    hide Usable, Recover, LedgerDurable;
    EmptiedDisk(site, claim);
    RecoveredByPosition(site.cat, claim, EmptiedWorld(site, claim).disk.prepared[claim][0]);
  }

  lemma RetriedEnds(site: Site, claim: string, other: string, w: World)
    requires Crossed(site, claim, other) && Started(site, claim, w) && OrderOk(site.cat)
    ensures var h := RetriedRun(site, claim, w);
            && EveryModeIsRead(h) && |h| == 6 && Started(site, claim, h[5].world) && h[5].world.lost == w.lost
  {
    hide Crossed, Orphaned, LedgerDurable, Recover;
    StartedAgain(site, claim, other, w);
  }

  /** The claim is in use, alone, and its taints are out. */
  ghost predicate Using(site: Site, v: World, claim: string) {
    && v.inUse == {claim} && v.spoiled == {} && IsPrepared(v.disk.prepared, claim)
    && !v.sane && !v.reloading && !v.misread && v.disk.vfio == map[] && v.drivers == OnDrivers(site)
    && |site.plan(claim)| == 1 && InPlace(site, v.hw, site.plan(claim)[0].device)
    && v.published == Stamped(site.cat.synth, site.cat.parse(site.plan(claim)[0].device).value.memory)
  }

  lemma OtherIsPrepared(site: Site, claim: string, other: string, w: World) returns (h: seq<Event>)
    requires Crossed(site, claim, other) && Started(site, claim, w) && other !in w.lost
    ensures Run(site, w, h) && EveryModeIsRead(h) && h != [] && h[|h| - 1].step == Take(other)
    ensures Using(site, h[|h| - 1].world, other)
    ensures h[|h| - 1].world.saved == ReserveClaim(w.saved, site.cat, other, site.plan(other)).ledger
  {
    hide Usable, Run, Orphaned, StepOk, Durable, OnDrivers, DevicesOf, ReserveClaim, KeyByPosition;
    var s, t := site.plan(claim)[0], site.plan(other)[0];
    var d, e := site.cat.parse(s.device).value, site.cat.parse(t.device).value;
    assert site.plan(other) == [t];
    ReservesBeside(site.cat, claim, d.gpu, KeyByPosition(site, claim), other, t);
    var l := ReserveClaim(w.saved, site.cat, other, site.plan(other)).ledger;
    var a := w.(published := l.taints, silent := false);
    PublishIsRun(site, w, l.taints);
    ReloadIsRun(site, a, t.device, d.gpu, e.gpu, e.memory);
    var b := ReloadRun(a, t.device, d.gpu, e.gpu, e.memory)[3].world;
    GrantIsRun(site, b, l, other, t.device, e);
    h := [Event(Publish(true), a)] + ReloadRun(a, t.device, d.gpu, e.gpu, e.memory);
    RunsJoin(site, w, [Event(Publish(true), a)], ReloadRun(a, t.device, d.gpu, e.gpu, e.memory));
    RunsJoin(site, w, h, GrantRun(site, b, l, other, t.device, e));
    h := h + GrantRun(site, b, l, other, t.device, e);
    SameCount(site, other, l.slots);
  }

  lemma PublishIsRun(site: Site, w: World, taints: map<string, string>)
    requires !w.sane && w.disk.vfio == map[] && w.drivers == OnDrivers(site) && w.inUse == {}
    ensures Run(site, w, [Event(Publish(true), w.(published := taints, silent := false))])
  {
    hide Durable;
    InsaneIsDurable(site, w);
    InsaneIsDurable(site, w.(published := taints, silent := false));
  }

  /** From the world in which the first claim alone is in use, a run in which every mode is read and
      that ends with a reload under the other claim, in use and as it was prepared, for the sake of a
      device that the published slice forbids. */
  lemma UnsoundStartDisturbs(site: Site, claim: string, other: string) returns (h: seq<Event>, n: nat)
    requires Crossed(site, claim, other)
    ensures Run(site, InUseWorld(site, claim), h) && Begins(InUseWorld(site, claim)) && EveryModeIsRead(h)
    ensures 0 < n < |h| && AsPrepared(InUseWorld(site, claim), h, other, n)
    ensures InUseThroughout(InUseWorld(site, claim), h, other, n, |h|)
    ensures h[n].step.Apply? && h[n].step.device == site.plan(claim)[0].device
    ensures !RightTaints(site, WorldAt(InUseWorld(site, claim), h, n).published, h[n].step, h[n].step.device)
    ensures h[|h| - 1].step.Reload? && !Spares(site, other, h[|h| - 1].step)
    ensures InPlace(site, WorldAt(InUseWorld(site, claim), h, n).hw, site.plan(other)[0].device)
    ensures !InPlace(site, h[|h| - 1].world.hw, site.plan(other)[0].device)
  {
    hide Crossed, Usable, Run, InUseWorld, Started, ReserveClaim, OnDrivers, IsPrepared, InPlace, RightTaints;
    var start := InUseWorld(site, claim);
    CrossedClaims(site, claim, other);
    var before := BothStarts(site, claim, other);
    var w := WorldAt(start, before, |before|);
    var taken := OtherIsPrepared(site, claim, other, w);
    RunsJoin(site, start, before, taken);
    ReadInBoth(before, taken);
    var v := taken[|taken| - 1].world;
    var last := ReloadsUnder(site, claim, other, v);
    n := |before + taken|;
    RunsJoin(site, start, before + taken, last);
    ReadInBoth(before + taken, last);
    h := before + taken + last;
    assert h[n - 1] == taken[|taken| - 1];
    forall k | n <= k <= |h|
      ensures other in WorldAt(start, h, k).inUse
    {
      assert WorldAt(start, h, n + (k - n)) == WorldAt(v, last, k - n);
    }
    StartBegins(site, claim);
  }

  /** The reservation is taken for granted, so that the hardware phase begins with what was
      published for the other claim. */
  lemma ReloadsUnder(site: Site, claim: string, other: string, v: World) returns (h: seq<Event>)
    requires Crossed(site, claim, other) && Using(site, v, other)
    ensures Run(site, v, h) && EveryModeIsRead(h) && InUseThroughout(v, h, other, 0, |h|) && |h| == 4
    ensures h[0].step == Apply(site.plan(claim)[0].device) && h[3].step.Reload?
    ensures !RightTaints(site, v.published, h[0].step, h[0].step.device)
    ensures !InPlace(site, h[3].world.hw, site.plan(other)[0].device)
  {
    hide Usable, Run, OnDrivers, IsPrepared, KeyByPosition, Durable;
    var s, t := site.plan(claim)[0], site.plan(other)[0];
    var d, e := site.cat.parse(s.device).value, site.cat.parse(t.device).value;
    ReloadIsRun(site, v, s.device, d.gpu, e.gpu, d.memory);
    h := ReloadRun(v, s.device, d.gpu, e.gpu, d.memory);
    OutOfPlace(site, h[3].world.hw, t.device, 0);
  }

  lemma CrossedClaims(site: Site, claim: string, other: string)
    requires Crossed(site, claim, other)
    ensures claim != other && |site.plan(claim)| == 1 && |site.plan(other)| == 1
  {
  }

  lemma StartBegins(site: Site, claim: string)
    ensures Begins(InUseWorld(site, claim))
  {
  }

  lemma OutOfPlace(site: Site, hw: Hardware, device: string, i: nat)
    requires site.cat.parse(device).Some? && i < |site.partitionable|
    requires Read(hw.memory, site.partitionable[i]) != site.cat.parse(device).value.memory
    ensures !InPlace(site, hw, device)
  {
  }

  // ---------- a site ----------

  const OTHER_DEVICE := "gpu-1-cpx-nps4"
  const OTHER_RESULT := Naming.Result(DRIVER_NAME, "node", OTHER_DEVICE, "gpus", None)

  function Allocations(): map<string, seq<Naming.Result>> {
    map["uid" := RESULTS, "other" := [OTHER_RESULT]]
  }

  ghost function TwoGpus(): Site {
    var cat := DriverCatalog(map[DEVICE := "nps1", OTHER_DEVICE := "nps4"], s => Listing(s));
    Site(cat, PlanOf(cat, "node", Allocations(), map[]), [0, 1], map[])
  }

  /** A node with two GPUs and a claim for each is a site of the driver on which that happens. */
  lemma TwoGpusCross()
    ensures DriverSite(TwoGpus().cat, "node", Allocations(), map[], [0, 1], map[])
    ensures Crossed(TwoGpus(), "uid", "other")
  {
    hide DriverSite, SiteOk, ReserveClaim, ResultKey, Parse, PositionalKey, ClaimPart;
    var site := TwoGpus();
    TwoGpusAreSite();
    DriverSiteIsOk(site.cat, "node", Allocations(), map[], [0, 1], map[]);
    SpxParses();
    CpxParses();
    OneShare(site.cat.synth, "uid", RESULTS[0]);
    assert RESULTS == [RESULTS[0]];
    OneShare(site.cat.synth, "other", OTHER_RESULT);
    KeyIsNotEmpty("uid", RESULTS[0]);
    KeyIsNotEmpty("other", OTHER_RESULT);
    ReservesOne(site.cat, "uid", site.plan("uid")[0]);
    ReservesOne(site.cat, "other", site.plan("other")[0]);
    PositionIsNotRequest("uid", RESULTS[0]);
  }

  lemma TwoGpusAreSite()
    ensures DriverSite(TwoGpus().cat, "node", Allocations(), map[], [0, 1], map[])
  {
    hide Parse, WellAllocated, SlashFree;
    SpxParses();
    CpxParses();
    var synth := TwoGpus().cat.synth;
    assert RESULTS == [RESULTS[0]];
    OneIsAllocated(synth, "uid", RESULTS[0]);
    OneIsAllocated(synth, "other", OTHER_RESULT);
    ListingIsOrder(TwoGpus().cat);
  }

  lemma OneIsAllocated(synth: map<string, string>, claim: string, result: Naming.Result)
    requires result.request == "gpus" && claim in {"uid", "other"}
    ensures WellAllocated(synth, "node", claim, [result])
  {
    hide ResultKey;
    assert SlashFree("uid") && SlashFree("other") && SlashFree("gpus");
  }

  lemma ListingIsOrder(cat: Catalog)
    requires cat.order == (s => Listing(s))
    ensures OrderOk(cat)
  {
    hide Listing;
  }

  /** The key made from the position is not the key of the request, and names the claim. */
  lemma PositionIsNotRequest(claim: string, result: Naming.Result)
    requires SlashFree(claim) && Parse(result.device).Some? && result.request == "gpus" && result.shareID == None
    ensures PositionalKey(claim, 0, result.device) != ResultKey(claim, result)
    ensures ClaimPart(PositionalKey(claim, 0, result.device)) == Some(claim)
  {
    hide Parse, Cut;
    CanonicalIsSlashFree(result.device);
    DigitsAreSlashFree(0);
    assert SlashFree("gpus") && Digits(0) == "0";
    KeysAreInjective(claim, "0", result.device, None, claim, "gpus", result.device, None);
    KeyNests(claim, "0", result.device, None);
    CutsAt(claim, "0" + "/" + (result.device + "/" + ""));
  }
}
