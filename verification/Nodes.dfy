/**
 The node outside the plugin's memory: the checkpoint file, the hardware, the driver bindings and
 the published slice.

 Every method is one step the outside world can see. It may fail where the real operation may,
 and it can be called only where `Worlds` allows the step and where the world right after it is
 durable. `history` keeps all of them, over restarts, so `Valid` says that what happened so far
 is a run.
 */
module Nodes {
  import opened Wrappers
  import opened Ledgers
  import opened Claims
  import opened Recovery
  import opened Worlds

  /** How often something outside the plugin stood in its way: a read or a write that failed, a
      deadline that passed, a GPU that may not be rebound. */
  class Faults {
    ghost var count: nat

    constructor ()
      ensures count == 0
    {
      count := 0;
    }
  }

  class Node {
    const site: Site
    const faults: Faults
    ghost const start: World
    var disk: Checkpoint
    var hw: Hardware
    var drivers: map<string, string>
    var published: map<string, string>
    ghost var saved: Ledger
    ghost var inUse: set<string>
    ghost var reloading: bool
    ghost var misread: bool
    ghost var spoiled: set<string>
    ghost var lost: set<string>
    ghost var sane: bool
    ghost var silent: bool
    ghost var history: seq<Event>

    ghost function World(): World
      reads this
    {
      Worlds.World.World(disk, saved, hw, drivers, published, inUse, reloading, misread, spoiled, lost, sane,
                         silent)
    }

    ghost predicate Valid()
      reads this
    {
      SiteOk(site) && Run(site, start, history) && WorldAt(start, history, |history|) == World()
    }

    constructor (site: Site, w: World)
      requires SiteOk(site) && Durable(site, w)
      ensures Valid() && history == [] && this.site == site && World() == w && fresh(faults)
    {
      faults := new Faults();
      this.site, this.disk, this.hw, this.drivers, this.published := site, w.disk, w.hw, w.drivers, w.published;
      this.saved, this.inUse, this.reloading, this.misread := w.saved, w.inUse, w.reloading, w.misread;
      this.spoiled, this.lost, this.sane, this.silent := w.spoiled, w.lost, w.sane, w.silent;
      this.history, this.start := [], w;
    }

    ghost method Happened(step: Step, before: World)
      requires SiteOk(site) && Run(site, start, history) && WorldAt(start, history, |history|) == before
      requires StepOk(site, before, step, World()) && Durable(site, World())
      modifies `history
      ensures Valid() && history == old(history) + [Event(step, World())]
    {
      hide Durable, StepOk, Run;
      RunGrows(site, start, history, Event(step, World()));
      history := history + [Event(step, World())];
    }

    /** Anything outside that either works or does not. */
    method Attempt() returns (ok: bool)
      modifies faults
      ensures old(history) <= history && (ok <==> faults.count == old(faults.count))
      ensures old(faults.count) <= faults.count
    {
      ok := *;
      if !ok {
        faults.count := faults.count + 1;
      }
    }

    lemma CurrentIsDurable()
      requires Valid()
      ensures Durable(site, World())
    {
    }

    // ---------- disk ----------

    method ReadCheckpoint() returns (r: Option<Checkpoint>)
      modifies faults
      ensures old(history) <= history && (r.Some? ==> r.value == disk)
      ensures old(faults.count) <= faults.count && (faults.count == old(faults.count) ==> r.Some?)
    {
      var ok := Attempt();
      r := if ok then Some(disk) else None;
    }

    method WriteCheckpoint(cp: Checkpoint, ghost l: Ledger) returns (ok: bool)
      requires Valid() && Durable(site, World().(disk := cp, saved := l))
      modifies `disk, `saved, `history, faults
      ensures Valid() && old(history) <= history
      ensures old(faults.count) <= faults.count && (faults.count == old(faults.count) ==> ok)
      ensures history == old(history) + [Event(Save(ok), World())]
      ensures World() == if ok then old(World()).(disk := cp, saved := l) else old(World())
    {
      hide Durable, Run;
      ghost var before := World();
      CurrentIsDurable();
      ok := Attempt();
      if ok {
        disk, saved := cp, l;
      }
      Happened(Save(ok), before);
    }

    // ---------- resource slices ----------

    method Publish(taints: map<string, string>) returns (ok: bool)
      requires Valid()
      modifies `published, `silent, `history, faults
      ensures Valid() && old(history) <= history
      ensures old(faults.count) <= faults.count && (faults.count == old(faults.count) ==> ok)
      ensures history == old(history) + [Event(Step.Publish(ok), World())]
      ensures World() == if ok then old(World()).(published := taints, silent := false)
                         else old(World()).(silent := true)
    {
      hide Run, Durable, SiteOk, StepOk;
      ghost var before := World();
      CurrentIsDurable();
      ok := Attempt();
      published, silent := if ok then taints else published, !ok;
      DurableApart(site, before, World());
      PublishStep(site, before, World(), ok);
      Happened(Step.Publish(ok), before);
    }

    // ---------- memory and compute modes ----------

    /** Read a mode from sysfs. A file that cannot be read reads as no mode at all. */
    method ReadMemoryMode(gpu: int) returns (mode: string)
      requires Valid()
      modifies `misread, `history, faults
      ensures Valid() && old(history) <= history && Reading(old(history), history, old(World()), World())
      ensures old(faults.count) <= faults.count
      ensures faults.count == old(faults.count) ==>
                mode == Read(hw.memory, gpu) && World() == old(World()) && history == old(history)
      ensures || (mode == Read(hw.memory, gpu) && World() == old(World()) && history == old(history))
              || (mode == "" && misread)
    {
      mode := ReadMode(Read(hw.memory, gpu));
    }

    method ReadComputeMode(gpu: int) returns (mode: string)
      requires Valid()
      modifies `misread, `history, faults
      ensures Valid() && old(history) <= history && Reading(old(history), history, old(World()), World())
      ensures old(faults.count) <= faults.count
      ensures faults.count == old(faults.count) ==>
                mode == Read(hw.compute, gpu) && World() == old(World()) && history == old(history)
      ensures || (mode == Read(hw.compute, gpu) && World() == old(World()) && history == old(history))
              || (mode == "" && misread)
    {
      mode := ReadMode(Read(hw.compute, gpu));
    }

    method ReadMode(actual: string) returns (mode: string)
      requires Valid()
      modifies `misread, `history, faults
      ensures Valid() && old(history) <= history && Reading(old(history), history, old(World()), World())
      ensures old(faults.count) <= faults.count
      ensures faults.count == old(faults.count) ==> mode == actual && World() == old(World()) && history == old(history)
      ensures || (mode == actual && World() == old(World()) && history == old(history))
              || (mode == "" && misread)
    {
      hide Run, Durable, SiteOk;
      var readable := Attempt();
      if readable {
        return actual;
      }
      ghost var before := World();
      CurrentIsDurable();
      misread := true;
      DurableApart(site, before, World());
      Happened(Misread, before);
      return "";
    }

    ghost method BeginApply(device: string)
      requires Valid() && site.cat.parse(device).Some?
      requires sane ==> Protected(site, published, site.cat.parse(device).value.memory)
      modifies `misread, `history
      ensures Valid() && history == old(history) + [Event(Apply(device), World())]
      ensures World() == old(World()).(misread := false)
    {
      hide Run, Durable, SiteOk;
      ghost var before := World();
      CurrentIsDurable();
      misread := false;
      DurableApart(site, before, World());
      Happened(Apply(device), before);
    }

    /** Stage a memory mode; it takes effect at the next reload. */
    method StageMemoryMode(gpu: int, mode: string) returns (ok: bool)
      requires Valid() && MayReload(site, World(), mode)
      modifies `hw, `history, faults
      ensures Valid() && old(history) <= history
      ensures old(faults.count) <= faults.count && (faults.count == old(faults.count) ==> ok)
      ensures World() == old(World()).(hw := hw) && hw == old(hw).(staged := hw.staged)
      ensures ok ==> Read(hw.staged, gpu) == mode
      ensures forall g :: Read(hw.staged, g) == Read(old(hw.staged), g) || (g == gpu && Read(hw.staged, g) == mode)
      ensures history == old(history) + [Event(Stage(gpu, mode, ok), World())]
    {
      hide Run, Durable, SiteOk;
      ghost var before := World();
      CurrentIsDurable();
      ok := Attempt();
      var took: bool := *;
      if ok || took {
        hw := hw.(staged := hw.staged[gpu := mode]);
      }
      DurableApart(site, before, World());
      Happened(Stage(gpu, mode, ok), before);
    }

    /** What a reload may make of the hardware, so far. */
    method Reloaded() returns (after: Hardware)
      ensures ReloadEffect(hw, after) && after.staged == hw.staged
    {
      var settled: bool := *;
      if !settled {
        return hw;
      }
      var took: set<int> := *;
      var compute: map<int, string> := *;
      var memory := map g | g in hw.memory.Keys + hw.staged.Keys ::
        if g in took then Read(hw.staged, g) else Read(hw.memory, g);
      after := Hardware(memory, hw.staged, compute);
    }

    /** Trigger a driver reload. It may have changed the hardware when it returns, even when it
        reports a failure. */
    method ReloadDriver(mode: string) returns (ok: bool)
      requires Valid() && MayReload(site, World(), mode)
      modifies `hw, `reloading, `spoiled, `history, faults
      ensures Valid() && old(history) <= history
      ensures old(faults.count) <= faults.count && (faults.count == old(faults.count) ==> ok)
      ensures history == old(history) + [Event(Reload(mode), World())]
      ensures World() == old(World()).(hw := hw, reloading := ok, spoiled := old(spoiled) + inUse)
      ensures hw.staged == old(hw.staged)
    {
      hide Run, ReloadEffect, Durable, SiteOk, MayReload, Read, StepOk;
      ghost var before := World();
      CurrentIsDurable();
      ok := Attempt();
      hw := Reloaded();
      reloading, spoiled := ok, spoiled + inUse;
      DurableApart(site, before, World());
      ReloadStep(site, before, World(), mode);
      Happened(Reload(mode), before);
    }

    /** A reload triggered earlier takes effect. */
    method Settle()
      requires Valid() && (sane ==> inUse <= spoiled)
      modifies `hw, `spoiled, `history
      ensures Valid() && old(history) <= history && old(faults.count) <= faults.count
      ensures World() == old(World()).(hw := hw, spoiled := old(spoiled) + inUse)
    {
      hide Run, ReloadEffect, Durable, SiteOk, MayReload, Read;
      ghost var before := World();
      CurrentIsDurable();
      hw := Reloaded();
      spoiled := spoiled + inUse;
      DurableApart(site, before, World());
      Happened(Step.Settle, before);
    }

    /** What a write of a compute mode may leave behind. */
    method Written(gpu: int, mode: string) returns (ok: bool, after: Hardware)
      modifies faults
      ensures old(history) <= history && old(faults.count) <= faults.count && (faults.count == old(faults.count) ==> ok)
      ensures after == hw.(compute := after.compute) && ComputeEffect(hw, after, gpu, mode)
      ensures ok ==> Read(after.compute, gpu) == mode
    {
      ok := Attempt();
      var took: bool := *;
      after := if ok || took then hw.(compute := hw.compute[gpu := mode]) else hw;
    }

    method SetComputeMode(gpu: int, mode: string, ghost memory: string) returns (ok: bool)
      requires Valid() && Converged(site, hw.memory, memory)
      requires sane ==> Protected(site, published, memory) && Excused(World(), Users(site, inUse, gpu))
      modifies `hw, `spoiled, `history, faults
      ensures Valid() && old(history) <= history
      ensures old(faults.count) <= faults.count && (faults.count == old(faults.count) ==> ok)
      ensures history == old(history) + [Event(SetCompute(gpu, mode, memory, ok), World())]
      ensures World() == old(World()).(hw := hw, spoiled := old(spoiled) + Users(site, inUse, gpu))
      ensures hw == old(hw).(compute := hw.compute) && ComputeEffect(old(hw), hw, gpu, mode)
      ensures ok ==> Read(hw.compute, gpu) == mode
    {
      hide Run, Protected, Durable, SiteOk, Users, Converged, Excused, ComputeEffect, Read;
      ghost var before := World();
      CurrentIsDurable();
      var after: Hardware;
      ok, after := Written(gpu, mode);
      hw, spoiled := after, spoiled + Users(site, inUse, gpu);
      ComputeElsewhere(site, before, World(), gpu, mode);
      Happened(SetCompute(gpu, mode, memory, ok), before);
    }

    /** A poll for a reload ends when it has converged, or else when its deadline has passed. */
    method Polled(converged: bool) returns (done: bool)
      requires Valid()
      modifies `reloading, `history, faults
      ensures Valid() && history == old(history) + [Event(Poll(done), World())]
      ensures World() == old(World()).(reloading := old(reloading) && !done)
      ensures old(faults.count) <= faults.count && (converged ==> done)
      ensures faults.count == old(faults.count) ==> done == converged
    {
      hide Run, Durable, SiteOk;
      done := converged;
      if !converged {
        var inTime := Attempt();
        done := !inTime;
      }
      ghost var before := World();
      CurrentIsDurable();
      reloading := reloading && !done;
      DurableApart(site, before, World());
      Happened(Poll(done), before);
    }

    /** Take an action that changes nothing the worlds show. */
    method Do(action: Action) returns (ok: bool)
      requires Valid()
      modifies `history, faults
      ensures Valid() && history == old(history) + [Event(Act(action, ok), World())]
      ensures World() == old(World())
      ensures old(faults.count) <= faults.count && (faults.count == old(faults.count) ==> ok)
      ensures ok ==> Worked(old(history), history, action)
    {
      hide Run, Durable, SiteOk;
      CurrentIsDurable();
      ok := Attempt();
      Happened(Act(action, ok), World());
    }

    // ---------- driver bindings ----------

    method CurrentDriver(pci: string) returns (r: Option<string>)
      modifies faults
      ensures old(history) <= history && (r.Some? ==> r.value == Read(drivers, pci))
      ensures old(faults.count) <= faults.count && (faults.count == old(faults.count) ==> r.Some?)
    {
      var ok := Attempt();
      r := if ok then Some(Read(drivers, pci)) else None;
    }

    /** Write one bind or unbind file. Only a device without a driver can be bound to one. A write that
        fails may have taken effect. */
    method Bind(pci: string, driver: string) returns (ok: bool)
      requires Valid() && Covered(site, disk.vfio, drivers[pci := driver])
      requires driver == "" || Read(drivers, pci) == ""
      modifies `drivers, `history, faults
      ensures Valid() && old(history) <= history
      ensures old(faults.count) <= faults.count && (faults.count == old(faults.count) ==> ok)
      ensures World() == old(World()).(drivers := drivers)
      ensures drivers == old(drivers)[pci := driver] || (drivers == old(drivers) && !ok)
    {
      hide Run, Durable, SiteOk, Covered, StepOk, Read;
      ok := Attempt();
      var took: bool := *;
      if ok || took {
        ghost var before := World();
        CurrentIsDurable();
        drivers := drivers[pci := driver];
        DurableRebound(site, before, World());
        RebindStep(site, before, World(), pci, driver);
        Happened(Rebind(pci), before);
      }
    }

    // ---------- claims and processes ----------

    ghost method TakeClaim(claim: string)
      requires Valid() && IsPrepared(disk.prepared, claim)
      requires sane ==> Backed(site, World().(spoiled := spoiled - {claim}), claim) && disk.fields.reload.None?
      modifies `inUse, `spoiled, `lost, `history
      ensures Valid() && old(history) <= history && old(faults.count) <= faults.count
      ensures World() == old(World()).(inUse := old(inUse) + {claim}, spoiled := old(spoiled) - {claim},
                                       lost := old(lost) - {claim})
    {
      hide Run, Durable, SiteOk, Backed, IsPrepared;
      ghost var before := World();
      CurrentIsDurable();
      inUse, spoiled, lost := inUse + {claim}, spoiled - {claim}, lost - {claim};
      DurableTaken(site, before, World(), claim);
      Happened(Take(claim), before);
    }

    ghost method GiveClaim(claim: string)
      requires Valid()
      modifies `inUse, `history
      ensures Valid() && old(history) <= history && old(faults.count) <= faults.count
      ensures World() == old(World()).(inUse := old(inUse) - {claim})
    {
      hide Run, Durable, SiteOk;
      ghost var before := World();
      CurrentIsDurable();
      inUse := inUse - {claim};
      DurableGiven(site, before, World());
      Happened(Give(claim), before);
    }

    /** An Unprepare ends in an error after it released its claim. */
    ghost method FailClaim(claim: string)
      requires Valid()
      modifies `lost, `silent, `history
      ensures Valid() && history == old(history) + [Event(Fail(claim), World())]
      ensures World() == old(World()).(lost := old(lost) + {claim}, silent := true)
    {
      hide Run, Durable, SiteOk;
      ghost var before := World();
      CurrentIsDurable();
      lost, silent := lost + {claim}, true;
      DurableLost(site, before, World());
      Happened(Fail(claim), before);
    }

    /** The plugin starts, and takes what the checkpoint gives it for its ledger. */
    ghost method Restarted()
      requires Valid()
      modifies `reloading, `misread, `saved, `sane, `history
      ensures Valid() && old(history) <= history && old(faults.count) <= faults.count
      ensures OrderOk(site.cat) && World() == AfterRestart(site, old(World()))
    {
      hide Run, Durable, PlanOk, OrderOk, LedgerDurable, Recover;
      ghost var before := World();
      CurrentIsDurable();
      assert OrderOk(site.cat);
      ghost var after := AfterRestart(site, before);
      reloading, misread, saved, sane := after.reloading, false, after.saved, after.sane;
      DurableRestarted(site, before);
      Happened(Restart, before);
    }
  }

  /** All that happened is that modes were read, and could not be if `misread` says so. */
  ghost predicate Reading(before: seq<Event>, after: seq<Event>, v: World, w: World) {
    && before <= after && w == v.(misread := w.misread) && (v.misread ==> w.misread)
    && forall k :: |before| <= k < |after| ==> after[k].step == Misread
  }

  lemma ReloadStep(site: Site, v: World, w: World, mode: string)
    requires w == v.(hw := w.hw, reloading := w.reloading, spoiled := v.spoiled + v.inUse)
    requires MayReload(site, v, mode) && ReloadEffect(v.hw, w.hw)
    ensures StepOk(site, v, Reload(mode), w)
  {
    hide MayReload, ReloadEffect;
  }

  lemma RebindStep(site: Site, v: World, w: World, pci: string, driver: string)
    requires w == v.(drivers := v.drivers[pci := driver])
    ensures StepOk(site, v, Rebind(pci), w)
  {
  }

  lemma PublishStep(site: Site, v: World, w: World, ok: bool)
    requires w == if ok then v.(published := w.published, silent := false) else v.(silent := true)
    ensures StepOk(site, v, Publish(ok), w)
  {
  }

  // ---------- what a step leaves durable ----------

  /** Disk, bindings and claims are untouched, and whoever runs is spoiled or the modes are
      untouched. */
  lemma DurableApart(site: Site, v: World, w: World)
    requires Durable(site, v) && v.spoiled <= w.spoiled
    requires w == v.(hw := w.hw, published := w.published, reloading := w.reloading, misread := w.misread,
                     spoiled := w.spoiled, silent := w.silent)
    requires v.inUse <= w.spoiled || (w.hw.memory == v.hw.memory && w.hw.compute == v.hw.compute)
    ensures Durable(site, w)
  {
    hide Legacy, Lists, RecordsOk, Covered, Owned, SlotsKept, NoneReleased, Matched, Sound;
  }

  lemma ComputeElsewhere(site: Site, v: World, w: World, gpu: int, mode: string)
    requires Durable(site, v) && ComputeEffect(v.hw, w.hw, gpu, mode)
    requires w == v.(hw := v.hw.(compute := w.hw.compute), spoiled := v.spoiled + Users(site, v.inUse, gpu))
    ensures Durable(site, w)
  {
    hide Legacy, Lists, RecordsOk, Covered, Owned, SlotsKept, NoneReleased, Matched, Sound, Converged;
    if v.sane {
      forall c | c in v.inUse
        ensures Backed(site, w, c)
      {
        assert Backed(site, v, c);
        if c !in w.spoiled {
          assert !UsesGpu(site, c, gpu);
        }
      }
    }
  }

  lemma DurableRebound(site: Site, v: World, w: World)
    requires Durable(site, v) && w == v.(drivers := w.drivers) && Covered(site, v.disk.vfio, w.drivers)
    ensures Durable(site, w)
  {
    hide Legacy, Lists, RecordsOk, Covered, Owned, SlotsKept, NoneReleased, Matched, Sound, InPlace;
  }

  lemma DurableTaken(site: Site, v: World, w: World, claim: string)
    requires Durable(site, v) && IsPrepared(v.disk.prepared, claim)
    requires w == v.(inUse := v.inUse + {claim}, spoiled := v.spoiled - {claim}, lost := v.lost - {claim})
    requires v.sane ==> Backed(site, v.(spoiled := v.spoiled - {claim}), claim) && v.disk.fields.reload.None?
    ensures Durable(site, w)
  {
    hide Legacy, Lists, RecordsOk, Covered, Owned, SlotsKept, Matched, Sound, InPlace;
  }

  lemma DurableGiven(site: Site, v: World, w: World)
    requires Durable(site, v) && w == v.(inUse := w.inUse) && w.inUse <= v.inUse
    ensures Durable(site, w)
  {
    hide Legacy, Lists, RecordsOk, Covered, Owned, SlotsKept, NoneReleased, Matched, Sound, InPlace;
  }

  lemma DurableLost(site: Site, v: World, w: World)
    requires Durable(site, v) && w == v.(lost := w.lost, silent := w.silent) && v.lost <= w.lost
    ensures Durable(site, w)
  {
    hide Legacy, Lists, RecordsOk, Covered, Owned, SlotsKept, Matched, Sound, InPlace;
  }

  lemma DurableRestarted(site: Site, v: World)
    requires OrderOk(site.cat) && Durable(site, v)
    ensures Durable(site, AfterRestart(site, v))
  {
    hide Legacy, Lists, RecordsOk, Covered, Owned, SlotsKept, NoneReleased, Matched, Sound, InPlace, OrderOk, Recover;
  }
}
