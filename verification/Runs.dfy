/** What every run guarantees, whatever calls, failures, reloads and crashes it is made of. */
module Runs {
  import opened Ledgers
  import opened Claims
  import opened Recovery
  import opened Worlds

  // ---------- claims that are in use ----------

  ghost predicate InUseThroughout(start: World, h: seq<Event>, claim: string, from: nat, until: nat)
    requires from <= until <= |h|
  {
    forall k :: from <= k <= until ==> claim in WorldAt(start, h, k).inUse
  }

  /** From here on the claim is as it was prepared: it was taken just now, or the run starts so. */
  ghost predicate AsPrepared(start: World, h: seq<Event>, claim: string, from: nat)
    requires from <= |h|
  {
    if from == 0 then claim !in start.spoiled else h[from - 1].step == Take(claim)
  }

  /** The step leaves the hardware of the claim alone. */
  ghost predicate Spares(site: Site, claim: string, step: Step) {
    && !step.Stage? && !step.Reload? && !step.Settle?
    && (step.SetCompute? ==> !UsesGpu(site, claim, step.gpu))
  }

  /** In the hardware phase that step k belongs to, a mode could not be read before it. */
  ghost predicate AfterMisread(h: seq<Event>, k: nat)
    requires k <= |h|
  {
    exists j :: 0 <= j < k && h[j].step.Misread? && forall i :: j < i < k ==> !h[i].step.Apply? && !h[i].step.Restart?
  }

  /** Before step k the plugin started from a checkpoint that could not be recovered from. */
  ghost predicate UnsoundStart(site: Site, start: World, h: seq<Event>, k: nat)
    requires k <= |h|
  {
    exists i :: 0 <= i < k && h[i].step.Restart? && !Recoverable(site, WorldAt(start, h, i))
  }

  /** The start of a run: the plugin has read back what the disk holds, and no read has failed yet. */
  ghost predicate Begins(start: World) {
    start.sane && !start.misread
  }

  /** Exactly what can disturb a claim that holds its reservation. The first step of any claim that
      stages a memory mode, reloads the driver or writes the compute mode of a GPU the claim uses has
      one of two causes: a mode could not be read before, in the same hardware phase, and then the
      step is not a reload that takes effect late; or the plugin was started from a checkpoint that
      could not be recovered from. Both happen: `Witnesses.MisreadDisturbs`,
      `UnsoundStarts.UnsoundStartDisturbs`. */
  lemma FirstDisturbanceHasACause(site: Site, start: World, h: seq<Event>, claim: string, from: nat, k: nat)
    requires SiteOk(site) && Run(site, start, h) && Begins(start) && from <= k < |h|
    requires InUseThroughout(start, h, claim, from, k) && AsPrepared(start, h, claim, from)
    requires (forall j :: from <= j < k ==> Spares(site, claim, h[j].step)) && !Spares(site, claim, h[k].step)
    ensures (AfterMisread(h, k) && !h[k].step.Settle?) || UnsoundStart(site, start, h, k)
  {
    hide StepOk, Durable, UnsoundStart, AfterMisread, Spares, AsPrepared, SiteOk;
    if !UnsoundStart(site, start, h, k) {
      SaneUnlessUnsound(site, start, h, k);
      StaysUnspoiled(site, start, h, claim, from, k);
      StepSpares(site, WorldAt(start, h, k), h[k].step, h[k].world, claim);
      MisreadBefore(site, start, h, k);
    }
  }

  /** As long as a prepared claim holds its reservation, every mode can be read and every start found
      a checkpoint it could recover from, no step of any claim stages a memory mode, reloads the
      driver or writes the compute mode of a GPU the claim uses. Its devices are in the modes they are
      named after all along, so nothing it uses changes mode. */
  lemma InUseIsUndisturbed(site: Site, start: World, h: seq<Event>, claim: string, from: nat, until: nat)
    requires SiteOk(site) && Run(site, start, h) && Begins(start) && from <= until <= |h|
    requires InUseThroughout(start, h, claim, from, until) && AsPrepared(start, h, claim, from)
    requires forall k :: from <= k < until ==> !AfterMisread(h, k)
    requires !UnsoundStart(site, start, h, until)
    ensures forall k :: from <= k < until ==> Spares(site, claim, h[k].step)
    ensures forall k, s :: from <= k <= until && s in site.plan(claim) ==>
              InPlace(site, WorldAt(start, h, k).hw, s.device)
    ensures forall k, s :: from <= k <= until && s in site.plan(claim) ==>
              SameModes(GpuOf(site.cat, s), WorldAt(start, h, from).hw, WorldAt(start, h, k).hw)
  {
    hide StepOk, Durable, InPlace, SiteOk, AfterMisread, UnsoundStart, AsPrepared, Spares;
    NoneDisturbed(site, start, h, claim, from, until);
    forall k | from <= k <= until
      ensures forall s :: s in site.plan(claim) ==> InPlace(site, WorldAt(start, h, k).hw, s.device)
    {
      StaysUnspoiled(site, start, h, claim, from, k);
      SoundBefore(site, start, h, k, until);
      SaneUnlessUnsound(site, start, h, k);
      InUseIsInPlace(site, WorldAt(start, h, k), claim);
    }
    forall k, s | from <= k <= until && s in site.plan(claim)
      ensures SameModes(GpuOf(site.cat, s), WorldAt(start, h, from).hw, WorldAt(start, h, k).hw)
    {
      InPlaceReadsAlike(site, WorldAt(start, h, from).hw, WorldAt(start, h, k).hw, claim, s);
    }
  }

  /** The same, told by what happened alone: no Unprepare failed after it had released its claim, and
      no mode could not be read. */
  lemma InUseIsUndisturbedUnlessFailed(site: Site, start: World, h: seq<Event>, claim: string, from: nat, until: nat)
    requires SiteOk(site) && Run(site, start, h) && Begins(start) && start.lost == {} && from <= until <= |h|
    requires InUseThroughout(start, h, claim, from, until) && AsPrepared(start, h, claim, from)
    requires forall i :: 0 <= i < until ==> !h[i].step.Fail? && !h[i].step.Misread?
    ensures forall k :: from <= k < until ==> Spares(site, claim, h[k].step)
    ensures forall k, s :: from <= k <= until && s in site.plan(claim) ==>
              InPlace(site, WorldAt(start, h, k).hw, s.device)
  {
    hide StepOk, Durable, InPlace, SiteOk, UnsoundStart, AsPrepared, Spares, SameModes;
    SoundUnlessFailed(site, start, h, until);
    InUseIsUndisturbed(site, start, h, claim, from, until);
  }

  lemma SoundBefore(site: Site, start: World, h: seq<Event>, k: nat, until: nat)
    requires k <= until <= |h| && !UnsoundStart(site, start, h, until)
    ensures !UnsoundStart(site, start, h, k)
  {
  }

  /** A ledger that was sane stays so until the plugin starts from a checkpoint that cannot be
      recovered from. */
  lemma {:induction false} SaneUnlessUnsound(site: Site, start: World, h: seq<Event>, k: nat)
    requires SiteOk(site) && Run(site, start, h) && start.sane && k <= |h| && !UnsoundStart(site, start, h, k)
    ensures WorldAt(start, h, k).sane
  {
    hide StepOk, Durable, Recoverable, SiteOk;
    if k > 0 {
      SaneUnlessUnsound(site, start, h, k - 1);
      SaneUnlessRestarted(site, WorldAt(start, h, k - 1), h[k - 1].step, h[k - 1].world);
      if h[k - 1].step.Restart? {
        SaneAfterRestart(site, WorldAt(start, h, k - 1));
      }
    }
  }

  lemma SoundUnlessFailed(site: Site, start: World, h: seq<Event>, k: nat)
    requires SiteOk(site) && Run(site, start, h) && k <= |h| && start.sane && start.lost == {}
    requires forall i :: 0 <= i < k ==> !h[i].step.Fail?
    ensures !UnsoundStart(site, start, h, k)
  {
    hide StepOk, Durable, Recoverable, SiteOk;
    forall i | 0 <= i < k
      ensures Recoverable(site, WorldAt(start, h, i))
    {
      RecoverableUnlessFailed(site, start, h, i);
    }
  }

  ghost predicate SameModes(gpu: int, a: Hardware, b: Hardware) {
    Read(a.memory, gpu) == Read(b.memory, gpu) && Read(a.compute, gpu) == Read(b.compute, gpu)
  }

  lemma {:induction false} NoneDisturbed(site: Site, start: World, h: seq<Event>, claim: string, from: nat, until: nat)
    requires SiteOk(site) && Run(site, start, h) && Begins(start) && from <= until <= |h|
    requires InUseThroughout(start, h, claim, from, until) && AsPrepared(start, h, claim, from)
    requires forall k :: from <= k < until ==> !AfterMisread(h, k)
    requires !UnsoundStart(site, start, h, until)
    ensures forall k :: from <= k < until ==> Spares(site, claim, h[k].step)
    decreases until
  {
    hide StepOk, Durable, AfterMisread, Spares, SiteOk, UnsoundStart, AsPrepared;
    if from < until {
      SoundBefore(site, start, h, until - 1, until);
      NoneDisturbed(site, start, h, claim, from, until - 1);
      if !Spares(site, claim, h[until - 1].step) {
        FirstDisturbanceHasACause(site, start, h, claim, from, until - 1);
      }
    }
  }

  /** A claim stays as it was prepared while it is spared. */
  lemma {:induction false} StaysUnspoiled(site: Site, start: World, h: seq<Event>, claim: string, from: nat, k: nat)
    requires Run(site, start, h) && from <= k <= |h| && AsPrepared(start, h, claim, from)
    requires forall j :: from <= j < k ==> Spares(site, claim, h[j].step)
    ensures claim !in WorldAt(start, h, k).spoiled
    decreases k
  {
    hide StepOk, Durable, Spares;
    if from == k {
      if from > 0 {
        TakenIsUnspoiled(site, WorldAt(start, h, from - 1), h[from - 1].step, h[from - 1].world, claim);
      }
    } else {
      StaysUnspoiled(site, start, h, claim, from, k - 1);
      SparedIsUnspoiled(site, WorldAt(start, h, k - 1), h[k - 1].step, h[k - 1].world, claim);
    }
  }

  lemma TakenIsUnspoiled(site: Site, v: World, step: Step, w: World, claim: string)
    requires StepOk(site, v, step, w) && step == Take(claim)
    ensures claim !in w.spoiled
  {
    hide Allowed;
  }

  lemma SparedIsUnspoiled(site: Site, v: World, step: Step, w: World, claim: string)
    requires StepOk(site, v, step, w) && claim !in v.spoiled && Spares(site, claim, step)
    ensures claim !in w.spoiled
  {
    hide Allowed, LedgerDurable, UsesGpu, Recover, OrderOk;
  }

  lemma {:induction false} MisreadBefore(site: Site, start: World, h: seq<Event>, k: nat)
    requires Run(site, start, h) && !start.misread && k <= |h| && WorldAt(start, h, k).misread
    ensures AfterMisread(h, k)
  {
    hide StepOk, Durable, AfterMisread;
    var e := h[k - 1];
    StepMisreads(site, WorldAt(start, h, k - 1), e.step, e.world);
    if e.step != Misread {
      MisreadBefore(site, start, h, k - 1);
    }
    MisreadStays(h, k);
  }

  lemma MisreadStays(h: seq<Event>, k: nat)
    requires 0 < k <= |h|
    ensures AfterMisread(h, k)
            <==> h[k - 1].step.Misread? || (AfterMisread(h, k - 1) && !h[k - 1].step.Apply? && !h[k - 1].step.Restart?)
  {
    if AfterMisread(h, k - 1) {
      var j :| 0 <= j < k - 1 && h[j].step.Misread?
               && forall i :: j < i < k - 1 ==> !h[i].step.Apply? && !h[i].step.Restart?;
    }
  }

  lemma StepMisreads(site: Site, v: World, step: Step, w: World)
    requires StepOk(site, v, step, w) && w.misread
    ensures step == Misread || (v.misread && !step.Apply? && !step.Restart?)
  {
    hide Allowed, LedgerDurable, Users, Recover, OrderOk;
  }

  lemma InUseIsInPlace(site: Site, w: World, claim: string)
    requires Durable(site, w) && w.sane && claim in w.inUse && claim !in w.spoiled
    ensures forall s :: s in site.plan(claim) ==> InPlace(site, w.hw, s.device)
  {
    assert Backed(site, w, claim);
  }

  /** A claim that is as it was prepared is spared while every mode can be read. A reload that takes
      effect late spares it anyway. */
  lemma StepSpares(site: Site, v: World, step: Step, w: World, claim: string)
    requires StepOk(site, v, step, w) && v.sane && claim in v.inUse && claim !in v.spoiled
    ensures !Spares(site, claim, step) ==> v.misread && !step.Settle?
  {
    hide LedgerDurable, Converged, Protected, ComputeEffect, UsesGpu, Recover;
  }

  lemma InPlaceReadsAlike(site: Site, a: Hardware, b: Hardware, claim: string, s: Share)
    requires SiteOk(site) && s in site.plan(claim) && InPlace(site, a, s.device) && InPlace(site, b, s.device)
    ensures SameModes(GpuOf(site.cat, s), a, b)
  {
    var i :| 0 <= i < |site.partitionable| && site.partitionable[i] == GpuOf(site.cat, s);
  }

  // ---------- taints before hardware ----------

  /** Whenever Prepare enters its hardware phase for a memory mode, and at every write it makes
      there, the slice published last taints exactly the devices of other memory modes, and with
      the mode that is coming. That takes checkpoints that could be recovered from, not modes that
      can be read; `UnsoundStarts.UnsoundStartDisturbs` shows that it does take the first. */
  lemma TaintsPrecedeHardware(site: Site, start: World, h: seq<Event>, k: nat, d: string)
    requires SiteOk(site) && Run(site, start, h) && start.sane && k < |h| && h[k].step.ForMode()
    requires !UnsoundStart(site, start, h, k)
    ensures h[k].step.Apply? ==> site.cat.parse(h[k].step.device).Some?
    ensures RightTaints(site, WorldAt(start, h, k).published, h[k].step, d)
  {
    hide Durable, StepOk, SiteOk, UnsoundStart;
    SaneUnlessUnsound(site, start, h, k);
    StepIsProtected(site, WorldAt(start, h, k), h[k].step, h[k].world);
  }

  /** The device is tainted exactly if it is of another memory mode than the step is for. */
  ghost predicate RightTaints(site: Site, published: map<string, string>, step: Step, d: string) {
    && (step.Apply? ==> site.cat.parse(step.device).Some?)
    && (d in published <==> d in site.cat.synth && site.cat.synth[d] != step.Mode(site.cat))
    && (d in published ==> published[d] == step.Mode(site.cat))
  }

  /** The same, told by what happened alone. */
  lemma TaintsPrecedeHardwareUnlessFailed(site: Site, start: World, h: seq<Event>, k: nat, d: string)
    requires SiteOk(site) && Run(site, start, h) && start.sane && start.lost == {}
    requires k < |h| && h[k].step.ForMode() && forall i :: 0 <= i < k ==> !h[i].step.Fail?
    ensures RightTaints(site, WorldAt(start, h, k).published, h[k].step, d)
  {
    hide Durable, StepOk, SiteOk, UnsoundStart, RightTaints;
    SoundUnlessFailed(site, start, h, k);
    TaintsPrecedeHardware(site, start, h, k, d);
  }

  lemma StepIsProtected(site: Site, v: World, step: Step, w: World)
    requires StepOk(site, v, step, w) && step.ForMode() && v.sane
    ensures step.Apply? ==> site.cat.parse(step.device).Some?
    ensures v.published == Stamped(site.cat.synth, step.Mode(site.cat))
  {
  }

  /** The step may leave a slice published that is not the one of the ledger's taints. */
  predicate Silences(step: Step) {
    step == Publish(false) || step.Fail?
  }

  /** Since the last slice was published, a slice could not be, or an Unprepare failed after it had
      released its claim. */
  ghost predicate SilencedBefore(h: seq<Event>, k: nat)
    requires k <= |h|
  {
    exists j :: 0 <= j < k && Silences(h[j].step) && forall i :: j < i < k ==> h[i].step != Publish(true)
  }

  /** Exactly when a run counts the last slice as one that need not show the ledger's taints. */
  lemma {:induction false} SilentIff(site: Site, start: World, h: seq<Event>, k: nat)
    requires Run(site, start, h) && !start.silent && k <= |h|
    ensures WorldAt(start, h, k).silent <==> SilencedBefore(h, k)
  {
    hide StepOk, Durable, SilencedBefore;
    if k == 0 {
      NoneSilencedYet(h);
    } else {
      SilentIff(site, start, h, k - 1);
      StepSilences(site, WorldAt(start, h, k - 1), h[k - 1].step, h[k - 1].world);
      SilencedStep(h, k);
    }
  }

  lemma NoneSilencedYet(h: seq<Event>)
    ensures !SilencedBefore(h, 0)
  {
  }

  lemma SilencedStep(h: seq<Event>, k: nat)
    requires 0 < k <= |h|
    ensures SilencedBefore(h, k)
            <==> Silences(h[k - 1].step) || (SilencedBefore(h, k - 1) && h[k - 1].step != Publish(true))
  {
    if SilencedBefore(h, k - 1) {
      var j :| 0 <= j < k - 1 && Silences(h[j].step) && forall i :: j < i < k - 1 ==> h[i].step != Publish(true);
    }
  }

  lemma StepSilences(site: Site, v: World, step: Step, w: World)
    requires StepOk(site, v, step, w)
    ensures w.silent <==> Silences(step) || (v.silent && step != Publish(true))
  {
    hide Allowed, LedgerDurable, Users, Recover, OrderOk;
  }

  // ---------- reloads ----------

  /** What lets the plugin trigger again: a poll that saw the reload converge or run out of time, or
      a start from a checkpoint in which its marker had not been saved. */
  ghost predicate Ends(start: World, h: seq<Event>, k: nat)
    requires k < |h|
  {
    h[k].step == Poll(true) || (h[k].step.Restart? && WorldAt(start, h, k).disk.fields.reload.None?)
  }

  /** Once a reload was triggered, neither staging nor a second trigger happens before a poll saw it
      converge or run out of time, over all restarts, unless the plugin was started again from a
      checkpoint without the marker. */
  lemma ReloadsAreSeparated(site: Site, start: World, h: seq<Event>, i: nat, j: nat)
    requires Run(site, start, h) && i < j < |h|
    requires h[i].step.Reload? && h[i].world.reloading && (h[j].step.Reload? || h[j].step.Stage?)
    ensures exists k :: i < k < j && Ends(start, h, k)
  {
    hide Durable, StepOk, Ends;
    if forall k :: i < k < j ==> !Ends(start, h, k) {
      StillReloading(site, start, h, i, j);
      NoneWhileReloading(site, WorldAt(start, h, j), h[j].step, h[j].world);
    }
  }

  lemma {:induction false} StillReloading(site: Site, start: World, h: seq<Event>, i: nat, j: nat)
    requires Run(site, start, h) && i < j <= |h| && h[i].world.reloading
    requires forall k :: i < k < j ==> !Ends(start, h, k)
    ensures WorldAt(start, h, j).reloading
    decreases j
  {
    hide Durable, StepOk;
    if i + 1 < j {
      StillReloading(site, start, h, i, j - 1);
      assert !Ends(start, h, j - 1);
      NoneWhileReloading(site, WorldAt(start, h, j - 1), h[j - 1].step, h[j - 1].world);
    }
  }

  lemma NoneWhileReloading(site: Site, v: World, step: Step, w: World)
    requires StepOk(site, v, step, w) && v.reloading
    ensures !step.Stage? && !step.Reload?
    ensures w.reloading || step == Poll(true) || (step.Restart? && v.disk.fields.reload.None?)
  {
    hide LedgerDurable, Converged, Protected, ComputeEffect, Users, Recover, ReloadEffect, Excused;
  }

  // ---------- crashes ----------

  /** Exactly the checkpoints that recovery reads back as what they were written for. */
  ghost predicate Recoverable(site: Site, w: World) {
    || w.disk.fields.slots != map[]
    || !PreparedPartition(site.cat, w.disk.prepared)
    || Legacy(site.cat, site.plan, w.disk.fields, w.disk.prepared)
  }

  /** The ledger read back after a crash is the one the checkpoint was a snapshot of; every claim in
      use is reserved in it, and every prepared claim it has reserved holds the very slots its
      prepared devices name. */
  ghost predicate ReadsBack(site: Site, w: World, m: Ledger) {
    && Sound(m, site.cat, site.plan) && m == w.saved.(claims := Partitioned(site.plan, w.saved.claims))
    && w.inUse <= m.claims && SlotsKept(site, w.disk.prepared, m)
  }

  /** A crash at any point of any run is recovered from, exactly when the checkpoint can be; and
      then the plugin starts with a sane ledger again. All it takes is that every start before was
      from a checkpoint that could be recovered from. */
  lemma EveryCrashRecovers(site: Site, start: World, h: seq<Event>, k: nat)
    requires SiteOk(site) && Run(site, start, h) && start.sane && k <= |h| && !UnsoundStart(site, start, h, k)
    ensures var w := WorldAt(start, h, k);
            && (ReadsBack(site, w, Recover(site.cat, w.disk.fields, w.disk.prepared)) <==> Recoverable(site, w))
            && (AfterRestart(site, w).sane <==> Recoverable(site, w))
  {
    hide StepOk, Recover, ReadsBack, UnsoundStart, Durable, Recoverable, AfterRestart;
    SaneUnlessUnsound(site, start, h, k);
    RecoveredLedger(site, WorldAt(start, h, k));
    SaneAfterRestart(site, WorldAt(start, h, k));
  }

  lemma RecoveredLedger(site: Site, w: World)
    requires SiteOk(site) && Durable(site, w) && w.sane
    ensures var m := Recover(site.cat, w.disk.fields, w.disk.prepared);
            && (Sound(m, site.cat, site.plan) <==> Recoverable(site, w))
            && (ReadsBack(site, w, m) <==> Recoverable(site, w))
  {
    hide Sound, Legacy, PlanOk, OrderOk, Recover, SlotsMatch, Lists, RecordsDurable, InPlace, Matched, NoneReleased;
    if w.disk.fields == Fields(w.saved, w.disk.fields.reload) {
      RecoveryIsSoundIff(w.saved, site.cat, site.plan, w.disk.fields.reload, w.disk.prepared);
    }
    if Legacy(site.cat, site.plan, w.disk.fields, w.disk.prepared) {
      LegacyRecovers(site.cat, site.plan, w.disk.fields, w.disk.prepared);
      AllPartitioned(site.plan, w.disk.prepared.Keys);
    }
    if Recoverable(site, w) {
      forall c | c in w.inUse
        ensures c in Partitioned(site.plan, w.saved.claims)
      {
        assert Backed(site, w, c);
      }
    }
  }

  lemma AllPartitioned(plan: string -> seq<Share>, claims: set<string>)
    ensures Partitioned(plan, Partitioned(plan, claims)) == Partitioned(plan, claims)
  {
  }

  /** Starting again gives a sane ledger exactly when the checkpoint could be recovered from. */
  lemma SaneAfterRestart(site: Site, v: World)
    requires SiteOk(site) && Durable(site, v) && v.sane
    ensures AfterRestart(site, v).sane <==> Recoverable(site, v)
  {
    hide Sound, Legacy, PlanOk, OrderOk, Recover, SlotsMatch, Lists, RecordsDurable, InPlace, Recoverable;
    RecoveredLedger(site, v);
    if Recoverable(site, v) {
      var w := v.(saved := Recover(site.cat, v.disk.fields, v.disk.prepared));
      forall c | c in w.inUse
        ensures Backed(site, w, c)
      {
        assert Backed(site, v, c);
      }
      assert LedgerDurable(site, w);
    }
  }

  /** With a sane ledger a checkpoint can be recovered from, unless a claim is still on disk as
      prepared whose Unprepare failed after it had released it. */
  lemma RecoverableUnlessLost(site: Site, w: World)
    requires SiteOk(site) && Durable(site, w) && w.sane
    requires forall c :: IsPrepared(w.disk.prepared, c) ==> c !in w.lost
    ensures Recoverable(site, w)
  {
    hide Valid, Legacy, RecordsDurable, SlotsKept, Backed, Matched;
    if PreparedPartition(site.cat, w.disk.prepared) {
      var c :| c in w.disk.prepared && HasPartition(site.cat, w.disk.prepared[c]);
      var devices := w.disk.prepared[c];
      var i :| 0 <= i < |devices| && site.cat.parse(devices[i].device).Some?;
      assert Lists(site, c, devices);
      PartitionIsListed(site.cat, c, devices, |devices|, i);
      var s := SharesOfPrepared(site.cat, c, devices, |devices|)[0];
      assert PairOf(site.cat, s) in Pairs(site.cat, SharesOfPrepared(site.cat, c, devices, |devices|));
      HeldClaimIsHeld(w.saved, site.cat, site.plan, c);
    }
  }

  lemma {:induction false} PartitionIsListed(cat: Catalog, claim: string, devices: seq<PreparedDevice>, n: nat, i: nat)
    requires i < n <= |devices| && devices[i].device in cat.synth
    ensures SharesOfPrepared(cat, claim, devices, n) != []
  {
    if i < n - 1 {
      PartitionIsListed(cat, claim, devices, n - 1, i);
    }
  }

  /** In every run in which no Unprepare fails after its release, every crash is recovered from: at
      every point the ledger is sane and the checkpoint can be read back. */
  lemma {:induction false} RecoverableUnlessFailed(site: Site, start: World, h: seq<Event>, k: nat)
    requires SiteOk(site) && Run(site, start, h) && k <= |h| && start.sane && start.lost == {}
    requires forall i :: 0 <= i < k ==> !h[i].step.Fail?
    ensures WorldAt(start, h, k).lost == {}
    ensures WorldAt(start, h, k).sane && Recoverable(site, WorldAt(start, h, k))
  {
    hide StepOk, Durable, Recoverable;
    if k > 0 {
      RecoverableUnlessFailed(site, start, h, k - 1);
      LostUnlessFailed(site, WorldAt(start, h, k - 1), h[k - 1].step, h[k - 1].world);
      SaneUnlessRestarted(site, WorldAt(start, h, k - 1), h[k - 1].step, h[k - 1].world);
      if h[k - 1].step.Restart? {
        SaneAfterRestart(site, WorldAt(start, h, k - 1));
      }
    }
    RecoverableUnlessLost(site, WorldAt(start, h, k));
  }

  lemma LostUnlessFailed(site: Site, v: World, step: Step, w: World)
    requires StepOk(site, v, step, w) && !step.Fail?
    ensures w.lost <= v.lost
  {
    hide Allowed, LedgerDurable, Users, Recover, OrderOk;
  }

  /** In such a run, whenever the plugin starts again, every prepared claim with shares is reserved,
      and every prepared partition holds the very slot that was written down for it. */
  lemma PreparedSlotsAreRecovered(site: Site, start: World, h: seq<Event>, k: nat, claim: string, i: nat)
    requires SiteOk(site) && Run(site, start, h) && k <= |h| && start.sane && start.lost == {}
    requires forall j :: 0 <= j < k ==> !h[j].step.Fail?
    requires IsPrepared(WorldAt(start, h, k).disk.prepared, claim) && site.plan(claim) != []
    requires i < |WorldAt(start, h, k).disk.prepared[claim]|
    ensures OrderOk(site.cat)
    ensures var disk := WorldAt(start, h, k).disk;
            var m, d := Recover(site.cat, disk.fields, disk.prepared), disk.prepared[claim][i];
            claim in m.claims && (d.slot.Some? ==> SlotMatches(site, claim, d, m.slots))
  {
    hide StepOk, Recover, Recoverable, Snapshot, Sound, Lists, InPlace, RecordsDurable, Matched, SlotMatches;
    RecoverableUnlessFailed(site, start, h, k);
    RecoveredLedger(site, WorldAt(start, h, k));
  }

  /** With a marker on disk, its mode is the active memory mode on disk exactly if there is one, that
      is, if some share is held. */
  lemma MarkerOnDiskIsActiveIff(site: Site, start: World, h: seq<Event>, k: nat)
    requires SiteOk(site) && Run(site, start, h) && start.sane && k <= |h| && !UnsoundStart(site, start, h, k)
    ensures var w := WorldAt(start, h, k);
            w.disk.fields.reload.Some? ==>
              && (w.disk.fields.reload.value == w.disk.fields.memoryMode <==> Held(w.saved.slots) != {})
              && (w.disk.fields.memoryMode == "" <==> Held(w.saved.slots) == {})
  {
    hide StepOk, UnsoundStart, SiteOk, Recover, Lists, SlotsKept, NoneReleased, Backed, RecordsDurable;
    SaneUnlessUnsound(site, start, h, k);
    var w := WorldAt(start, h, k);
    if w.disk.fields.reload.Some? {
      MarkerIsActiveIn(site, w);
    }
  }

  lemma MarkerIsActiveIn(site: Site, w: World)
    requires SiteOk(site) && Durable(site, w) && w.sane && w.disk.fields.reload.Some?
    ensures w.disk.fields.memoryMode == w.saved.memoryMode
    ensures w.disk.fields.reload.value == w.saved.memoryMode <==> Held(w.saved.slots) != {}
    ensures w.saved.memoryMode == "" <==> Held(w.saved.slots) == {}
  {
    hide Recover, Lists, SlotsKept, NoneReleased, Backed, RecordsDurable, PlanOk, Legacy;
    NoneHeldIffEmpty(w.saved.slots);
    NothingHeldIn(w.saved.slots);
    if w.disk.fields != Fields(w.saved, w.disk.fields.reload) {
      LegacyMode(site, w);
    }
  }

  lemma LegacyMode(site: Site, w: World)
    requires SiteOk(site) && Legacy(site.cat, site.plan, w.disk.fields, w.disk.prepared)
    ensures OrderOk(site.cat)
    ensures Recover(site.cat, w.disk.fields, w.disk.prepared).memoryMode == w.disk.fields.memoryMode
  {
    hide PlanOk;
    var order := site.cat.order(w.disk.prepared.Keys);
    CountsClaims(Uncounted(site.cat, w.disk.fields), site.cat, w.disk.prepared, order);
  }

  lemma SaneUnlessRestarted(site: Site, v: World, step: Step, w: World)
    requires StepOk(site, v, step, w)
    ensures if step.Restart? then OrderOk(site.cat) && w == AfterRestart(site, v) else w.sane == v.sane
  {
    hide Allowed, LedgerDurable, Users, Recover, OrderOk;
  }

  /** At every point of every run, whatever became of the reservation ledger, a GPU that is away
      from amdgpu has a record on disk that names the device, what the device was, and the one
      claim it was converted for. */
  lemma EveryConversionIsOnDisk(site: Site, start: World, h: seq<Event>, k: nat, device: string)
    requires Run(site, start, h) && k <= |h| && device in site.fleet
    requires !OnAmdgpu(site, WorldAt(start, h, k).drivers, device)
    ensures var disk := WorldAt(start, h, k).disk;
            exists c ::
              && Records(disk.vfio, c, device) && disk.vfio[c][device] == site.fleet[device]
              && (forall d :: Records(disk.vfio, d, device) ==> d == c)
              && (IsPrepared(disk.prepared, c) ==> Names(disk.prepared[c], device))
  {
    hide StepOk, LedgerDurable;
    var w := WorldAt(start, h, k);
    assert Durable(site, w);
    var c :| Records(w.disk.vfio, c, device);
  }
}
