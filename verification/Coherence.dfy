/**
 What ties the plugin's memory to the world between two calls.

 `InStep` relates the ledger and the reload marker to the disk, the hardware and the published
 slice, for a ledger that was sane when the plugin started. The lemmas say that reserving,
 releasing, publishing and saving keep it, and that it gives the hardware phase of Prepare
 everything it needs.
 */
module Coherence {
  import opened Wrappers
  import opened Ledgers
  import opened Claims
  import opened Recovery
  import opened Worlds

  ghost predicate InStep(site: Site, l: Ledger, marker: Option<string>, w: World) {
    && (marker.None? ==> !w.reloading)
    && (w.sane ==> LedgerInStep(site, l, marker, w))
  }

  ghost predicate LedgerInStep(site: Site, l: Ledger, marker: Option<string>, w: World) {
    && Sound(l, site.cat, site.plan)
    && (l.memoryMode != "" ==> Protected(site, w.published, l.memoryMode))
    && w.inUse <= l.claims && SlotsKept(site, w.disk.prepared, l)
    && (marker.Some? ==> w.inUse <= w.spoiled)
  }

  /** A marker that matches the ledger names its memory mode exactly if some share is held. */
  lemma MatchedIsActiveIff(site: Site, l: Ledger, mode: string)
    requires Sound(l, site.cat, site.plan) && Matched(l, Some(mode))
    ensures l.memoryMode == mode <==> Held(l.slots) != {}
  {
    NoneHeldIffEmpty(l.slots);
    if Held(l.slots) != {} {
      NothingHeldIn(l.slots);
    }
  }

  // ---------- hardware ----------

  lemma HeldShareMatches(l: Ledger, cat: Catalog, plan: string -> seq<Share>, claim: string, s: Share)
    requires Sound(l, cat, plan) && PlanOk(cat, plan) && claim in l.claims && s in plan(claim)
    ensures cat.parse(s.device).Some?
    ensures var d := cat.parse(s.device).value;
            && d.memory == l.memoryMode && l.memoryMode != ""
            && d.gpu in l.computeModes && d.compute == l.computeModes[d.gpu]
  {
    assert SharesOf(cat, claim, plan(claim));
    assert PairOf(cat, s) in Pairs(cat, plan(claim));
    HeldClaimIsHeld(l, cat, plan, claim);
    HeldIff(l.slots, GpuOf(cat, s), s.key);
  }

  /** A reserved claim may be applied: its taints are out, and whoever runs as it was prepared is
      in its modes. */
  lemma ReadyToApply(site: Site, l: Ledger, marker: Option<string>, w: World, claim: string, s: Share)
    requires SiteOk(site) && Durable(site, w) && InStep(site, l, marker, w) && w.sane
    requires claim in l.claims && s in site.plan(claim)
    ensures site.cat.parse(s.device).Some?
    ensures var d := site.cat.parse(s.device).value;
            && Protected(site, w.published, d.memory)
            && (w.inUse <= w.spoiled || Converged(site, w.hw.memory, d.memory))
            && (Users(site, w.inUse, d.gpu) <= w.spoiled || Read(w.hw.compute, d.gpu) == d.compute)
  {
    hide Sound, PlanOk, Protected, Snapshot, Lists, RecordsDurable, SlotsKept, NoneReleased, Converged, Matched;
    HeldShareMatches(l, site.cat, site.plan, claim, s);
    forall c, t | c in w.inUse && c !in w.spoiled && t in site.plan(c)
      ensures InPlace(site, w.hw, t.device) && site.cat.parse(t.device).value.memory == l.memoryMode
      ensures var g := GpuOf(site.cat, t); g in l.computeModes && Read(w.hw.compute, g) == l.computeModes[g]
    {
      assert Backed(site, w, c);
      HeldShareMatches(l, site.cat, site.plan, c, t);
    }
    if c :| c in w.inUse && c !in w.spoiled {
      assert Backed(site, w, c);
      assert site.plan(c)[0] in site.plan(c);
    }
    var gpu := site.cat.parse(s.device).value.gpu;
    if c :| c in Users(site, w.inUse, gpu) && c !in w.spoiled {
      var i :| 0 <= i < |site.plan(c)| && GpuOf(site.cat, site.plan(c)[i]) == gpu;
      assert site.plan(c)[i] in site.plan(c);
    }
  }

  /** The devices of one claim never ask for different things. */
  lemma DevicesAgree(l: Ledger, site: Site, claim: string, s: Share, t: Share)
    requires Sound(l, site.cat, site.plan) && SiteOk(site) && claim in l.claims
    requires s in site.plan(claim) && t in site.plan(claim)
    ensures site.cat.parse(s.device).Some? && site.cat.parse(t.device).Some?
    ensures !Clash(site.cat.parse(s.device).value, site.cat.parse(t.device).value)
    ensures site.cat.parse(s.device).value.memory == l.memoryMode
  {
    HeldShareMatches(l, site.cat, site.plan, claim, s);
    HeldShareMatches(l, site.cat, site.plan, claim, t);
  }

  lemma StaysInPlace(l: Ledger, site: Site, claim: string, device: string, other: string, a: Hardware, b: Hardware)
    requires SiteOk(site) && Sound(l, site.cat, site.plan) && claim in l.claims
    requires exists i :: 0 <= i < |site.plan(claim)| && site.plan(claim)[i].device == device
    requires exists i :: 0 <= i < |site.plan(claim)| && site.plan(claim)[i].device == other
    requires InPlace(site, a, device) && Undisturbed(site, a, b, other)
    ensures InPlace(site, b, device)
  {
    hide Sound, Converged;
    var i :| 0 <= i < |site.plan(claim)| && site.plan(claim)[i].device == device;
    var j :| 0 <= j < |site.plan(claim)| && site.plan(claim)[j].device == other;
    DevicesAgree(l, site, claim, site.plan(claim)[i], site.plan(claim)[j]);
  }

  /** The hardware phase keeps step: it changes neither claims nor what is published. */
  lemma AppliedInStep(site: Site, l: Ledger, before: Option<string>, after: Option<string>, v: World, w: World)
    requires InStep(site, l, before, v) && v.spoiled <= w.spoiled
    requires w == v.(hw := w.hw, reloading := w.reloading, misread := w.misread, spoiled := w.spoiled)
    requires (v.sane && after.Some? ==> w.inUse <= w.spoiled) && (after.None? ==> !w.reloading)
    ensures InStep(site, l, after, w)
  {
    hide Sound, Protected, SlotsKept;
  }

  // ---------- ledger steps ----------

  lemma SameMode(a: Ledger, b: Ledger, cat: Catalog)
    requires Valid(a, cat) && Valid(b, cat) && Held(a.slots) <= Held(b.slots) && a.slots != map[]
    ensures a.memoryMode == b.memoryMode
  {
    var g, k := HeldShare(a.slots);
    HeldIff(a.slots, g, k);
    HeldIff(b.slots, g, k);
  }

  lemma SlotsStay(site: Site, prepared: PreparedClaims, l: Ledger, m: Ledger)
    requires SlotsKept(site, prepared, l) && Agree(l.slots, m.slots) && Sound(m, site.cat, site.plan)
    requires forall c :: IsPrepared(prepared, c) && c in m.claims ==> c in l.claims
    ensures SlotsKept(site, prepared, m)
  {
    hide Valid, Held, Pairs;
    forall c | IsPrepared(prepared, c) && c in m.claims
      ensures SlotsMatch(site, c, prepared[c], m.slots)
    {
      HeldClaimIsHeld(m, site.cat, site.plan, c);
      forall i | 0 <= i < |prepared[c]| && prepared[c][i].slot.Some?
        ensures SlotMatches(site, c, prepared[c][i], m.slots)
      {
        assert SlotMatches(site, c, prepared[c][i], l.slots);
        HeldIff(m.slots, site.cat.parse(prepared[c][i].device).value.gpu, prepared[c][i].key);
      }
    }
  }

  /** Any sound ledger that moved no slot, lost no claim in use and did not switch the mode. */
  lemma InStepWith(site: Site, l: Ledger, m: Ledger, marker: Option<string>, v: World, w: World)
    requires InStep(site, l, marker, v)
    requires w == v.(inUse := w.inUse, published := w.published, silent := w.silent) && w.inUse <= v.inUse
    requires v.sane ==>
               && Sound(m, site.cat, site.plan) && Agree(l.slots, m.slots) && w.inUse <= m.claims
               && (forall c :: IsPrepared(v.disk.prepared, c) && c in m.claims ==> c in l.claims)
               && (m.memoryMode != "" ==> Protected(site, w.published, m.memoryMode))
    ensures InStep(site, m, marker, w)
  {
    hide Sound, Protected, Agree, SlotsKept;
    if v.sane {
      SlotsStay(site, v.disk.prepared, l, m);
    }
  }

  lemma PublishedTaints(l: Ledger, site: Site)
    requires Valid(l, site.cat) && l.memoryMode != ""
    ensures Protected(site, l.taints, l.memoryMode)
  {
  }

  /** Reserving a claim keeps step, once the taints are published if they changed. */
  lemma ReservedInStep(site: Site, l: Ledger, marker: Option<string>, w: World, claim: string)
    requires SiteOk(site) && InStep(site, l, marker, w) && !IsPrepared(w.disk.prepared, claim)
    ensures var r := ReserveClaim(l, site.cat, claim, site.plan(claim));
            && (w.sane ==>
                  && Sound(r.ledger, site.cat, site.plan)
                  && (!r.ok ==> r.ledger == l && claim !in l.claims)
                  && (r.ok ==> r.ledger.claims == l.claims + {claim} && Agree(l.slots, r.ledger.slots)))
            && InStep(site, r.ledger, marker, AfterPublish(w, r.ok && r.taintsChanged, r.ledger.taints))
            && (w.sane && Announced(l, w) ==>
                  Announced(r.ledger, AfterPublish(w, r.ok && r.taintsChanged, r.ledger.taints)))
  {
    hide Valid, Protected, Agree, KeyOf, Pairs, PlanOk, ReserveClaim;
    var r := ReserveClaim(l, site.cat, claim, site.plan(claim));
    var after := AfterPublish(w, r.ok && r.taintsChanged, r.ledger.taints);
    SilentReserve(l, site.cat, claim, site.plan(claim));
    if w.sane {
      ReserveClaimIsSound(l, site.cat, site.plan, claim);
      if r.ok {
        ReservedMode(l, site, claim);
      }
    }
    if w.sane && !r.ok {
      assert r.ledger == l && after == w;
    } else {
      InStepWith(site, l, r.ledger, marker, w, after);
    }
  }

  /** The world once the taints are out, if they had to be. */
  function AfterPublish(w: World, changed: bool, taints: map<string, string>): World {
    if changed then w.(published := taints, silent := false) else w
  }

  /** A reservation that reports no change leaves the taints as they are. */
  lemma SilentReserve(l: Ledger, cat: Catalog, claim: string, shares: seq<Share>)
    ensures var r := ReserveClaim(l, cat, claim, shares); r.ok && !r.taintsChanged ==> r.ledger.taints == l.taints
  {
    SilentReserves(l, cat, shares, |shares|);
  }

  lemma {:induction false} SilentReserves(l: Ledger, cat: Catalog, shares: seq<Share>, n: nat)
    requires n <= |shares|
    ensures var r := ReserveUpTo(l, cat, shares, n); r.ok && !r.taintsChanged ==> r.ledger.taints == l.taints
  {
    if n > 0 {
      SilentReserves(l, cat, shares, n - 1);
    }
  }

  /** So does a release that reports no change, and it leaves the mode as well. */
  lemma SilentRelease(l: Ledger, cat: Catalog, claim: string, shares: seq<Share>)
    ensures var r := ReleaseClaim(l, cat, claim, shares);
            !r.taintsChanged ==> r.ledger.taints == l.taints && r.ledger.memoryMode == l.memoryMode
    ensures claim !in l.claims ==> !ReleaseClaim(l, cat, claim, shares).taintsChanged
  {
    SilentReleases(l, cat, shares, |shares|);
  }

  lemma {:induction false} SilentReleases(l: Ledger, cat: Catalog, shares: seq<Share>, n: nat)
    requires n <= |shares|
    ensures var r := ReleaseUpTo(l, cat, shares, n);
            !r.taintsChanged ==> r.ledger.taints == l.taints && r.ledger.memoryMode == l.memoryMode
  {
    if n > 0 {
      SilentReleases(l, cat, shares, n - 1);
    }
  }

  lemma ReservedMode(l: Ledger, site: Site, claim: string)
    requires Sound(l, site.cat, site.plan) && PlanOk(site.cat, site.plan)
    ensures var r := ReserveClaim(l, site.cat, claim, site.plan(claim));
            && (r.ok && r.taintsChanged && r.ledger.memoryMode != "" ==>
                  Protected(site, r.ledger.taints, r.ledger.memoryMode))
            && (!r.taintsChanged ==> r.ledger.memoryMode == l.memoryMode)
  {
    hide Protected, Held, Pairs, SharesOf, ReserveUpTo;
    var r := ReserveClaim(l, site.cat, claim, site.plan(claim));
    ReserveClaimIsSound(l, site.cat, site.plan, claim);
    if r.ledger.memoryMode != "" {
      PublishedTaints(r.ledger, site);
    }
    if r.ok && claim !in l.claims {
      if l.slots != map[] {
        PlansAreDisjoint(site.cat, site.plan, claim, l.claims);
        SameMode(l, r.ledger, site.cat);
      } else if !r.taintsChanged {
        NothingReserved(l, site.cat, claim, site.plan(claim));
      }
    }
  }

  lemma NothingReserved(l: Ledger, cat: Catalog, claim: string, shares: seq<Share>)
    requires shares == []
    ensures ReserveClaim(l, cat, claim, shares).ledger.memoryMode == l.memoryMode
  {
  }

  /** Releasing a claim keeps step, as soon as the claim is no longer in use, and leaves a marker
      that matches. */
  lemma ReleasedInStep(site: Site, l: Ledger, marker: Option<string>, w: World, claim: string, shares: seq<Share>)
    requires SiteOk(site) && InStep(site, l, marker, w) && claim !in w.inUse
    requires w.sane ==>
               SharesOf(site.cat, claim, shares) && Pairs(site.cat, shares) == Pairs(site.cat, site.plan(claim))
    ensures var r := ReleaseClaim(l, site.cat, claim, shares);
            && InStep(site, r.ledger, marker, w)
            && (w.sane ==>
                  && r.ok && claim !in r.ledger.claims && Agree(l.slots, r.ledger.slots)
                  && r.ledger == ReleaseClaim(l, site.cat, claim, site.plan(claim)).ledger)
            && (w.sane && Matched(l, marker) ==> Matched(r.ledger, marker))
  {
    hide Valid, Protected, Agree, KeyOf, Pairs, SharesOf, ReleaseClaim, PlanOk, Matched;
    var r := ReleaseClaim(l, site.cat, claim, shares);
    if w.sane {
      ReleaseClaimIsSound(l, site.cat, site.plan, claim, shares);
      ReleasedMode(l, site, claim, shares);
      StillMatched(l, r.ledger, marker, site.cat);
    }
    InStepWith(site, l, r.ledger, marker, w, w);
  }

  lemma StillMatched(l: Ledger, m: Ledger, marker: Option<string>, cat: Catalog)
    requires Valid(l, cat) && Valid(m, cat) && (m.memoryMode == "" || m.memoryMode == l.memoryMode)
    ensures Matched(l, marker) ==> Matched(m, marker)
  {
  }

  lemma ReleasedMode(l: Ledger, site: Site, claim: string, shares: seq<Share>)
    requires Sound(l, site.cat, site.plan) && PlanOk(site.cat, site.plan)
    requires SharesOf(site.cat, claim, shares) && Pairs(site.cat, shares) == Pairs(site.cat, site.plan(claim))
    ensures var m := ReleaseClaim(l, site.cat, claim, shares).ledger;
            m.memoryMode == "" || m.memoryMode == l.memoryMode
  {
    hide Held, Pairs, SharesOf, ReleaseUpTo;
    var m := ReleaseClaim(l, site.cat, claim, shares).ledger;
    ReleaseClaimIsSound(l, site.cat, site.plan, claim, shares);
    if claim in l.claims && m.slots != map[] {
      ReleaseReserved(l, site.cat, site.plan, claim, shares);
      SameMode(m, l, site.cat);
    }
  }

  /** Reserving a claim and releasing it again is releasing it. */
  lemma ReserveThenRelease(l: Ledger, site: Site, claim: string)
    requires Sound(l, site.cat, site.plan) && PlanOk(site.cat, site.plan)
    ensures var r := ReserveClaim(l, site.cat, claim, site.plan(claim));
            r.ok ==> ReleaseClaim(r.ledger, site.cat, claim, site.plan(claim)).ledger
                     == ReleaseClaim(l, site.cat, claim, site.plan(claim)).ledger
  {
    hide Valid, Held, Pairs, SharesOf, ReserveUpTo, ReleaseUpTo, Agree;
    var shares := site.plan(claim);
    assert SharesOf(site.cat, claim, shares);
    ReserveClaimIsSound(l, site.cat, site.plan, claim);
    var m := ReserveClaim(l, site.cat, claim, shares).ledger;
    if ReserveClaim(l, site.cat, claim, shares).ok && claim !in l.claims {
      ReleaseReserved(m, site.cat, site.plan, claim, shares);
      ReleaseClaimIsSound(m, site.cat, site.plan, claim, shares);
      var back := ReleaseClaim(m, site.cat, claim, shares).ledger;
      PlansAreDisjoint(site.cat, site.plan, claim, l.claims);
      assert back.claims == l.claims;
      assert Held(back.slots) == Held(l.slots);
      AgreeThrough(l.slots, m.slots, back.slots);
      SameLedger(l, back, site.cat);
    }
  }

  lemma SameLedger(a: Ledger, b: Ledger, cat: Catalog)
    requires Valid(a, cat) && Valid(b, cat) && a.claims == b.claims && Held(a.slots) == Held(b.slots)
    requires Agree(a.slots, b.slots)
    ensures a == b
  {
    SameSlots(a.slots, b.slots);
    Determined(a, b, cat);
  }

  lemma PlannedShares(site: Site, claim: string)
    requires SiteOk(site)
    ensures SharesOf(site.cat, claim, site.plan(claim))
  {
  }

  lemma RepublishedInStep(site: Site, l: Ledger, marker: Option<string>, w: World)
    requires InStep(site, l, marker, w)
    ensures InStep(site, l, marker, w.(published := l.taints, silent := false))
    ensures InStep(site, l, marker, w.(silent := true))
  {
    hide Protected, Agree, SlotsKept;
    if w.sane && l.memoryMode != "" {
      PublishedTaints(l, site);
    }
  }

  lemma ReserveThenReleaseAt(site: Site, l: Ledger, marker: Option<string>, w: World, claim: string)
    requires SiteOk(site) && InStep(site, l, marker, w) && w.sane
    ensures var r := ReserveClaim(l, site.cat, claim, site.plan(claim));
            r.ok ==> ReleaseClaim(r.ledger, site.cat, claim, site.plan(claim)).ledger
                     == ReleaseClaim(l, site.cat, claim, site.plan(claim)).ledger
  {
    ReserveThenRelease(l, site, claim);
  }

  /** When the new taints could not be published, releasing the claim restores step. */
  lemma ReservedUnpublished(site: Site, l: Ledger, marker: Option<string>, w: World, claim: string)
    requires SiteOk(site) && InStep(site, l, marker, w) && claim !in w.inUse
    requires ReserveClaim(l, site.cat, claim, site.plan(claim)).taintsChanged
    ensures var m := ReserveClaim(l, site.cat, claim, site.plan(claim)).ledger;
            var after := ReleaseClaim(m, site.cat, claim, site.plan(claim)).ledger;
            && InStep(site, after, marker, w.(silent := true))
            && (w.sane ==>
                  && claim !in after.claims && after == ReleaseClaim(l, site.cat, claim, site.plan(claim)).ledger
                  && (Matched(l, marker) ==> Matched(after, marker)))
  {
    hide Valid, Protected, Agree, KeyOf, Pairs, SharesOf, ReleaseClaim, ReserveClaim, PlanOk, Matched;
    PlannedShares(site, claim);
    if w.sane {
      ReserveClaimIsSound(l, site.cat, site.plan, claim);
      ReserveThenRelease(l, site, claim);
      ReleasedInStep(site, l, marker, w, claim, site.plan(claim));
      var after := ReleaseClaim(l, site.cat, claim, site.plan(claim)).ledger;
      InStepElsewhere(site, after, marker, w, w.(silent := true));
    }
  }

  /** A claim without shares does not touch the modes; a claim with shares that goes on to be
      granted or to wait has the marker's mode, or there is no marker. */
  lemma ReservedMatched(site: Site, l: Ledger, marker: Option<string>, w: World, claim: string, s: Share)
    requires InStep(site, l, marker, w) && w.sane && SiteOk(site)
    requires claim in l.claims && s in site.plan(claim) && site.cat.parse(s.device).Some?
    requires marker == Some(site.cat.parse(s.device).value.memory)
    ensures Matched(l, marker)
  {
    hide Sound, Protected, SlotsKept;
    HeldShareMatches(l, site.cat, site.plan, claim, s);
  }

  // ---------- saving ----------

  /** Only the conversion records change. */
  lemma RecordsAreDurable(site: Site, w: World, conv: Conversions)
    requires Durable(site, w) && RecordsOk(site, conv) && Covered(site, conv, w.drivers)
    requires Owned(w.disk.prepared, conv)
    ensures Durable(site, w.(disk := w.disk.(vfio := conv)))
  {
    hide Legacy, Lists, RecordsOk, Covered, Owned, SlotsKept, NoneReleased, Matched, Sound, InPlace;
  }

  /** A snapshot of the ledger, beside prepared claims that include the ones in use. */
  lemma SnapshotIsDurable(site: Site, w: World, l: Ledger, marker: Option<string>, prepared: PreparedClaims,
                          conv: Conversions)
    requires SiteOk(site) && Durable(site, w) && InStep(site, l, marker, w)
    requires forall c :: c in w.inUse ==> IsPrepared(prepared, c)
    requires w.sane ==>
               && (forall c :: IsPrepared(prepared, c) ==> Lists(site, c, prepared[c]))
               && SlotsKept(site, prepared, l) && NoneReleased(site, prepared, w.lost, l) && Matched(l, marker)
    requires RecordsOk(site, conv) && Covered(site, conv, w.drivers) && Owned(prepared, conv)
    ensures Durable(site, w.(disk := Checkpoint(prepared, Fields(l, marker), conv), saved := l))
  {
    hide Legacy, Lists, RecordsOk, Covered, Owned, SlotsKept, NoneReleased, Matched, Sound, InPlace, PlanOk, Protected;
    var after := w.(disk := Checkpoint(prepared, Fields(l, marker), conv), saved := l);
    if w.sane {
      forall c | c in w.inUse
        ensures Backed(site, after, c)
      {
        assert Backed(site, w, c);
      }
    }
  }

  /** Step does not depend on anything else of the world. */
  lemma InStepElsewhere(site: Site, l: Ledger, marker: Option<string>, v: World, w: World)
    requires InStep(site, l, marker, v)
    requires w.inUse == v.inUse && w.published == v.published && w.reloading == v.reloading
    requires w.spoiled == v.spoiled && w.sane == v.sane
    requires w.sane ==> SlotsKept(site, w.disk.prepared, l)
    ensures InStep(site, l, marker, w)
  {
    hide Sound, Protected, SlotsKept;
  }
}
