/**
 Names of CDI devices.

 The spec file of a claim and the names handed to kubelet are built in two places from the same
 naming function. A partition's name ends in the slot it was given.
 */
module CdiNames {
  import opened DeviceNames
  import opened Ledgers
  import opened Claims
  import opened Recovery
  import opened Naming
  import opened Worlds
  import opened Preparing

  const CDI_KIND := "k8s.gpu.amd.com/gpu"
  const COMMON := "common"

  function CdiName(uid: string, d: PreparedDevice): string {
    if d.slot.None? then uid + "-" + d.device else uid + "-" + d.device + "-slot" + Digits(d.slot.value)
  }

  function Qualified(name: string): string {
    CDI_KIND + "=" + name
  }

  /** The device names of the claim's spec, in the order of the devices. */
  method CreateClaimSpecFile(uid: string, devices: seq<PreparedDevice>) returns (names: seq<string>)
    ensures |names| == |devices| && forall i :: 0 <= i < |devices| ==> names[i] == CdiName(uid, devices[i])
  {
    names := [];
    var i := 0;
    while i < |devices|
      invariant 0 <= i <= |devices|
      invariant |names| == i && forall j :: 0 <= j < i ==> names[j] == CdiName(uid, devices[j])
    {
      names := names + [CdiName(uid, devices[i])];
      i := i + 1;
    }
  }

  /** The names kubelet is given: the common device, then one for each device. */
  method GetClaimDevices(uid: string, devices: seq<PreparedDevice>) returns (names: seq<string>)
    ensures |names| == |devices| + 1 && names[0] == Qualified(COMMON)
    ensures forall i :: 0 <= i < |devices| ==> names[i + 1] == Qualified(CdiName(uid, devices[i]))
  {
    names := [Qualified(COMMON)];
    var i := 0;
    while i < |devices|
      invariant 0 <= i <= |devices| && |names| == i + 1 && names[0] == Qualified(COMMON)
      invariant forall j :: 0 <= j < i ==> names[j + 1] == Qualified(CdiName(uid, devices[j]))
    {
      names := names + [Qualified(CdiName(uid, devices[i]))];
      i := i + 1;
    }
  }

  /** Whatever is written to the spec is what kubelet asks for, besides the common device. */
  method BothAgree(uid: string, devices: seq<PreparedDevice>) returns (written: seq<string>, asked: seq<string>)
    ensures forall name ::
              name in asked
              <==> || name == "k8s.gpu.amd.com/gpu=common"
                   || exists i :: 0 <= i < |written| && name == "k8s.gpu.amd.com/gpu=" + written[i]
  {
    assert Qualified(COMMON) == "k8s.gpu.amd.com/gpu=common";
    written := CreateClaimSpecFile(uid, devices);
    asked := GetClaimDevices(uid, devices);
    forall name
      ensures name in asked
              <==> name == Qualified(COMMON) || exists i :: 0 <= i < |written| && name == Qualified(written[i])
    {
      if name in asked {
        var k :| 0 <= k < |asked| && asked[k] == name;
        if k > 0 {
          assert name == Qualified(written[k - 1]);
        }
      }
      if i :| 0 <= i < |written| && name == Qualified(written[i]) {
        assert asked[i + 1] == name;
      }
    }
  }

  // ---------- names differ ----------

  /** The name ends like the name of a partition. */
  ghost predicate LooksSlotted(device: string) {
    exists front: string, n: nat :: device == front + "-slot" + Digits(n)
  }

  /** The part before the slot and the slot can be read back from a partition's name. */
  lemma SlotReadsBack(a: string, m: nat, b: string, n: nat)
    ensures a + "-slot" + Digits(m) == b + "-slot" + Digits(n) <==> a == b && m == n
  {
    var s, t := a + "-slot" + Digits(m), b + "-slot" + Digits(n);
    if s == t {
      DashBeforeDigits(a, m);
      DashBeforeDigits(b, n);
      assert s[..|a|] == a && t[..|b|] == b;
      assert s[|a| + 5..] == Digits(m) && t[|b| + 5..] == Digits(n);
      DigitsHaveTheirValue(m);
      DigitsHaveTheirValue(n);
    }
  }

  lemma DashBeforeDigits(a: string, m: nat)
    ensures var s := a + "-slot" + Digits(m); s[|a|] == '-' && forall i :: |a| < i < |s| ==> s[i] != '-'
  {
    var s := a + "-slot" + Digits(m);
    forall i | |a| < i < |s|
      ensures s[i] != '-'
    {
      if i < |a| + 5 {
        assert s[i] == "-slot"[i - |a|];
      } else {
        assert s[i] == Digits(m)[i - |a| - 5];
      }
    }
  }

  /** Two devices can be told apart by their names: partitions by device and slot together,
      others by device. */
  predicate Apart(d: PreparedDevice, e: PreparedDevice) {
    d.device != e.device || (d.slot.Some? && e.slot.Some? && d.slot != e.slot)
  }

  lemma NamesDiffer(uid: string, d: PreparedDevice, e: PreparedDevice)
    requires Apart(d, e)
    requires (d.slot.None? ==> !LooksSlotted(d.device)) && (e.slot.None? ==> !LooksSlotted(e.device))
    ensures CdiName(uid, d) != CdiName(uid, e)
  {
    var x, y := uid + "-" + d.device, uid + "-" + e.device;
    SamePrefix(uid + "-", d.device, e.device);
    if d.slot.Some? && e.slot.Some? {
      SlotReadsBack(x, d.slot.value, y, e.slot.value);
    } else if d.slot.Some? {
      SamePrefix(uid + "-", d.device + "-slot" + Digits(d.slot.value), e.device);
      assert x + "-slot" + Digits(d.slot.value) == uid + "-" + (d.device + "-slot" + Digits(d.slot.value));
    } else if e.slot.Some? {
      SamePrefix(uid + "-", d.device, e.device + "-slot" + Digits(e.slot.value));
      assert y + "-slot" + Digits(e.slot.value) == uid + "-" + (e.device + "-slot" + Digits(e.slot.value));
    }
  }

  lemma SamePrefix(p: string, a: string, b: string)
    ensures p + a == p + b <==> a == b
  {
    assert (p + a)[|p|..] == a && (p + b)[|p|..] == b;
  }

  /** Claims with UIDs of one length, as all UIDs are, never share a name in their specs. */
  lemma ClaimsNamesDiffer(uid: string, d: PreparedDevice, other: string, e: PreparedDevice)
    requires uid != other && |uid| == |other|
    ensures CdiName(uid, d) != CdiName(other, e) && Qualified(CdiName(uid, d)) != Qualified(CdiName(other, e))
  {
    assert CdiName(uid, d)[..|uid|] == uid && CdiName(other, e)[..|uid|] == other;
    SamePrefix(CDI_KIND + "=", CdiName(uid, d), CdiName(other, e));
  }

  /** No device of a claim is taken for the common one. */
  lemma NotCommon(uid: string, d: PreparedDevice)
    ensures Qualified(CdiName(uid, d)) != Qualified(COMMON)
  {
    assert CdiName(uid, d)[|uid|] == '-';
    assert forall i :: 0 <= i < |COMMON| ==> COMMON[i] != '-';
    SamePrefix(CDI_KIND + "=", CdiName(uid, d), COMMON);
  }

  /** A whole GPU is not named like a partition with a slot. */
  lemma GpuIsNotSlotted(card: int, render: int)
    ensures !LooksSlotted(GpuName(card, render))
  {
    var name := GpuName(card, render);
    assert name[0] == 'g' && name[1] == 'p' && name[2] == 'u';
    forall front: string, n: nat
      ensures name != front + "-slot" + Digits(n)
    {
      var slotted := front + "-slot" + Digits(n);
      assert slotted[|front| + 1] == 's' && slotted[|front|] == '-';
      if name == slotted {
        if |front| + 1 >= 4 {
          NoLetterAfterPrefix(card, render, |front| + 1);
        }
        assert false;
      }
    }
  }

  /** Nor is a VFIO device. */
  lemma VfioIsNotSlotted(index: int)
    ensures !LooksSlotted(VfioName(index))
  {
    var name := VfioName(index);
    forall front: string, n: nat
      ensures name != front + "-slot" + Digits(n)
    {
      var slotted := front + "-slot" + Digits(n);
      assert slotted[|front| + 1] == 's';
      if name == slotted {
        NoSInVfio(index, |front| + 1);
        assert false;
      }
    }
  }

  lemma NoSInVfio(index: int, i: nat)
    requires i < |VfioName(index)|
    ensures VfioName(index)[i] != 's'
  {
    var front := "gpu-vfio-";
    if i < |front| {
      assert VfioName(index)[i] == front[i];
    } else {
      assert VfioName(index)[i] == Decimal(index)[i - |front|];
    }
  }

  /** Two names in the spec of a prepared claim differ exactly when the devices do or are shares of a
      partition. So all of them are distinct, for any number of shares of any partitions, unless a
      device that is no partition was allocated twice. */
  lemma SpecNamesDiffer(site: Site, node: string, l: Ledger, claim: ResourceClaim, chosen: Choice,
                        prepared: seq<PreparedDevice>, at: seq<nat>, i: nat, j: nat)
    requires SiteOk(site) && AsPlanned(site, node, claim) && claim.allocation.Some?
    requires Sound(l, site.cat, site.plan) && claim.uid in l.claims
    requires Prepares(site, l.slots, claim.uid, claim.allocation.value.results, chosen, prepared, at)
    requires PartitionsChosen(site.cat.synth, claim.allocation.value.results, chosen)
    requires i < |prepared| && j < |prepared| && i != j
    requires forall k :: 0 <= k < |prepared| && prepared[k].device !in site.cat.synth ==>
               !LooksSlotted(prepared[k].device)
    ensures CdiName(claim.uid, prepared[i]) != CdiName(claim.uid, prepared[j])
            <==> prepared[i].device != prepared[j].device || prepared[i].device in site.cat.synth
  {
    hide LooksSlotted, Valid, Digits, ResultKey;
    PreparedNameSlots(site, node, l, claim, chosen, prepared, at);
    if prepared[i].device != prepared[j].device {
      NamesDiffer(claim.uid, prepared[i], prepared[j]);
    } else if prepared[i].device in site.cat.synth {
      SharesApart(site, node, l, claim, chosen, prepared, at, i, j);
      NamesDiffer(claim.uid, prepared[i], prepared[j]);
    }
  }

  lemma SharesApart(site: Site, node: string, l: Ledger, claim: ResourceClaim, chosen: Choice,
                    prepared: seq<PreparedDevice>, at: seq<nat>, i: nat, j: nat)
    requires SiteOk(site) && AsPlanned(site, node, claim) && claim.allocation.Some?
    requires Sound(l, site.cat, site.plan)
    requires Prepares(site, l.slots, claim.uid, claim.allocation.value.results, chosen, prepared, at)
    requires PartitionsChosen(site.cat.synth, claim.allocation.value.results, chosen)
    requires SlotsMatch(site, claim.uid, prepared, l.slots) && i < |prepared| && j < |prepared| && i != j
    requires prepared[i].device == prepared[j].device && prepared[i].device in site.cat.synth
    requires prepared[i].slot.Some? && prepared[j].slot.Some?
    ensures prepared[i].slot != prepared[j].slot
  {
    hide ResultKey, Held, KeysMatchModes, PooledHere, SharesOf, Pairs;
    var results := claim.allocation.value.results;
    assert SharesOf(site.cat, claim.uid, site.plan(claim.uid));
    KeysAtDiffer(site, node, claim.uid, results, chosen, at[i], at[j]);
    assert SlotMatches(site, claim.uid, prepared[i], l.slots) && SlotMatches(site, claim.uid, prepared[j], l.slots);
    var g := site.cat.parse(prepared[i].device).value.gpu;
    assert Injective(l.slots[g]);
  }
}
