/**
 Which config governs a device.

 Configs come from device classes and from the claim. Each allocated device is governed by the
 last config that applies to it: configs of the claim beat those of classes, later ones beat
 earlier ones of the same source, and a default that fits only devices that are not VFIO comes
 first of all.
 */
module Configs {
  import opened Wrappers

  datatype Kind = GpuKind | VfioKind | OtherKind

  /** Parameters as decoded; `valid` is what normalising and validating them says. */
  datatype Parameters = Parameters(kind: Kind, valid: bool)

  datatype Config = Config(requests: seq<string>, parameters: Parameters)

  const DEFAULT_CONFIG := Config([], Parameters(GpuKind, true))

  datatype Source = ClassSource | ClaimSource | UnknownSource

  datatype Blob = Blob(driver: string, decoded: Option<Parameters>)

  datatype Possible = Possible(source: Source, requests: seq<string>, blob: Option<Blob>)

  // ---------- collecting configs ----------

  /** No config is of an unknown kind of source or parameters, and the driver's own decode. */
  predicate WellFormed(driver: string, possible: seq<Possible>) {
    forall p :: p in possible ==> p.source != UnknownSource && Decodes(driver, p)
  }

  predicate Decodes(driver: string, p: Possible) {
    p.blob.Some? && (p.blob.value.driver == driver ==> p.blob.value.decoded.Some?)
  }

  predicate IsOurs(driver: string, p: Possible) {
    p.blob.Some? && p.blob.value.driver == driver && p.blob.value.decoded.Some?
  }

  function Decoded(driver: string, p: Possible): Config
    requires IsOurs(driver, p)
  {
    Config(p.requests, p.blob.value.decoded.value)
  }

  /** The driver's configs of one source, in list order. */
  function Ours(driver: string, possible: seq<Possible>, source: Source): seq<Config> {
    if possible == [] then []
    else
      var front, last := Ours(driver, possible[..|possible| - 1], source), possible[|possible| - 1];
      if last.source == source && IsOurs(driver, last) then front + [Decoded(driver, last)] else front
  }

  function From(possible: seq<Possible>, source: Source): seq<Possible> {
    if possible == [] then []
    else
      var front, last := From(possible[..|possible| - 1], source), possible[|possible| - 1];
      if last.source == source then front + [last] else front
  }

  function OursIn(driver: string, possible: seq<Possible>): seq<Config> {
    if possible == [] then []
    else
      var front, last := OursIn(driver, possible[..|possible| - 1]), possible[|possible| - 1];
      if IsOurs(driver, last) then front + [Decoded(driver, last)] else front
  }

  lemma {:induction false} OursAreFrom(driver: string, possible: seq<Possible>, source: Source)
    ensures OursIn(driver, From(possible, source)) == Ours(driver, possible, source)
  {
    if possible != [] {
      var front, last := possible[..|possible| - 1], possible[|possible| - 1];
      OursAreFrom(driver, front, source);
      if last.source == source {
        assert From(possible, source)[..|From(possible, source)| - 1] == From(front, source);
      }
    }
  }

  lemma {:induction false} OursOfBoth(driver: string, a: seq<Possible>, b: seq<Possible>)
    ensures OursIn(driver, a + b) == OursIn(driver, a) + OursIn(driver, b)
  {
    if b == [] {
      assert a + b == a;
    } else {
      assert (a + b)[..|a + b| - 1] == a + b[..|b| - 1];
      OursOfBoth(driver, a, b[..|b| - 1]);
    }
  }

  lemma {:induction false} InFrom(possible: seq<Possible>, source: Source, p: Possible)
    ensures p in From(possible, source) <==> p in possible && p.source == source
  {
    if possible != [] {
      InFrom(possible[..|possible| - 1], source, p);
      assert possible == possible[..|possible| - 1] + [possible[|possible| - 1]];
    }
  }

  /** The driver's configs from lowest to highest precedence, or an error. */
  method GetOpaqueDeviceConfigs(driver: string, possible: seq<Possible>) returns (r: Option<seq<Config>>)
    ensures r == if WellFormed(driver, possible)
                 then Some(Ours(driver, possible, ClassSource) + Ours(driver, possible, ClaimSource))
                 else None
  {
    hide Ours;
    var classConfigs: seq<Possible>, claimConfigs: seq<Possible> := [], [];
    var i := 0;
    while i < |possible|
      invariant 0 <= i <= |possible|
      invariant classConfigs == From(possible[..i], ClassSource) && claimConfigs == From(possible[..i], ClaimSource)
      invariant forall j :: 0 <= j < i ==> possible[j].source != UnknownSource
    {
      assert possible[..i + 1] == possible[..i] + [possible[i]];
      match possible[i].source {
        case ClassSource => classConfigs := classConfigs + [possible[i]];
        case ClaimSource => claimConfigs := claimConfigs + [possible[i]];
        case UnknownSource =>
          assert possible[i] in possible;
          return None;
      }
      i := i + 1;
    }
    assert possible[..|possible|] == possible;
    var candidates := classConfigs + claimConfigs;
    forall p
      ensures p in possible && p.source != UnknownSource <==> p in candidates
    {
      InFrom(possible, ClassSource, p);
      InFrom(possible, ClaimSource, p);
    }
    SameForm(driver, possible, candidates);
    r := DecodeConfigs(driver, candidates);
    OursOfBoth(driver, classConfigs, claimConfigs);
    OursAreFrom(driver, possible, ClassSource);
    OursAreFrom(driver, possible, ClaimSource);
  }

  lemma SameForm(driver: string, possible: seq<Possible>, candidates: seq<Possible>)
    requires forall j :: 0 <= j < |possible| ==> possible[j].source != UnknownSource
    requires forall p :: p in possible && p.source != UnknownSource <==> p in candidates
    ensures WellFormed(driver, possible) <==> WellFormed(driver, candidates)
  {
    forall p
      ensures p in possible <==> p in candidates
    {
    }
  }

  /** Decode the driver's own configs and skip those of other drivers. */
  method DecodeConfigs(driver: string, candidates: seq<Possible>) returns (r: Option<seq<Config>>)
    requires forall p :: p in candidates ==> p.source != UnknownSource
    ensures r == if WellFormed(driver, candidates) then Some(OursIn(driver, candidates)) else None
  {
    var configs: seq<Config> := [];
    var i := 0;
    while i < |candidates|
      invariant 0 <= i <= |candidates|
      invariant configs == OursIn(driver, candidates[..i])
      invariant forall j :: 0 <= j < i ==> Decodes(driver, candidates[j])
    {
      assert candidates[..i + 1] == candidates[..i] + [candidates[i]];
      assert candidates[i] in candidates;
      if candidates[i].blob.None? {
        return None;
      }
      var own := candidates[i].blob.value;
      if own.driver == driver {
        if own.decoded.None? {
          return None;
        }
        configs := configs + [Config(candidates[i].requests, own.decoded.value)];
      }
      i := i + 1;
    }
    assert candidates[..|candidates|] == candidates;
    return Some(configs);
  }

  // ---------- choosing one ----------

  datatype Target = WholeGpu | VfioDevice | OtherDevice

  /** A request's device, and whether VFIO passthrough is enabled. */
  datatype Query = Query(request: string, target: Target, passthrough: bool)

  /** A VFIO config fits VFIO devices and GPUs that can be converted, and only while the feature
      is enabled; a GPU config fits everything but VFIO devices. */
  predicate Applies(c: Config, q: Query) {
    && (c.requests == [] || q.request in c.requests)
    && match c.parameters.kind
       case VfioKind => q.passthrough && !q.target.OtherDevice?
       case GpuKind => !q.target.VfioDevice?
       case OtherKind => true
  }

  /** The position of the last config that applies. */
  function Last(configs: seq<Config>, q: Query): (r: Option<nat>)
    ensures r.Some? ==>
              && r.value < |configs| && Applies(configs[r.value], q)
              && forall j :: r.value < j < |configs| ==> !Applies(configs[j], q)
    ensures r.None? ==> forall j :: 0 <= j < |configs| ==> !Applies(configs[j], q)
  {
    if configs == [] then None
    else if Applies(configs[|configs| - 1], q) then Some(|configs| - 1)
    else Last(configs[..|configs| - 1], q)
  }

  method SelectConfig(configs: seq<Config>, q: Query) returns (r: Option<nat>)
    ensures r == Last(configs, q)
  {
    var i := |configs|;
    while i > 0
      invariant 0 <= i <= |configs|
      invariant forall j :: i <= j < |configs| ==> !Applies(configs[j], q)
    {
      i := i - 1;
      if Applies(configs[i], q) {
        return Some(i);
      }
    }
    return None;
  }

  /** The i-th config is the driver's and applies. */
  predicate Eligible(driver: string, possible: seq<Possible>, i: int, q: Query) {
    0 <= i < |possible| && IsOurs(driver, possible[i]) && Applies(Decoded(driver, possible[i]), q)
  }

  /** Configs of the claim beat configs of classes; within one source, later ones beat earlier. */
  predicate Beats(possible: seq<Possible>, i: int, j: int)
    requires 0 <= i < |possible| && 0 <= j < |possible|
  {
    || (possible[i].source == ClaimSource && possible[j].source == ClassSource)
    || (possible[i].source == possible[j].source && i > j)
  }

  ghost predicate Governs(driver: string, possible: seq<Possible>, i: int, q: Query) {
    && Eligible(driver, possible, i, q)
    && forall j :: Eligible(driver, possible, j, q) && j != i ==> Beats(possible, i, j)
  }

  /** The config that is chosen for a device is the one that beats all others that apply to it;
      when none applies, the default governs it, unless it is a VFIO device: then nothing does. In
      terms of the fields: a config is chosen only if it is for all requests or for this one, a VFIO
      config only with the feature on and for a device that is or can become VFIO, a GPU config never
      for a VFIO device; and every config of the driver of which all this holds is the chosen one or
      beaten by it. */
  lemma ChosenConfigGoverns(driver: string, possible: seq<Possible>, q: Query)
    requires WellFormed(driver, possible)
    ensures var ours := Ours(driver, possible, ClassSource) + Ours(driver, possible, ClaimSource);
            var configs := [DEFAULT_CONFIG] + ours;
            var chosen := Last(configs, q);
            && (chosen.Some? && chosen.value > 0 <==> exists i :: Eligible(driver, possible, i, q))
            && (chosen.Some? && chosen.value > 0 ==>
                  exists i :: Governs(driver, possible, i, q) && Decoded(driver, possible[i]) == configs[chosen.value])
            && (chosen == Some(0) ==> !q.target.VfioDevice?)
            && (chosen == None ==> q.target.VfioDevice?)
    ensures var configs := [DEFAULT_CONFIG]
                           + (Ours(driver, possible, ClassSource) + Ours(driver, possible, ClaimSource));
            var chosen := Last(configs, q);
            && (chosen.Some? ==>
                  var c := configs[chosen.value];
                  && (c.requests == [] || q.request in c.requests)
                  && (c.parameters.kind == VfioKind ==> q.passthrough && q.target in {WholeGpu, VfioDevice})
                  && (c.parameters.kind == GpuKind ==> q.target in {WholeGpu, OtherDevice}))
            && (forall i ::
                  && 0 <= i < |possible| && possible[i].blob.Some? && possible[i].blob.value.driver == driver
                  && possible[i].blob.value.decoded.Some?
                  && (possible[i].requests == [] || q.request in possible[i].requests)
                  && (possible[i].blob.value.decoded.value.kind == VfioKind ==>
                        q.passthrough && q.target in {WholeGpu, VfioDevice})
                  && (possible[i].blob.value.decoded.value.kind == GpuKind ==> q.target in {WholeGpu, OtherDevice}) ==>
                    chosen.Some? && chosen.value > 0 && ChosenOver(driver, possible, i, configs[chosen.value]))
  {
    hide Applies, Last, Governs, Eligible, IsOurs, Ours, WellFormed, ChosenOver;
    InFields(driver, possible, q);
    var ofClass, ofClaim := Ours(driver, possible, ClassSource), Ours(driver, possible, ClaimSource);
    LastOfBoth([DEFAULT_CONFIG], ofClass + ofClaim, q);
    DefaultApplies(q);
    SomeGoverns(driver, possible, q);
  }

  /** The config is the i-th one of the list, or one of the driver's that beats it. */
  ghost predicate ChosenOver(driver: string, possible: seq<Possible>, i: int, c: Config)
    requires 0 <= i < |possible|
  {
    exists k :: && 0 <= k < |possible| && IsOurs(driver, possible[k]) && Decoded(driver, possible[k]) == c
                && (k == i || Beats(possible, k, i))
  }

  /** When a config applies, told by its fields; and what a governing config is chosen over. */
  lemma InFields(driver: string, possible: seq<Possible>, q: Query)
    ensures forall c: Config ::
              Applies(c, q)
              <==> && (c.requests == [] || q.request in c.requests)
                   && (c.parameters.kind == VfioKind ==> q.passthrough && q.target in {WholeGpu, VfioDevice})
                   && (c.parameters.kind == GpuKind ==> q.target in {WholeGpu, OtherDevice})
    ensures forall i ::
              Eligible(driver, possible, i, q)
              <==> 0 <= i < |possible| && possible[i].blob.Some? && possible[i].blob.value.driver == driver
                   && possible[i].blob.value.decoded.Some?
                   && Applies(Config(possible[i].requests, possible[i].blob.value.decoded.value), q)
    ensures forall i, k, c ::
              Governs(driver, possible, k, q) && Decoded(driver, possible[k]) == c
              && Eligible(driver, possible, i, q) ==>
                ChosenOver(driver, possible, i, c)
  {
  }

  lemma SomeGoverns(driver: string, possible: seq<Possible>, q: Query)
    requires WellFormed(driver, possible)
    ensures var configs := Ours(driver, possible, ClassSource) + Ours(driver, possible, ClaimSource);
            var chosen := Last(configs, q);
            && (chosen.Some? <==> exists i :: Eligible(driver, possible, i, q))
            && (chosen.Some? ==>
                  exists i :: Governs(driver, possible, i, q) && Decoded(driver, possible[i]) == configs[chosen.value])
  {
    hide Applies, Last, IsOurs, Ours, WellFormed, Governs;
    var ofClass, ofClaim := Ours(driver, possible, ClassSource), Ours(driver, possible, ClaimSource);
    LastOfSource(driver, possible, ClassSource, q);
    LastOfSource(driver, possible, ClaimSource, q);
    LastOfBoth(ofClass, ofClaim, q);
    EligibleSources(driver, possible, q);
    if Last(ofClaim, q).Some? {
      var i :| LastFrom(driver, possible, ClaimSource, i, q)
               && Decoded(driver, possible[i]) == ofClaim[Last(ofClaim, q).value];
      ClaimGoverns(driver, possible, i, q);
    } else if Last(ofClass, q).Some? {
      var i :| LastFrom(driver, possible, ClassSource, i, q)
               && Decoded(driver, possible[i]) == ofClass[Last(ofClass, q).value];
      ClassGoverns(driver, possible, i, q);
    }
  }

  lemma ClaimGoverns(driver: string, possible: seq<Possible>, i: int, q: Query)
    requires WellFormed(driver, possible) && LastFrom(driver, possible, ClaimSource, i, q)
    ensures Governs(driver, possible, i, q)
  {
    hide Applies, IsOurs;
    EligibleSources(driver, possible, q);
  }

  lemma ClassGoverns(driver: string, possible: seq<Possible>, i: int, q: Query)
    requires WellFormed(driver, possible) && LastFrom(driver, possible, ClassSource, i, q)
    requires forall j :: Eligible(driver, possible, j, q) ==> possible[j].source != ClaimSource
    ensures Governs(driver, possible, i, q)
  {
    hide Applies, IsOurs;
    EligibleSources(driver, possible, q);
  }

  lemma EligibleSources(driver: string, possible: seq<Possible>, q: Query)
    requires WellFormed(driver, possible)
    ensures forall i :: Eligible(driver, possible, i, q) ==>
              possible[i].source == ClassSource || possible[i].source == ClaimSource
  {
    hide Applies, IsOurs;
    forall i | Eligible(driver, possible, i, q)
      ensures possible[i].source == ClassSource || possible[i].source == ClaimSource
    {
      assert possible[i] in possible;
    }
  }

  lemma DefaultApplies(q: Query)
    ensures Last([DEFAULT_CONFIG], q) == if q.target.VfioDevice? then None else Some(0)
  {
    assert Applies([DEFAULT_CONFIG][0], q) <==> !q.target.VfioDevice?;
  }

  lemma {:induction false} LastOfBoth(a: seq<Config>, b: seq<Config>, q: Query)
    ensures Last(a + b, q) == if Last(b, q).Some? then Some(|a| + Last(b, q).value) else Last(a, q)
  {
    if b == [] {
      assert a + b == a;
    } else {
      assert (a + b)[..|a + b| - 1] == a + b[..|b| - 1];
      LastOfBoth(a, b[..|b| - 1], q);
    }
  }

  /** The i-th config is the last eligible one of its source. */
  ghost predicate LastFrom(driver: string, possible: seq<Possible>, source: Source, i: int, q: Query) {
    && Eligible(driver, possible, i, q) && possible[i].source == source
    && forall j :: Eligible(driver, possible, j, q) && possible[j].source == source ==> j <= i
  }

  lemma {:induction false} LastOfSource(driver: string, possible: seq<Possible>, source: Source, q: Query)
    ensures var ours := Ours(driver, possible, source);
            var last := Last(ours, q);
            && (last.Some? ==>
                  exists i ::
                    LastFrom(driver, possible, source, i, q) && Decoded(driver, possible[i]) == ours[last.value])
            && (last.None? ==> forall i :: Eligible(driver, possible, i, q) ==> possible[i].source != source)
  {
    hide Applies;
    if possible != [] {
      var n := |possible| - 1;
      var front, p := possible[..n], possible[n];
      LastOfSource(driver, front, source, q);
      forall i
        ensures Eligible(driver, possible, i, q)
                <==> Eligible(driver, front, i, q) || (i == n && Eligible(driver, possible, n, q))
      {
      }
      var before, ours := Ours(driver, front, source), Ours(driver, possible, source);
      if p.source == source && Eligible(driver, possible, n, q) {
        assert LastFrom(driver, possible, source, n, q) && Decoded(driver, possible[n]) == ours[Last(ours, q).value];
      } else if p.source == source && IsOurs(driver, p) {
        assert ours[..|ours| - 1] == before;
        StillLast(driver, possible, source, q);
      } else {
        StillLast(driver, possible, source, q);
      }
    }
  }

  lemma StillLast(driver: string, possible: seq<Possible>, source: Source, q: Query)
    requires possible != []
    requires !(possible[|possible| - 1].source == source && Eligible(driver, possible, |possible| - 1, q))
    ensures forall i :: LastFrom(driver, possible[..|possible| - 1], source, i, q) ==>
              LastFrom(driver, possible, source, i, q)
  {
    hide Applies;
    var front := possible[..|possible| - 1];
    forall i
      ensures Eligible(driver, possible, i, q)
              <==> Eligible(driver, front, i, q) || (i == |front| && Eligible(driver, possible, i, q))
    {
    }
  }
}
