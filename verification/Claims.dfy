/**
 Reserving and releasing whole claims.

 `Sound` ties the ledger to the claims it has reserved: it holds exactly their shares. The
 theorems say what the claim-level entry points do to a sound ledger, over every sequence of
 calls.
 */
module Claims {
  import opened Wrappers
  import opened DeviceNames
  import opened Ledgers

  // ---------- one claim ----------

  predicate KeyOf(cat: Catalog, claim: string, key: string) {
    cat.ClaimOf(key) == claim && cat.split(key).Some? && cat.split(key).value.claim == claim
  }

  /** The shares of one claim: keys that name the claim and the device, pairwise distinct. */
  ghost predicate SharesOf(cat: Catalog, claim: string, shares: seq<Share>) {
    && (forall i :: 0 <= i < |shares| ==> WellKeyed(cat, shares[i]) && KeyOf(cat, claim, shares[i].key))
    && (forall i, j :: 0 <= i < j < |shares| ==> shares[i].key != shares[j].key)
  }

  ghost function HeldNames(cat: Catalog, slots: Slots): set<PartitionName> {
    set p | p in Held(slots) && NameOf(cat, p.1).Some? :: NameOf(cat, p.1).value
  }

  ghost function SharedNames(cat: Catalog, shares: seq<Share>): set<PartitionName> {
    set s | s in shares && cat.parse(s.device).Some? :: cat.parse(s.device).value
  }

  ghost predicate ClashFree(names: set<PartitionName>) {
    forall a, b :: a in names && b in names ==> !Clash(a, b)
  }

  lemma PairsGrow(cat: Catalog, shares: seq<Share>, n: nat)
    requires n < |shares|
    ensures Pairs(cat, shares[..n + 1]) == Pairs(cat, shares[..n]) + {PairOf(cat, shares[n])}
    ensures SharedNames(cat, shares[..n + 1])
            == SharedNames(cat, shares[..n])
               + (if cat.parse(shares[n].device).Some? then {cat.parse(shares[n].device).value} else {})
  {
    assert shares[..n + 1] == shares[..n] + [shares[n]];
  }

  lemma PairIsNew(cat: Catalog, claim: string, shares: seq<Share>, n: nat)
    requires SharesOf(cat, claim, shares) && n < |shares|
    ensures PairOf(cat, shares[n]) !in Pairs(cat, shares[..n])
  {
  }

  lemma KeyedShareParses(cat: Catalog, claim: string, shares: seq<Share>, i: nat)
    requires SharesOf(cat, claim, shares) && i < |shares|
    ensures WellKeyed(cat, shares[i]) && cat.parse(shares[i].device).Some?
  {
  }

  lemma FitsIffClashFree(l: Ledger, cat: Catalog, d: PartitionName)
    requires Valid(l, cat)
    ensures Fits(cat, l.slots, d) <==> ClashFree(HeldNames(cat, l.slots) + {d})
  {
    forall g, k | Holds(l.slots, g, k)
      ensures NameOf(cat, k).Some? && NameOf(cat, k).value in HeldNames(cat, l.slots)
    {
      HeldIff(l.slots, g, k);
      assert (g, k) in Held(l.slots);
    }
    forall a | a in HeldNames(cat, l.slots)
      ensures exists g, k :: Holds(l.slots, g, k) && NameOf(cat, k) == Some(a)
    {
      var p :| p in Held(l.slots) && NameOf(cat, p.1) == Some(a);
      HeldIff(l.slots, p.0, p.1);
    }
  }

  ghost predicate Grown(l: Ledger, m: Ledger, cat: Catalog, added: set<(int, string)>) {
    Valid(m, cat) && Held(m.slots) == Held(l.slots) + added && Agree(l.slots, m.slots) && m.claims == l.claims
  }

  ghost predicate Shrunk(l: Ledger, m: Ledger, cat: Catalog, removed: set<(int, string)>) {
    Valid(m, cat) && Held(m.slots) == Held(l.slots) - removed && Agree(l.slots, m.slots) && m.claims == l.claims
  }

  lemma AgreeThrough(a: Slots, b: Slots, c: Slots)
    requires Agree(a, b) && Agree(b, c)
    requires Held(a) <= Held(b) || Held(c) <= Held(b)
    ensures Agree(a, c)
  {
    forall g, k | Holds(a, g, k) && Holds(c, g, k)
      ensures a[g][k] == c[g][k]
    {
      HeldIff(a, g, k);
      HeldIff(b, g, k);
      HeldIff(c, g, k);
    }
  }

  lemma {:induction false} ReleasePrefix(l: Ledger, cat: Catalog, claim: string, shares: seq<Share>, n: nat)
    requires Valid(l, cat) && SharesOf(cat, claim, shares) && n <= |shares| && Pairs(cat, shares[..n]) <= Held(l.slots)
    ensures var r := ReleaseUpTo(l, cat, shares, n);
            && r.ok && r.ledger == RollBack(l, cat, shares, n)
            && Shrunk(l, r.ledger, cat, Pairs(cat, shares[..n]))
            && (r.taintsChanged <==> n > 0 && r.ledger.slots == map[])
  {
    hide Valid, Held, Release, Agree, Pairs;
    if n == 0 {
      NoPairs(cat, shares);
      AgreeWithItself(l.slots);
    } else {
      PairsGrow(cat, shares, n - 1);
      PairIsNew(cat, claim, shares, n - 1);
      ReleasePrefix(l, cat, claim, shares, n - 1);
      var m := ReleaseUpTo(l, cat, shares, n - 1).ledger;
      assert WellKeyed(cat, shares[n - 1]);
      ReleaseOne(m, cat, shares[n - 1]);
      NothingHeldIn(m.slots);
      AgreeThrough(l.slots, m.slots, Release(m, cat, shares[n - 1]).ledger.slots);
    }
  }

  lemma NoPairs(cat: Catalog, shares: seq<Share>)
    ensures Pairs(cat, shares[..0]) == {}
  {
  }

  lemma AgreeWithItself(slots: Slots)
    ensures Agree(slots, slots)
  {
  }

  lemma GrownByNothing(l: Ledger, cat: Catalog)
    requires Valid(l, cat)
    ensures Grown(l, l, cat, {})
  {
  }

  lemma NothingHeldIn(slots: Slots)
    ensures slots == map[] ==> Held(slots) == {}
  {
  }

  /** Undoing a partial reservation gives back exactly the ledger it started from. */
  lemma RollBackUndoes(l: Ledger, m: Ledger, cat: Catalog, claim: string, shares: seq<Share>, n: nat)
    requires Valid(l, cat) && SharesOf(cat, claim, shares) && n <= |shares|
    requires Grown(l, m, cat, Pairs(cat, shares[..n])) && Pairs(cat, shares[..n]) !! Held(l.slots)
    ensures RollBack(m, cat, shares, n) == l
  {
    ReleasePrefix(m, cat, claim, shares, n);
    var back := RollBack(m, cat, shares, n);
    assert Held(back.slots) == Held(l.slots);
    AgreeThrough(l.slots, m.slots, back.slots);
    SameSlots(l.slots, back.slots);
    Determined(l, back, cat);
  }

  lemma NamesGrow(cat: Catalog, a: Slots, b: Slots, share: Share)
    requires WellKeyed(cat, share) && Held(b) == Held(a) + {PairOf(cat, share)}
    ensures HeldNames(cat, b) == HeldNames(cat, a) + {cat.parse(share.device).value}
  {
  }

  lemma {:induction false} ReservePrefix(l: Ledger, cat: Catalog, claim: string, shares: seq<Share>, n: nat)
    requires Valid(l, cat) && SharesOf(cat, claim, shares) && n <= |shares| && Pairs(cat, shares[..n]) !! Held(l.slots)
    ensures var r := ReserveUpTo(l, cat, shares, n);
            && (r.ok <==> ClashFree(HeldNames(cat, l.slots) + SharedNames(cat, shares[..n])))
            && (!r.ok ==> r.ledger == l && !r.taintsChanged)
            && (r.ok ==>
                  && Grown(l, r.ledger, cat, Pairs(cat, shares[..n]))
                  && HeldNames(cat, r.ledger.slots) == HeldNames(cat, l.slots) + SharedNames(cat, shares[..n])
                  && (r.taintsChanged <==> n > 0 && l.slots == map[]))
  {
    hide Grown, ClashFree, HeldNames, SharedNames, Pairs, Held, Valid, SharesOf, Reserve, RollBack;
    if n == 0 {
      NoPairs(cat, shares);
      GrownByNothing(l, cat);
      HeldClashFree(l, cat, shares);
      assert HeldNames(cat, l.slots) + {} == HeldNames(cat, l.slots);
    } else {
      PairsGrow(cat, shares, n - 1);
      PairIsNew(cat, claim, shares, n - 1);
      ReservePrefix(l, cat, claim, shares, n - 1);
      var before := ReserveUpTo(l, cat, shares, n - 1);
      if before.ok {
        ReserveNext(l, cat, claim, shares, n);
      } else {
        assert ReserveUpTo(l, cat, shares, n) == before;
        StillClashing(HeldNames(cat, l.slots) + SharedNames(cat, shares[..n - 1]),
                      HeldNames(cat, l.slots) + SharedNames(cat, shares[..n]));
      }
    }
  }

  lemma StillClashing(some: set<PartitionName>, more: set<PartitionName>)
    requires some <= more && !ClashFree(some)
    ensures !ClashFree(more)
  {
  }

  lemma HeldClashFree(l: Ledger, cat: Catalog, shares: seq<Share>)
    requires Valid(l, cat)
    ensures SharedNames(cat, shares[..0]) == {} && ClashFree(HeldNames(cat, l.slots))
  {
    forall a | a in HeldNames(cat, l.slots)
      ensures Fits(cat, l.slots, a)
    {
      var p :| p in Held(l.slots) && NameOf(cat, p.1) == Some(a);
      HeldIff(l.slots, p.0, p.1);
    }
    forall a | a in HeldNames(cat, l.slots)
      ensures ClashFree(HeldNames(cat, l.slots) + {a})
    {
      FitsIffClashFree(l, cat, a);
    }
  }

  lemma ReserveNext(l: Ledger, cat: Catalog, claim: string, shares: seq<Share>, n: nat)
    requires Valid(l, cat) && SharesOf(cat, claim, shares) && 0 < n <= |shares|
    requires Pairs(cat, shares[..n]) !! Held(l.slots)
    requires var before := ReserveUpTo(l, cat, shares, n - 1);
             && before.ok && Grown(l, before.ledger, cat, Pairs(cat, shares[..n - 1]))
             && HeldNames(cat, before.ledger.slots) == HeldNames(cat, l.slots) + SharedNames(cat, shares[..n - 1])
             && (before.taintsChanged <==> n > 1 && l.slots == map[])
    ensures var r := ReserveUpTo(l, cat, shares, n);
            && (r.ok <==> ClashFree(HeldNames(cat, l.slots) + SharedNames(cat, shares[..n])))
            && (!r.ok ==> r.ledger == l && !r.taintsChanged)
            && (r.ok ==>
                  && Grown(l, r.ledger, cat, Pairs(cat, shares[..n]))
                  && HeldNames(cat, r.ledger.slots) == HeldNames(cat, l.slots) + SharedNames(cat, shares[..n])
                  && (r.taintsChanged <==> l.slots == map[]))
  {
    var m := ReserveUpTo(l, cat, shares, n - 1).ledger;
    GrowByOne(l, m, cat, claim, shares, n);
    if Reserve(m, cat, shares[n - 1]).ok {
      EmptyWhenGrown(l, m, cat, shares, n - 1);
    } else {
      assert Pairs(cat, shares[..n - 1]) <= Pairs(cat, shares[..n]) by {
        PairsGrow(cat, shares, n - 1);
      }
      RollBackUndoes(l, m, cat, claim, shares, n - 1);
    }
  }

  lemma GrowByOne(l: Ledger, m: Ledger, cat: Catalog, claim: string, shares: seq<Share>, n: nat)
    requires Valid(l, cat) && SharesOf(cat, claim, shares) && 0 < n <= |shares|
    requires Pairs(cat, shares[..n]) !! Held(l.slots)
    requires Grown(l, m, cat, Pairs(cat, shares[..n - 1]))
    requires HeldNames(cat, m.slots) == HeldNames(cat, l.slots) + SharedNames(cat, shares[..n - 1])
    ensures var r := Reserve(m, cat, shares[n - 1]);
            && (r.ok <==> ClashFree(HeldNames(cat, l.slots) + SharedNames(cat, shares[..n])))
            && (!r.ok ==> r.ledger == m)
            && (r.ok ==>
                  && Grown(l, r.ledger, cat, Pairs(cat, shares[..n]))
                  && HeldNames(cat, r.ledger.slots) == HeldNames(cat, l.slots) + SharedNames(cat, shares[..n])
                  && (r.taintsChanged <==> m.slots == map[]))
  {
    hide Held, Reserve, Agree, Pairs, HeldNames, SharedNames, ClashFree, Valid, Fits, PairOf, Put, NextSlot, KeyOf;
    hide WellKeyed;
    var share := shares[n - 1];
    PairsGrow(cat, shares, n - 1);
    PairIsNew(cat, claim, shares, n - 1);
    KeyedShareParses(cat, claim, shares, n - 1);
    ReserveOne(m, cat, share);
    FitsIffClashFree(m, cat, cat.parse(share.device).value);
    Regroup(HeldNames(cat, l.slots), SharedNames(cat, shares[..n - 1]), cat.parse(share.device).value);
    if Reserve(m, cat, share).ok {
      var after := Reserve(m, cat, share).ledger;
      NamesGrow(cat, m.slots, after.slots, share);
      Regroup(Held(l.slots), Pairs(cat, shares[..n - 1]), PairOf(cat, share));
      AgreeThrough(l.slots, m.slots, after.slots);
    }
  }

  lemma Regroup<T>(a: set<T>, b: set<T>, x: T)
    ensures a + b + {x} == a + (b + {x})
  {
  }

  lemma EmptyWhenGrown(l: Ledger, m: Ledger, cat: Catalog, shares: seq<Share>, n: nat)
    requires Valid(l, cat) && n <= |shares| && Grown(l, m, cat, Pairs(cat, shares[..n]))
    ensures m.slots == map[] <==> l.slots == map[] && n == 0
  {
    NoneHeldIffEmpty(l.slots);
    NoneHeldIffEmpty(m.slots);
    if n > 0 {
      assert PairOf(cat, shares[0]) in Pairs(cat, shares[..n]) by {
        assert shares[..n][0] == shares[0];
      }
    } else {
      NoPairs(cat, shares);
    }
  }

  // ---------- every claim of the node ----------

  /** A claim's allocation is fixed: `plan` gives the shares of each claim. */
  ghost predicate PlanOk(cat: Catalog, plan: string -> seq<Share>) {
    plan("") == [] && forall claim :: SharesOf(cat, claim, plan(claim))
  }

  ghost function AllPairs(cat: Catalog, plan: string -> seq<Share>, claims: set<string>): set<(int, string)> {
    set c, p | c in claims && p in Pairs(cat, plan(c)) :: p
  }

  /** The ledger is valid and holds exactly the shares of the claims it has reserved. */
  ghost predicate Sound(l: Ledger, cat: Catalog, plan: string -> seq<Share>) {
    Valid(l, cat) && Held(l.slots) == AllPairs(cat, plan, l.claims)
  }

  /** The names held on the node and wanted by a claim, together. */
  ghost predicate Admissible(l: Ledger, cat: Catalog, shares: seq<Share>) {
    ClashFree(HeldNames(cat, l.slots) + SharedNames(cat, shares))
  }

  lemma ClaimOfPair(cat: Catalog, plan: string -> seq<Share>, claim: string, p: (int, string))
    requires PlanOk(cat, plan) && p in Pairs(cat, plan(claim))
    ensures cat.ClaimOf(p.1) == claim
  {
    var s :| s in plan(claim) && PairOf(cat, s) == p;
    var i :| 0 <= i < |plan(claim)| && plan(claim)[i] == s;
    assert SharesOf(cat, claim, plan(claim));
  }

  lemma PlansAreDisjoint(cat: Catalog, plan: string -> seq<Share>, claim: string, claims: set<string>)
    requires PlanOk(cat, plan) && claim !in claims
    ensures Pairs(cat, plan(claim)) !! AllPairs(cat, plan, claims)
    ensures AllPairs(cat, plan, claims + {claim}) == AllPairs(cat, plan, claims) + Pairs(cat, plan(claim))
  {
    forall p | p in Pairs(cat, plan(claim))
      ensures cat.ClaimOf(p.1) == claim
    {
      ClaimOfPair(cat, plan, claim, p);
    }
    forall p | p in AllPairs(cat, plan, claims)
      ensures cat.ClaimOf(p.1) in claims
    {
      var c :| c in claims && p in Pairs(cat, plan(c));
      ClaimOfPair(cat, plan, c, p);
    }
  }

  /** Reserving a claim is all or nothing, is refused exactly when some two shares on the node
      would clash, and changes nothing when the claim is reserved already. */
  lemma ReserveClaimIsSound(l: Ledger, cat: Catalog, plan: string -> seq<Share>, claim: string)
    requires Sound(l, cat, plan) && PlanOk(cat, plan)
    ensures var r := ReserveClaim(l, cat, claim, plan(claim));
            && Sound(r.ledger, cat, plan)
            && (claim in l.claims ==> r == Outcome(true, l, false))
            && (claim !in l.claims ==> (r.ok <==> Admissible(l, cat, plan(claim))))
            && (!r.ok ==> r.ledger == l && !r.taintsChanged)
            && (r.ok ==> r.ledger.claims == l.claims + {claim} && Agree(l.slots, r.ledger.slots))
            && (r.taintsChanged <==> r.ok && l.slots == map[] && plan(claim) != [])
  {
    var shares := plan(claim);
    assert SharesOf(cat, claim, shares);
    assert shares[..|shares|] == shares;
    if claim in l.claims {
      HeldClaimIsHeld(l, cat, plan, claim);
      AgreeWithItself(l.slots);
      assert l.claims + {claim} == l.claims;
    } else {
      PlansAreDisjoint(cat, plan, claim, l.claims);
      ReservePrefix(l, cat, claim, shares, |shares|);
      var r := ReserveUpTo(l, cat, shares, |shares|);
      if r.ok {
        ClaimsAreSeparate(r.ledger, cat, l.claims + {claim});
      }
    }
  }

  lemma HeldClaimIsHeld(l: Ledger, cat: Catalog, plan: string -> seq<Share>, claim: string)
    requires Sound(l, cat, plan) && claim in l.claims
    ensures Pairs(cat, plan(claim)) <= Held(l.slots)
    ensures plan(claim) != [] ==> l.slots != map[]
  {
    if plan(claim) != [] {
      assert PairOf(cat, plan(claim)[0]) in Pairs(cat, plan(claim));
    }
  }

  /** The claim markers play no part in the rest of the bookkeeping. */
  lemma ClaimsAreSeparate(l: Ledger, cat: Catalog, claims: set<string>)
    requires Valid(l, cat)
    ensures Valid(l.(claims := claims), cat)
  {
  }

  /** Releasing a reserved claim always succeeds and removes exactly its shares. The order in
      which the shares are listed does not matter. */
  lemma ReleaseClaimIsSound(l: Ledger, cat: Catalog, plan: string -> seq<Share>, claim: string, shares: seq<Share>)
    requires Sound(l, cat, plan) && PlanOk(cat, plan)
    requires SharesOf(cat, claim, shares) && Pairs(cat, shares) == Pairs(cat, plan(claim))
    ensures var r := ReleaseClaim(l, cat, claim, shares);
            && r.ok && Sound(r.ledger, cat, plan)
            && r.ledger.claims == l.claims - {claim} && Agree(l.slots, r.ledger.slots)
            && (r.taintsChanged <==> claim in l.claims && shares != [] && r.ledger.slots == map[])
            && r.ledger == ReleaseClaim(l, cat, claim, plan(claim)).ledger
  {
    assert SharesOf(cat, claim, plan(claim));
    if claim in l.claims {
      ReleaseReserved(l, cat, plan, claim, shares);
      ReleaseReserved(l, cat, plan, claim, plan(claim));
      SameAfterRelease(l, ReleaseClaim(l, cat, claim, shares).ledger,
                       ReleaseClaim(l, cat, claim, plan(claim)).ledger, cat);
    } else {
      AgreeWithItself(l.slots);
      assert l.claims - {claim} == l.claims;
    }
  }

  lemma ReleaseReserved(l: Ledger, cat: Catalog, plan: string -> seq<Share>, claim: string, shares: seq<Share>)
    requires Sound(l, cat, plan) && PlanOk(cat, plan) && claim in l.claims
    requires SharesOf(cat, claim, shares) && Pairs(cat, shares) == Pairs(cat, plan(claim))
    ensures var r := ReleaseClaim(l, cat, claim, shares);
            && r.ok && Sound(r.ledger, cat, plan)
            && Held(r.ledger.slots) == Held(l.slots) - Pairs(cat, plan(claim))
            && r.ledger.claims == l.claims - {claim} && Agree(l.slots, r.ledger.slots)
            && (r.taintsChanged <==> shares != [] && r.ledger.slots == map[])
  {
    hide Held, Agree, Pairs, Valid, ReleaseUpTo, SharesOf, AllPairs;
    assert shares[..|shares|] == shares;
    HeldClaimIsHeld(l, cat, plan, claim);
    ReleasePrefix(l, cat, claim, shares, |shares|);
    PlansAreDisjoint(cat, plan, claim, l.claims - {claim});
    assert l.claims - {claim} + {claim} == l.claims;
    ClaimsAreSeparate(ReleaseUpTo(l, cat, shares, |shares|).ledger, cat, l.claims - {claim});
  }

  lemma SameAfterRelease(l: Ledger, a: Ledger, b: Ledger, cat: Catalog)
    requires Valid(a, cat) && Valid(b, cat) && a.claims == b.claims && Held(a.slots) == Held(b.slots)
    requires Held(a.slots) <= Held(l.slots) && Agree(l.slots, a.slots) && Agree(l.slots, b.slots)
    ensures a == b
  {
    assert Agree(a.slots, l.slots);
    AgreeThrough(a.slots, l.slots, b.slots);
    SameSlots(a.slots, b.slots);
    Determined(a, b, cat);
  }

  /** The empty ledger is the only sound one without claims. */
  lemma DrainedIsEmpty(l: Ledger, cat: Catalog, plan: string -> seq<Share>)
    ensures Sound(l, cat, plan) && l.claims == {} <==> l == EMPTY_LEDGER
  {
    if Sound(l, cat, plan) && l.claims == {} {
      NoneHeldIffEmpty(l.slots);
      assert Held(l.slots) == {};
    }
    if l == EMPTY_LEDGER {
      NothingHeldIn(l.slots);
    }
  }

  /** Releasing a share keeps the bookkeeping exactly when the share is held, or when nothing is:
      the counters go down whether or not there was a slot to free. */
  lemma ReleaseIsValidIff(l: Ledger, cat: Catalog, share: Share)
    requires Valid(l, cat) && WellKeyed(cat, share)
    ensures Valid(Release(l, cat, share).ledger, cat) <==> PairOf(cat, share) in Held(l.slots) || l.slots == map[]
  {
    if PairOf(cat, share) in Held(l.slots) {
      ReleaseOne(l, cat, share);
    } else {
      HeldIff(l.slots, GpuOf(cat, share), share.key);
      ReleaseNothing(l.slots, GpuOf(cat, share), share.key);
      NoneHeldIffEmpty(l.slots);
      if l.slots == map[] {
        assert Release(l, cat, share).ledger == l;
      }
    }
  }

  lemma ReleaseNothing(slots: Slots, gpu: int, key: string)
    requires SlotsValid(slots) && !Holds(slots, gpu, key)
    ensures ReleaseSlot(slots, gpu, key) == slots
  {
    if gpu in slots {
      assert slots[gpu] - {key} == slots[gpu];
    }
  }

  // ---------- every sequence of calls ----------

  /** A release may list the claim's shares in any order. */
  datatype Call = ReserveCall(claim: string) | ReleaseCall(claim: string, shares: seq<Share>)

  ghost predicate CallOk(cat: Catalog, plan: string -> seq<Share>, call: Call) {
    call.ReleaseCall? ==>
      SharesOf(cat, call.claim, call.shares) && Pairs(cat, call.shares) == Pairs(cat, plan(call.claim))
  }

  function Apply(l: Ledger, cat: Catalog, plan: string -> seq<Share>, call: Call): Ledger {
    match call
    case ReserveCall(claim) => ReserveClaim(l, cat, claim, plan(claim)).ledger
    case ReleaseCall(claim, shares) => ReleaseClaim(l, cat, claim, shares).ledger
  }

  function After(start: Ledger, cat: Catalog, plan: string -> seq<Share>, calls: seq<Call>): Ledger {
    if calls == [] then start
    else Apply(After(start, cat, plan, calls[..|calls| - 1]), cat, plan, calls[|calls| - 1])
  }

  /** Every ledger that calls can produce is sound, so every count, mode and taint is what the
      held shares say it is; and when all claims are gone nothing is left behind. The start may
      be the empty ledger or one recovered from a checkpoint. */
  lemma {:induction false} EveryRunIsSound(start: Ledger, cat: Catalog, plan: string -> seq<Share>, calls: seq<Call>)
    requires Sound(start, cat, plan) && PlanOk(cat, plan)
    requires forall i :: 0 <= i < |calls| ==> CallOk(cat, plan, calls[i])
    ensures Sound(After(start, cat, plan, calls), cat, plan)
    ensures After(start, cat, plan, calls).claims == {} ==> After(start, cat, plan, calls) == EMPTY_LEDGER
  {
    hide Sound;
    if calls != [] {
      var front, last := calls[..|calls| - 1], calls[|calls| - 1];
      EveryRunIsSound(start, cat, plan, front);
      CallIsSound(After(start, cat, plan, front), cat, plan, last);
    }
    DrainedIsEmpty(After(start, cat, plan, calls), cat, plan);
  }

  /** What calls do, they do in two parts as well. */
  lemma {:induction false} AfterInParts(start: Ledger, cat: Catalog, plan: string -> seq<Share>, calls: seq<Call>,
                                        n: nat)
    requires n <= |calls|
    ensures After(start, cat, plan, calls) == After(After(start, cat, plan, calls[..n]), cat, plan, calls[n..])
    decreases |calls|
  {
    if n == |calls| {
      assert calls[..n] == calls;
    } else {
      var front := calls[..|calls| - 1];
      AfterInParts(start, cat, plan, front, n);
      assert front[..n] == calls[..n] && front[n..] == calls[n..][..|calls| - n - 1];
    }
  }

  lemma CallIsSound(l: Ledger, cat: Catalog, plan: string -> seq<Share>, call: Call)
    requires Sound(l, cat, plan) && PlanOk(cat, plan) && CallOk(cat, plan, call)
    ensures Sound(Apply(l, cat, plan, call), cat, plan)
  {
    hide Sound;
    match call {
      case ReserveCall(claim) => ReserveClaimIsSound(l, cat, plan, claim);
      case ReleaseCall(claim, shares) => ReleaseClaimIsSound(l, cat, plan, claim, shares);
    }
  }

  // ---------- how far slots reach ----------

  ghost predicate Below(slots: Slots, gpu: int, n: nat) {
    forall k :: Holds(slots, gpu, k) ==> slots[gpu][k] < n
  }

  /** If a GPU never has more than n shares at once, no share is ever given a slot from n on,
      whatever the order of releases. */
  lemma {:induction false} SlotsStayBelowPeak(start: Ledger, cat: Catalog, plan: string -> seq<Share>, calls: seq<Call>,
                                              gpu: int, n: nat)
    requires Sound(start, cat, plan) && PlanOk(cat, plan) && Below(start.slots, gpu, n)
    requires forall i :: 0 <= i < |calls| ==> CallOk(cat, plan, calls[i])
    requires forall i :: 0 <= i <= |calls| ==> |Inner(After(start, cat, plan, calls[..i]).slots, gpu)| <= n
    ensures Below(After(start, cat, plan, calls).slots, gpu, n)
  {
    hide Sound, Below, Inner;
    if calls != [] {
      var front, last := calls[..|calls| - 1], calls[|calls| - 1];
      assert forall i :: 0 <= i <= |front| ==> front[..i] == calls[..i];
      SlotsStayBelowPeak(start, cat, plan, front, gpu, n);
      EveryRunIsSound(start, cat, plan, front);
      assert calls[..|calls|] == calls;
      CallKeepsBelow(After(start, cat, plan, front), cat, plan, last, gpu, n);
    }
  }

  lemma CallKeepsBelow(l: Ledger, cat: Catalog, plan: string -> seq<Share>, call: Call, gpu: int, n: nat)
    requires Sound(l, cat, plan) && PlanOk(cat, plan) && CallOk(cat, plan, call)
    requires Below(l.slots, gpu, n) && |Inner(Apply(l, cat, plan, call).slots, gpu)| <= n
    ensures Below(Apply(l, cat, plan, call).slots, gpu, n)
  {
    hide Sound, Below, Inner;
    match call {
      case ReserveCall(claim) =>
        if claim !in l.claims {
          ReserveKeepsBelow(l, cat, plan, claim, gpu, n);
        }
      case ReleaseCall(claim, shares) =>
        ReleaseKeepsBelow(l, Apply(l, cat, plan, call), cat, plan, claim, shares, gpu, n);
    }
  }

  lemma ReleaseKeepsBelow(l: Ledger, m: Ledger, cat: Catalog, plan: string -> seq<Share>, claim: string,
                          shares: seq<Share>, gpu: int, n: nat)
    requires Sound(l, cat, plan) && PlanOk(cat, plan) && SharesOf(cat, claim, shares)
    requires Pairs(cat, shares) == Pairs(cat, plan(claim))
    requires m == ReleaseClaim(l, cat, claim, shares).ledger && Below(l.slots, gpu, n)
    ensures Below(m.slots, gpu, n)
  {
    hide SharesOf, Pairs, ReleaseUpTo, Valid, Held;
    if claim in l.claims {
      ReleaseReserved(l, cat, plan, claim, shares);
      forall k | Holds(m.slots, gpu, k)
        ensures m.slots[gpu][k] < n
      {
        HeldIff(l.slots, gpu, k);
        HeldIff(m.slots, gpu, k);
      }
    }
  }

  lemma ReserveKeepsBelow(l: Ledger, cat: Catalog, plan: string -> seq<Share>, claim: string, gpu: int, n: nat)
    requires Sound(l, cat, plan) && PlanOk(cat, plan) && claim !in l.claims && Below(l.slots, gpu, n)
    requires |Inner(ReserveClaim(l, cat, claim, plan(claim)).ledger.slots, gpu)| <= n
    ensures Below(ReserveClaim(l, cat, claim, plan(claim)).ledger.slots, gpu, n)
  {
    hide Valid, Held, Pairs, SharesOf, AllPairs;
    var shares := plan(claim);
    assert SharesOf(cat, claim, shares);
    assert shares[..|shares|] == shares;
    PlansAreDisjoint(cat, plan, claim, l.claims);
    ReservePrefix(l, cat, claim, shares, |shares|);
    if ReserveUpTo(l, cat, shares, |shares|).ok {
      PrefixKeepsBelow(l, cat, claim, shares, |shares|, gpu, n);
    }
  }

  lemma {:induction false} PrefixKeepsBelow(l: Ledger, cat: Catalog, claim: string, shares: seq<Share>, i: nat,
                                            gpu: int, n: nat)
    requires Valid(l, cat) && SharesOf(cat, claim, shares) && i <= |shares| && Pairs(cat, shares[..i]) !! Held(l.slots)
    requires ReserveUpTo(l, cat, shares, i).ok && Below(l.slots, gpu, n)
    requires |Inner(ReserveUpTo(l, cat, shares, i).ledger.slots, gpu)| <= n
    ensures Below(ReserveUpTo(l, cat, shares, i).ledger.slots, gpu, n)
  {
    hide Valid, Held, Pairs, SharesOf, Reserve, PairOf, Below, Inner, HeldNames, SharedNames, ClashFree, WellKeyed;
    if i > 0 {
      PairsGrow(cat, shares, i - 1);
      PairIsNew(cat, claim, shares, i - 1);
      ReservePrefix(l, cat, claim, shares, i - 1);
      KeyedShareParses(cat, claim, shares, i - 1);
      StepKeepsBelow(ReserveUpTo(l, cat, shares, i - 1).ledger, cat, shares[i - 1], gpu, n);
      PrefixKeepsBelow(l, cat, claim, shares, i - 1, gpu, n);
    }
  }

  lemma StepKeepsBelow(m: Ledger, cat: Catalog, share: Share, gpu: int, n: nat)
    requires Valid(m, cat) && WellKeyed(cat, share) && PairOf(cat, share) !in Held(m.slots)
    requires Reserve(m, cat, share).ok && |Inner(Reserve(m, cat, share).ledger.slots, gpu)| <= n
    ensures |Inner(m.slots, gpu)| <= n
    ensures Below(m.slots, gpu, n) ==> Below(Reserve(m, cat, share).ledger.slots, gpu, n)
  {
    hide Valid, Held, Reserve, WellKeyed, Put, NextSlot, Below, Inner;
    ReserveOne(m, cat, share);
    HeldIff(m.slots, GpuOf(cat, share), share.key);
    PutBelow(m.slots, GpuOf(cat, share), share.key, gpu, n);
  }

  lemma PutBelow(slots: Slots, at: int, key: string, gpu: int, n: nat)
    ensures var after := Put(slots, at, key, NextSlot(slots, at));
            && (!Holds(slots, at, key) && |Inner(after, gpu)| <= n ==> |Inner(slots, gpu)| <= n)
            && (!Holds(slots, at, key) && |Inner(after, gpu)| <= n && Below(slots, gpu, n) ==> Below(after, gpu, n))
  {
    if !Holds(slots, at, key) {
      SizeAfterUpdate(Inner(slots, at), key, NextSlot(slots, at));
      FewValues(Inner(slots, at));
    }
  }

  lemma FewValues(m: map<string, nat>)
    ensures |m.Values| <= |m|
    decreases |m|
  {
    if m.Keys != {} {
      var k := Pick(m.Keys);
      var rest := m - {k};
      assert rest.Keys == m.Keys - {k};
      FewValues(rest);
      assert m.Values == rest.Values + {m[k]};
    } else {
      assert m.Values == {};
    }
  }
}
