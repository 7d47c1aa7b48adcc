/**
 Finding the device nodes of a partition.

 Once a GPU is split, sysfs lists one entry per sub-partition, in no particular order. A share
 gets the entry whose rank by card index is the share's slot.
 */
module DeviceNodes {
  import opened Wrappers
  import opened DeviceNames
  import opened Ledgers
  import opened Claims

  datatype Entry = Entry(pci: string, compute: string, card: int, render: int)

  const SPX := "spx"

  predicate IsPartitionOf(e: Entry, pci: string) {
    e.pci == pci && e.compute != "" && e.compute != SPX
  }

  predicate IsWhole(e: Entry, pci: string) {
    e.pci == pci && (e.compute == SPX || e.compute == "")
  }

  ghost predicate Sorted(s: seq<Entry>) {
    forall i, j :: 0 <= i < j < |s| ==> s[i].card <= s[j].card
  }

  /** The kernel gives every entry a card index of its own. */
  ghost predicate DistinctCards(s: seq<Entry>) {
    forall i, j :: 0 <= i < j < |s| ==> s[i].card != s[j].card
  }

  ghost predicate SameEntries(a: seq<Entry>, b: seq<Entry>) {
    multiset(a) == multiset(b)
  }

  function PartitionsOf(all: seq<Entry>, pci: string): seq<Entry> {
    if all == [] then []
    else
      var front, last := PartitionsOf(all[..|all| - 1], pci), all[|all| - 1];
      if IsPartitionOf(last, pci) then front + [last] else front
  }

  /** Put an entry where it belongs. */
  method Insert(s: seq<Entry>, e: Entry) returns (r: seq<Entry>)
    requires Sorted(s)
    ensures Sorted(r) && multiset(r) == multiset(s) + multiset{e}
  {
    var k := |s|;
    while k > 0 && s[k - 1].card > e.card
      invariant 0 <= k <= |s| && forall i :: k <= i < |s| ==> s[i].card > e.card
    {
      k := k - 1;
    }
    r := s[..k] + [e] + s[k..];
    InsertedIsSorted(s, e, k);
  }

  lemma InsertedIsSorted(s: seq<Entry>, e: Entry, k: nat)
    requires Sorted(s) && k <= |s| && (k > 0 ==> s[k - 1].card <= e.card) && forall i :: k <= i < |s| ==>
               s[i].card > e.card
    ensures Sorted(s[..k] + [e] + s[k..])
    ensures multiset(s[..k] + [e] + s[k..]) == multiset(s) + multiset{e}
  {
    hide Sorted;
    assert s == s[..k] + s[k..];
    SplitIsSorted(s, e, k);
    LowBeforeHigh(s[..k], e, s[k..]);
  }

  lemma SplitIsSorted(s: seq<Entry>, e: Entry, k: nat)
    requires Sorted(s) && k <= |s| && (k > 0 ==> s[k - 1].card <= e.card) && forall i :: k <= i < |s| ==>
               s[i].card > e.card
    ensures Sorted(s[..k]) && Sorted(s[k..])
    ensures (forall x :: x in s[..k] ==> x.card <= e.card) && forall x :: x in s[k..] ==> x.card >= e.card
  {
    forall x | x in s[..k]
      ensures x.card <= e.card
    {
      var i :| 0 <= i < k && s[i] == x;
    }
  }

  /** Entries in order stay so around one that fits between them. */
  lemma LowBeforeHigh(low: seq<Entry>, e: Entry, high: seq<Entry>)
    requires Sorted(low) && Sorted(high)
    requires (forall x :: x in low ==> x.card <= e.card) && forall x :: x in high ==> x.card >= e.card
    ensures Sorted(low + [e] + high)
  {
    var r := low + [e] + high;
    forall i, j | 0 <= i < j < |r|
      ensures r[i].card <= r[j].card
    {
      if i < |low| {
        assert r[i] == low[i] && low[i] in low;
      } else if i > |low| {
        assert r[i] == high[i - |low| - 1];
      }
      if j < |low| {
        assert r[j] == low[j];
      } else if j > |low| {
        assert r[j] == high[j - |low| - 1] && high[j - |low| - 1] in high;
      }
    }
  }

  method SortByCard(s: seq<Entry>) returns (r: seq<Entry>)
    ensures Sorted(r) && SameEntries(r, s)
  {
    r := [];
    var i := 0;
    while i < |s|
      invariant 0 <= i <= |s| && Sorted(r) && multiset(r) == multiset(s[..i])
    {
      assert s[..i + 1] == s[..i] + [s[i]];
      r := Insert(r, s[i]);
      i := i + 1;
    }
    assert s[..|s|] == s;
  }

  /** How many of these entries have a lower card index. */
  ghost function Lower(s: seq<Entry>, card: int): set<int> {
    set i | 0 <= i < |s| && s[i].card < card :: s[i].card
  }

  /** The entry of this rank. */
  ghost predicate IsRanked(s: seq<Entry>, e: Entry, rank: nat) {
    e in s && |Lower(s, e.card)| == rank
  }

  /** The entry is one whose nodes a share of the device in this slot may be given. */
  ghost predicate Finds(all: seq<Entry>, pci: string, d: PartitionName, slot: nat, e: Entry) {
    if d.compute == SPX then e in all && IsWhole(e, pci) else IsRanked(PartitionsOf(all, pci), e, slot)
  }

  /** The device nodes of a share.

      A device in SPX mode has the nodes of the whole GPU. In any other mode the nodes are those
      of the sub-partition whose rank is the share's slot; there are none if the share holds no
      slot, or if the GPU has too few sub-partitions. */
  method DiscoverPartitionDeviceNodes(cat: Catalog, device: string, key: string, all: seq<Entry>, pcis: map<int,
                                      string>,
                                      slots: Slots)
    returns (r: Option<Entry>)
    requires DistinctCards(all)
    ensures r.Some? ==> cat.parse(device).Some? && cat.parse(device).value.gpu in pcis
    ensures r.Some? ==>
              var d := cat.parse(device).value;
              && r.value in all && r.value.pci == pcis[d.gpu]
              && (r.value.compute in {"", "spx"} <==> d.compute == "spx")
              && (d.compute != "spx" ==>
                    && d.gpu in slots && key in slots[d.gpu]
                    && slots[d.gpu][key] == |PartitionsBelow(all, pcis[d.gpu], r.value.card)|)
    ensures cat.parse(device).Some? && cat.parse(device).value.gpu in pcis ==>
              var d := cat.parse(device).value;
              var pci := pcis[d.gpu];
              if d.compute == SPX then
                && (r.Some? ==> Finds(all, pci, d, 0, r.value))
                && (r.None? ==> forall e :: !Finds(all, pci, d, 0, e))
              else
                var parts := PartitionsOf(all, pci);
                && (r.Some? <==> Holds(slots, d.gpu, key) && slots[d.gpu][key] < |parts|)
                && (r.Some? ==> Finds(all, pci, d, slots[d.gpu][key], r.value))
  {
    var parsed := cat.parse(device);
    if parsed.None? || parsed.value.gpu !in pcis {
      return None;
    }
    var d := parsed.value;
    var pci := pcis[d.gpu];
    var parts: seq<Entry> := [];
    var i := 0;
    while i < |all|
      invariant 0 <= i <= |all| && parts == PartitionsOf(all[..i], pci)
      invariant d.compute == SPX ==> forall j :: 0 <= j < i ==> !IsWhole(all[j], pci)
    {
      assert all[..i + 1] == all[..i] + [all[i]];
      if d.compute == SPX && IsWhole(all[i], pci) {
        return Some(all[i]);
      }
      if IsPartitionOf(all[i], pci) {
        parts := parts + [all[i]];
      }
      i := i + 1;
    }
    assert all[..|all|] == all;
    if d.compute == SPX || parts == [] {
      return None;
    }
    var sorted := SortByCard(parts);
    SameLength(sorted, parts);
    if d.gpu !in slots || key !in slots[d.gpu] || slots[d.gpu][key] >= |sorted| {
      return None;
    }
    PartitionsHaveDistinctCards(all, pci);
    RankInSorted(parts, sorted, slots[d.gpu][key]);
    RankedInFields(all, pci, sorted[slots[d.gpu][key]], slots[d.gpu][key]);
    return Some(sorted[slots[d.gpu][key]]);
  }

  /** The card indices below this one among the sub-partitions of the GPU at this address. */
  ghost function PartitionsBelow(all: seq<Entry>, pci: string, card: int): set<int> {
    set e | e in all && e.pci == pci && e.compute != "" && e.compute != "spx" && e.card < card :: e.card
  }

  lemma RankedInFields(all: seq<Entry>, pci: string, e: Entry, rank: nat)
    requires DistinctCards(all) && IsRanked(PartitionsOf(all, pci), e, rank)
    ensures e in all && e.pci == pci && e.compute != "" && e.compute != "spx"
    ensures |PartitionsBelow(all, pci, e.card)| == rank
  {
    var parts := PartitionsOf(all, pci);
    PartitionsHaveDistinctCards(all, pci);
    forall c
      ensures c in PartitionsBelow(all, pci, e.card) <==> c in Lower(parts, e.card)
    {
      if c in PartitionsBelow(all, pci, e.card) {
        var f :| f in all && f.pci == pci && f.compute != "" && f.compute != "spx" && f.card < e.card && f.card == c;
        assert f in parts;
        var i :| 0 <= i < |parts| && parts[i] == f;
        assert parts[i].card == c;
      }
      if c in Lower(parts, e.card) {
        var i :| 0 <= i < |parts| && parts[i].card < e.card && parts[i].card == c;
        assert parts[i] in parts;
      }
    }
    assert PartitionsBelow(all, pci, e.card) == Lower(parts, e.card);
  }

  /** Shares on GPUs at different addresses never get the nodes of one entry. */
  lemma OtherGpusNodes(all: seq<Entry>, pci: string, d: PartitionName, slot: nat, e: Entry,
                       otherPci: string, other: PartitionName, otherSlot: nat, f: Entry)
    requires DistinctCards(all) && Finds(all, pci, d, slot, e) && Finds(all, otherPci, other, otherSlot, f)
    requires pci != otherPci
    ensures e.card != f.card
  {
    PartitionsHaveDistinctCards(all, pci);
    PartitionsHaveDistinctCards(all, otherPci);
    var i :| 0 <= i < |all| && all[i] == e;
    var j :| 0 <= j < |all| && all[j] == f;
  }

  lemma SameLength(a: seq<Entry>, b: seq<Entry>)
    requires SameEntries(a, b)
    ensures |a| == |b|
  {
    assert |multiset(a)| == |a| && |multiset(b)| == |b|;
  }

  lemma {:induction false} PartitionsHaveDistinctCards(all: seq<Entry>, pci: string)
    requires DistinctCards(all)
    ensures DistinctCards(PartitionsOf(all, pci))
    ensures forall e :: e in PartitionsOf(all, pci) <==> e in all && IsPartitionOf(e, pci)
  {
    if all != [] {
      var n := |all| - 1;
      PartitionsHaveDistinctCards(all[..n], pci);
      forall e
        ensures e in all <==> e in all[..n] || e == all[n]
      {
        assert all == all[..n] + [all[n]];
      }
      var front := PartitionsOf(all[..n], pci);
      forall i | 0 <= i < |front|
        ensures front[i].card != all[n].card
      {
        assert front[i] in front;
        var k :| 0 <= k < n && all[..n][k] == front[i];
      }
    }
  }

  lemma RankInSorted(parts: seq<Entry>, sorted: seq<Entry>, k: nat)
    requires SameEntries(sorted, parts) && Sorted(sorted) && DistinctCards(parts) && k < |sorted|
    ensures IsRanked(parts, sorted[k], k)
  {
    SameMembers(parts, sorted);
    StillDistinct(parts, sorted);
    FirstCards(sorted, k);
    assert Lower(parts, sorted[k].card) == set i | 0 <= i < k :: sorted[i].card;
  }

  lemma SameMembers(parts: seq<Entry>, sorted: seq<Entry>)
    requires SameEntries(sorted, parts)
    ensures forall e :: e in parts <==> e in sorted
    ensures forall card :: Lower(parts, card) == Lower(sorted, card)
  {
    forall e
      ensures e in parts <==> e in sorted
    {
      assert e in multiset(parts) <==> e in multiset(sorted);
    }
    forall card
      ensures Lower(parts, card) == Lower(sorted, card)
    {
      forall c
        ensures c in Lower(parts, card) <==> c in Lower(sorted, card)
      {
        if c in Lower(parts, card) {
          var i :| 0 <= i < |parts| && parts[i].card < card && parts[i].card == c;
          assert parts[i] in sorted;
        }
        if c in Lower(sorted, card) {
          var i :| 0 <= i < |sorted| && sorted[i].card < card && sorted[i].card == c;
          assert sorted[i] in parts;
        }
      }
    }
  }

  lemma StillDistinct(parts: seq<Entry>, sorted: seq<Entry>)
    requires SameEntries(sorted, parts) && DistinctCards(parts)
    ensures DistinctCards(sorted)
  {
    forall i, j | 0 <= i < j < |sorted|
      ensures sorted[i].card != sorted[j].card
    {
      if sorted[i].card == sorted[j].card {
        TwiceInSorted(parts, sorted, i, j);
      }
    }
  }

  lemma TwiceInSorted(parts: seq<Entry>, sorted: seq<Entry>, i: nat, j: nat)
    requires SameEntries(sorted, parts) && DistinctCards(parts) && i < j < |sorted|
    ensures sorted[i].card != sorted[j].card
  {
    SameMembers(parts, sorted);
    assert sorted[i] in sorted && sorted[j] in sorted;
    var a :| 0 <= a < |parts| && parts[a] == sorted[i];
    var b :| 0 <= b < |parts| && parts[b] == sorted[j];
    if a == b {
      var rest := sorted[..j] + sorted[j + 1..];
      assert sorted == sorted[..j] + [sorted[j]] + sorted[j + 1..];
      assert multiset(sorted) == multiset(rest) + multiset{sorted[j]};
      assert rest[i] == sorted[i];
      assert multiset(sorted)[sorted[j]] >= 2;
      OnlyOnce(parts, a);
      assert false;
    }
  }

  lemma OnlyOnce(parts: seq<Entry>, a: nat)
    requires DistinctCards(parts) && a < |parts|
    ensures multiset(parts)[parts[a]] == 1
  {
    var before, after := parts[..a], parts[a + 1..];
    assert parts == before + [parts[a]] + after;
    assert parts[a] !in before && parts[a] !in after;
  }

  lemma FirstCards(sorted: seq<Entry>, k: nat)
    requires Sorted(sorted) && DistinctCards(sorted) && k < |sorted|
    ensures Lower(sorted, sorted[k].card) == set i | 0 <= i < k :: sorted[i].card
    ensures |set i | 0 <= i < k :: sorted[i].card| == k
  {
    FirstCount(sorted, k);
  }

  lemma {:induction false} FirstCount(sorted: seq<Entry>, k: nat)
    requires DistinctCards(sorted) && k <= |sorted|
    ensures |set i | 0 <= i < k :: sorted[i].card| == k
  {
    if k > 0 {
      FirstCount(sorted, k - 1);
      assert (set i | 0 <= i < k :: sorted[i].card)
             == (set i | 0 <= i < k - 1 :: sorted[i].card) + {sorted[k - 1].card};
    }
  }

  /** A rank belongs to one entry, whatever order the entries are listed in. */
  lemma RankIsUnique(a: seq<Entry>, b: seq<Entry>, e: Entry, f: Entry, rank: nat)
    requires SameEntries(a, b) && DistinctCards(a)
    requires IsRanked(a, e, rank) && IsRanked(b, f, rank)
    ensures e == f
  {
    SameMembers(b, a);
    if e.card < f.card {
      LowerGrows(a, e, f);
    } else if f.card < e.card {
      LowerGrows(a, f, e);
    }
  }

  lemma LowerGrows(s: seq<Entry>, e: Entry, f: Entry)
    requires e in s && e.card < f.card
    ensures |Lower(s, e.card)| < |Lower(s, f.card)|
  {
    assert e.card in Lower(s, f.card) && e.card !in Lower(s, e.card);
    assert Lower(s, e.card) <= Lower(s, f.card);
    SmallerSet(Lower(s, e.card), Lower(s, f.card));
  }

  lemma SmallerSet(a: set<int>, b: set<int>)
    requires a < b
    ensures |a| < |b|
  {
    assert b == a + (b - a) && b - a != {};
    assert |b| == |a| + |b - a|;
  }

  /** Two shares that hold slots on one split GPU are given different card indices, even when the
      enumerations they see differ in order. */
  lemma SharesGetDistinctNodes(cat: Catalog, l: Ledger, gpu: int, k1: string, k2: string, a: seq<Entry>, b: seq<Entry>,
                               e: Entry, f: Entry)
    requires Valid(l, cat) && Holds(l.slots, gpu, k1) && Holds(l.slots, gpu, k2) && k1 != k2
    requires SameEntries(a, b) && IsRanked(a, e, l.slots[gpu][k1]) && IsRanked(b, f, l.slots[gpu][k2])
    ensures e.card != f.card
  {
    SameMembers(b, a);
    assert Injective(l.slots[gpu]);
  }

  // ---------- every held share finds its nodes ----------

  /** The place of an entry in a sorted sequence. */
  ghost function Place(s: seq<Entry>, e: Entry): (k: nat)
    ensures k <= |s| && (k > 0 ==> s[k - 1].card <= e.card) && forall i :: k <= i < |s| ==> s[i].card > e.card
  {
    if s == [] || s[|s| - 1].card <= e.card then |s| else Place(s[..|s| - 1], e)
  }

  ghost function InOrder(s: seq<Entry>): seq<Entry> {
    if s == [] then []
    else
      var front, last := InOrder(s[..|s| - 1]), s[|s| - 1];
      front[..Place(front, last)] + [last] + front[Place(front, last)..]
  }

  lemma {:induction false} InOrderIsSorted(s: seq<Entry>)
    ensures Sorted(InOrder(s)) && SameEntries(InOrder(s), s)
  {
    hide Sorted, Place;
    if s == [] {
      NothingToSort();
    } else {
      InOrderIsSorted(s[..|s| - 1]);
      InsertedIsSorted(InOrder(s[..|s| - 1]), s[|s| - 1], Place(InOrder(s[..|s| - 1]), s[|s| - 1]));
      LastApart(s);
    }
  }

  lemma NothingToSort()
    ensures Sorted([])
  {
  }

  lemma LastApart(s: seq<Entry>)
    requires s != []
    ensures multiset(s) == multiset(s[..|s| - 1]) + multiset{s[|s| - 1]}
  {
    assert s == s[..|s| - 1] + [s[|s| - 1]];
  }

  /** There is an entry of every rank below the number of entries. */
  lemma EveryRankIsTaken(parts: seq<Entry>, rank: nat)
    requires DistinctCards(parts) && rank < |parts|
    ensures exists e :: IsRanked(parts, e, rank)
  {
    var sorted := InOrder(parts);
    InOrderIsSorted(parts);
    SameLength(sorted, parts);
    RankInSorted(parts, sorted, rank);
  }

  /** How many partitions a GPU is split into in these modes. */
  function PartitionCount(d: PartitionName): nat {
    var config := FindConfig(Modes(d.compute, d.memory), 0);
    if config.Some? then config.value.count else 0
  }

  /** The GPU is split as the device's modes say: a GPU in SPX mode is listed as a whole, any other
      as its sub-partitions. */
  ghost predicate IsSplit(all: seq<Entry>, pci: string, d: PartitionName) {
    && DistinctCards(all)
    && if d.compute == SPX then exists e :: e in all && IsWhole(e, pci)
       else |PartitionsOf(all, pci)| == PartitionCount(d)
  }

  /** Every share held on the GPU has nodes of its own; on a GPU in SPX mode there is no other share. */
  ghost predicate OwnNodes(slots: Slots, gpu: int, all: seq<Entry>, pci: string, d: PartitionName) {
    && (forall k :: Holds(slots, gpu, k) ==> exists e :: Finds(all, pci, d, slots[gpu][k], e))
    && (forall j, k, e, f :: Holds(slots, gpu, j) && Holds(slots, gpu, k) && j != k
                             && Finds(all, pci, d, slots[gpu][j], e) && Finds(all, pci, d, slots[gpu][k], f) ==>
          e.card != f.card)
    && (d.compute == SPX ==> forall j, k :: Holds(slots, gpu, j) && Holds(slots, gpu, k) ==> j == k)
  }

  /** The slot of a share never runs out of range, and no two shares ever meet: once a GPU is split
      as its modes say, every share that is held on it after any calls finds its nodes, and no other
      share finds the same ones. It takes that since some point, such as the last one at which the
      GPU had no shares at all, there were never more shares on it than the modes have partitions. */
  lemma SharesHaveOwnNodes(start: Ledger, cat: Catalog, plan: string -> seq<Share>, calls: seq<Call>, since: nat,
                           gpu: int, key: string, all: seq<Entry>, pci: string)
    requires Sound(start, cat, plan) && PlanOk(cat, plan) && since <= |calls|
    requires forall i :: 0 <= i < |calls| ==> CallOk(cat, plan, calls[i])
    requires Holds(After(start, cat, plan, calls).slots, gpu, key) && NameOf(cat, key).Some?
    requires IsSplit(all, pci, NameOf(cat, key).value)
    requires var n := PartitionCount(NameOf(cat, key).value);
             && Below(After(start, cat, plan, calls[..since]).slots, gpu, n)
             && forall i :: since <= i <= |calls| ==> |Inner(After(start, cat, plan, calls[..i]).slots, gpu)| <= n
    ensures OwnNodes(After(start, cat, plan, calls).slots, gpu, all, pci, NameOf(cat, key).value)
  {
    hide Valid, After, Below, Inner, PlanOk, CallOk, OwnNodes, IsSplit, PartitionCount;
    var d, l := NameOf(cat, key).value, After(start, cat, plan, calls);
    EveryRunIsSound(start, cat, plan, calls);
    SlotsSince(start, cat, plan, calls, since, gpu, PartitionCount(d));
    if d.compute == SPX {
      WholeIsOwn(l, cat, gpu, all, pci, d);
    } else {
      PartitionsAreOwn(l, cat, gpu, all, pci, d);
    }
  }

  lemma PartitionsAreOwn(l: Ledger, cat: Catalog, gpu: int, all: seq<Entry>, pci: string, d: PartitionName)
    requires Valid(l, cat) && IsSplit(all, pci, d) && d.compute != SPX && Below(l.slots, gpu, PartitionCount(d))
    ensures OwnNodes(l.slots, gpu, all, pci, d)
  {
    hide Valid, Below, IsRanked, PartitionCount, DistinctCards;
    var parts := PartitionsOf(all, pci);
    PartitionsHaveDistinctCards(all, pci);
    forall k | Holds(l.slots, gpu, k)
      ensures exists e :: Finds(all, pci, d, l.slots[gpu][k], e)
    {
      SlotIsBelow(l.slots, gpu, k, |parts|);
      EveryRankIsTaken(parts, l.slots[gpu][k]);
      var e :| IsRanked(parts, e, l.slots[gpu][k]);
      assert Finds(all, pci, d, l.slots[gpu][k], e);
    }
    forall j, k, e, f | Holds(l.slots, gpu, j) && Holds(l.slots, gpu, k) && j != k
                        && Finds(all, pci, d, l.slots[gpu][j], e) && Finds(all, pci, d, l.slots[gpu][k], f)
      ensures e.card != f.card
    {
      SharesGetDistinctNodes(cat, l, gpu, j, k, parts, parts, e, f);
    }
  }

  /** There is one partition in SPX mode, and so only one share can hold a slot. */
  lemma WholeIsOwn(l: Ledger, cat: Catalog, gpu: int, all: seq<Entry>, pci: string, d: PartitionName)
    requires Valid(l, cat) && IsSplit(all, pci, d) && d.compute == SPX && Below(l.slots, gpu, PartitionCount(d))
    ensures OwnNodes(l.slots, gpu, all, pci, d)
  {
    hide Valid, Below, PartitionCount, DistinctCards;
    SpxIsWhole(d);
    var e :| e in all && IsWhole(e, pci);
    forall k | Holds(l.slots, gpu, k)
      ensures exists e :: Finds(all, pci, d, l.slots[gpu][k], e)
    {
      assert Finds(all, pci, d, l.slots[gpu][k], e);
    }
    forall j, k | Holds(l.slots, gpu, j) && Holds(l.slots, gpu, k)
      ensures j == k
    {
      SlotIsBelow(l.slots, gpu, j, PartitionCount(d));
      SlotIsBelow(l.slots, gpu, k, PartitionCount(d));
      SameSlotSameShare(l, cat, gpu, j, k);
    }
  }

  lemma SameSlotSameShare(l: Ledger, cat: Catalog, gpu: int, j: string, k: string)
    requires Valid(l, cat) && Holds(l.slots, gpu, j) && Holds(l.slots, gpu, k) && l.slots[gpu][j] == l.slots[gpu][k]
    ensures j == k
  {
    assert Injective(l.slots[gpu]);
  }

  /** How many partitions the modes make is a matter of the compute mode. */
  lemma CountsOfModes(d: PartitionName)
    requires d.Valid()
    ensures PartitionCount(d) == match d.compute case "spx" => 1 case "dpx" => 2 case "qpx" => 4 case _ => 8
  {
    var k :| 0 <= k < |VALID_PARTITION_CONFIGS| && d.Has(VALID_PARTITION_CONFIGS[k]);
    FindsItsConfig(k, 0);
  }

  lemma SpxIsWhole(d: PartitionName)
    requires d.compute == SPX
    ensures PartitionCount(d) <= 1
  {
    hide FindConfig;
    var config := FindConfig(Modes(d.compute, d.memory), 0);
    if config.Some? {
      assert Modes(d.compute, d.memory)[0] == 's' && Modes(config.value.compute, config.value.memory)[0] == 's';
    }
  }

  lemma SlotIsBelow(slots: Slots, gpu: int, key: string, n: nat)
    requires Below(slots, gpu, n) && Holds(slots, gpu, key)
    ensures slots[gpu][key] < n
  {
  }

  lemma SlotsSince(start: Ledger, cat: Catalog, plan: string -> seq<Share>, calls: seq<Call>, since: nat, gpu: int,
                   n: nat)
    requires Sound(start, cat, plan) && PlanOk(cat, plan) && since <= |calls|
    requires forall i :: 0 <= i < |calls| ==> CallOk(cat, plan, calls[i])
    requires Below(After(start, cat, plan, calls[..since]).slots, gpu, n)
    requires forall i :: since <= i <= |calls| ==> |Inner(After(start, cat, plan, calls[..i]).slots, gpu)| <= n
    ensures Below(After(start, cat, plan, calls).slots, gpu, n)
  {
    hide Sound, Below, Inner, After, PlanOk, CallOk;
    var first, rest := calls[..since], calls[since..];
    EveryRunIsSound(start, cat, plan, first);
    AfterInParts(start, cat, plan, calls, since);
    forall i | 0 <= i <= |rest|
      ensures |Inner(After(After(start, cat, plan, first), cat, plan, rest[..i]).slots, gpu)| <= n
    {
      AfterInParts(start, cat, plan, calls[..since + i], since);
      assert calls[..since + i][..since] == first && calls[..since + i][since..] == rest[..i];
    }
    SlotsStayBelowPeak(After(start, cat, plan, first), cat, plan, rest, gpu, n);
  }
}
