/** The per-zone results: the accumulator each zone's map entry holds while the records are
    folded in, the output entry it is turned into, the sort by zone, and the canonical list
    (zones in Z1..Z6 order) that the sorted output is proved equal to. */
module ZoneList {
  import opened Optional
  import opened Numeric
  import opened Telemetry
  import opened PowerZones
  import opened Tallies

  /** A value of the zone map while the records are folded in. */
  datatype ZoneAccumulator = ZoneAccumulator(
    leftTotal: real,
    rightTotal: real,
    count: nat,
    description: string,
    powerRange: string,
    leftTorqueTotal: real,
    rightTorqueTotal: real,
    torqueCount: nat,
    leftSmoothTotal: real,
    rightSmoothTotal: real,
    smoothCount: nat)

  /** One entry of the output list (`PowerZoneBalance`). */
  datatype PowerZoneBalance = PowerZoneBalance(
    zone: ZoneId,
    description: string,
    powerRange: string,
    sampleCount: nat,
    leftRightBalance: Option<Pair>,
    pedalSmoothness: Option<Pair>,
    torqueEffectiveness: Option<Pair>)

  /** The entry a zone gets when its first record arrives: all totals zero, the zone's
      description and its rendered watt range. */
  function NewAccumulator(info: ZoneInfo): (acc: ZoneAccumulator)
    ensures acc.count == 0 && acc.torqueCount == 0 && acc.smoothCount == 0
    ensures acc.leftTotal == acc.rightTotal == acc.leftTorqueTotal == acc.rightTorqueTotal == 0.0
    ensures acc.leftSmoothTotal == acc.rightSmoothTotal == 0.0
    ensures acc.description == info.description
    ensures acc.powerRange == RangeLabel(info.minPower, info.maxPower)
  {
    ZoneAccumulator(0.0, 0.0, 0, info.description, RangeLabel(info.minPower, info.maxPower), 0.0, 0.0, 0, 0.0, 0.0, 0)
  }

  /** What zone `z`'s entry holds once the records `rs` have been folded in: the zone's balance,
      torque and smoothness sums, and its table row's description and range. */
  function AccumulatorOf(rs: seq<Record>, z: ZoneId, t: real): ZoneAccumulator {
    var row := ZoneDefinition(z, t);
    var b, q, s := Tally(rs, ZoneBalance(z, t)), Tally(rs, ZoneTorque(z, t)), Tally(rs, ZoneSmoothness(z, t));
    ZoneAccumulator(b.left, b.right, b.count, row.description, RangeLabel(row.minPower, row.maxPower),
                    q.left, q.right, q.count, s.left, s.right, s.count)
  }

  /** A map entry with at least one sample turned into an output entry: balance always present,
      torque and smoothness present exactly when their own counts are positive. */
  function Finalize(z: ZoneId, acc: ZoneAccumulator): (e: PowerZoneBalance)
    requires acc.count > 0
    ensures e.zone == z && e.sampleCount == acc.count
    ensures e.description == acc.description && e.powerRange == acc.powerRange
    ensures e.leftRightBalance == MeanPair(Sums(acc.leftTotal, acc.rightTotal, acc.count))
    ensures e.leftRightBalance.Some?
    ensures e.torqueEffectiveness.None? <==> acc.torqueCount == 0
    ensures e.pedalSmoothness.None? <==> acc.smoothCount == 0
  {
    PowerZoneBalance(
      z, acc.description, acc.powerRange, acc.count,
      MeanPair(Sums(acc.leftTotal, acc.rightTotal, acc.count)),
      MeanPair(Sums(acc.leftSmoothTotal, acc.rightSmoothTotal, acc.smoothCount)),
      MeanPair(Sums(acc.leftTorqueTotal, acc.rightTorqueTotal, acc.torqueCount)))
  }

  /** Number of records of `rs` in zone `z`. */
  function ZoneCount(rs: seq<Record>, z: ZoneId, t: real): nat {
    Tally(rs, ZoneBalance(z, t)).count
  }

  /** Zone `z`'s output entry for the records `rs`. */
  function Entry(rs: seq<Record>, z: ZoneId, t: real): (e: PowerZoneBalance)
    requires ZoneCount(rs, z, t) > 0
    ensures e.zone == z && e.sampleCount == ZoneCount(rs, z, t)
  {
    Finalize(z, AccumulatorOf(rs, z, t))
  }

  const AllZones: seq<ZoneId> := [Z1, Z2, Z3, Z4, Z5, Z6]

  /** The entries of the zones `zs` that have samples, in the order of `zs`. */
  function EntriesFrom(zs: seq<ZoneId>, rs: seq<Record>, t: real): seq<PowerZoneBalance> {
    if zs == [] then []
    else (if ZoneCount(rs, zs[0], t) > 0 then [Entry(rs, zs[0], t)] else []) + EntriesFrom(zs[1..], rs, t)
  }

  /** The intended zone list: one entry per zone with samples, by zone number. */
  function CanonicalZoneList(rs: seq<Record>, t: real): seq<PowerZoneBalance> {
    EntriesFrom(AllZones, rs, t)
  }

  // ---- Order of entries ----

  predicate SortedByZone(s: seq<PowerZoneBalance>) {
    forall i, j :: 0 <= i < j < |s| ==> s[i].zone.Index() <= s[j].zone.Index()
  }

  predicate StrictlySortedByZone(s: seq<PowerZoneBalance>) {
    forall i, j :: 0 <= i < j < |s| ==> s[i].zone.Index() < s[j].zone.Index()
  }

  predicate IncreasingZones(zs: seq<ZoneId>) {
    forall i, j :: 0 <= i < j < |zs| ==> zs[i].Index() < zs[j].Index()
  }

  predicate NoDuplicates<T(==)>(s: seq<T>) {
    forall i, j :: 0 <= i < j < |s| ==> s[i] != s[j]
  }

  /** Puts `e` after every entry whose zone is not greater, as a stable sort does. */
  function InsertByZone(e: PowerZoneBalance, s: seq<PowerZoneBalance>): (r: seq<PowerZoneBalance>)
    requires SortedByZone(s)
    ensures SortedByZone(r)
    ensures forall k :: 0 <= k < |r| ==> r[k] == e || r[k] in s
  {
    if s == [] then [e]
    else if s[0].zone.Index() <= e.zone.Index() then [s[0]] + InsertByZone(e, s[1..])
    else [e] + s
  }

  /** `.sort((a, b) => a.zone.localeCompare(b.zone))`: the entries ordered by zone. */
  function SortByZone(s: seq<PowerZoneBalance>): (r: seq<PowerZoneBalance>)
    ensures SortedByZone(r)
  {
    if s == [] then [] else InsertByZone(s[|s| - 1], SortByZone(s[..|s| - 1]))
  }

  /** Inserting adds exactly the inserted entry. */
  lemma {:induction false} InsertPermutes(e: PowerZoneBalance, s: seq<PowerZoneBalance>)
    requires SortedByZone(s)
    ensures multiset(InsertByZone(e, s)) == multiset(s) + multiset{e}
  {
    if s != [] && s[0].zone.Index() <= e.zone.Index() {
      InsertPermutes(e, s[1..]);
      assert s == [s[0]] + s[1..];
    }
  }

  /** Sorting rearranges the entries and neither adds nor drops any. */
  lemma {:induction false} SortPermutes(s: seq<PowerZoneBalance>)
    ensures multiset(SortByZone(s)) == multiset(s)
  {
    if s != [] {
      var front, last := s[..|s| - 1], s[|s| - 1];
      SortPermutes(front);
      calc {
        multiset(SortByZone(s));
        multiset(InsertByZone(last, SortByZone(front)));
        { InsertPermutes(last, SortByZone(front)); }
        multiset(SortByZone(front)) + multiset{last};
        multiset(front) + multiset{last};
        { MultisetOfSnoc(s); }
        multiset(s);
      }
    }
  }

  lemma MultisetOfSnoc<T>(s: seq<T>)
    requires s != []
    ensures multiset(s) == multiset(s[..|s| - 1]) + multiset{s[|s| - 1]}
  {
    assert s == s[..|s| - 1] + [s[|s| - 1]];
  }

  // ---- Properties ----

  lemma IndexInjective(z: ZoneId, w: ZoneId)
    requires z.Index() == w.Index()
    ensures z == w
  {
  }

  /** Two sorted rearrangements of each other are equal when every entry is determined by its zone. */
  lemma {:induction false} SortedUnique(a: seq<PowerZoneBalance>, b: seq<PowerZoneBalance>, table: map<ZoneId, PowerZoneBalance>)
    requires SortedByZone(a) && SortedByZone(b) && multiset(a) == multiset(b)
    requires forall i :: 0 <= i < |a| ==> a[i].zone in table && a[i] == table[a[i].zone]
    ensures a == b
    decreases |a|
  {
    RearrangementMembers(a, b);
    if a != [] {
      assert b[0] in b && a[0] in a;
      var i :| 0 <= i < |a| && a[i] == b[0];
      var j :| 0 <= j < |b| && b[j] == a[0];
      assert a[0].zone.Index() <= a[i].zone.Index();
      assert b[0].zone.Index() <= b[j].zone.Index();
      IndexInjective(a[0].zone, b[0].zone);
      DropEqualHeads(a, b);
      SortedUnique(a[1..], b[1..], table);
    }
  }

  /** Rearrangements have the same length and the same members. */
  lemma RearrangementMembers<T>(a: seq<T>, b: seq<T>)
    requires multiset(a) == multiset(b)
    ensures |a| == |b|
    ensures forall x :: x in a <==> x in b
  {
    assert |a| == |multiset(a)| && |b| == |multiset(b)|;
    forall x ensures x in a <==> x in b {
      assert x in a <==> x in multiset(a);
      assert x in b <==> x in multiset(b);
    }
  }

  /** Removing equal first elements from two rearrangements leaves rearrangements. */
  lemma DropEqualHeads<T>(a: seq<T>, b: seq<T>)
    requires multiset(a) == multiset(b) && |a| > 0 && |b| > 0 && a[0] == b[0]
    ensures multiset(a[1..]) == multiset(b[1..])
  {
    assert a == [a[0]] + a[1..] && b == [b[0]] + b[1..];
    assert multiset(a[1..]) == multiset(a) - multiset{a[0]};
    assert multiset(b[1..]) == multiset(b) - multiset{b[0]};
  }

  /** In a sequence without duplicates every member occurs exactly once. */
  lemma {:induction false} NoDuplicatesOnce<T>(s: seq<T>, x: T)
    requires NoDuplicates(s)
    ensures multiset(s)[x] == if x in s then 1 else 0
  {
    if s != [] {
      var p := s[..|s| - 1];
      assert s == p + [s[|s| - 1]];
      NoDuplicatesOnce(p, x);
      assert x == s[|s| - 1] ==> x !in p;
    }
  }

  /** Two sequences without duplicates and with the same members are rearrangements of each other. */
  lemma SameMembersSameMultiset<T>(a: seq<T>, b: seq<T>)
    requires NoDuplicates(a) && NoDuplicates(b)
    requires forall x :: x in a <==> x in b
    ensures multiset(a) == multiset(b)
  {
    forall x ensures multiset(a)[x] == multiset(b)[x] {
      NoDuplicatesOnce(a, x);
      NoDuplicatesOnce(b, x);
    }
  }

  /** Every entry the canonical construction yields is its zone's entry, for a zone of `zs` with samples. */
  lemma {:induction false} EntriesFromMembers(zs: seq<ZoneId>, rs: seq<Record>, t: real)
    ensures forall e :: e in EntriesFrom(zs, rs, t) ==>
              e.zone in zs && ZoneCount(rs, e.zone, t) > 0 && e == Entry(rs, e.zone, t)
  {
    if zs != [] {
      EntriesFromMembers(zs[1..], rs, t);
    }
  }

  /** Every zone of `zs` with samples has its entry in the canonical construction. */
  lemma {:induction false} EntriesFromComplete(zs: seq<ZoneId>, rs: seq<Record>, t: real)
    ensures forall z :: z in zs && ZoneCount(rs, z, t) > 0 ==> Entry(rs, z, t) in EntriesFrom(zs, rs, t)
  {
    if zs != [] {
      EntriesFromComplete(zs[1..], rs, t);
      forall z | z in zs && ZoneCount(rs, z, t) > 0 ensures Entry(rs, z, t) in EntriesFrom(zs, rs, t) {
        if z != zs[0] {
          assert z in zs[1..];
        }
      }
    }
  }

  /** For increasing zones the canonical construction is sorted strictly by zone. */
  lemma {:induction false} EntriesFromSorted(zs: seq<ZoneId>, rs: seq<Record>, t: real)
    requires IncreasingZones(zs)
    ensures StrictlySortedByZone(EntriesFrom(zs, rs, t))
  {
    if zs != [] {
      EntriesFromSorted(zs[1..], rs, t);
      var tail := EntriesFrom(zs[1..], rs, t);
      if ZoneCount(rs, zs[0], t) > 0 {
        var e := Entry(rs, zs[0], t);
        assert EntriesFrom(zs, rs, t) == [e] + tail;
        forall k | 0 <= k < |tail| ensures e.zone.Index() < tail[k].zone.Index() {
          HeadBelowTail(zs, rs, t, tail[k]);
        }
        ConsSorted(e, tail);
      } else {
        assert EntriesFrom(zs, rs, t) == tail;
      }
    }
  }

  lemma ConsSorted(e: PowerZoneBalance, tail: seq<PowerZoneBalance>)
    requires StrictlySortedByZone(tail)
    requires forall k :: 0 <= k < |tail| ==> e.zone.Index() < tail[k].zone.Index()
    ensures StrictlySortedByZone([e] + tail)
  {
    var r := [e] + tail;
    forall i, j | 0 <= i < j < |r| ensures r[i].zone.Index() < r[j].zone.Index() {
      assert r[j] == tail[j - 1];
      if i > 0 {
        assert r[i] == tail[i - 1];
      }
    }
  }

  /** The entries built from the zones after the first all lie above the first zone. */
  lemma HeadBelowTail(zs: seq<ZoneId>, rs: seq<Record>, t: real, e: PowerZoneBalance)
    requires IncreasingZones(zs) && zs != [] && e in EntriesFrom(zs[1..], rs, t)
    ensures zs[0].Index() < e.zone.Index()
  {
    EntriesFromMembers(zs[1..], rs, t);
    var k :| 0 <= k < |zs[1..]| && zs[1..][k] == e.zone;
    assert zs[k + 1] == e.zone;
  }

  /** The canonical list: sorted strictly by zone number (so no zone twice), each entry its zone's,
      and zone `z` is listed exactly when some record falls in it. */
  lemma CanonicalZoneListFacts(rs: seq<Record>, t: real)
    ensures StrictlySortedByZone(CanonicalZoneList(rs, t))
    ensures forall e :: e in CanonicalZoneList(rs, t) ==> ZoneCount(rs, e.zone, t) > 0 && e == Entry(rs, e.zone, t)
    ensures forall z :: ZoneCount(rs, z, t) > 0 ==> Entry(rs, z, t) in CanonicalZoneList(rs, t)
  {
    AllZonesInOrder();
    EntriesFromSorted(AllZones, rs, t);
    EntriesFromMembers(AllZones, rs, t);
    EntriesFromComplete(AllZones, rs, t);
  }

  /** The zone list names every zone once, in increasing order. */
  lemma AllZonesInOrder()
    ensures IncreasingZones(AllZones)
    ensures forall z: ZoneId :: z in AllZones
  {
    forall z: ZoneId ensures z in AllZones {
      assert AllZones[z.Index() - 1] == z;
    }
  }

  /** Total samples over a list of entries. */
  function SampleCountTotal(s: seq<PowerZoneBalance>): nat {
    if s == [] then 0 else s[0].sampleCount + SampleCountTotal(s[1..])
  }

  function ZoneCountSum(zs: seq<ZoneId>, rs: seq<Record>, t: real): nat {
    if zs == [] then 0 else ZoneCount(rs, zs[0], t) + ZoneCountSum(zs[1..], rs, t)
  }

  lemma {:induction false} SampleCountTotalAppend(a: seq<PowerZoneBalance>, b: seq<PowerZoneBalance>)
    ensures SampleCountTotal(a + b) == SampleCountTotal(a) + SampleCountTotal(b)
  {
    if a == [] {
      assert a + b == b;
    } else {
      assert (a + b)[0] == a[0];
      assert (a + b)[1..] == a[1..] + b;
      SampleCountTotalAppend(a[1..], b);
    }
  }

  lemma ZoneCountSumCons(z: ZoneId, zs: seq<ZoneId>, rs: seq<Record>, t: real)
    ensures ZoneCountSum([z] + zs, rs, t) == ZoneCount(rs, z, t) + ZoneCountSum(zs, rs, t)
  {
    assert ([z] + zs)[0] == z;
    assert ([z] + zs)[1..] == zs;
  }

  lemma {:induction false} EntriesFromSampleTotal(zs: seq<ZoneId>, rs: seq<Record>, t: real)
    ensures SampleCountTotal(EntriesFrom(zs, rs, t)) == ZoneCountSum(zs, rs, t)
  {
    if zs != [] {
      EntriesFromSampleTotal(zs[1..], rs, t);
      var head := if ZoneCount(rs, zs[0], t) > 0 then [Entry(rs, zs[0], t)] else [];
      assert SampleCountTotal(head) == ZoneCount(rs, zs[0], t) by {
        if head != [] {
          assert head[1..] == [];
        }
      }
      SampleCountTotalAppend(head, EntriesFrom(zs[1..], rs, t));
    }
  }

  lemma ZoneCountSumAllZones(rs: seq<Record>, t: real)
    ensures ZoneCountSum(AllZones, rs, t)
         == ZoneCount(rs, Z1, t) + ZoneCount(rs, Z2, t) + ZoneCount(rs, Z3, t)
          + ZoneCount(rs, Z4, t) + ZoneCount(rs, Z5, t) + ZoneCount(rs, Z6, t)
  {
    assert AllZones == [Z1] + ([Z2] + ([Z3] + ([Z4] + ([Z5] + ([Z6] + [])))));
    ZoneCountSumCons(Z6, [], rs, t);
    ZoneCountSumCons(Z5, [Z6] + [], rs, t);
    ZoneCountSumCons(Z4, [Z5] + ([Z6] + []), rs, t);
    ZoneCountSumCons(Z3, [Z4] + ([Z5] + ([Z6] + [])), rs, t);
    ZoneCountSumCons(Z2, [Z3] + ([Z4] + ([Z5] + ([Z6] + []))), rs, t);
    ZoneCountSumCons(Z1, [Z2] + ([Z3] + ([Z4] + ([Z5] + ([Z6] + [])))), rs, t);
  }

  /** The zone list's sample counts add up to the number of records with positive power and a
      balance reading: every such record is counted in exactly one listed zone. */
  lemma CanonicalSampleTotal(rs: seq<Record>, t: real)
    requires t > 0.0
    ensures SampleCountTotal(CanonicalZoneList(rs, t)) == Tally(rs, Balance).count
  {
    EntriesFromSampleTotal(AllZones, rs, t);
    ZoneCountSumAllZones(rs, t);
    ZonesPartitionBalanceRecords(rs, t);
  }

  /** Each zone's entry depends only on which records there are, not on their order. */
  lemma EntryPermutation(a: seq<Record>, b: seq<Record>, z: ZoneId, t: real)
    requires multiset(a) == multiset(b)
    ensures AccumulatorOf(a, z, t) == AccumulatorOf(b, z, t)
  {
    TallyPermutation(a, b, ZoneBalance(z, t));
    TallyPermutation(a, b, ZoneTorque(z, t));
    TallyPermutation(a, b, ZoneSmoothness(z, t));
  }

  lemma {:induction false} EntriesFromPermutation(zs: seq<ZoneId>, a: seq<Record>, b: seq<Record>, t: real)
    requires multiset(a) == multiset(b)
    ensures EntriesFrom(zs, a, t) == EntriesFrom(zs, b, t)
  {
    if zs != [] {
      EntryPermutation(a, b, zs[0], t);
      EntriesFromPermutation(zs[1..], a, b, t);
    }
  }

  /** Rearranging the records leaves the zone list unchanged. */
  lemma CanonicalPermutation(a: seq<Record>, b: seq<Record>, t: real)
    requires multiset(a) == multiset(b)
    ensures CanonicalZoneList(a, t) == CanonicalZoneList(b, t)
  {
    EntriesFromPermutation(AllZones, a, b, t);
  }

  /** The map fold followed by the sort yields the canonical list. `zoneData` is the zone map
      after all records, and `entries` is its list of finalised entries in any order without
      repetition. */
  lemma SortedFoldIsCanonical(rs: seq<Record>, t: real, zoneData: map<ZoneId, ZoneAccumulator>, entries: seq<PowerZoneBalance>)
    requires forall z :: z in zoneData <==> ZoneCount(rs, z, t) > 0
    requires forall z :: z in zoneData ==> zoneData[z] == AccumulatorOf(rs, z, t)
    requires forall e :: e in entries ==>
               e.zone in zoneData && zoneData[e.zone].count > 0 && e == Finalize(e.zone, zoneData[e.zone])
    requires forall z :: z in zoneData && zoneData[z].count > 0 ==> Finalize(z, zoneData[z]) in entries
    requires NoDuplicates(entries)
    ensures SortByZone(entries) == CanonicalZoneList(rs, t)
  {
    var canonical := CanonicalZoneList(rs, t);
    CanonicalZoneListFacts(rs, t);
    assert NoDuplicates(canonical) by {
      forall i, j | 0 <= i < j < |canonical| ensures canonical[i] != canonical[j] {
        assert canonical[i].zone.Index() < canonical[j].zone.Index();
      }
    }
    forall x ensures x in entries <==> x in canonical {
      if x in entries {
        assert x == Entry(rs, x.zone, t);
      }
      if x in canonical {
        assert x.zone in zoneData;
        assert Finalize(x.zone, zoneData[x.zone]) == x;
      }
    }
    SameMembersSameMultiset(entries, canonical);
    var sorted := SortByZone(entries);
    SortPermutes(entries);
    var table := map z | z in zoneData && zoneData[z].count > 0 :: Finalize(z, zoneData[z]);
    forall i | 0 <= i < |sorted| ensures sorted[i].zone in table && sorted[i] == table[sorted[i].zone] {
      assert sorted[i] in multiset(sorted);
      assert sorted[i] in entries;
    }
    SortedUnique(sorted, canonical, table);
  }

  /** What a zone's entry reports: the zone's description and rendered watt range, its sample count,
      the rounded mean balance of its records (always present, adding up to 100 or 101), and the
      rounded means of its records' two-sided torque and smoothness readings (absent when none). */
  lemma EntryContents(rs: seq<Record>, z: ZoneId, t: real)
    requires ZoneCount(rs, z, t) > 0
    ensures Entry(rs, z, t).description == Description(z)
    ensures Entry(rs, z, t).powerRange == RangeLabel(ZoneDefinition(z, t).minPower, ZoneDefinition(z, t).maxPower)
    ensures Entry(rs, z, t).sampleCount == Tally(rs, ZoneBalance(z, t)).count
    ensures Entry(rs, z, t).leftRightBalance == MeanPair(Tally(rs, ZoneBalance(z, t)))
    ensures 100 <= Entry(rs, z, t).leftRightBalance.value.left + Entry(rs, z, t).leftRightBalance.value.right <= 101
    ensures Entry(rs, z, t).torqueEffectiveness == MeanPair(Tally(rs, ZoneTorque(z, t)))
    ensures Entry(rs, z, t).pedalSmoothness == MeanPair(Tally(rs, ZoneSmoothness(z, t)))
  {
    BalanceTotalsSplitHundred(rs, ZoneBalance(z, t));
    MeanBalanceSums(Tally(rs, ZoneBalance(z, t)));
  }
}
