/** Running totals over the records: every average the engine reports is a per-metric sum of
    left and right readings and a count, divided and rounded at the end. */
module Tallies {
  import opened Optional
  import opened Numeric
  import opened Telemetry
  import opened PowerZones

  /** What is being summed: the whole-activity metrics, and the per-zone ones. */
  datatype Metric =
    | Power
    | Balance
    | Torque
    | Smoothness
    | ZoneBalance(zone: ZoneId, thresholdPower: real)
    | ZoneTorque(zone: ZoneId, thresholdPower: real)
    | ZoneSmoothness(zone: ZoneId, thresholdPower: real)

  /** A record takes part in the zone aggregation (power present and positive, balance present)
      and is classified into zone `z`. */
  predicate InZone(r: Record, z: ZoneId, thresholdPower: real) {
    thresholdPower > 0.0 && HasPower(r) && r.balance.Some?
    && GetPowerZone(r.power.value, thresholdPower).zone == z
  }

  /** The reading a record contributes to a metric, or `None` when it does not qualify.
      A power sample carries its power on both sides. */
  function Reading(r: Record, m: Metric): Option<Sides> {
    match m
    case Power => if HasPower(r) then Some(Sides(r.power.value, r.power.value)) else None
    case Balance => if HasPower(r) && r.balance.Some? then Some(Split(r.balance.value)) else None
    case Torque => TorqueSides(r)
    case Smoothness => SmoothnessSides(r)
    case ZoneBalance(z, t) => if InZone(r, z, t) then Some(Split(r.balance.value)) else None
    case ZoneTorque(z, t) => if InZone(r, z, t) then TorqueSides(r) else None
    case ZoneSmoothness(z, t) => if InZone(r, z, t) then SmoothnessSides(r) else None
  }

  /** Left total, right total and number of qualifying readings. */
  datatype Sums = Sums(left: real, right: real, count: nat)

  const NoSums := Sums(0.0, 0.0, 0)

  function Add(s: Sums, x: Option<Sides>): Sums {
    if x.None? then s else Sums(s.left + x.value.left, s.right + x.value.right, s.count + 1)
  }

  /** 1 for a reading that is counted, 0 for none. */
  function Counted(x: Option<Sides>): nat {
    if x.Some? then 1 else 0
  }

  function Combine(a: Sums, b: Sums): Sums {
    Sums(a.left + b.left, a.right + b.right, a.count + b.count)
  }

  /** The sums of a metric over a sequence of records, taken from first to last. */
  function Tally(rs: seq<Record>, m: Metric): (s: Sums)
    ensures s.count <= |rs|
    ensures s.count == 0 ==> s.left == 0.0 && s.right == 0.0
  {
    if rs == [] then NoSums else Add(Tally(rs[..|rs| - 1], m), Reading(rs[|rs| - 1], m))
  }

  /** The rounded per-side mean (`Math.round(total / count)`), or `null` when nothing was counted. */
  function MeanPair(s: Sums): (p: Option<Pair>)
    ensures p.None? <==> s.count == 0
    ensures p.Some? ==> p.value.left as real - 0.5 <= s.left / s.count as real < p.value.left as real + 0.5
    ensures p.Some? ==> p.value.right as real - 0.5 <= s.right / s.count as real < p.value.right as real + 0.5
  {
    if s.count == 0 then None
    else Some(Pair(Round(s.left / s.count as real), Round(s.right / s.count as real)))
  }

  // ---- Properties of tallies ----

  /** One more record: what a loop over the records adds per step. */
  lemma TallyStep(rs: seq<Record>, i: nat, m: Metric)
    requires i < |rs|
    ensures Tally(rs[..i + 1], m) == Add(Tally(rs[..i], m), Reading(rs[i], m))
  {
    assert rs[..i + 1][..i] == rs[..i];
  }

  lemma TallyWhole(rs: seq<Record>, m: Metric)
    ensures Tally(rs[..|rs|], m) == Tally(rs, m)
  {
    assert rs[..|rs|] == rs;
  }

  /** Tallies of two pieces combine to the tally of the whole. */
  lemma {:induction false} TallyAppend(a: seq<Record>, b: seq<Record>, m: Metric)
    ensures Tally(a + b, m) == Combine(Tally(a, m), Tally(b, m))
    decreases |b|
  {
    if b == [] {
      assert a + b == a;
    } else {
      var b', x := b[..|b| - 1], b[|b| - 1];
      var ab := a + b;
      assert ab[..|ab| - 1] == a + b';
      assert ab[|ab| - 1] == x;
      TallyAppend(a, b', m);
      calc {
        Tally(ab, m);
        Add(Tally(a + b', m), Reading(x, m));
        Add(Combine(Tally(a, m), Tally(b', m)), Reading(x, m));
        { AddAfterCombine(Tally(a, m), Tally(b', m), Reading(x, m)); }
        Combine(Tally(a, m), Add(Tally(b', m), Reading(x, m)));
        Combine(Tally(a, m), Tally(b, m));
      }
    }
  }

  lemma AddAfterCombine(s: Sums, t: Sums, x: Option<Sides>)
    ensures Add(Combine(s, t), x) == Combine(s, Add(t, x))
  {
  }

  /** The order of the records does not matter: any rearrangement gives the same sums. */
  lemma {:induction false} TallyPermutation(a: seq<Record>, b: seq<Record>, m: Metric)
    requires multiset(a) == multiset(b)
    ensures Tally(a, m) == Tally(b, m)
    decreases |a|
  {
    if a == [] {
      assert |b| == |multiset(b)| == 0;
    } else {
      var x := a[|a| - 1];
      assert x in multiset(b) by { assert x in multiset(a); }
      var i :| 0 <= i < |b| && b[i] == x;
      var front, back := b[..i], b[i + 1..];
      RemoveMatching(a, b, i);
      TallyPermutation(a[..|a| - 1], front + back, m);
      TallyAroundOne(front, x, back, m);
      assert front + [x] + back == b;
    }
  }

  /** Taking the last element of `a` and a matching element of `b` out of two
      rearrangements of each other leaves two rearrangements of each other. */
  lemma RemoveMatching<T>(a: seq<T>, b: seq<T>, i: nat)
    requires multiset(a) == multiset(b) && |a| > 0 && i < |b| && b[i] == a[|a| - 1]
    ensures multiset(a[..|a| - 1]) == multiset(b[..i] + b[i + 1..])
  {
    var x := b[i];
    var front, back := b[..i], b[i + 1..];
    assert a == a[..|a| - 1] + [x];
    assert multiset(a) == multiset(a[..|a| - 1]) + multiset{x};
    assert b == front + [x] + back;
    assert multiset(b) == multiset(front) + multiset{x} + multiset(back);
    assert multiset(front + back) == multiset(front) + multiset(back);
    assert multiset(a[..|a| - 1]) == multiset(a) - multiset{x};
    assert multiset(front) + multiset(back) == multiset(b) - multiset{x};
  }

  /** A record inside a sequence adds its reading to the sums of the rest. */
  lemma TallyAroundOne(front: seq<Record>, x: Record, back: seq<Record>, m: Metric)
    ensures Tally(front + [x] + back, m) == Add(Tally(front + back, m), Reading(x, m))
  {
    TallyAppend(front, back, m);
    TallyAppend(front + [x], back, m);
    TallyAppend(front, [x], m);
    assert [x][..0] == [];
  }

  /** Every balance reading splits 100 %, so the left and right totals add up to 100 per reading. */
  lemma {:induction false} BalanceTotalsSplitHundred(rs: seq<Record>, m: Metric)
    requires m.Balance? || m.ZoneBalance?
    ensures Tally(rs, m).left + Tally(rs, m).right == 100.0 * Tally(rs, m).count as real
  {
    if rs != [] {
      BalanceTotalsSplitHundred(rs[..|rs| - 1], m);
    }
  }

  /** Every record with a balance reading in the power-analysis sense also has a power reading. */
  lemma {:induction false} BalanceNeedsPower(rs: seq<Record>)
    ensures Tally(rs, Balance).count <= Tally(rs, Power).count
  {
    if rs != [] {
      BalanceNeedsPower(rs[..|rs| - 1]);
    }
  }

  /** The count of a zone never exceeds the count of all balance-carrying power records,
      and a zone's torque and smoothness counts never exceed its balance count. */
  lemma {:induction false} ZoneCountsBounded(rs: seq<Record>, z: ZoneId, t: real)
    ensures Tally(rs, ZoneBalance(z, t)).count <= Tally(rs, Balance).count
    ensures Tally(rs, ZoneTorque(z, t)).count <= Tally(rs, ZoneBalance(z, t)).count
    ensures Tally(rs, ZoneSmoothness(z, t)).count <= Tally(rs, ZoneBalance(z, t)).count
  {
    if rs != [] {
      ZoneCountsBounded(rs[..|rs| - 1], z, t);
      var r := rs[|rs| - 1];
      assert Counted(Reading(r, ZoneBalance(z, t))) <= Counted(Reading(r, Balance));
      assert Counted(Reading(r, ZoneTorque(z, t))) <= Counted(Reading(r, ZoneBalance(z, t)));
      assert Counted(Reading(r, ZoneSmoothness(z, t))) <= Counted(Reading(r, ZoneBalance(z, t)));
    }
  }

  /** The six zone counts add up to the number of records with positive power and a balance:
      each such record lands in exactly one zone. */
  lemma {:induction false} ZonesPartitionBalanceRecords(rs: seq<Record>, t: real)
    requires t > 0.0
    ensures Tally(rs, ZoneBalance(Z1, t)).count + Tally(rs, ZoneBalance(Z2, t)).count
          + Tally(rs, ZoneBalance(Z3, t)).count + Tally(rs, ZoneBalance(Z4, t)).count
          + Tally(rs, ZoneBalance(Z5, t)).count + Tally(rs, ZoneBalance(Z6, t)).count
         == Tally(rs, Balance).count
  {
    if rs != [] {
      var r := rs[|rs| - 1];
      ZonesPartitionBalanceRecords(rs[..|rs| - 1], t);
      ExactlyOneZone(r, t);
    }
  }

  /** A record with positive power and a balance reading lies in exactly one zone; any other
      record lies in none. */
  lemma ExactlyOneZone(r: Record, t: real)
    requires t > 0.0
    ensures Counted(Reading(r, ZoneBalance(Z1, t))) + Counted(Reading(r, ZoneBalance(Z2, t)))
          + Counted(Reading(r, ZoneBalance(Z3, t))) + Counted(Reading(r, ZoneBalance(Z4, t)))
          + Counted(Reading(r, ZoneBalance(Z5, t))) + Counted(Reading(r, ZoneBalance(Z6, t)))
         == Counted(Reading(r, Balance))
  {
    if HasPower(r) && r.balance.Some? {
      var z := GetPowerZone(r.power.value, t).zone;
      assert InZone(r, z, t);
    }
  }

  /** A record missing one side of torque effectiveness (absent or not positive) changes
      neither the whole-activity nor any zone's torque sums; the same holds for smoothness. */
  lemma OneSidedReadingsIgnored(rs: seq<Record>, r: Record, z: ZoneId, t: real)
    ensures !HasTorque(r) ==>
              Tally(rs + [r], Torque) == Tally(rs, Torque) &&
              Tally(rs + [r], ZoneTorque(z, t)) == Tally(rs, ZoneTorque(z, t))
    ensures !HasSmoothness(r) ==>
              Tally(rs + [r], Smoothness) == Tally(rs, Smoothness) &&
              Tally(rs + [r], ZoneSmoothness(z, t)) == Tally(rs, ZoneSmoothness(z, t))
  {
    assert (rs + [r])[..|rs|] == rs;
  }

  /** A metric counts nothing exactly when no record qualifies for it. */
  lemma {:induction false} TallyCountZero(rs: seq<Record>, m: Metric)
    ensures Tally(rs, m).count == 0 <==> forall i :: 0 <= i < |rs| ==> Reading(rs[i], m).None?
  {
    if rs != [] {
      var front := rs[..|rs| - 1];
      TallyCountZero(front, m);
      assert forall i :: 0 <= i < |front| ==> front[i] == rs[i];
    }
  }

  /** The rounded mean of balance totals that split 100 % per reading adds up to 100,
      or to 101 when both sides are exact halves. */
  lemma MeanBalanceSums(s: Sums)
    requires s.count > 0 && s.left + s.right == 100.0 * s.count as real
    ensures 100 <= MeanPair(s).value.left + MeanPair(s).value.right <= 101
  {
    var n := s.count as real;
    assert s.left / n + s.right / n == (s.left + s.right) / n;
    RoundShares(s.left / n, s.right / n, 100);
  }

  /** Two record sequences whose records give the same readings for a metric have the same sums:
      a metric depends on nothing but its own fields. */
  lemma {:induction false} TallySameReadings(a: seq<Record>, b: seq<Record>, m: Metric)
    requires |a| == |b| && forall i :: 0 <= i < |a| ==> Reading(a[i], m) == Reading(b[i], m)
    ensures Tally(a, m) == Tally(b, m)
  {
    if a != [] {
      var n := |a| - 1;
      assert forall i :: 0 <= i < n ==> a[..n][i] == a[i] && b[..n][i] == b[i];
      TallySameReadings(a[..n], b[..n], m);
    }
  }
}
